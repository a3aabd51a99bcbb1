/**
 * The browser side of the contact form: the submit listener that
 * `initContactForm` installs.
 *
 * The listener is an async function that awaits twice, first `fetch` and
 * then `response.json()`, and changes nothing in between, so the two awaits
 * are treated as one. It is modelled as two steps on the form object. `Submit` runs up to the request, and `Settle` runs from its
 * outcome to the end of the `finally` block. Each invocation keeps the
 * button text it captured at its start until it settles. `SubmitAndSettle`
 * is one invocation run to completion with nothing in between. The network
 * and `alert` are not called: the request is returned and the alerts are
 * recorded. `Reset` stands for `form.reset()`.
 */
module ContactClient {
  import opened Wrappers
  import opened JsValues
  import ContactServer

  /** The four input values read from the page. */
  datatype FormData = FormData(name: string, email: string, subject: string, message: string)

  /** The `POST` the listener issues: its target and its JSON payload. */
  datatype Post = Post(url: string, payload: FormData)

  /**
   * How the `try` block ended after the request.
   *
   * `Answered`: `fetch` resolved and `response.json()` parsed to an object.
   * It gives `response.ok` and that object's `error` property. `Given` holds
   * the string an `error` value is alerted as: a string itself, or the
   * string conversion of a truthy non-string whose conversion is non-empty.
   * A falsy non-string `error` (`0`, `false`, `null`) behaves as `Absent`. A
   * truthy `error` whose conversion is empty (`[]`, say) has no outcome here:
   * the browser alerts it as an empty message, while `Given("")` is falsy.
   *
   * `Thrown`: something in the `try` threw before an alert. That covers
   * `fetch` rejecting and `response.json()` failing to parse. It also covers
   * reading `data.error` when the body parsed to `null`, which throws a
   * TypeError on a non-ok response.
   */
  datatype FetchOutcome = Answered(ok: bool, error: Field) | Thrown

  const FillAllAlert := "Please fill in all required fields."
  const SuccessAlert := "Message sent successfully!"
  const FailedAlert := "Failed to send message. Please try again."
  const NetworkAlert := "Network error. Please check your connection and try again."
  const SendingText := "Sending..."
  const LocalBackend := "http://localhost:3000"
  const ContactPath := "/api/contact"

  /** `!(!name || !email || !message)` on the input values, which are always strings. */
  predicate ClientAccepts(f: FormData)
    ensures ClientAccepts(f) <==> "" !in {f.name, f.email, f.message}
  {
    f.name != "" && f.email != "" && f.message != ""
  }

  /**
   * The request target: same origin (an empty base) on every host but
   * `localhost`, where the backend is addressed on port 3000.
   */
  function ApiUrl(hostname: string): (url: string)
    ensures hostname != "localhost" ==> url == ContactPath
    ensures hostname == "localhost" ==> url == LocalBackend + ContactPath
  {
    var base := if hostname != "localhost" then "" else LocalBackend;
    base + ContactPath
  }

  /** The alert the listener shows once the request has settled. */
  function AlertFor(outcome: FetchOutcome): (text: string)
    ensures text != ""
  {
    match outcome
    case Answered(ok, error) => if ok then SuccessAlert else Or(error, FailedAlert)
    case Thrown => NetworkAlert
  }

  /** Whether the settled request clears the form: only on an ok response. */
  predicate ResetsForm(outcome: FetchOutcome) {
    outcome.Answered? && outcome.ok
  }

  /**
   * The alert after each outcome: the confirmation on an ok response; the
   * body's `error` when truthy, else a fixed message, on any other response;
   * the network message when the request or the parsing threw.
   */
  lemma AlertByOutcome(ok: bool, error: Field)
    ensures ok ==> AlertFor(Answered(ok, error)) == SuccessAlert
    ensures !ok && Truthy(error) ==> AlertFor(Answered(ok, error)) == error.value
    ensures !ok && !Truthy(error) ==> AlertFor(Answered(ok, error)) == FailedAlert
    ensures AlertFor(Thrown) == NetworkAlert
  {
  }

  /** The parsed JSON body the server receives for a payload: every property is a string. */
  function Payload(f: FormData): (r: ContactServer.ContactRequest)
    ensures r.name.Given? && r.email.Given? && r.subject.Given? && r.message.Given?
    ensures FormData(r.name.value, r.email.value, r.subject.value, r.message.value) == f
  {
    ContactServer.ContactRequest(Given(f.name), Given(f.email), Given(f.subject), Given(f.message))
  }

  /** The client and the server apply the same required-field test to a form payload. */
  lemma ClientAgreesWithServer(f: FormData)
    ensures ClientAccepts(f) <==> ContactServer.HasRequiredFields(Payload(f))
  {
  }

  /** A payload the client lets through is never rejected by the server's validation: the mail is attempted. */
  lemma AcceptedPayloadReachesTransport(f: FormData, timestamp: string, recipient: string, delivery: ContactServer.Delivery)
    requires ClientAccepts(f)
    ensures var r := ContactServer.Handle(Payload(f), timestamp, recipient, delivery);
      r.response.status != 400 && r.sendMail.Some?
  {
  }

  /** What the browser sees of a server response: `ok` for a 2xx status, and the body's `error`. */
  function Observe(response: ContactServer.Response): (seen: FetchOutcome)
    ensures seen.Answered?
    ensures seen.ok <==> 200 <= response.status <= 299
    ensures Truthy(seen.error) <==> response.body.ErrorJson? && response.body.error != ""
    ensures response.body.ErrorJson? ==> seen.error == Given(response.body.error)
    ensures response.body.MessageJson? ==> seen.error == Absent
  {
    var error := match response.body
      case ErrorJson(e) => Given(e)
      case MessageJson(_) => Absent;
    Answered(200 <= response.status < 300, error)
  }

  /**
   * What the user is shown for any answer from the server: the confirmation
   * for a 2xx status; otherwise the body's own error text when it is a
   * non-empty error, and the generic failure message for anything else.
   */
  lemma AlertForResponse(response: ContactServer.Response)
    ensures 200 <= response.status <= 299 ==> AlertFor(Observe(response)) == SuccessAlert
    ensures !(200 <= response.status <= 299) && response.body.ErrorJson? && response.body.error != "" ==>
      AlertFor(Observe(response)) == response.body.error
    ensures !(200 <= response.status <= 299) && !(response.body.ErrorJson? && response.body.error != "") ==>
      AlertFor(Observe(response)) == FailedAlert
  {
  }

  /**
   * Against this server, the form is cleared and the confirmation shown
   * exactly when the mail was delivered; otherwise the user is shown the
   * server's own error message.
   */
  lemma EndToEnd(f: FormData, timestamp: string, recipient: string, delivery: ContactServer.Delivery)
    requires ClientAccepts(f)
    ensures var seen := Observe(ContactServer.Handle(Payload(f), timestamp, recipient, delivery).response);
      && (ResetsForm(seen) <==> delivery.Delivered?)
      && (AlertFor(seen) == SuccessAlert <==> delivery.Delivered?)
      && (delivery.DeliveryFailed? ==> AlertFor(seen) == ContactServer.SendFailedError)
  {
  }

  /** The contact form, its submit button and the alerts shown to the user. */
  class ContactForm {
    var name: string
    var email: string
    var subject: string
    var message: string
    /** The submit button's `innerHTML` and `disabled`. */
    var buttonText: string
    var buttonDisabled: bool
    /** Every alert shown so far, oldest first. */
    var alerts: seq<string>
    /** The button text captured by each invocation whose request has not settled yet, oldest first. */
    var awaiting: seq<string>
    /** The values `form.reset()` restores. */
    const defaults: FormData

    /** The button is disabled only while a request is outstanding, and then it reads "Sending...". */
    ghost predicate Valid()
      reads this
    {
      buttonDisabled ==> buttonText == SendingText && |awaiting| > 0
    }

    function Fields(): FormData
      reads this
    {
      FormData(name, email, subject, message)
    }

    constructor (initialText: string, defaults: FormData)
      ensures Valid()
      ensures this.defaults == defaults && Fields() == defaults
      ensures buttonText == initialText && !buttonDisabled && alerts == [] && awaiting == []
    {
      this.defaults := defaults;
      name, email, subject, message := defaults.name, defaults.email, defaults.subject, defaults.message;
      buttonText, buttonDisabled := initialText, false;
      alerts, awaiting := [], [];
    }

    /**
     * The listener up to the request. With a required field empty, it only
     * alerts. Otherwise it marks the button busy and returns the request.
     */
    method Submit(hostname: string) returns (post: Option<Post>)
      requires Valid()
      modifies this
      ensures Valid()
      ensures Fields() == old(Fields())
      ensures post.Some? <==> ClientAccepts(old(Fields()))
      ensures !ClientAccepts(old(Fields())) ==>
        && alerts == old(alerts) + [FillAllAlert]
        && buttonText == old(buttonText) && buttonDisabled == old(buttonDisabled) && awaiting == old(awaiting)
      ensures ClientAccepts(old(Fields())) ==>
        && post.value == Post(ApiUrl(hostname), old(Fields()))
        && buttonText == SendingText && buttonDisabled
        && alerts == old(alerts) && awaiting == old(awaiting) + [old(buttonText)]
    {
      var originalText := buttonText;
      var formData := Fields();
      if !ClientAccepts(formData) {
        alerts := alerts + [FillAllAlert];
        return None;
      }
      buttonText := SendingText;
      buttonDisabled := true;
      awaiting := awaiting + [originalText];
      post := Some(Post(ApiUrl(hostname), formData));
    }

    /** `form.reset()`: every input goes back to its default value. */
    method Reset()
      modifies this
      ensures Fields() == defaults
      ensures buttonText == old(buttonText) && buttonDisabled == old(buttonDisabled)
      ensures alerts == old(alerts) && awaiting == old(awaiting)
    {
      name, email, subject, message := defaults.name, defaults.email, defaults.subject, defaults.message;
    }

    /**
     * The listener from the outcome of request `k` to its end: the alert,
     * the reset on success, and in `finally` the button restored to the
     * text that invocation captured, enabled.
     */
    method Settle(k: nat, outcome: FetchOutcome)
      requires Valid() && k < |awaiting|
      modifies this
      ensures Valid()
      ensures buttonText == old(awaiting[k]) && !buttonDisabled
      ensures awaiting == old(awaiting[..k] + awaiting[k + 1..])
      ensures alerts == old(alerts) + [AlertFor(outcome)]
      ensures Fields() == if ResetsForm(outcome) then defaults else old(Fields())
    {
      var originalText := awaiting[k];
      match outcome {
        case Answered(ok, error) =>
          if ok {
            alerts := alerts + [SuccessAlert];
            Reset();
          } else {
            alerts := alerts + [Or(error, FailedAlert)];
          }
        case Thrown =>
          alerts := alerts + [NetworkAlert];
      }
      buttonText := originalText;
      buttonDisabled := false;
      awaiting := awaiting[..k] + awaiting[k + 1..];
    }

    /**
     * One invocation of the listener run to completion. When the form is
     * accepted, the button afterwards has its earlier text and is enabled,
     * and only an ok response has cleared the form. A rejected form leaves
     * the button untouched.
     */
    method SubmitAndSettle(hostname: string, outcome: FetchOutcome) returns (post: Option<Post>)
      requires Valid()
      modifies this
      ensures Valid()
      ensures awaiting == old(awaiting)
      ensures post.Some? <==> ClientAccepts(old(Fields()))
      ensures !ClientAccepts(old(Fields())) ==>
        && alerts == old(alerts) + [FillAllAlert] && Fields() == old(Fields())
        && buttonText == old(buttonText) && buttonDisabled == old(buttonDisabled)
      ensures ClientAccepts(old(Fields())) ==>
        && post.value == Post(ApiUrl(hostname), old(Fields()))
        && alerts == old(alerts) + [AlertFor(outcome)]
        && Fields() == (if ResetsForm(outcome) then defaults else old(Fields()))
        && buttonText == old(buttonText) && !buttonDisabled
    {
      post := Submit(hostname);
      if post.Some? {
        Settle(|awaiting| - 1, outcome);
      }
    }
  }
}

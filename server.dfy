/**
 * The backend's two routes: `POST /api/contact`, which validates a contact
 * submission, composes an email from it and hands it to the mail transport,
 * and `GET /api/health`.
 *
 * The handler is a total function of the request body, the formatted
 * timestamp, the configured recipient (the `EMAIL_USER` setting) and what
 * `sendMail` did. Its result records the HTTP response and the mail options
 * passed to `sendMail`, or `None` when `sendMail` was never called.
 */
module ContactServer {
  import opened Wrappers
  import opened JsValues

  /** The parsed JSON body of a contact submission. */
  datatype ContactRequest = ContactRequest(name: Field, email: Field, subject: Field, message: Field)

  /** The JSON body of a response: `{message: ...}` or `{error: ...}`. */
  datatype Json = MessageJson(message: string) | ErrorJson(error: string)

  datatype Response = Response(status: int, body: Json)

  /** What is handed to the mail transport. */
  datatype MailOptions = MailOptions(from: string, to: string, subject: string, html: string)

  /** How `await transporter.sendMail(...)` ended: resolved, or threw with some provider error. */
  datatype Delivery = Delivered | DeliveryFailed(providerError: string)

  /** The response sent, and the mail options `sendMail` was called with (`None`: never called). */
  datatype Outcome = Outcome(response: Response, sendMail: Option<MailOptions>)

  const RequiredFieldsError := "Name, email, and message are required fields"
  const SentMessage := "Message sent successfully!"
  const SendFailedError := "An error occurred while sending the message. Please try again later."
  const HealthMessage := "Server is running!"
  const SubjectPrefix := "Portfolio Contact - "
  const NotSpecified := "Not specified"

  /** `!(!name || !email || !message)`: the three required fields are present and non-empty. */
  predicate HasRequiredFields(req: ContactRequest)
    ensures !HasRequiredFields(req) <==> exists f :: f in {req.name, req.email, req.message} && f in FalsyValues
  {
    Truthy(req.name) && Truthy(req.email) && Truthy(req.message)
  }

  /**
   * The email subject: the prefix, the submitted subject (or "Message from"
   * and the name when the subject is missing or empty), then the timestamp
   * in brackets.
   */
  function ComposeSubject(name: string, subject: Field, timestamp: string): (r: string)
    ensures Truthy(subject) ==> r == SubjectPrefix + subject.value + " [" + timestamp + "]"
    ensures !Truthy(subject) ==> r == SubjectPrefix + "Message from " + name + " [" + timestamp + "]"
  {
    SubjectPrefix + Or(subject, "Message from " + name) + " [" + timestamp + "]"
  }

  /**
   * `s.replace(/\n/g, '<br>')`: every line feed becomes `<br>`, every other
   * character is kept. The result holds no line feed.
   */
  function ReplaceNewlines(s: string): (r: string)
    ensures '\n' !in r
  {
    if s == [] then []
    else
      (if s[0] == '\n' then "<br>" else [s[0]]) + ReplaceNewlines(s[1..])
  }

  /** The rendering is three characters longer than the message per line feed in it. */
  lemma {:induction false} ReplaceNewlinesLength(s: string)
    ensures |ReplaceNewlines(s)| == |s| + 3 * multiset(s)['\n']
  {
    if s != [] {
      assert s == [s[0]] + s[1..];
      ReplaceNewlinesLength(s[1..]);
    }
  }

  /** A message without line feeds is rendered unchanged. */
  lemma {:induction false} ReplaceNewlinesKeepsPlainText(s: string)
    requires '\n' !in s
    ensures ReplaceNewlines(s) == s
  {
    if s != [] {
      ReplaceNewlinesKeepsPlainText(s[1..]);
    }
  }

  /** The replacement works character by character, so it distributes over concatenation. */
  lemma {:induction false} ReplaceNewlinesAppend(a: string, b: string)
    ensures ReplaceNewlines(a + b) == ReplaceNewlines(a) + ReplaceNewlines(b)
  {
    if a == [] {
      assert a + b == b;
    } else {
      var head := if a[0] == '\n' then "<br>" else [a[0]];
      assert (a + b)[0] == a[0] && (a + b)[1..] == a[1..] + b;
      ReplaceNewlinesAppend(a[1..], b);
      calc {
        ReplaceNewlines(a + b);
        head + ReplaceNewlines(a[1..] + b);
        head + (ReplaceNewlines(a[1..]) + ReplaceNewlines(b));
        (head + ReplaceNewlines(a[1..])) + ReplaceNewlines(b);
        ReplaceNewlines(a) + ReplaceNewlines(b);
      }
    }
  }

  /**
   * Characters keep their order: the character at index `i` of the message
   * lands at index `i` plus three per earlier line feed, as itself or, for a
   * line feed, as the four characters `<br>`.
   */
  lemma ReplaceNewlinesAt(s: string, i: nat)
    requires i < |s|
    ensures var j := i + 3 * multiset(s[..i])['\n'];
      if s[i] == '\n' then
        j + 4 <= |ReplaceNewlines(s)| && ReplaceNewlines(s)[j..j + 4] == "<br>"
      else
        j < |ReplaceNewlines(s)| && ReplaceNewlines(s)[j] == s[i]
  {
    var head := if s[i] == '\n' then "<br>" else [s[i]];
    ReplaceNewlinesSplit(s, i);
    ReplaceNewlinesLength(s[..i]);
    SliceOfConcat(ReplaceNewlines(s[..i]), head, ReplaceNewlines(s[i + 1..]));
  }

  /** The rendering of `s` is that of the part before index `i`, of `s[i]`, and of the rest. */
  lemma ReplaceNewlinesSplit(s: string, i: nat)
    requires i < |s|
    ensures ReplaceNewlines(s)
         == ReplaceNewlines(s[..i]) + (if s[i] == '\n' then "<br>" else [s[i]]) + ReplaceNewlines(s[i + 1..])
  {
    var head := if s[i] == '\n' then "<br>" else [s[i]];
    var rest := s[i..];
    assert rest[0] == s[i] && rest[1..] == s[i + 1..];
    assert ReplaceNewlines(rest) == head + ReplaceNewlines(s[i + 1..]);
    assert s == s[..i] + rest;
    ReplaceNewlinesAppend(s[..i], rest);
  }

  lemma SliceOfConcat(before: string, middle: string, after: string)
    ensures (before + middle + after)[|before|..|before| + |middle|] == middle
  {
  }

  /** `text` holds `part` as a contiguous piece. */
  predicate Contains(text: string, part: string)
    decreases |text|
  {
    part <= text || (text != [] && Contains(text[1..], part))
  }

  lemma {:induction false} ContainsMiddle(before: string, part: string, after: string)
    ensures Contains(before + part + after, part)
  {
    if before != [] {
      assert (before + part + after)[1..] == before[1..] + part + after;
      ContainsMiddle(before[1..], part, after);
    }
  }

  lemma {:induction false} ContainsSuffix(before: string, text: string, part: string)
    requires Contains(text, part)
    ensures Contains(before + text, part)
  {
    if before == [] {
      assert before + text == text;
    } else {
      assert (before + text)[1..] == before[1..] + text;
      ContainsSuffix(before[1..], text, part);
    }
  }

  /** The pieces of a document written one after the other. */
  function Concat(pieces: seq<string>): string {
    if pieces == [] then "" else pieces[0] + Concat(pieces[1..])
  }

  /** Every piece is found, whole, in the concatenation. */
  lemma {:induction false} ConcatContainsPiece(pieces: seq<string>, k: nat)
    requires k < |pieces|
    ensures Contains(Concat(pieces), pieces[k])
  {
    if k == 0 {
      ContainsMiddle([], pieces[0], Concat(pieces[1..]));
      assert [] + pieces[0] + Concat(pieces[1..]) == Concat(pieces);
    } else {
      ConcatContainsPiece(pieces[1..], k - 1);
      ContainsSuffix(pieces[0], Concat(pieces[1..]), pieces[k]);
    }
  }

  /** Two neighbouring pieces are found, joined, in the concatenation. */
  lemma {:induction false} ConcatContainsPair(pieces: seq<string>, k: nat)
    requires k + 1 < |pieces|
    ensures Contains(Concat(pieces), pieces[k] + pieces[k + 1])
  {
    if k == 0 {
      var rest := Concat(pieces[2..]);
      assert pieces[1..][0] == pieces[1] && pieces[1..][1..] == pieces[2..];
      assert Concat(pieces) == pieces[0] + (pieces[1] + rest);
      assert Concat(pieces) == [] + (pieces[0] + pieces[1]) + rest;
      ContainsMiddle([], pieces[0] + pieces[1], rest);
    } else {
      ConcatContainsPair(pieces[1..], k - 1);
      ContainsSuffix(pieces[0], Concat(pieces[1..]), pieces[k] + pieces[k + 1]);
    }
  }

  // The fixed text of the HTML email template, between its substitutions.
  // The source file has CRLF line endings; a JavaScript template literal
  // normalises them to a line feed, as written here.

  const Open :=
    "\n"
    + "      <div style=\"font-family: Arial, sans-serif; max-width: 600px; margin: 0 auto;\">\n"
    + "        <h2 style=\"color: #333; border-bottom: 2px solid #4CAF50; padding-bottom: 10px;\">\n"
    + "          New Portfolio Contact Form Submission\n"
    + "        </h2>\n"
    + "        \n"
    + "        <div style=\"background-color: #f9f9f9; padding: 15px; border-radius: 5px; margin-bottom: 20px;\">\n"
    + "          "

  const AfterReceived :=
    "\n"
    + "        </div>\n"
    + "        \n"
    + "        <table style=\"width: 100%; border-collapse: collapse;\">\n"
    + "          <tr>\n"
    + "            "

  /** The label cell of the Name row, up to its value cell. */
  const NameLabel :=
    "<td style=\"padding: 8px; background-color: #f2f2f2; width: 120px;\"><strong>Name:</strong></td>\n"
    + "            "

  const AfterName :=
    "\n"
    + "          </tr>\n"
    + "          <tr>\n"
    + "            "

  /** The label cell of the Email row, up to its value cell. */
  const EmailLabel :=
    "<td style=\"padding: 8px; background-color: #f2f2f2;\"><strong>Email:</strong></td>\n"
    + "            "

  const AfterEmail :=
    "\n"
    + "          </tr>\n"
    + "          <tr>\n"
    + "            "

  /** The label cell of the Subject row, up to its value cell. */
  const SubjectLabel :=
    "<td style=\"padding: 8px; background-color: #f2f2f2;\"><strong>Subject:</strong></td>\n"
    + "            "

  const AfterSubject :=
    "\n"
    + "          </tr>\n"
    + "        </table>\n"
    + "        \n"
    + "        <div style=\"margin-top: 20px;\">\n"
    + "          "

  /** The "Message:" heading and the opening of the box that holds the message. */
  const MessageLabel :=
    "<p><strong>Message:</strong></p>\n"
    + "          <div style=\"background-color: #f9f9f9; padding: 15px; border-left: 4px solid #4CAF50; border-radius: 3px;\">\n"
    + "            "

  const AfterMessage :=
    "\n"
    + "          </div>\n"
    + "        </div>\n"
    + "        \n"
    + "        <div style=\"margin-top: 30px; padding-top: 15px; border-top: 1px dashed #ccc; color: #777; font-size: 12px;\">\n"
    + "          <p>Sent from your portfolio contact form</p>\n"
    + "          "

  const Close :=
    "\n"
    + "        </div>\n"
    + "      </div>\n"
    + "    "

  /** The "Received" line of the email, carrying the timestamp. */
  function ReceivedLine(timestamp: string): string {
    "<p><strong style=\"color: #555;\">Received:</strong> " + timestamp + "</p>"
  }

  /** A value cell of the details table; the value is embedded as is, without escaping. */
  function Cell(value: string): string {
    "<td style=\"padding: 8px;\">" + value + "</td>"
  }

  /** The submitter's address as a `mailto:` link whose text is the address itself. */
  function MailtoLink(email: string): string {
    "<a href=\"mailto:" + email + "\">" + email + "</a>"
  }

  /** The footer's "Time" line, carrying the timestamp. */
  function TimeLine(timestamp: string): string {
    "<p>Time: " + timestamp + "</p>"
  }

  /**
   * The HTML body of the email. It shows the timestamp in the "Received" line
   * and in the footer. Each table value sits right after its own label:
   * the name verbatim, the address as a `mailto:` link whose text is the
   * address, and the subject or "Not specified". The message, with its line
   * feeds as `<br>`, sits right after the "Message:" heading. Nothing is
   * escaped.
   */
  function RenderHtml(name: string, email: string, subject: Field, message: string, timestamp: string): (html: string)
    ensures Contains(html, ReceivedLine(timestamp))
    ensures Contains(html, NameLabel + Cell(name))
    ensures Contains(html, EmailLabel + Cell(MailtoLink(email)))
    ensures Truthy(subject) ==> Contains(html, SubjectLabel + Cell(subject.value))
    ensures !Truthy(subject) ==> Contains(html, SubjectLabel + Cell(NotSpecified))
    ensures Contains(html, MessageLabel + ReplaceNewlines(message))
    ensures Contains(html, TimeLine(timestamp))
  {
    var pieces := [Open, ReceivedLine(timestamp),
                   AfterReceived, NameLabel, Cell(name),
                   AfterName, EmailLabel, Cell(MailtoLink(email)),
                   AfterEmail, SubjectLabel, Cell(Or(subject, NotSpecified)),
                   AfterSubject, MessageLabel, ReplaceNewlines(message),
                   AfterMessage, TimeLine(timestamp),
                   Close];
    ConcatContainsPiece(pieces, 1);
    ConcatContainsPair(pieces, 3);
    ConcatContainsPair(pieces, 6);
    ConcatContainsPair(pieces, 9);
    ConcatContainsPair(pieces, 12);
    ConcatContainsPiece(pieces, 15);
    Concat(pieces)
  }

  /** The `POST /api/contact` handler. */
  function Handle(req: ContactRequest, timestamp: string, recipient: string, delivery: Delivery): (r: Outcome)
    ensures r.sendMail.Some? <==> HasRequiredFields(req)
    ensures r.response.status == 400 <==> !HasRequiredFields(req)
    ensures r.response.status == 200 <==> HasRequiredFields(req) && delivery.Delivered?
    ensures r.response.status == 500 <==> HasRequiredFields(req) && delivery.DeliveryFailed?
  {
    if !HasRequiredFields(req) then
      Outcome(Response(400, ErrorJson(RequiredFieldsError)), None)
    else
      var name, email, message := req.name.value, req.email.value, req.message.value;
      var mail := MailOptions(
        from := email,
        to := recipient,
        subject := ComposeSubject(name, req.subject, timestamp),
        html := RenderHtml(name, email, req.subject, message, timestamp));
      var response :=
        match delivery
        case Delivered => Response(200, MessageJson(SentMessage))
        case DeliveryFailed(_) => Response(500, ErrorJson(SendFailedError));
      Outcome(response, Some(mail))
  }

  /**
   * A submission missing a name, an email or a message is answered 400 with
   * the fixed error, whatever the timestamp or the transport, and the
   * transport is never called.
   */
  lemma MissingFieldIsRejected(req: ContactRequest, timestamp: string, recipient: string, delivery: Delivery)
    requires !Truthy(req.name) || !Truthy(req.email) || !Truthy(req.message)
    ensures Handle(req, timestamp, recipient, delivery) == Outcome(Response(400, ErrorJson(RequiredFieldsError)), None)
  {
  }

  /** No format check: any non-empty string is accepted as the email address. */
  lemma AnyNonEmptyEmailIsAccepted(name: string, email: string, subject: Field, message: string,
                                   timestamp: string, recipient: string, delivery: Delivery)
    requires name != "" && email != "" && message != ""
    ensures var r := Handle(ContactRequest(Given(name), Given(email), subject, Given(message)), timestamp, recipient, delivery);
      r.sendMail.Some? && r.sendMail.value.from == email && r.response.status != 400
  {
  }

  /**
   * The mail handed to the transport: from the submitter, to the configured
   * recipient, under the composed subject; one timestamp appears in the
   * subject and in both timestamp lines of the body.
   */
  lemma MailOptionsOfValidRequest(req: ContactRequest, timestamp: string, recipient: string, delivery: Delivery)
    requires HasRequiredFields(req)
    ensures var m := Handle(req, timestamp, recipient, delivery).sendMail.value;
      && m.from == req.email.value
      && m.to == recipient
      && m.subject == ComposeSubject(req.name.value, req.subject, timestamp)
      && m.html == RenderHtml(req.name.value, req.email.value, req.subject, req.message.value, timestamp)
      && Contains(m.subject, " [" + timestamp + "]")
      && Contains(m.html, ReceivedLine(timestamp))
      && Contains(m.html, TimeLine(timestamp))
  {
    var subject := ComposeSubject(req.name.value, req.subject, timestamp);
    ContainsMiddle(SubjectPrefix + Or(req.subject, "Message from " + req.name.value), " [" + timestamp + "]", "");
    assert subject == SubjectPrefix + Or(req.subject, "Message from " + req.name.value) + (" [" + timestamp + "]") + "";
  }

  /**
   * A valid submission is answered 200 with the confirmation when the mail
   * was delivered, and 500 with the fixed error when it was not; the response
   * is the same whatever error the provider reported.
   */
  lemma DeliveryDecidesResponse(req: ContactRequest, timestamp: string, recipient: string, providerError: string)
    requires HasRequiredFields(req)
    ensures Handle(req, timestamp, recipient, Delivered).response == Response(200, MessageJson(SentMessage))
    ensures Handle(req, timestamp, recipient, DeliveryFailed(providerError)).response == Response(500, ErrorJson(SendFailedError))
  {
  }

  /** The `GET /api/health` handler: it takes nothing and always answers 200. */
  function Health(): (r: Response)
    ensures r.status == 200 && r.body == MessageJson(HealthMessage)
  {
    Response(200, MessageJson(HealthMessage))
  }

  /**
   * A worked submission without subject: name "Ada", the message "Hello",
   * a line feed, "World", delivered. The subject falls back to the name, the
   * body shows the two lines joined by `<br>`, and the answer is 200.
   */
  lemma ExampleWithoutSubject(timestamp: string, recipient: string)
    ensures var r := Handle(ContactRequest(Given("Ada"), Given("ada@example.com"), Absent, Given("Hello" + "\n" + "World")),
                            timestamp, recipient, Delivered);
      && r.response == Response(200, MessageJson(SentMessage))
      && r.sendMail.Some?
      && r.sendMail.value.subject == SubjectPrefix + "Message from " + "Ada" + " [" + timestamp + "]"
      && Contains(r.sendMail.value.html, MessageLabel + ("Hello" + "<br>" + "World"))
  {
    var req := ContactRequest(Given("Ada"), Given("ada@example.com"), Absent, Given("Hello" + "\n" + "World"));
    MailOptionsOfValidRequest(req, timestamp, recipient, Delivered);
    ReplaceNewlinesJoinsLines("Hello", "World");
  }

  /** Two lines without line feeds, joined by one, are rendered joined by `<br>`. */
  lemma ReplaceNewlinesJoinsLines(first: string, second: string)
    requires '\n' !in first && '\n' !in second
    ensures ReplaceNewlines(first + "\n" + second) == first + "<br>" + second
  {
    var lineFeed := "\n";
    assert ReplaceNewlines(lineFeed) == "<br>" by {
      assert ReplaceNewlines(lineFeed) == "<br>" + ReplaceNewlines([]);
    }
    assert ReplaceNewlines(first + lineFeed) == first + "<br>" by {
      ReplaceNewlinesAppend(first, lineFeed);
      ReplaceNewlinesKeepsPlainText(first);
    }
    assert ReplaceNewlines(first + lineFeed + second) == ReplaceNewlines(first + lineFeed) + second by {
      ReplaceNewlinesAppend(first + lineFeed, second);
      ReplaceNewlinesKeepsPlainText(second);
    }
  }
}

# Portfolio contact form: a Dafny model of the submit path

This project models the dynamic part of a personal portfolio site: the
contact form. It has two halves, one module each.

- `ContactServer` (`server.dfy`) covers the backend's `POST /api/contact`
  handler and `GET /api/health`. The handler checks `name`, `email` and
  `message` with JavaScript's falsy test. It composes the subject
  `Portfolio Contact - <subject or "Message from <name>"> [<timestamp>]` and
  renders the HTML body from the template, with every line feed of the
  message turned into `<br>`. It hands the mail to the transport and answers
  400, 200 or 500. The handler is a total function of four inputs: the
  request body, the formatted timestamp, the configured recipient and the
  transport's outcome. Its result is the response, plus the mail options
  `sendMail` was called with, or `None` when it was not called.
- `ContactClient` (`client.dfy`) covers the browser's submit listener. The
  form, its submit button and the alerts shown form a class, `ContactForm`.
  The async listener awaits twice (`fetch`, then `response.json()`) and
  changes nothing in between, so the model treats the two awaits as one
  step and splits the listener in two.
  `Submit` runs up to the request: validation, busy button, target URL.
  `Settle` runs from the request's outcome to the end of `finally`: alert,
  reset on success, button restored. `SubmitAndSettle` is one invocation
  run to completion.
- `JsValues` (`js_values.dfy`) gives the two JavaScript idioms both sides
  use: the falsy test on a property that is absent or a string, and the
  `||` default. `Wrappers` (`wrappers.dfy`) holds `Option`.

The HTML template is reproduced character for character. The source file
has CRLF line endings, and a template literal normalises them to a line
feed, so the template's line breaks are `\n`.

The main results:

- The rendered message never holds a line feed.
- The replacement keeps every other character, in order, at a known
  offset. Its length grows by three per line feed, and text without line
  feeds is unchanged.
- The body embeds the timestamp, the name, the mail-to link, the subject
  (or "Not specified") and the rendered message verbatim. Each value sits
  right after its own label. No escaping is applied.
- The client's required-field test is exactly the server's on the payload
  the client sends.
- Against this server, the client clears the form and shows the
  confirmation exactly when the mail was delivered.
- The button is disabled only while a request is outstanding, and it then
  reads "Sending...". A complete invocation on an accepted form leaves the
  button text as it found it, with the button enabled.

## Model

| member | source | states |
|---|---|---|
| `ContactServer.Handle` | backend/server.js:41-125 | sendMail is called iff name, email and message are all non-empty; status is 400 iff one is missing, 200 iff valid and delivered, 500 iff valid and delivery threw |
| `ContactServer.MissingFieldIsRejected` | backend/server.js:44-52 | a missing or empty name, email or message gives exactly 400 with "Name, email, and message are required fields", and sendMail is never called, whatever the timestamp, recipient or transport |
| `ContactServer.AnyNonEmptyEmailIsAccepted` | backend/server.js:47 | there is no format check: any non-empty email string, with a non-empty name and message, reaches sendMail as the sender and is not answered 400 |
| `ContactServer.ComposeSubject` | backend/server.js:65 | the subject is "Portfolio Contact - " + subject + " [" + timestamp + "]" when the subject is non-empty; otherwise "Message from " + name takes its place, and an empty subject counts as missing |
| `ContactServer.ReplaceNewlines` | backend/server.js:101 | the rendered message contains no line feed |
| `ContactServer.ReplaceNewlinesLength` | backend/server.js:101 | the rendered message is the message's length plus three per line feed |
| `ContactServer.ReplaceNewlinesKeepsPlainText` | backend/server.js:101 | a message without line feeds is rendered unchanged |
| `ContactServer.ReplaceNewlinesAppend` | backend/server.js:101 | the global replacement distributes over concatenation: rendering a + b is rendering a then rendering b |
| `ContactServer.ReplaceNewlinesSplit` | backend/server.js:101 | the rendering of a message is the rendering of the text before any index, then `<br>` or the character at that index, then the rendering of the rest |
| `ContactServer.ReplaceNewlinesAt` | backend/server.js:101 | the character at index i lands at i plus three per earlier line feed: a line feed as the four characters `<br>`, any other character as itself |
| `ContactServer.ReplaceNewlinesJoinsLines` | backend/server.js:101 | two line-feed-free lines joined by a line feed are rendered joined by `<br>` |
| `ContactServer.RenderHtml` | backend/server.js:73-110 | the body holds the "Received" line and the footer "Time" line with the timestamp; right after the Name label, the name; after the Email label, the email as both `mailto:` target and link text; after the Subject label, the subject, or "Not specified" when it is missing or empty; after the "Message:" heading, the rendered message; all verbatim |
| `ContactServer.MailOptionsOfValidRequest` | backend/server.js:64-111 | for a valid request, the mail is from the submitter's email, to the configured recipient, under the composed subject, with the rendered body; the same timestamp appears in the subject and in both timestamp lines of the body |
| `ContactServer.HasRequiredFields` | backend/server.js:47 | a request fails the check exactly when one of name, email and message is absent or the empty string |
| `JsValues.Truthy` | backend/server.js:47 | a property that is absent or a string is falsy exactly when it is `undefined` or `''` |
| `JsValues.Or` | backend/server.js:65 | the logical-or default of a property and a fallback yields the property exactly when it is truthy and the fallback otherwise, so it is empty only when both are falsy |
| `ContactServer.DeliveryDecidesResponse` | backend/server.js:113-124 | a valid request is answered 200 with "Message sent successfully!" when delivered, and 500 with the fixed retry-later error when delivery threw; the provider's error never reaches the response |
| `ContactServer.Health` | backend/server.js:128-130 | the health route takes no input and always answers 200 with "Server is running!" |
| `ContactServer.ExampleWithoutSubject` | backend/server.js:41-125 | the submission Ada / ada@example.com / no subject / "Hello", line feed, "World", delivered, is answered 200; its subject is "Portfolio Contact - Message from Ada [timestamp]" and its body shows "Hello<br>World" under the "Message:" heading |
| `ContactClient.ClientAccepts` | frontend/Scripts/main.js:112 | the client accepts the form exactly when none of name, email and message is the empty string |
| `ContactClient.Payload` | frontend/Scripts/main.js:104-109 | the JSON body the server parses from the form carries all four properties, subject included even when empty, with exactly the form's values |
| `ContactClient.ClientAgreesWithServer` | frontend/Scripts/main.js:104-115 | the client accepts the form exactly when the server's required-field test accepts the JSON payload built from it |
| `ContactClient.AcceptedPayloadReachesTransport` | frontend/Scripts/main.js:129-135 | a payload the client lets through is never answered 400 by the server and always reaches sendMail |
| `ContactClient.Observe` | frontend/Scripts/main.js:137-145 | what the client reads from a server response: `response.ok` holds exactly for a 2xx status, `data.error` is exactly the body's error text for an error body and undefined for a message body, so it is truthy exactly for a non-empty error |
| `ContactClient.AlertForResponse` | frontend/Scripts/main.js:137-145 | for any server answer, the user sees the confirmation on a 2xx status, otherwise the body's own error text when it is a non-empty error, and "Failed to send message. Please try again." for anything else |
| `ContactClient.ApiUrl` | frontend/Scripts/main.js:123-129 | the POST goes to "/api/contact" on any host but "localhost", and to "http://localhost:3000/api/contact" there |
| `ContactClient.AlertFor` | frontend/Scripts/main.js:137-149 | every settled request the model represents shows the user a non-empty message |
| `ContactClient.AlertByOutcome` | frontend/Scripts/main.js:139-149 | an ok response alerts "Message sent successfully!"; a non-ok one alerts the body's `error` when truthy, else "Failed to send message. Please try again."; a throw alerts the network-error message |
| `ContactClient.EndToEnd` | frontend/Scripts/main.js:137-146 | for an accepted form sent to this server, the form is reset iff the mail was delivered, the confirmation is shown iff it was delivered, and on a failed delivery the user sees the server's error text |
| `ContactClient.ContactForm.Submit` | frontend/Scripts/main.js:98-135 | with a required field empty: one alert "Please fill in all required fields.", no request, and button, fields and outstanding requests unchanged; otherwise the button reads "Sending..." and is disabled, the text it had is kept for this invocation, and the request goes to the URL above carrying the form's values |
| `ContactClient.ContactForm.Reset` | frontend/Scripts/main.js:142 | every input returns to its default value; button, alerts and outstanding requests are unchanged |
| `ContactClient.ContactForm.Settle` | frontend/Scripts/main.js:137-154 | after any outcome the button shows the text that invocation captured and is enabled; the alert is the one for the outcome; the form is reset only on an ok response and otherwise keeps its values; the invocation is no longer outstanding |
| `ContactClient.ContactForm.SubmitAndSettle` | frontend/Scripts/main.js:97-155 | when the form is accepted, one complete invocation leaves the button text as before and the button enabled, and it clears the form only on an ok response; a rejected form changes nothing but the alert, so the button keeps its text and its disabled flag |

## Left out

- Express set-up is not modelled because it is framework plumbing and environment configuration. This covers CORS, the body parsers, static serving, the production catch-all route and `app.listen` (backend/server.js:7-20, 132-141).
- The Nodemailer transporter's creation and its `verify` call are not modelled because they are a foreign library and network I/O. `sendMail` is reduced to its outcome: delivered, or failed with a provider error.
- The timestamp's `toLocaleString` formatting depends on locale data, so the timestamp is an opaque string input. The recipient (`EMAIL_USER`) is a string input too.
- Logging to the console is left out because it has no observable effect on the response or the page.
- Request bodies whose fields are not strings (a JSON number as `message`, say) are left out. There, `replace` throws outside the `try`. Every field is either absent or a string.
- Browser I/O is not called. `fetch`, `response.json()`, `alert` and DOM lookups become inputs and outputs: the request is returned, the outcome is a parameter, and alerts are recorded in order. `e.preventDefault()` is left out: the model has no native form submission for it to prevent. The listener's registration (`initContactForm`'s early return when there is no form) is not modelled.
- The client's `data.error` is modelled for absent and string values only. A truthy non-string value (a number, an object) is alerted as its string conversion, which `Given` stands for when that conversion is non-empty. A falsy non-string value behaves as absent.
- ContactClient.AlertFor: a truthy `error` whose string conversion is empty (an empty array, say) is alerted by the browser as an empty message. The model has no outcome for that value, because `Given("")` is falsy. The guarantee that every alert is non-empty covers only the outcomes the model represents. This server never sends such a body.
- A non-ok response whose JSON body is `null` makes the read of `data.error` throw inside the `try`, so the network-error alert is shown. The model has no separate case for this: it is one of the `Thrown` outcomes.
- `form.reset()` restores the values the page's HTML gives the inputs. The page is not part of this model, so those values are a constructor parameter.
- The animations, scrolling, parallax, skill bars, education timeline and resume preview/download/print/share helpers are not part of this model, because they are DOM, timer and window I/O.
- A later revision of the backend sends through an HTTP mail API and may add a `details` field to the 500 answer. That revision is not part of this model. The code modelled here uses SMTP through Nodemailer and answers 500 with the fixed error string only.

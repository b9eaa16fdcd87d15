# Contact relay of a portfolio site, in Dafny

The portfolio site has one piece of behaviour with a contract: its contact
form. The browser client POSTs `{name, email, subject?, message}` to
`/api/contact`. The server's handler does five things in order:

1. It checks the three required fields.
2. It checks the SMTP configuration taken from the environment.
3. It composes one email.
4. It hands that email to the mail transport.
5. It answers with `{ok, id}` or with an error.

The client turns the answer into the parsed JSON or into an error message.
A second endpoint, `/api/health`, always answers `{ok: true}`.

Both halves are pure decisions, so the model is functions and lemmas. There
are no classes and no loops.

- `js.dfy` (module `Js`): the JavaScript semantics the code relies on.
  - truthiness of a string that may be `undefined`;
  - `||` on such strings;
  - `String.prototype.trim`, with the whitespace set of ECMA-262;
  - the decimal text of a status number;
  - the quoting of a string by `JSON.stringify`.
- `relay.dfy` (module `ContactRelay`, `server/index.js`): the contact
  handler. `Handle(body, env, send)` maps the request body, `process.env`
  (a `map<string, string>`) and the result the transport gives to an
  `Outcome`:
  - `BadRequest`;
  - `ConfigError`;
  - `Sent(mail, id)`;
  - `SendFailed(mail)`.

  Only the last two attempt a send, and they carry the one message handed to
  the transport. `Respond` maps an outcome to the HTTP status and JSON reply.
  `Render` gives the text that `res.json` writes. `Health` is the liveness
  handler.
- `client.dfy` (module `ContactClient`, `src/lib/api.ts`): `SendContact`
  maps a fetch response to how the promise settles:
  - `Resolved(json)`;
  - `Rejected(message)`;
  - `InvalidJson`, when an ok body is not JSON.

  `FailureMessage` is the `text || "Request failed with <status>"` rule.
- `exchange.dfy` (module `Exchange`): the two halves together. For every
  failure the user's error message is the whole JSON text the server wrote,
  such as `{"error":"Failed to send email"}`. It is not the message inside
  that text.

Field values are `Option<string>`: `None` is an absent field and `""` is
falsy. An absent request body is handled as `{}`.

Two behaviours of the code a reader may not expect:
- The configuration error does not name the missing keys. It is one fixed
  message that lists all four variables.
- A missing `FROM_EMAIL` never causes a configuration error, because the
  sender falls back to `BREVO_SMTP_USER`, which is checked itself.
  `ReadConfig` proves that the `fromEmail` test in the code is redundant.

## Model

| member | source | states |
|---|---|---|
| `Js.Or` | server/index.js:28 | `a \|\| b` is truthy iff either operand is; it is `a` when `a` is truthy, else `b` |
| `Js.TrimStart` | server/index.js:38 | the result is a suffix of the input; the dropped prefix is all whitespace; the result does not start with whitespace |
| `Js.TrimEnd` | server/index.js:38 | the result is a prefix of the input; the dropped suffix is all whitespace; the result does not end with whitespace |
| `Js.Trim` | server/index.js:38 | `trim()` returns a slice `s[i..j]` of the input whose margins `s[..i]` and `s[j..]` are all whitespace and which neither starts nor ends with whitespace |
| `Js.TrimEmptyIffBlank` | server/index.js:38 | `subject.trim()` is empty exactly when every character of the subject is whitespace |
| `Js.Decimal` | src/lib/api.ts:16 | the `${res.status}` text is non-empty and all digits; it starts with `0` only when it is the single digit for 0 |
| `Js.DecimalRoundTrip` | src/lib/api.ts:16 | reading the printed status back gives the status |
| `Js.DecimalInjective` | src/lib/api.ts:16 | distinct statuses print differently |
| `Js.EscapeJsonChar` | server/index.js:52 | `JSON.stringify` copies a character unchanged exactly when it is not a quote, a backslash or a character below U+0020 |
| `Js.EscapeJson` | server/index.js:52 | escaping never shortens a string and leaves a string with no special character unchanged |
| `ContactRelay.ReadConfig` | server/index.js:27-32 | the configuration check passes iff the SMTP user, password and `CONTACT_TO_EMAIL` are set and non-empty; `to` is `CONTACT_TO_EMAIL`; the sender is `FROM_EMAIL` when non-empty, else the SMTP user |
| `ContactRelay.SubjectParagraph` | server/index.js:45 | the HTML Subject paragraph is empty exactly when the subject is absent or empty; otherwise it is `<p><strong>Subject:</strong> ` + subject + `</p>`, the subject untrimmed |
| `ContactRelay.SubjectInHtml` | server/index.js:40-49 | a non-empty subject, whitespace or not, occurs in the HTML body inside its Subject paragraph |
| `ContactRelay.SubjectLine` | server/index.js:38 | the subject line is the submitted subject, untrimmed, when it has a non-whitespace character; otherwise it is "New message from " + name |
| `ContactRelay.Handle` | server/index.js:10-57 | 400 iff a required field is absent or empty; else configuration error iff not configured; else one send whose envelope is stated independently of the handler's helpers (from name and address, to, replyTo, subject through `Blank` rather than `trim`, text template); its HTML is the `HtmlBody` template, the same function the handler uses; `Sent` carries the transport's id |
| `ContactRelay.Respond` | server/index.js:13-56 | 200 iff the message was delivered, with `{ok, id}`; a bad request gets 400 with the missing-fields message, a configuration error 500 with the configuration message, a failed send 500 with "Failed to send email" |
| `ContactRelay.Health` | server/index.js:59 | health always answers 200 `{ok: true}`, whatever the environment |
| `ContactRelay.Render` | server/index.js:52 | the response text opens with `{` and closes with `}`; health gives `{"ok":true}`; an id or error message that needs no escaping gives `{"ok":true,"id":"<id>"}` or `{"error":"<message>"}` |
| `ContactRelay.AbsentBodyIsEmptyObject` | server/index.js:12-15 | a missing body is handled as `{}` and gets 400 |
| `ContactRelay.MissingFieldGets400` | server/index.js:13-15 | in every environment, a submission missing a field gets 400 with "Missing required fields: name, email, message" |
| `ContactRelay.FieldsCheckedBeforeConfig` | server/index.js:13-32 | a submission missing a field gets 400 with the missing-fields message even when no SMTP variable is set |
| `ContactRelay.MissingConfigRefusesToSend` | server/index.js:30-32 | a valid submission in an unconfigured environment gets 500 with the configuration message and no send |
| `ContactRelay.FromEmailNeverRequired` | server/index.js:28-30 | removing `FROM_EMAIL` never changes whether the relay is configured; without it the sender is the SMTP user |
| `ContactRelay.NoDetailLeaked` | server/index.js:53-55 | the response to a throwing send is the same whatever was thrown: 500 "Failed to send email" |
| `ContactRelay.BlankSubjectStillInHtml` | server/index.js:38-45 | a whitespace-only subject falls back to the default subject line, yet its Subject paragraph occurs in the HTML |
| `ContactRelay.ExampleSubmission` | server/index.js:34-52 | name "A", email "a@x.com", message "hi" gives subject "New message from A", text "Name: A\nEmail: a@x.com\n\nhi" and 200 `{ok, id}` |
| `ContactClient.FailureMessage` | src/lib/api.ts:15-16 | the error message is never empty; it is the body text when that is non-empty; otherwise it is exactly "Request failed with " + the decimal status, whose digits read back as the status |
| `ContactClient.SendContact` | src/lib/api.ts:14-18 | rejects iff the status is outside 200-299, with `FailureMessage`; resolves iff ok and the body is JSON, to that JSON unchanged |
| `ContactClient.FallbackIdentifiesStatus` | src/lib/api.ts:16 | two fallback messages are equal only when their statuses are |
| `ContactClient.UnreadableBodyIsEmpty` | src/lib/api.ts:15-16 | a body that cannot be read gives the same message as an empty body: "Request failed with " + status |
| `ContactClient.ClientExamples` | src/lib/api.ts:14-18 | a 200 with `{ok:true,id:"abc"}` resolves to exactly that value; a 400 with body "bad" rejects with "bad" |
| `Exchange.EndToEnd` | src/lib/api.ts:8-19 | against the relay, the client resolves iff the message was delivered, to `Ack(id)`; otherwise it rejects with the server's JSON text |
| `Exchange.RenderPlainError` | server/index.js:55 | an error reply whose message needs no escaping is written as `{"error":"<message>"}` |
| `Exchange.ClientSeesRawErrorJson` | src/lib/api.ts:15-16 | on every failure the client's message is the full JSON text of the error reply, never the bare server message |
| `Exchange.ClientSeesSendFailedJson` | server/index.js:53-55 | a throwing send reaches the user as `{"error":"Failed to send email"}` |

## Left out

- The React page (`src/App.tsx`) is not modelled: markup, styling, the theme kept in `localStorage`, the toasts, and its client-side required-field check, which repeats the server's rule.
- Express wiring is not modelled: `express.json()`, routing, `app.listen`, `PORT`, dotenv loading and the `console.error` logging of a failed send. This is input and output plumbing.
- nodemailer is not modelled: `createTransport`, the `BREVO_SMTP_HOST`/`BREVO_SMTP_PORT` defaults, `secure: false` and the SMTP exchange. The send is a parameter (`SendResult`): either a message id or a thrown error.
- Only a throwing `sendMail` is modelled. Other exceptions inside the handler's `try` also lead to the generic 500, but they are not modelled.
- The request itself is not modelled: `fetch` with its method, headers and `JSON.stringify` of the payload, and the rejection `fetch` raises on a network failure.
- JSON parsing is not modelled. The parsed body is an opaque value. `Exchange.Transmit` assumes that parsing the server's text gives back the reply it serialised.
- `ContactRelay.Render` models `JSON.stringify` only for the three reply shapes the server writes.
- `ContactRelay.Handle` takes body fields as strings or absent. JSON `null`, numbers, booleans, arrays and objects in a field are not modelled. A `null` subject behaves like an absent one, since `null?.trim()` is `undefined`. A number, boolean, array or object as `subject` would make `subject?.trim()` throw, and the request would end in the generic 500.
- Strings are modelled as sequences of Unicode scalar values, not of UTF-16 code units. A field holding a lone surrogate, and the `\u` escape `JSON.stringify` writes for one, are outside the model.
- `ContactRelay.Handle` does not model a `messageId` that nodemailer leaves undefined. `JSON.stringify` would then drop `id` from the reply.
- The HTML body is modelled character for character (`HtmlBody`). No lemma characterises its text beyond the Subject paragraph. Field values are inserted without escaping, as in the code, so the user's values can also contain HTML.

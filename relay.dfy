/** The contact relay of the portfolio server: the `POST /api/contact`
    handler, which validates a submission, reads the SMTP configuration from
    the environment, composes one email and reports the outcome of sending it,
    and the `GET /api/health` liveness handler.

    The handler is a function of the request body, the environment and the
    result the mail transport would give for the composed message. Its
    effects (the HTTP status and JSON body, the one call to `sendMail`) are
    the returned `Outcome` and `Response` values. */
module ContactRelay {
  import opened Js

  /** The fields the handler reads from the parsed JSON body; an absent field
      is `None`. */
  datatype Submission = Submission(
    name: Option<string>,
    email: Option<string>,
    subject: Option<string>,
    message: Option<string>)

  /** `{}`: the body used when the request has none. */
  const NoFields := Submission(None, None, None, None)

  /** `process.env`: every variable that is set has a string value. */
  type Env = map<string, string>

  const SmtpUserKey := "BREVO_SMTP_USER"
  const SmtpPassKey := "BREVO_SMTP_PASS"
  const FromEmailKey := "FROM_EMAIL"
  const ContactToKey := "CONTACT_TO_EMAIL"

  const MissingFieldsError := "Missing required fields: name, email, message"
  const NotConfiguredError := "Server email is not configured. Set BREVO_SMTP_USER, BREVO_SMTP_PASS, FROM_EMAIL, CONTACT_TO_EMAIL."
  const SendFailedError := "Failed to send email"

  /** Display name of the sender of every relayed message. */
  const SenderName := "Portfolio Contact"

  /** The SMTP settings the handler needs before it may send. */
  datatype Config = Config(user: string, pass: string, to: string, fromEmail: string)

  /** A mailbox with a display name, as nodemailer's `{ name, address }`. */
  datatype Address = Address(name: string, address: string)

  /** The message handed to `sendMail`. */
  datatype Mail = Mail(
    from: Address,
    to: string,
    replyTo: string,
    subject: string,
    text: string,
    html: string)

  /** What the transport does with a message: it returns the provider's
      message id, or it throws. */
  datatype SendResult = Delivered(messageId: string) | Threw(detail: string)

  /** How one contact request ends. Only the last two attempt a send, and they
      carry the one message that was handed to the transport. */
  datatype Outcome =
    | BadRequest
    | ConfigError
    | Sent(mail: Mail, id: string)
    | SendFailed(mail: Mail)

  /** The JSON bodies the server answers with. */
  datatype Reply = ErrorReply(error: string) | Ack(id: string) | Alive

  datatype Response = Response(status: nat, reply: Reply)

  function Lookup(env: Env, key: string): Option<string> {
    if key in env then Some(env[key]) else None
  }

  /** `req.body || {}` */
  function Fields(body: Option<Submission>): Submission {
    if body.Some? then body.value else NoFields
  }

  /** The submission has a non-empty name, email and message. */
  predicate HasRequiredFields(f: Submission) {
    Truthy(f.name) && Truthy(f.email) && Truthy(f.message)
  }

  /** The environment lets the relay send: SMTP user, SMTP password and
      destination are set and non-empty. The sender address is not among
      them, because it falls back to the SMTP user. */
  predicate Configured(env: Env) {
    Truthy(Lookup(env, SmtpUserKey)) && Truthy(Lookup(env, SmtpPassKey)) && Truthy(Lookup(env, ContactToKey))
  }

  /** The sender address: `FROM_EMAIL` when it is non-empty, else the SMTP user. */
  function SenderAddress(env: Env): Option<string> {
    Or(Lookup(env, FromEmailKey), Lookup(env, SmtpUserKey))
  }

  /** The configuration check of the handler. It fails exactly when the SMTP
      user, password or destination is unset or empty; `FROM_EMAIL` never
      decides it, since its fallback is the user that is checked too. */
  function ReadConfig(env: Env): (r: Option<Config>)
    ensures r.Some? <==> Configured(env)
    ensures r.Some? ==> r.value.user == env[SmtpUserKey] && r.value.pass == env[SmtpPassKey]
    ensures r.Some? ==> r.value.to == env[ContactToKey]
    ensures r.Some? ==> r.value.fromEmail ==
                        (if Truthy(Lookup(env, FromEmailKey)) then env[FromEmailKey] else env[SmtpUserKey])
  {
    var user := Lookup(env, SmtpUserKey);
    var pass := Lookup(env, SmtpPassKey);
    var to := Lookup(env, ContactToKey);
    var fromEmail := SenderAddress(env);
    if !Truthy(user) || !Truthy(pass) || !Truthy(to) || !Truthy(fromEmail) then None
    else Some(Config(user.value, pass.value, to.value, fromEmail.value))
  }

  /** The `<p>` line for the subject: present exactly when the subject is a
      non-empty string, whitespace or not. */
  function SubjectParagraph(subject: Option<string>): (p: string)
    ensures p == "" <==> !Truthy(subject)
    ensures Truthy(subject) ==> p == "<p><strong>Subject:</strong> " + subject.value + "</p>"
  {
    if Truthy(subject) then "<p><strong>Subject:</strong> " + subject.value + "</p>" else ""
  }

  /** The HTML body, character for character, with the fields inserted
      unescaped: the part before the subject line, the Subject paragraph and
      the part after it. */
  function HtmlBody(name: string, email: string, subject: Option<string>, message: string): string {
    HtmlHead(name, email) + SubjectParagraph(subject) + HtmlTail(message)
  }

  function HtmlHead(name: string, email: string): string {
    "\n        <div style=\"font-family:system-ui,Segoe UI,Roboto,Arial;line-height:1.6\">"
    + "\n          <h2>New Contact Message</h2>"
    + "\n          <p><strong>Name:</strong> " + name + "</p>"
    + "\n          <p><strong>Email:</strong> " + email + "</p>"
    + "\n          "
  }

  function HtmlTail(message: string): string {
    "\n          <hr/>"
    + "\n          <pre style=\"white-space:pre-wrap\">" + message + "</pre>"
    + "\n        </div>\n      "
  }

  /** The subject line: the submitted subject, untrimmed, when it has a
      character that is not whitespace; otherwise "New message from <name>". */
  function SubjectLine(name: string, subject: Option<string>): (s: string)
    ensures subject.Some? && !Blank(subject.value) ==> s == subject.value
    ensures subject.None? || Blank(subject.value) ==> s == "New message from " + name
  {
    match subject
    case None => "New message from " + name
    case Some(s) =>
      TrimEmptyIffBlank(s);
      if Trim(s) != "" then s else "New message from " + name
  }

  /** The message handed to the transport: from the fixed display name at the
      configured sender address, to the configured destination, with replies
      going to the submitter. */
  function Compose(name: string, email: string, subject: Option<string>, message: string, cfg: Config): Mail
  {
    Mail(
      Address(SenderName, cfg.fromEmail),
      cfg.to,
      email,
      SubjectLine(name, subject),
      "Name: " + name + "\nEmail: " + email + "\n\n" + message,
      HtmlBody(name, email, subject, message))
  }

  /** What the handler must hand to the transport for a valid submission in a
      configured environment, stated without the handler's own helpers. */
  ghost predicate Envelope(m: Mail, f: Submission, env: Env)
    requires HasRequiredFields(f) && Configured(env)
  {
    && m.from.name == SenderName
    && m.from.address == (if Truthy(Lookup(env, FromEmailKey)) then env[FromEmailKey] else env[SmtpUserKey])
    && m.to == env[ContactToKey]
    && m.replyTo == f.email.value
    && m.subject == (if f.subject.Some? && !Blank(f.subject.value) then f.subject.value
                     else "New message from " + f.name.value)
    && m.text == "Name: " + f.name.value + "\nEmail: " + f.email.value + "\n\n" + f.message.value
    && m.html == HtmlBody(f.name.value, f.email.value, f.subject, f.message.value)
  }

  /** The `POST /api/contact` handler. Field validation comes first, the
      configuration check second, and only then is one message sent; its
      result decides between `Sent` and `SendFailed`. */
  function Handle(body: Option<Submission>, env: Env, send: SendResult): (r: Outcome)
    ensures r.BadRequest? <==> !HasRequiredFields(Fields(body))
    ensures r.ConfigError? <==> HasRequiredFields(Fields(body)) && !Configured(env)
    ensures r.Sent? <==> HasRequiredFields(Fields(body)) && Configured(env) && send.Delivered?
    ensures r.SendFailed? <==> HasRequiredFields(Fields(body)) && Configured(env) && send.Threw?
    ensures r.Sent? ==> r.id == send.messageId
    ensures r.Sent? || r.SendFailed? ==>
      HasRequiredFields(Fields(body)) && Configured(env) && Envelope(r.mail, Fields(body), env)
  {
    var f := Fields(body);
    if !Truthy(f.name) || !Truthy(f.email) || !Truthy(f.message) then
      BadRequest
    else
      match ReadConfig(env)
      case None => ConfigError
      case Some(cfg) =>
        var mail := Compose(f.name.value, f.email.value, f.subject, f.message.value, cfg);
        match send
        case Delivered(id) => Sent(mail, id)
        case Threw(_) => SendFailed(mail)
  }

  /** The HTTP status and JSON body for an outcome. Only a delivered message
      yields 200; each failure has its own fixed message, and a failed send
      says nothing about what the transport threw. */
  function Respond(o: Outcome): (r: Response)
    ensures r.status == 200 <==> o.Sent?
    ensures o.Sent? ==> r.reply == Ack(o.id)
    ensures o.BadRequest? ==> r == Response(400, ErrorReply(MissingFieldsError))
    ensures o.ConfigError? ==> r == Response(500, ErrorReply(NotConfiguredError))
    ensures o.SendFailed? ==> r == Response(500, ErrorReply(SendFailedError))
    ensures r.status == 400 <==> o.BadRequest?
  {
    match o
    case BadRequest => Response(400, ErrorReply(MissingFieldsError))
    case ConfigError => Response(500, ErrorReply(NotConfiguredError))
    case Sent(_, id) => Response(200, Ack(id))
    case SendFailed(_) => Response(500, ErrorReply(SendFailedError))
  }

  /** The `GET /api/health` handler: always 200 `{ok: true}`, whatever the
      environment holds. */
  function Health(env: Env): (r: Response)
    ensures r.status == 200 && r.reply == Alive
  {
    Response(200, Alive)
  }

  /** The response text `res.json` writes for a reply (`JSON.stringify`
      without indentation, keys in insertion order). */
  function Render(reply: Reply): (t: string)
    ensures t != [] && t[0] == '{' && t[|t| - 1] == '}'
    ensures reply.Alive? ==> t == "{\"ok\":true}"
    ensures reply.Ack? && PlainJson(reply.id) ==> t == "{\"ok\":true,\"id\":\"" + reply.id + "\"}"
    ensures reply.ErrorReply? && PlainJson(reply.error) ==> t == "{\"error\":\"" + reply.error + "\"}"
  {
    match reply
    case ErrorReply(e) => "{\"error\":" + JsonQuote(e) + "}"
    case Ack(id) => "{\"ok\":true,\"id\":" + JsonQuote(id) + "}"
    case Alive => "{\"ok\":true}"
  }

  // ---------------------------------------------------------------------
  // Properties of the handler
  // ---------------------------------------------------------------------

  /** A request without a body is handled as one whose body is `{}`. */
  lemma AbsentBodyIsEmptyObject(env: Env, send: SendResult)
    ensures Handle(None, env, send) == Handle(Some(NoFields), env, send) == BadRequest
  {
  }

  /** Field validation precedes the configuration check: a submission that
      lacks a required field gets 400 even when no SMTP variable is set. */
  lemma FieldsCheckedBeforeConfig(body: Option<Submission>, send: SendResult)
    requires !HasRequiredFields(Fields(body))
    ensures Respond(Handle(body, map[], send)) == Response(400, ErrorReply(MissingFieldsError))
  {
  }

  /** In every environment, a submission that lacks a required field gets 400
      with the missing-fields message. */
  lemma MissingFieldGets400(body: Option<Submission>, env: Env, send: SendResult)
    requires !HasRequiredFields(Fields(body))
    ensures Respond(Handle(body, env, send)) == Response(400, ErrorReply(MissingFieldsError))
  {
  }

  /** An environment without SMTP credentials or destination gets 500 with the
      configuration message for every valid submission, and nothing is sent. */
  lemma MissingConfigRefusesToSend(body: Option<Submission>, env: Env, send: SendResult)
    requires HasRequiredFields(Fields(body)) && !Configured(env)
    ensures Handle(body, env, send) == ConfigError
    ensures Respond(Handle(body, env, send)) == Response(500, ErrorReply(NotConfiguredError))
  {
  }

  /** Whether `FROM_EMAIL` is set never changes whether the relay is
      configured; it only chooses the sender address. */
  lemma FromEmailNeverRequired(env: Env)
    ensures ReadConfig(env).Some? <==> ReadConfig(env - {FromEmailKey}).Some?
    ensures ReadConfig(env - {FromEmailKey}).Some? ==>
      ReadConfig(env - {FromEmailKey}).value.fromEmail == env[SmtpUserKey]
  {
  }

  /** A transport failure is reported without its detail: the response is the
      same whatever the transport threw. */
  lemma NoDetailLeaked(body: Option<Submission>, env: Env, d1: string, d2: string)
    ensures Respond(Handle(body, env, Threw(d1))) == Respond(Handle(body, env, Threw(d2)))
    ensures Handle(body, env, Threw(d1)).SendFailed? ==>
      Respond(Handle(body, env, Threw(d1))) == Response(500, ErrorReply(SendFailedError))
  {
  }

  /** A non-empty subject, whitespace or not, appears in the HTML body in a
      Subject paragraph. */
  lemma SubjectInHtml(name: string, email: string, subject: Option<string>, message: string)
    requires Truthy(subject)
    ensures Occurs("<p><strong>Subject:</strong> " + subject.value + "</p>", HtmlBody(name, email, subject, message))
  {
    OccursBetween(HtmlHead(name, email), SubjectParagraph(subject), HtmlTail(message));
  }

  /** A whitespace-only subject is not used as the subject line, yet the HTML
      body still shows it in a Subject paragraph. */
  lemma BlankSubjectStillInHtml(name: string, email: string, subject: string, message: string, cfg: Config)
    requires subject != "" && Blank(subject)
    ensures Compose(name, email, Some(subject), message, cfg).subject == "New message from " + name
    ensures Occurs("<p><strong>Subject:</strong> " + subject + "</p>",
                   Compose(name, email, Some(subject), message, cfg).html)
  {
    SubjectInHtml(name, email, Some(subject), message);
  }

  /** The worked example: name "A", email "a@x.com", message "hi", no
      subject, a configured environment and a delivered message. */
  lemma ExampleSubmission(env: Env, id: string)
    requires Configured(env)
    ensures Handle(Some(Submission(Some("A"), Some("a@x.com"), None, Some("hi"))), env, Delivered(id)).Sent?
    ensures Handle(Some(Submission(Some("A"), Some("a@x.com"), None, Some("hi"))), env, Delivered(id)).mail.subject
         == "New message from A"
    ensures Handle(Some(Submission(Some("A"), Some("a@x.com"), None, Some("hi"))), env, Delivered(id)).mail.text
         == "Name: A\nEmail: a@x.com\n\nhi"
    ensures Respond(Handle(Some(Submission(Some("A"), Some("a@x.com"), None, Some("hi"))), env, Delivered(id)))
         == Response(200, Ack(id))
  {
    var body := Some(Submission(Some("A"), Some("a@x.com"), None, Some("hi")));
    assert HasRequiredFields(Fields(body));
    var m := Compose("A", "a@x.com", None, "hi", ReadConfig(env).value);
    assert Handle(body, env, Delivered(id)) == Sent(m, id);
  }
}

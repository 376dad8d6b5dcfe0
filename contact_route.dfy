/** The `POST /api/contact` handler (src/app/api/contact/route.ts): the
    configuration check, the guard chain that answers 400, and the two
    sends that lead to 200 or 500. The mail service is an oracle: each
    send is given as the result it produces. */
module ContactRoute {
  import opened Text
  import opened ContactForm

  /** The fields destructured from the JSON body; `None` is a missing or
      `null` field. */
  datatype Payload = Payload(name: Option<string>, email: Option<string>, subject: Option<string>, message: Option<string>)

  /** `await request.json()`: a parsed payload, or the message of the
      error it throws. */
  datatype RequestBody = Parsed(payload: Payload) | Malformed(parseError: string)

  /** The process environment: whether the mail client was created at
      start-up (`RESEND_API_KEY` set), `ADMIN_EMAIL`, and whether
      `NODE_ENV` is `development`. */
  datatype Env = Env(mailerConfigured: bool, adminEmail: Option<string>, development: bool)

  /** The envelope of one message handed to the mail service. */
  datatype Mail = Mail(from: string, to: string, subject: string)

  /** What one `resend.emails.send` call does: returns (its value is never
      read, so a returned error object counts as success), or throws an
      error with a message. */
  datatype SendResult = Returned | Threw(message: string)

  datatype ResponseBody = Success(text: string) | Failure(error: string, details: Option<string>)

  datatype Response = Response(status: int, body: ResponseBody)

  const NotConfigured := "Email service is not properly configured"
  const AllFieldsRequired := "All fields are required"
  const InvalidEmail := "Please enter a valid email address"
  const SendFailedPrefix := "Failed to send email: "
  const GenericFailure := "Failed to send message. Please try again later."
  const SuccessText := "Message sent successfully"
  const Sender := "AdmyBrand <noreply@admybrand.com>"
  const DefaultAdmin := "admin@admybrand.com"
  const AdminSubjectPrefix := "New Contact Form: "
  const ThanksSubject := "Thank you for contacting AdmyBrand"

  /** The 400 message the guard chain answers with, or `None` when the
      payload passes both guards. */
  function Rejection(p: Payload): (r: Option<string>)
    ensures r.None? <==>
      Truthy(p.name) && Truthy(p.email) && Truthy(p.subject) && Truthy(p.message) && IsValidEmail(p.email.value)
    ensures !(Truthy(p.name) && Truthy(p.email) && Truthy(p.subject) && Truthy(p.message)) ==>
      r == Some(AllFieldsRequired)
    ensures Truthy(p.name) && Truthy(p.email) && Truthy(p.subject) && Truthy(p.message) && !IsValidEmail(p.email.value) ==>
      r == Some(InvalidEmail)
    ensures r.Some? ==> r.value in {AllFieldsRequired, InvalidEmail}
  {
    if !Truthy(p.name) || !Truthy(p.email) || !Truthy(p.subject) || !Truthy(p.message) then Some(AllFieldsRequired)
    else if !IsValidEmail(p.email.value) then Some(InvalidEmail)
    else None
  }

  /** The notification to the site owner. */
  function AdminEmail(env: Env, p: Payload): (e: Mail)
    requires Truthy(p.subject)
    ensures e.from == Sender
    ensures e.to == (if Truthy(env.adminEmail) then env.adminEmail.value else DefaultAdmin)
    ensures StartsWith(e.subject, AdminSubjectPrefix) && e.subject[|AdminSubjectPrefix|..] == p.subject.value
  {
    Mail(Sender, if Truthy(env.adminEmail) then env.adminEmail.value else DefaultAdmin, AdminSubjectPrefix + p.subject.value)
  }

  /** The confirmation to the visitor, sent to the address they gave. */
  function UserEmail(p: Payload): (e: Mail)
    requires Truthy(p.email)
    ensures e.from == Sender && e.to == p.email.value && e.subject == ThanksSubject
  {
    Mail(Sender, p.email.value, ThanksSubject)
  }

  /** The outer `catch`: status 500 with the fixed message, and the caught
      error's message as `details` in development only. */
  function ServerError(env: Env, message: string): (r: Response)
    ensures r.status == 500 && r.body.Failure? && r.body.error == GenericFailure
    ensures r.body.details.Some? <==> env.development
    ensures env.development ==> r.body.details.value == message
  {
    Response(500, Failure(GenericFailure, if env.development then Some(message) else None))
  }

  /** `POST`: returns the response and the messages handed to the mail
      service, in the order they were handed over. */
  method Post(env: Env, request: RequestBody, adminResult: SendResult, userResult: SendResult)
    returns (response: Response, attempted: seq<Mail>)
    // the configuration check comes first, whatever the body
    ensures !env.mailerConfigured ==> response == ServerError(env, NotConfigured) && attempted == []
    ensures env.mailerConfigured && request.Malformed? ==>
      response == ServerError(env, request.parseError) && attempted == []
    // the guard chain: 400 with its message, and nothing sent
    ensures response.status == 400 <==> env.mailerConfigured && request.Parsed? && Rejection(request.payload).Some?
    ensures response.status == 400 ==>
      response.body == Failure(Rejection(request.payload).value, None) && attempted == []
    // 200 only once both send calls returned, the owner's first
    ensures response.status == 200 <==>
      env.mailerConfigured && request.Parsed? && Rejection(request.payload).None? && adminResult.Returned? && userResult.Returned?
    ensures response.status == 200 ==>
      response.body == Success(SuccessText) &&
      attempted == [AdminEmail(env, request.payload), UserEmail(request.payload)]
    // a send that throws ends in the 500 answer, and nothing more is handed over
    ensures env.mailerConfigured && request.Parsed? && Rejection(request.payload).None? && adminResult.Threw? ==>
      response == ServerError(env, SendFailedPrefix + adminResult.message) &&
      attempted == [AdminEmail(env, request.payload)]
    ensures env.mailerConfigured && request.Parsed? && Rejection(request.payload).None? && adminResult.Returned? && userResult.Threw? ==>
      response == ServerError(env, SendFailedPrefix + userResult.message) &&
      attempted == [AdminEmail(env, request.payload), UserEmail(request.payload)]
    ensures response.status in {200, 400, 500}
  {
    attempted := [];
    if !env.mailerConfigured {
      response := ServerError(env, NotConfigured);
      return;
    }
    if request.Malformed? {
      response := ServerError(env, request.parseError);
      return;
    }
    var p := request.payload;
    if !Truthy(p.name) || !Truthy(p.email) || !Truthy(p.subject) || !Truthy(p.message) {
      response := Response(400, Failure(AllFieldsRequired, None));
      return;
    }
    if !IsValidEmail(p.email.value) {
      response := Response(400, Failure(InvalidEmail, None));
      return;
    }
    attempted := attempted + [AdminEmail(env, p)];
    if adminResult.Threw? {
      response := ServerError(env, SendFailedPrefix + adminResult.message);
      return;
    }
    attempted := attempted + [UserEmail(p)];
    if userResult.Threw? {
      response := ServerError(env, SendFailedPrefix + userResult.message);
      return;
    }
    response := Response(200, Success(SuccessText));
  }

  // ---------------------------------------------------------------- client and server

  /** The body the form POSTs: its four strings. */
  function FromForm(form: FormData): Payload {
    Payload(Some(form.name), Some(form.email), Some(form.subject), Some(form.message))
  }

  /** Everything the client lets through also passes the server's guards. */
  lemma ClientAcceptedPassesServer(form: FormData)
    requires Validate(form).IsEmpty()
    ensures Rejection(FromForm(form)).None?
  {
    TrimEmptyIff(form.name);
    TrimEmptyIff(form.subject);
    TrimEmptyIff(form.message);
  }

  /** The server neither trims nor counts characters: a form it accepts is
      turned away by the client exactly when the name or subject is all
      white space or the trimmed message is shorter than ten UTF-16 code
      units. */
  lemma ServerLooserThanClient(form: FormData)
    requires Rejection(FromForm(form)).None?
    ensures !Validate(form).IsEmpty() <==>
      AllWhitespace(form.name) || AllWhitespace(form.subject) || Utf16Length(Trim(form.message)) < MinMessageLength
  {
    TrimEmptyIff(form.name);
    TrimEmptyIff(form.subject);
  }

  /** An instance of the gap: blank name and subject and a two-letter
      message are sent on by the server, while the client reports all
      three. */
  lemma WhitespaceFieldsReachServer()
    ensures Rejection(FromForm(FormData(" ", "a@b.co", " ", "hi"))).None?
    ensures Validate(FormData(" ", "a@b.co", " ", "hi")) ==
      FormErrors(Some(NameRequired), None, Some(SubjectRequired), Some(MessageTooShort))
  {
    var email := "a@b.co";
    assert IndexOf(email, '@') == 1;
    assert email[3] == '.';
    assert IsValidEmail(email);
    assert Trim(" ") == "";
    TrimUnchanged("hi");
    assert MessageError("hi") == Some(MessageTooShort);
  }
}

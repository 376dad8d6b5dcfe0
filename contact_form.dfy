/** The contact form component (src/components/ContactForm.tsx): its field
    rules, the email pattern it shares with the API route, and the form's
    state machine across `handleChange` and `handleSubmit`. */
module ContactForm {
  import opened Text

  // ---------------------------------------------------------------- the email pattern

  /** The characters `[^\s@]` admits: neither white space nor `@`. */
  predicate IsPlain(c: char) {
    !IsWhitespace(c) && c != '@'
  }

  /** `s[lo..hi]` is one part of `^[^\s@]+@[^\s@]+\.[^\s@]+$`: a non-empty
      run of plain characters. */
  predicate IsPatternPart(s: string, lo: int, hi: int)
    requires 0 <= lo <= hi <= |s|
  {
    lo < hi && forall i :: lo <= i < hi ==> IsPlain(s[i])
  }

  /** What the regular expression accepts, stated by its parts: the `@` at
      index `at` and the `.` at index `dot` split `s` into three non-empty
      plain runs. */
  ghost predicate MatchesEmailPattern(s: string) {
    exists at, dot :: 0 <= at < dot < |s| && s[at] == '@' && s[dot] == '.'
      && IsPatternPart(s, 0, at) && IsPatternPart(s, at + 1, dot) && IsPatternPart(s, dot + 1, |s|)
  }

  /** Index of the first `c` in `s`, or `|s|` when there is none. */
  function IndexOf(s: string, c: char): (r: nat)
    ensures r <= |s|
    ensures r < |s| ==> s[r] == c
    ensures forall i :: 0 <= i < r ==> s[i] != c
  {
    if s == [] then 0
    else if s[0] == c then 0
    else 1 + IndexOf(s[1..], c)
  }

  /** The email check the component and the route run: no white space,
      exactly one `@` with something before it, and after it a `.` that is
      neither the first nor the last character of the domain. */
  predicate IsValidEmail(s: string) {
    && (forall i :: 0 <= i < |s| ==> !IsWhitespace(s[i]))
    && var at := IndexOf(s, '@');
    && 0 < at < |s|
    && (forall i :: at < i < |s| ==> s[i] != '@')
    && exists k :: at + 1 < k < |s| - 1 && s[k] == '.'
  }

  /** The check accepts exactly the strings the regular expression matches. */
  lemma EmailCheckIsPattern(s: string)
    ensures IsValidEmail(s) <==> MatchesEmailPattern(s)
  {
    if IsValidEmail(s) {
      var at := IndexOf(s, '@');
      var dot :| at + 1 < dot < |s| - 1 && s[dot] == '.';
      assert IsPatternPart(s, 0, at) && IsPatternPart(s, at + 1, dot) && IsPatternPart(s, dot + 1, |s|);
    }
    if MatchesEmailPattern(s) {
      var at, dot :| 0 <= at < dot < |s| && s[at] == '@' && s[dot] == '.'
        && IsPatternPart(s, 0, at) && IsPatternPart(s, at + 1, dot) && IsPatternPart(s, dot + 1, |s|);
      assert IndexOf(s, '@') == at;
      forall i | 0 <= i < |s| ensures !IsWhitespace(s[i]) {
        if i != at && i != dot { assert IsPlain(s[i]); }
      }
      forall i | at < i < |s| ensures s[i] != '@' {
        if i != dot { assert IsPlain(s[i]); }
      }
    }
  }

  // ---------------------------------------------------------------- form data and rules

  datatype Field = Name | Email | Subject | Message

  /** The `formData` state: the four controlled inputs. */
  datatype FormData = FormData(name: string, email: string, subject: string, message: string)
  {
    function Get(f: Field): string {
      match f
      case Name => name
      case Email => email
      case Subject => subject
      case Message => message
    }

    /** `{ ...prev, [f]: v }` */
    function With(f: Field, v: string): (d: FormData)
      ensures d.Get(f) == v
      ensures forall g :: g != f ==> d.Get(g) == Get(g)
    {
      match f
      case Name => this.(name := v)
      case Email => this.(email := v)
      case Subject => this.(subject := v)
      case Message => this.(message := v)
    }
  }

  const EmptyForm := FormData("", "", "", "")

  const NameRequired := "Name is required"
  const EmailRequired := "Email is required"
  const EmailInvalid := "Please enter a valid email address"
  const SubjectRequired := "Subject is required"
  const MessageRequired := "Message is required"
  const MessageTooShort := "Message must be at least 10 characters long"
  const MinMessageLength := 10

  /** The `FormErrors` state: one optional message per field. */
  datatype FormErrors = FormErrors(name: Option<string>, email: Option<string>, subject: Option<string>, message: Option<string>)
  {
    function Get(f: Field): Option<string> {
      match f
      case Name => name
      case Email => email
      case Subject => subject
      case Message => message
    }

    /** `{ ...prev, [f]: undefined }` */
    function Clear(f: Field): (e: FormErrors)
      ensures e.Get(f).None?
      ensures forall g :: g != f ==> e.Get(g) == Get(g)
    {
      match f
      case Name => this.(name := None)
      case Email => this.(email := None)
      case Subject => this.(subject := None)
      case Message => this.(message := None)
    }

    /** `Object.keys(errors).length === 0` for a map `validateForm` built. */
    predicate IsEmpty() {
      name.None? && email.None? && subject.None? && message.None?
    }
  }

  const NoErrors := FormErrors(None, None, None, None)

  function NameError(name: string): Option<string> {
    if Trim(name) == "" then Some(NameRequired) else None
  }

  function EmailError(email: string): Option<string> {
    if email == "" then Some(EmailRequired)
    else if !IsValidEmail(email) then Some(EmailInvalid)
    else None
  }

  function SubjectError(subject: string): Option<string> {
    if Trim(subject) == "" then Some(SubjectRequired) else None
  }

  function MessageError(message: string): Option<string> {
    var t := Trim(message);
    if t == "" then Some(MessageRequired)
    else if Utf16Length(t) < MinMessageLength then Some(MessageTooShort)
    else None
  }

  /** The form the client lets through, stated without the rule chain. */
  ghost predicate ClientAccepts(form: FormData) {
    && !AllWhitespace(form.name)
    && MatchesEmailPattern(form.email)
    && !AllWhitespace(form.subject)
    && Utf16Length(Trim(form.message)) >= MinMessageLength
  }

  /** The name and subject rules: an error exactly when the value is blank
      after trimming. */
  lemma BlankFieldRule(form: FormData)
    ensures NameError(form.name) == (if AllWhitespace(form.name) then Some(NameRequired) else None)
    ensures SubjectError(form.subject) == (if AllWhitespace(form.subject) then Some(SubjectRequired) else None)
  {
    TrimEmptyIff(form.name);
    TrimEmptyIff(form.subject);
  }

  /** The email rule's three outcomes. */
  lemma EmailRule(email: string)
    ensures email == "" ==> EmailError(email) == Some(EmailRequired)
    ensures email != "" && !MatchesEmailPattern(email) ==> EmailError(email) == Some(EmailInvalid)
    ensures MatchesEmailPattern(email) ==> EmailError(email) == None
  {
    EmailCheckIsPattern(email);
  }

  /** The message rule: blank, 1 to 9 UTF-16 code units after trimming,
      or long enough. */
  lemma MessageRule(message: string)
    ensures AllWhitespace(message) ==> MessageError(message) == Some(MessageRequired)
    ensures !AllWhitespace(message) && Utf16Length(Trim(message)) < 10 ==> MessageError(message) == Some(MessageTooShort)
    ensures !AllWhitespace(message) ==> 1 <= Utf16Length(Trim(message))
    ensures Utf16Length(Trim(message)) >= 10 ==> MessageError(message) == None
  {
    TrimEmptyIff(message);
  }

  /** `.length` counts an emoji beyond U+FFFF twice: five of them make a
      message long enough, although they are only five code points. */
  lemma AstralMessageLongEnough()
    ensures |"\U{1F600}\U{1F600}\U{1F600}\U{1F600}\U{1F600}"| == 5
    ensures MessageError("\U{1F600}\U{1F600}\U{1F600}\U{1F600}\U{1F600}") == None
  {
    var m := "\U{1F600}\U{1F600}\U{1F600}\U{1F600}\U{1F600}";
    TrimUnchanged(m);
    assert Utf16Length(m[4..]) == 2;
    assert Utf16Length(m[3..]) == 4;
    assert Utf16Length(m[2..]) == 6;
    assert Utf16Length(m[1..]) == 8;
  }

  /** The error record `validateForm` builds, as a value. */
  function Validate(form: FormData): FormErrors {
    FormErrors(NameError(form.name), EmailError(form.email), SubjectError(form.subject), MessageError(form.message))
  }

  /** The record is empty exactly for the forms the client accepts. */
  lemma ValidateEmptyIffAccepted(form: FormData)
    ensures Validate(form).IsEmpty() <==> ClientAccepts(form)
  {
    EmailCheckIsPattern(form.email);
    TrimEmptyIff(form.name);
    TrimEmptyIff(form.subject);
  }

  /** The example pair of mistakes: a blank name and a short message give
      exactly those two errors. */
  lemma BlankNameShortMessage()
    ensures Validate(FormData("", "a@b.com", "x", "short")) ==
      FormErrors(Some(NameRequired), None, None, Some(MessageTooShort))
  {
    var email := "a@b.com";
    assert IndexOf(email, '@') == 1;
    assert email[3] == '.';
    assert EmailError(email) == None;
    TrimUnchanged("x");
    assert SubjectError("x") == None;
    TrimUnchanged("short");
    assert MessageError("short") == Some(MessageTooShort);
  }

  // ---------------------------------------------------------------- submission

  /** The parsed JSON reply of `/api/contact`: its `error` and `details`. */
  datatype ReplyBody = ReplyBody(error: Option<string>, details: Option<string>)

  /** What `fetch` and `response.json()` produce: a reply with its `ok` flag,
      or a thrown value (an `Error` with its message, or something else). */
  datatype FetchOutcome =
    | Replied(ok: bool, body: ReplyBody)
    | ThrewError(message: string)
    | ThrewOther

  const FallbackFailure := "Failed to submit form"
  const UnknownFailure := "Failed to submit form. Please try again later."

  /** The `submitError` a request leaves behind: none on success, otherwise
      `data.error || data.details || 'Failed to submit form'` for a reply
      that is not ok, the message of a thrown `Error` (even an empty one, which
      leaves the error box hidden), or the generic text for anything else
      thrown. */
  function SubmitFailure(outcome: FetchOutcome): (r: Option<string>)
    ensures r.None? <==> outcome.Replied? && outcome.ok
    ensures outcome.Replied? && !outcome.ok && Truthy(outcome.body.error) ==> r == outcome.body.error
    ensures outcome.Replied? && !outcome.ok && !Truthy(outcome.body.error) && Truthy(outcome.body.details) ==> r == outcome.body.details
    ensures outcome.Replied? && !outcome.ok && !Truthy(outcome.body.error) && !Truthy(outcome.body.details) ==> r == Some(FallbackFailure)
    ensures outcome.ThrewError? ==> r == Some(outcome.message)
    ensures outcome.ThrewOther? ==> r == Some(UnknownFailure)
    ensures outcome.Replied? && r.Some? ==> r.value != ""
  {
    match outcome
    case Replied(ok, body) =>
      if ok then None
      else if Truthy(body.error) then body.error
      else if Truthy(body.details) then body.details
      else Some(FallbackFailure)
    case ThrewError(message) => Some(message)
    case ThrewOther => Some(UnknownFailure)
  }

  /** The mounted component and its five state fields; `requests` records
      the bodies POSTed to `/api/contact`, in order. */
  class ContactFormComponent {
    var formData: FormData
    var errors: FormErrors
    var isSubmitting: bool
    var isSubmitted: bool
    var submitError: string
    var requests: seq<FormData>

    /** Between events no submission is in flight, and every recorded error
        is a non-empty message. */
    ghost predicate Valid()
      reads this
    {
      && !isSubmitting
      && (errors.name.Some? ==> errors.name.value != "")
      && (errors.email.Some? ==> errors.email.value != "")
      && (errors.subject.Some? ==> errors.subject.value != "")
      && (errors.message.Some? ==> errors.message.value != "")
    }

    constructor ()
      ensures Valid()
      ensures formData == EmptyForm && errors == NoErrors && !isSubmitted && submitError == "" && requests == []
    {
      formData := EmptyForm;
      errors := NoErrors;
      isSubmitting := false;
      isSubmitted := false;
      submitError := "";
      requests := [];
    }

    /** `validateForm`: fills a fresh error record rule by rule, replaces
        the whole `errors` state with it, and reports whether it is empty. */
    method ValidateForm() returns (ok: bool)
      modifies this`errors
      ensures errors == Validate(formData)
      ensures ok <==> errors.IsEmpty()
    {
      var newErrors := NoErrors;
      if Trim(formData.name) == "" {
        newErrors := newErrors.(name := Some(NameRequired));
      }
      if formData.email == "" {
        newErrors := newErrors.(email := Some(EmailRequired));
      } else if !IsValidEmail(formData.email) {
        newErrors := newErrors.(email := Some(EmailInvalid));
      }
      if Trim(formData.subject) == "" {
        newErrors := newErrors.(subject := Some(SubjectRequired));
      }
      var trimmed := Trim(formData.message);
      if trimmed == "" {
        newErrors := newErrors.(message := Some(MessageRequired));
      } else if Utf16Length(trimmed) < MinMessageLength {
        newErrors := newErrors.(message := Some(MessageTooShort));
      }
      assert newErrors == Validate(formData);
      errors := newErrors;
      ok := errors.IsEmpty();
    }

    /** `handleChange`: stores the typed value in its field and clears that
        field's error, if it had one. */
    method HandleChange(f: Field, value: string)
      requires Valid()
      modifies this`formData, this`errors
      ensures Valid()
      ensures formData == old(formData).With(f, value)
      ensures errors.Get(f).None?
      ensures forall g :: g != f ==> errors.Get(g) == old(errors).Get(g)
    {
      formData := formData.With(f, value);
      if Truthy(errors.Get(f)) {
        errors := errors.Clear(f);
      }
    }

    /** `handleSubmit`, with the network exchange given as its outcome. */
    method HandleSubmit(outcome: FetchOutcome) returns (requested: bool)
      requires Valid()
      modifies this
      ensures Valid()
      ensures requested <==> Validate(old(formData)).IsEmpty()
      ensures errors == Validate(old(formData))
      ensures !requested ==>
        requests == old(requests) && formData == old(formData) &&
        submitError == "" && isSubmitted == old(isSubmitted)
      ensures requested ==> requests == old(requests) + [old(formData)]
      ensures requested && SubmitFailure(outcome).None? ==>
        isSubmitted && formData == EmptyForm && submitError == ""
      ensures requested && SubmitFailure(outcome).Some? ==>
        formData == old(formData) && isSubmitted == old(isSubmitted) && submitError == SubmitFailure(outcome).value
    {
      submitError := "";
      var ok := ValidateForm();
      if !ok {
        requested := false;
        return;
      }
      isSubmitting := true;
      requests := requests + [formData];
      requested := true;
      var failure := SubmitFailure(outcome);
      if failure.None? {
        isSubmitted := true;
        formData := EmptyForm;
      } else {
        submitError := failure.value;
      }
      isSubmitting := false;
    }
  }
}

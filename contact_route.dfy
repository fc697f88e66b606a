/**
 * `POST /api/contact`: four required fields checked in order, then the email pattern on the
 * untrimmed email; a valid submission succeeds whatever happens to the notification email.
 */
module ContactRoute {
  import opened Wrappers
  import opened Text
  import opened Patterns

  /** The JSON body; every field may be absent. */
  datatype ContactForm = ContactForm(
    firstName: Option<string>,
    lastName: Option<string>,
    email: Option<string>,
    phoneNumber: Option<string>,
    company: Option<string>,
    useCase: Option<string>,
    notes: Option<string>)

  datatype ContactResponse =
    | FieldRequired(message: string)
    | InvalidEmailFormat
    | Submitted
    | InternalError(message: string)

  /** What became of the notification email to the site owners. */
  datatype Notice = NoticeSent | NoticeSkipped | NoticeFailed

  const FirstNameRequired := "First name is required"
  const LastNameRequired := "Last name is required"
  const EmailRequired := "Email is required"
  const PhoneRequired := "Phone number is required"

  function Status(r: ContactResponse): int {
    match r
    case FieldRequired(_) | InvalidEmailFormat => 400
    case Submitted => 200
    case InternalError(_) => 500
  }

  /** `!v || !v.trim()`: absent, empty or whitespace only. */
  predicate Missing(v: Option<string>) {
    !Truthy(v) || Trim(v.value) == ""
  }

  /**
   * The guard chain: the first missing field in the order first name, last name, email, phone
   * decides the message; with all four present, an email failing the pattern is rejected, and
   * only then is the form accepted (`None`).
   */
  function CheckContact(form: ContactForm): (r: Option<ContactResponse>)
    ensures Missing(form.firstName) ==> r == Some(FieldRequired(FirstNameRequired))
    ensures !Missing(form.firstName) && Missing(form.lastName) ==> r == Some(FieldRequired(LastNameRequired))
    ensures !Missing(form.firstName) && !Missing(form.lastName) && Missing(form.email) ==>
              r == Some(FieldRequired(EmailRequired))
    ensures !Missing(form.firstName) && !Missing(form.lastName) && !Missing(form.email) && Missing(form.phoneNumber) ==>
              r == Some(FieldRequired(PhoneRequired))
    ensures r == Some(InvalidEmailFormat) <==>
              && !Missing(form.firstName) && !Missing(form.lastName) && !Missing(form.email)
              && !Missing(form.phoneNumber) && !IsEmailShape(form.email.value)
    ensures r.None? <==>
              && !Missing(form.firstName) && !Missing(form.lastName) && !Missing(form.email)
              && !Missing(form.phoneNumber) && IsEmailShape(form.email.value)
  {
    if Missing(form.firstName) then Some(FieldRequired(FirstNameRequired))
    else if Missing(form.lastName) then Some(FieldRequired(LastNameRequired))
    else if Missing(form.email) then Some(FieldRequired(EmailRequired))
    else if Missing(form.phoneNumber) then Some(FieldRequired(PhoneRequired))
    else if !IsEmailShape(form.email.value) then Some(InvalidEmailFormat)
    else None
  }

  /**
   * The handler. `body` is the parsed JSON or the parser's error message; `credentials` says
   * whether `GMAIL_USER` and `GMAIL_APP_PASSWORD` are both set and `sendSucceeds` whether
   * `sendMail` resolves. The second component is the notification's fate, when one was due.
   */
  function HandleContact(body: Result<ContactForm, string>, credentials: bool, sendSucceeds: bool)
    : (r: (ContactResponse, Option<Notice>))
    ensures body.Err? ==> r == (InternalError(body.error), None)
    ensures body.Ok? && CheckContact(body.value).Some? ==> r == (CheckContact(body.value).value, None)
    ensures body.Ok? && CheckContact(body.value).None? ==>
              && r.0 == Submitted
              && r.1 == Some(if !credentials then NoticeSkipped else if sendSucceeds then NoticeSent else NoticeFailed)
  {
    match body
    case Err(message) => (InternalError(message), None)
    case Ok(form) =>
      match CheckContact(form)
      case Some(rejection) => (rejection, None)
      case None =>
        var notice := if !credentials then NoticeSkipped else if sendSucceeds then NoticeSent else NoticeFailed;
        (Submitted, Some(notice))
  }

  /** The response never depends on the notification: sent, skipped or failed, a valid form gets 200. */
  lemma NotificationNeverChangesResponse(body: Result<ContactForm, string>, c1: bool, s1: bool, c2: bool, s2: bool)
    ensures HandleContact(body, c1, s1).0 == HandleContact(body, c2, s2).0
  {
  }

  /** Company, use case and notes are never looked at. */
  lemma OptionalFieldsIgnored(form: ContactForm, company: Option<string>, useCase: Option<string>, notes: Option<string>)
    ensures CheckContact(form.(company := company, useCase := useCase, notes := notes)) == CheckContact(form)
  {
  }

  /** The pattern sees the email as sent, so an address with whitespace around it is rejected. */
  lemma {:induction false} PaddedEmailRejected(form: ContactForm)
    requires !Missing(form.firstName) && !Missing(form.lastName) && !Missing(form.phoneNumber)
    requires form.email.Some? && |form.email.value| > 0
    requires IsSpace(form.email.value[0]) || IsSpace(form.email.value[|form.email.value| - 1])
    ensures CheckContact(form) == Some(FieldRequired(EmailRequired)) || CheckContact(form) == Some(InvalidEmailFormat)
    ensures !Missing(form.email) ==> CheckContact(form) == Some(InvalidEmailFormat)
  {
    var e := form.email.value;
    if IsEmailShape(e) {
      EmailShapeMatches(e);
      EmailRegexHasNoSpace(e);
      assert false;
    }
  }
}

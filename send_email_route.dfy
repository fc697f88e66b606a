/**
 * `POST /api/send-email`: the optional bearer secret, then the recipient, then the Gmail
 * settings; the follow-up mail greets the customer by name and lists the phone only when one
 * was given.
 */
module SendEmailRoute {
  import opened Wrappers
  import opened Text
  import opened BearerAuth

  /** The JSON body's four fields. */
  datatype FollowUpRequest = FollowUpRequest(id: Option<string>, email: Option<string>, name: Option<string>, phone: Option<string>)

  /** `GMAIL_USER` and `GMAIL_APP_PASSWORD`. */
  datatype GmailConfig = GmailConfig(user: Option<string>, appPassword: Option<string>)

  /** The parts of the mail that depend on the request: recipient, sender, greeting and phone paragraph. */
  datatype FollowUpMail = FollowUpMail(to: string, from: string, replyTo: string, customerName: string, phoneLine: Option<string>)

  datatype SendEmailResponse =
    | Unauthorized
    | EmailRequired
    | NotConfigured
    | EmailSent(id: Option<string>)
    | SendFailed(message: string)

  const DefaultCustomerName := "Valued Customer"

  function Status(r: SendEmailResponse): int {
    match r
    case Unauthorized => 401
    case EmailRequired => 400
    case NotConfigured | SendFailed(_) => 500
    case EmailSent(_) => 200
  }

  predicate GmailConfigured(gmail: GmailConfig) {
    Truthy(gmail.user) && Truthy(gmail.appPassword)
  }

  /** The mail built for a request with a truthy email and a configured sender. */
  function ComposeMail(req: FollowUpRequest, gmail: GmailConfig): (m: FollowUpMail)
    requires Truthy(req.email) && GmailConfigured(gmail)
    ensures m.to == req.email.value && m.replyTo == gmail.user.value
    ensures m.from == "Infini8 Voice <" + gmail.user.value + ">"
    ensures Truthy(req.name) ==> m.customerName == req.name.value
    ensures !Truthy(req.name) ==> m.customerName == DefaultCustomerName
    ensures m.phoneLine.Some? <==> Truthy(req.phone)
    ensures m.phoneLine.Some? ==> m.phoneLine.value == req.phone.value
  {
    FollowUpMail(
      req.email.value,
      "Infini8 Voice <" + gmail.user.value + ">",
      gmail.user.value,
      OrElse(req.name, DefaultCustomerName),
      if Truthy(req.phone) then Some(req.phone.value) else None)
  }

  /**
   * The handler. `body` is the parsed JSON or the parser's error message; `sendError` is `None`
   * when `sendMail` resolves and the thrown message otherwise. The second component is the mail
   * handed to the transport, if any.
   */
  function HandleSendEmail(
    secret: Option<string>, header: Option<string>, body: Result<FollowUpRequest, string>,
    gmail: GmailConfig, sendError: Option<string>)
    : (r: (SendEmailResponse, Option<FollowUpMail>))
    ensures r.0 == Unauthorized <==> !Authorized(secret, header)
    ensures Authorized(secret, header) && body.Err? ==> r == (SendFailed(body.error), None)
    ensures r.0 == EmailRequired <==> Authorized(secret, header) && body.Ok? && !Truthy(body.value.email)
    ensures r.0 == NotConfigured <==>
              Authorized(secret, header) && body.Ok? && Truthy(body.value.email) && !GmailConfigured(gmail)
    ensures r.1.Some? <==>
              Authorized(secret, header) && body.Ok? && Truthy(body.value.email) && GmailConfigured(gmail)
    ensures r.1.Some? ==>
              && r.1.value == ComposeMail(body.value, gmail)
              && r.0 == (if sendError.None? then EmailSent(body.value.id) else SendFailed(sendError.value))
  {
    if !Authorized(secret, header) then (Unauthorized, None)
    else match body
      case Err(message) => (SendFailed(message), None)
      case Ok(req) =>
        if !Truthy(req.email) then (EmailRequired, None)
        else if !GmailConfigured(gmail) then (NotConfigured, None)
        else
          var mail := ComposeMail(req, gmail);
          match sendError
          case None => (EmailSent(req.id), Some(mail))
          case Some(message) => (SendFailed(message), Some(mail))
  }

  /** The secret is checked before the body is looked at: a refused request gives 401 whatever it carries. */
  lemma UnauthorizedBeforeBody(
    secret: Option<string>, header: Option<string>, b1: Result<FollowUpRequest, string>,
    b2: Result<FollowUpRequest, string>, gmail: GmailConfig, e1: Option<string>, e2: Option<string>)
    requires !Authorized(secret, header)
    ensures HandleSendEmail(secret, header, b1, gmail, e1) == HandleSendEmail(secret, header, b2, gmail, e2)
    ensures Status(HandleSendEmail(secret, header, b1, gmail, e1).0) == 401
  {
  }

  /** A missing recipient is reported as 400 even when the sender is not configured. */
  lemma EmailCheckedBeforeConfig(
    secret: Option<string>, header: Option<string>, req: FollowUpRequest, gmail: GmailConfig, e: Option<string>)
    requires Authorized(secret, header) && !Truthy(req.email)
    ensures Status(HandleSendEmail(secret, header, Ok(req), gmail, e).0) == 400
  {
  }

  /** 200 exactly when the mail was handed over and the transport did not throw. */
  lemma OkIffSent(
    secret: Option<string>, header: Option<string>, body: Result<FollowUpRequest, string>,
    gmail: GmailConfig, sendError: Option<string>)
    ensures Status(HandleSendEmail(secret, header, body, gmail, sendError).0) == 200 <==>
              HandleSendEmail(secret, header, body, gmail, sendError).1.Some? && sendError.None?
  {
  }
}

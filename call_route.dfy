/**
 * `POST /api/call`: checks the phone, then the three ElevenLabs settings in a fixed order, builds
 * the outbound-call request and maps the upstream answer to a status code.
 */
module CallRoute {
  import opened Wrappers
  import opened Text
  import opened Patterns

  /** The two fields the route destructures from the JSON body. */
  datatype CallPayload = CallPayload(phone: Option<string>, name: Option<string>)

  /** `ELEVENLABS_API_KEY`, `ELEVENLABS_AGENT_ID` and `ELEVENLABS_AGENT_PHONE_ID`. */
  datatype CallConfig = CallConfig(apiKey: Option<string>, agentId: Option<string>, agentPhoneId: Option<string>)

  /** The body posted to the outbound-call endpoint. */
  datatype OutboundCall = OutboundCall(
    agentId: string,
    agentPhoneNumberId: string,
    toNumber: string,
    customerName: string,
    language: string,
    source: string)

  /** What the upstream call produced: an ok response with its JSON, a failed one with its text, or a throw. */
  datatype Upstream =
    | UpstreamOk(data: string)
    | UpstreamNotOk(text: string)
    | UpstreamThrew(message: string)

  datatype CallResponse =
    | InvalidPhone
    | ApiKeyMissing
    | AgentIdMissing
    | AgentPhoneIdMissing
    | UpstreamError(text: string)
    | Forwarded(data: string)
    | InternalError(message: string)

  const Language := "en-IN"
  const Source := "infini8voice-site"
  const DefaultName := "Guest"

  function Status(r: CallResponse): int {
    match r
    case InvalidPhone => 400
    case ApiKeyMissing | AgentIdMissing | AgentPhoneIdMissing | InternalError(_) => 500
    case UpstreamError(_) => 502
    case Forwarded(_) => 200
  }

  /** `!phone || !/^\+?[1-9]\d{7,14}$/.test(phone)` is false. */
  predicate AcceptsPhone(phone: Option<string>) {
    Truthy(phone) && IsLooseE164(phone.value)
  }

  /**
   * The guard chain and the request literal: the phone is checked before any setting, the
   * settings in the order key, agent, agent phone, and the accepted request always dials a
   * '+'-prefixed E.164 number.
   */
  function PlanCall(payload: CallPayload, config: CallConfig): (r: Result<OutboundCall, CallResponse>)
    ensures !AcceptsPhone(payload.phone) ==> r == Err(InvalidPhone)
    ensures AcceptsPhone(payload.phone) && !Truthy(config.apiKey) ==> r == Err(ApiKeyMissing)
    ensures AcceptsPhone(payload.phone) && Truthy(config.apiKey) && !Truthy(config.agentId) ==>
              r == Err(AgentIdMissing)
    ensures (AcceptsPhone(payload.phone) && Truthy(config.apiKey) && Truthy(config.agentId)
             && !Truthy(config.agentPhoneId)) ==> r == Err(AgentPhoneIdMissing)
    ensures r.Ok? <==> AcceptsPhone(payload.phone) && Truthy(config.apiKey) && Truthy(config.agentId)
                       && Truthy(config.agentPhoneId)
    ensures r.Ok? ==>
              && IsStrictE164(r.value.toNumber)
              && (StartsWithPlus(payload.phone.value) ==> r.value.toNumber == payload.phone.value)
              && (!StartsWithPlus(payload.phone.value) ==> r.value.toNumber == "+" + payload.phone.value)
              && r.value.customerName == OrElse(payload.name, DefaultName)
              && r.value.agentId == config.agentId.value
              && r.value.agentPhoneNumberId == config.agentPhoneId.value
  {
    if !AcceptsPhone(payload.phone) then Err(InvalidPhone)
    else if !Truthy(config.apiKey) then Err(ApiKeyMissing)
    else if !Truthy(config.agentId) then Err(AgentIdMissing)
    else if !Truthy(config.agentPhoneId) then Err(AgentPhoneIdMissing)
    else
      var phone := payload.phone.value;
      LooseWithPlusIsStrict(phone);
      Ok(OutboundCall(
        config.agentId.value,
        config.agentPhoneId.value,
        WithPlus(phone),
        OrElse(payload.name, DefaultName),
        Language,
        Source))
  }

  /**
   * The whole handler. `body` is the parsed JSON or the parser's error message; `upstream` is
   * what the outbound call returns if it is made. The second component is the request posted
   * upstream, if any.
   */
  function HandleCall(body: Result<CallPayload, string>, config: CallConfig, upstream: Upstream)
    : (r: (CallResponse, Option<OutboundCall>))
    ensures body.Err? ==> r == (InternalError(body.error), None)
    ensures r.1.Some? <==> body.Ok? && PlanCall(body.value, config).Ok?
    ensures body.Ok? && PlanCall(body.value, config).Err? ==> r.0 == PlanCall(body.value, config).error
    ensures r.1.Some? ==>
              r.1.value == PlanCall(body.value, config).value
              && (upstream.UpstreamOk? ==> r.0 == Forwarded(upstream.data))
              && (upstream.UpstreamNotOk? ==> r.0 == UpstreamError(upstream.text))
              && (upstream.UpstreamThrew? ==> r.0 == InternalError(upstream.message))
  {
    match body
    case Err(message) => (InternalError(message), None)
    case Ok(payload) =>
      match PlanCall(payload, config)
      case Err(response) => (response, None)
      case Ok(call) =>
        var response :=
          match upstream
          case UpstreamOk(data) => Forwarded(data)
          case UpstreamNotOk(text) => UpstreamError(text)
          case UpstreamThrew(message) => InternalError(message);
        (response, Some(call))
  }

  /** 400 exactly for a parsed body with an unacceptable phone, whatever the settings and upstream. */
  lemma BadRequestIffPhoneRejected(body: Result<CallPayload, string>, config: CallConfig, upstream: Upstream)
    ensures Status(HandleCall(body, config, upstream).0) == 400 <==> body.Ok? && !AcceptsPhone(body.value.phone)
  {
  }

  /** 502 exactly when the call was placed and the upstream answered with a non-ok status. */
  lemma BadGatewayIffUpstreamRefused(body: Result<CallPayload, string>, config: CallConfig, upstream: Upstream)
    ensures Status(HandleCall(body, config, upstream).0) == 502 <==>
              HandleCall(body, config, upstream).1.Some? && upstream.UpstreamNotOk?
  {
  }

  /** A number the booking dialog submits passes this route's check and is dialled unchanged. */
  lemma ModalPhoneDialledUnchanged(phone: string, name: Option<string>, config: CallConfig)
    requires IsStrictE164(phone)
    requires Truthy(config.apiKey) && Truthy(config.agentId) && Truthy(config.agentPhoneId)
    ensures PlanCall(CallPayload(Some(phone), name), config).Ok?
    ensures PlanCall(CallPayload(Some(phone), name), config).value.toNumber == phone
  {
    StrictIsLoose(phone);
  }
}

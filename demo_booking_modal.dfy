/**
 * The demo-booking dialog: its form state, field validation, phone normalisation and the
 * decision whether to request an outbound call.
 */
module DemoBookingModal {
  import opened Wrappers
  import opened Text
  import opened Patterns

  /**
   * `normalizePhone`: text that starts with '+' once trimmed keeps its characters minus whitespace;
   * anything else becomes '+' followed by its digits.
   */
  function NormalizePhone(raw: string): (r: string)
    ensures StartsWithPlus(r) && NoSpace(r)
    ensures StartsWithPlus(Trim(raw)) ==> r == RemoveSpaces(raw)
    ensures !StartsWithPlus(Trim(raw)) ==> r == "+" + DigitsOf(raw)
  {
    var trimmed := Trim(raw);
    RemoveSpacesIgnoresTrim(raw);
    DigitsOfIgnoresTrim(raw);
    if StartsWithPlus(trimmed) then
      RemoveSpacesHead(trimmed);
      RemoveSpaces(trimmed)
    else
      var digits := DigitsOf(trimmed);
      forall i | 0 <= i < |digits| ensures !IsSpace(digits[i]) { DigitNotSpace(digits[i]); }
      "+" + digits
  }

  /** Normalising twice is normalising once. */
  lemma NormalizePhoneIdempotent(raw: string)
    ensures NormalizePhone(NormalizePhone(raw)) == NormalizePhone(raw)
  {
    var r := NormalizePhone(raw);
    TrimNoSpace(r);
    FilterKeepsAll(r, NotSpace);
  }

  datatype Field = Name | Email | CountryCode | PhoneNumber

  const AllFields: set<Field> := {Name, Email, CountryCode, PhoneNumber}

  datatype FormData = FormData(name: string, email: string, countryCode: string, phoneNumber: string)
  {
    function Get(f: Field): string {
      match f
      case Name => name
      case Email => email
      case CountryCode => countryCode
      case PhoneNumber => phoneNumber
    }

    /** `{ ...prev, [field]: value }` */
    function With(f: Field, v: string): (r: FormData)
      ensures r.Get(f) == v
      ensures forall g :: g != f ==> r.Get(g) == Get(g)
    {
      match f
      case Name => this.(name := v)
      case Email => this.(email := v)
      case CountryCode => this.(countryCode := v)
      case PhoneNumber => this.(phoneNumber := v)
    }
  }

  const DefaultCountryCode := "+91"
  const InitialForm := FormData("", "", DefaultCountryCode, "")

  const NameRequired := "Name is required"
  const EmailRequired := "Email is required"
  const EmailInvalid := "Please enter a valid email address"
  const CountryCodeRequired := "Country code is required"
  const PhoneRequired := "Phone number is required"
  const PhoneInvalid := "Enter a valid phone number"
  const CallPlaced := "Call is being placed. You'll receive it shortly."
  const CallFailed := "Failed to trigger the call"
  const SomethingWentWrong := "Something went wrong while placing the call."

  /** The message each field shows, if any, judged field by field. */
  function FieldError(form: FormData, f: Field): Option<string> {
    match f
    case Name => if Trim(form.name) == "" then Some(NameRequired) else None
    case Email =>
      if Trim(form.email) == "" then Some(EmailRequired)
      else if !IsEmailShape(Trim(form.email)) then Some(EmailInvalid)
      else None
    case CountryCode => if Trim(form.countryCode) == "" then Some(CountryCodeRequired) else None
    case PhoneNumber => if Trim(form.phoneNumber) == "" then Some(PhoneRequired) else None
  }

  /** Records field `f`'s message in `m` when the field has one. */
  function WithError(m: map<Field, string>, form: FormData, f: Field): map<Field, string> {
    match FieldError(form, f)
    case Some(msg) => m[f := msg]
    case None => m
  }

  /** The error dictionary `validateForm` builds: the four checks in order, each adding its field's message. */
  function FormErrors(form: FormData): map<Field, string> {
    WithError(WithError(WithError(WithError(map[], form, Name), form, Email), form, CountryCode), form, PhoneNumber)
  }

  /** A field has an entry exactly when its rule fails, and the entry is that rule's message. */
  lemma FormErrorsPerField(form: FormData, f: Field)
    ensures f in FormErrors(form) <==> FieldError(form, f).Some?
    ensures f in FormErrors(form) ==> FormErrors(form)[f] == FieldError(form, f).value
  {
  }

  /** Name, country code and phone are not blank, and the trimmed email matches the email pattern. */
  ghost predicate FormIsValid(form: FormData) {
    && !IsBlank(form.name) && !IsBlank(form.countryCode) && !IsBlank(form.phoneNumber)
    && !IsBlank(form.email) && MatchesEmailRegex(Trim(form.email))
  }

  /** The form has no error exactly when it is valid; a blank email is reported as missing, a malformed one as invalid. */
  lemma FormErrorsEmptyIffValid(form: FormData)
    ensures FormErrors(form) == map[] <==> FormIsValid(form)
    ensures IsBlank(form.email) ==> Email in FormErrors(form) && FormErrors(form)[Email] == EmailRequired
    ensures !IsBlank(form.email) && !MatchesEmailRegex(Trim(form.email)) ==>
              Email in FormErrors(form) && FormErrors(form)[Email] == EmailInvalid
  {
    EmailShapeIffRegex(Trim(form.email));
    TrimEmptyIffBlank(form.name);
    TrimEmptyIffBlank(form.email);
    TrimEmptyIffBlank(form.countryCode);
    TrimEmptyIffBlank(form.phoneNumber);
    FormErrorsPerField(form, Email);
    if !FormIsValid(form) {
      var f :| f in AllFields && FieldError(form, f).Some?;
      FormErrorsPerField(form, f);
    }
  }

  /** The first half of `validateForm`: fills a fresh error dictionary one check at a time. */
  method CollectErrors(form: FormData) returns (newErrors: map<Field, string>)
    ensures newErrors == FormErrors(form)
  {
    newErrors := map[];
    if Trim(form.name) == "" {
      newErrors := newErrors[Name := NameRequired];
    }
    assert newErrors == WithError(map[], form, Name);
    var email := Trim(form.email);
    ghost var before := newErrors;
    if email == "" {
      newErrors := newErrors[Email := EmailRequired];
    } else if !IsEmailShape(email) {
      newErrors := newErrors[Email := EmailInvalid];
    }
    assert newErrors == WithError(before, form, Email);
    before := newErrors;
    if Trim(form.countryCode) == "" {
      newErrors := newErrors[CountryCode := CountryCodeRequired];
    }
    assert newErrors == WithError(before, form, CountryCode);
    before := newErrors;
    if Trim(form.phoneNumber) == "" {
      newErrors := newErrors[PhoneNumber := PhoneRequired];
    }
    assert newErrors == WithError(before, form, PhoneNumber);
  }

  /**
   * The country-code box's `onChange`: non-empty input without a leading '+' is stored as '+'
   * and the input with every '+' deleted; anything else is stored as typed.
   */
  function CountryCodeInput(value: string): (r: string)
    ensures r == "" <==> value == ""
    ensures value != "" ==> StartsWithPlus(r)
    ensures StartsWithPlus(value) ==> r == value
    ensures value != "" && !StartsWithPlus(value) ==> '+' !in r[1..] && r[1..] == RemovePlus(value)
  {
    if value != "" && !StartsWithPlus(value) then "+" + RemovePlus(value) else value
  }

  /** Typing the stored code back into the box stores the same code. */
  lemma CountryCodeInputIdempotent(value: string)
    ensures CountryCodeInput(CountryCodeInput(value)) == CountryCodeInput(value)
  {
  }

  /**
   * The pre-fill effect for a number starting with '+': the first whitespace-delimited token becomes
   * the country code and the remaining tokens, joined, the phone number.
   */
  function SplitInitialPhone(initial: string): (r: (string, string))
    requires StartsWithPlus(initial)
    ensures r.0 == initial[..FirstSpace(initial)] && StartsWithPlus(r.0)
    ensures r.1 == RemoveSpaces(initial[FirstSpace(initial)..])
  {
    var parts := SplitOnSpaces(initial);
    SplitInitialPhoneParts(initial);
    var code := if parts[0] != "" then parts[0] else DefaultCountryCode;
    (code, Concat(parts[1..]))
  }

  /** For text starting with '+', the first piece of the split is the text up to the first whitespace, and the others join to the rest without whitespace. */
  lemma SplitInitialPhoneParts(initial: string)
    requires StartsWithPlus(initial)
    ensures SplitOnSpaces(initial)[0] == initial[..FirstSpace(initial)]
    ensures Concat(SplitOnSpaces(initial)[1..]) == RemoveSpaces(initial[FirstSpace(initial)..])
  {
    var parts := SplitOnSpaces(initial);
    var k := FirstSpace(initial);
    assert parts[0] == initial[..k];
    assert Concat(parts) == parts[0] + Concat(parts[1..]);
    SplitThenConcat(initial);
    RemoveSpacesAround(initial[..k], [], initial[k..]);
    assert initial == initial[..k] + ([] + initial[k..]);
    assert Concat(parts[1..]) == Concat(parts)[k..];
  }

  /** Outcome of the `fetch("/api/call")` made on submit. */
  datatype CallReply =
    | CallAccepted
    | CallRejected(text: string)     // a response that is not ok, with its body text
    | CallUnreachable(message: string)  // fetch threw

  /** The JSON body posted to the call route. */
  datatype CallRequestBody = CallRequestBody(phone: string, name: string, email: string)

  /** The phone number submit builds: code and number with whitespace removed, then normalised. */
  function SubmittedPhone(form: FormData): string {
    NormalizePhone(RemoveSpaces(form.countryCode) + RemoveSpaces(form.phoneNumber))
  }

  /** The dialog's state: form fields, per-field errors, the busy flag and the two banners. */
  class BookingForm {
    var form: FormData
    var errors: map<Field, string>
    var loading: bool
    var serverError: Option<string>
    var okMsg: Option<string>

    constructor ()
      ensures form == InitialForm && errors == map[] && !loading
      ensures serverError == None && okMsg == None
    {
      form := InitialForm;
      errors := map[];
      loading := false;
      serverError := None;
      okMsg := None;
    }

    /** `handleInputChange`: sets one field and blanks that field's error if it had one. */
    method HandleInputChange(field: Field, value: string)
      modifies this
      ensures form == old(form).With(field, value)
      ensures errors.Keys == old(errors).Keys
      ensures field in errors ==> errors[field] == ""
      ensures forall g :: g in errors && g != field ==> errors[g] == old(errors)[g]
      ensures loading == old(loading) && serverError == old(serverError) && okMsg == old(okMsg)
    {
      form := form.With(field, value);
      if field in errors && errors[field] != "" {
        errors := errors[field := ""];
      }
    }

    /** The country-code box's `onChange`. */
    method OnCountryCodeChange(value: string)
      modifies this
      ensures form == old(form).(countryCode := CountryCodeInput(value))
      ensures errors.Keys == old(errors).Keys
      ensures CountryCode in errors ==> errors[CountryCode] == ""
      ensures forall g :: g in errors && g != CountryCode ==> errors[g] == old(errors)[g]
      ensures loading == old(loading) && serverError == old(serverError) && okMsg == old(okMsg)
    {
      HandleInputChange(CountryCode, CountryCodeInput(value));
    }

    /** The effect run when `initialPhoneNumber` changes. */
    method ApplyInitialPhoneNumber(initial: string)
      modifies this`form
      ensures initial == "" ==> form == old(form)
      ensures StartsWithPlus(initial) ==>
                form == old(form).(countryCode := initial[..FirstSpace(initial)],
                                   phoneNumber := RemoveSpaces(initial[FirstSpace(initial)..]))
      ensures initial != "" && !StartsWithPlus(initial) ==> form == old(form).(phoneNumber := initial)
    {
      if initial != "" {
        if StartsWithPlus(initial) {
          var (code, number) := SplitInitialPhone(initial);
          form := form.(countryCode := code, phoneNumber := number);
        } else {
          form := form.(phoneNumber := initial);
        }
      }
    }

    /** `validateForm`: replaces the errors with this form's errors and reports whether there were none. */
    method ValidateForm() returns (ok: bool)
      modifies this`errors
      ensures errors == FormErrors(form)
      ensures ok <==> errors == map[]
      ensures ok <==> FormIsValid(form)
    {
      var newErrors := CollectErrors(form);
      errors := newErrors;
      FormErrorsEmptyIffValid(form);
      ok := |newErrors| == 0;
    }

    /**
     * The `try`/`catch`/`finally` of `handleSubmit`, after the request has been posted and `reply`
     * came back: success clears the form and shows the confirmation, a failure shows its message.
     */
    method PlaceCall(reply: CallReply)
      modifies this`form, this`okMsg, this`serverError, this`loading
      ensures !loading
      ensures reply == CallAccepted ==>
                form == InitialForm && okMsg == Some(CallPlaced) && serverError == old(serverError)
      ensures reply.CallRejected? ==>
                form == old(form) && okMsg == old(okMsg)
                && serverError == Some(if reply.text == "" then CallFailed else reply.text)
      ensures reply.CallUnreachable? ==>
                form == old(form) && okMsg == old(okMsg)
                && serverError == Some(if reply.message == "" then SomethingWentWrong else reply.message)
    {
      loading := true;
      match reply {
        case CallAccepted =>
          okMsg := Some(CallPlaced);
          form := InitialForm;
        case CallRejected(text) =>
          var message := if text != "" then text else CallFailed;
          serverError := Some(if message != "" then message else SomethingWentWrong);
        case CallUnreachable(message) =>
          serverError := Some(if message != "" then message else SomethingWentWrong);
      }
      loading := false;
    }

    /**
     * `handleSubmit`: validates, builds and checks the phone, and posts the call request when both
     * pass; `request` is the body posted, if any.
     */
    method HandleSubmit(reply: CallReply) returns (request: Option<CallRequestBody>)
      modifies this
      ensures request.Some? <==> FormIsValid(old(form)) && IsStrictE164(SubmittedPhone(old(form)))
      ensures request.Some? ==>
                && request.value == CallRequestBody(SubmittedPhone(old(form)), Trim(old(form).name), Trim(old(form).email))
                && IsLooseE164(request.value.phone)
      ensures !FormIsValid(old(form)) ==>
                errors == FormErrors(old(form)) && form == old(form) && loading == old(loading)
                && serverError == None && okMsg == None
      ensures FormIsValid(old(form)) && !IsStrictE164(SubmittedPhone(old(form))) ==>
                errors == map[PhoneNumber := PhoneInvalid] && form == old(form) && loading == old(loading)
                && serverError == None && okMsg == None
      ensures request.Some? ==> errors == map[] && !loading
      ensures request.Some? && reply == CallAccepted ==>
                form == InitialForm && okMsg == Some(CallPlaced) && serverError == None
      ensures request.Some? && reply.CallRejected? ==>
                form == old(form) && okMsg == None
                && serverError == Some(if reply.text == "" then CallFailed else reply.text)
      ensures request.Some? && reply.CallUnreachable? ==>
                form == old(form) && okMsg == None
                && serverError == Some(if reply.message == "" then SomethingWentWrong else reply.message)
    {
      serverError := None;
      okMsg := None;
      var valid := ValidateForm();
      if !valid {
        request := None;
        return;
      }
      var phone := NormalizePhone(RemoveSpaces(form.countryCode) + RemoveSpaces(form.phoneNumber));
      if !IsStrictE164(phone) {
        errors := errors[PhoneNumber := PhoneInvalid];
        request := None;
        return;
      }
      StrictIsLoose(phone);
      var name := Trim(form.name);
      TrimEmptyIffBlank(form.name);
      request := Some(CallRequestBody(phone, if name != "" then name else "Guest", Trim(form.email)));
      PlaceCall(reply);
    }
  }
}

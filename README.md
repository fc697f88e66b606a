# Dafny model of the echoAI site's request logic

The echoAI repository is a marketing site for an AI voice-calling product. Almost all of it is
presentation. This project models the parts that make decisions:

- **The delayed follow-up cron job** (`GET`/`POST /api/cron/send-delayed-emails`):
  - checks an optional bearer secret and whether email sending is configured;
  - lists the `call_requests` rows whose follow-up email is due;
  - sends each one and stamps `email_sent_at` after a successful send;
  - reports the counts of sent and failed rows, plus one error entry per failure.

  The table is a class `CallRequestStore` holding a `map` from row id to row. The sender, the
  update's result and the update time are oracles keyed by row id. The run is the method
  `RunJob`, whose loop lives in `ProcessPending`. Both are proved against the specification
  functions `TallyOf`, `ApplyMarks` and `MailsOf`. The lemmas about those functions carry the
  counting and "only succeeded rows change" properties.
- **The demo-booking dialog**:
  - phone normalisation;
  - form validation, which fills an error dictionary;
  - the input handlers;
  - the pre-fill split of an initial phone number;
  - the submit handler, which builds the phone, checks it against the strict E.164-style pattern
    and posts the call request.

  The dialog's state is the class `BookingForm`.
- **Three API routes**, each a pure function from the parsed body, the configuration and the
  outcome of its one external call to a response:
  - `/api/call`, the outbound voice call;
  - `/api/contact`, the contact form;
  - `/api/send-email`, the follow-up email.
- **The case-studies page**: the `study` parameter selects the first case study with that id,
  falling back to the first entry. Two entries share the id `cinco`, so the third entry can never
  be selected. The class `CaseStudiesPage` keeps that as an invariant.

Shared pieces:
- `Text` holds the JavaScript string operations the code relies on: `trim`, `\s`,
  `replace(/re/g, "")`, `split(/\s+/)`/`join("")`, and truthiness of optional strings. `\s` and
  `trim` use the same whitespace set.
- `Patterns` holds the three regular expressions:
  - `^\+[1-9]\d{7,14}$`, the strict phone pattern;
  - `^\+?[1-9]\d{7,14}$`, the loose phone pattern;
  - `^[^\s@]+@[^\s@]+\.[^\s@]+$`, the email pattern. It appears twice: as a ghost definition
    with an existential split, and as an executable scan. The two are proved equivalent.
- `BearerAuth` is the shared secret check.

Environment variables, request bodies and headers are `Option` inputs. A missing value is `None`;
JavaScript truthiness of a string is `Some(s)` with `s != ""`. A body that cannot be parsed is an
`Err` carrying the parser's message.

On these points the model follows the code:
- the store's update overwrites `email_sent_at` unconditionally (`MarkRowOverwrites`); it does not
  keep the first time written;
- an update that returns an error after a successful send counts as a success with no error entry;
- an update that throws counts as a failure with an error entry, and the row stays unmarked;
- rows with an empty email are fetched and skipped, so successful + failed can be less than the
  number processed (`TallyBalances` states the exact balance).

## Model

| member | source | states |
|---|---|---|
| Text.TrimEmptyIffBlank | components/demo-booking-modal.tsx:69-76 | `!s.trim()` holds exactly when every character of `s` is whitespace |
| Text.TrimDecomposes | components/demo-booking-modal.tsx:84 | `trim` cuts `s` into blank lead, result and blank trail, and the result neither starts nor ends with whitespace |
| Text.TrimStartSplits | components/demo-booking-modal.tsx:84 | `trimStart` removes the longest blank prefix |
| Text.TrimEndSplits | components/demo-booking-modal.tsx:84 | `trimEnd` removes the longest blank suffix |
| Text.TrimNoSpace | components/demo-booking-modal.tsx:84-85 | trimming text without whitespace changes nothing |
| Text.RemoveSpacesIgnoresTrim | components/demo-booking-modal.tsx:84-85 | deleting whitespace gives the same text whether or not it was trimmed first |
| Text.DigitsOfIgnoresTrim | components/demo-booking-modal.tsx:84-86 | keeping only digits gives the same text whether or not it was trimmed first |
| Text.FilterAppend | components/demo-booking-modal.tsx:85-86 | a global regex delete distributes over concatenation |
| Text.SplitThenConcat | components/demo-booking-modal.tsx:47-49 | `split(/\s+/)` then `join("")` deletes exactly the whitespace |
| Text.FirstSpace | components/demo-booking-modal.tsx:47 | where `split(/\s+/)` cuts the first piece: no whitespace before that index, and whitespace at it unless it is the end of the text |
| Text.RemoveSpaces | components/demo-booking-modal.tsx:85 | `replace(/\s+/g, "")` leaves no whitespace |
| Text.DigitsOf | components/demo-booking-modal.tsx:86 | `replace(/\D/g, "")` leaves only digits |
| Text.RemovePlus | components/demo-booking-modal.tsx:225 | `replace(/\+/g, "")` leaves no '+' |
| Patterns.StrictIsLoose | app/api/call/route.ts:9 | every phone the dialog's strict pattern accepts, the call route's pattern accepts |
| Patterns.LooseWithPlusIsStrict | app/api/call/route.ts:31 | prefixing '+' to a phone the route accepts yields a strict E.164-style number |
| Patterns.StrictDigits | components/demo-booking-modal.tsx:101 | a strict number is '+', a non-zero digit, then digits, 9 to 16 characters in all |
| Patterns.EmailShapeIffRegex | components/demo-booking-modal.tsx:72 | the executable scan accepts exactly the strings the email pattern matches |
| Patterns.EmailRegexHasNoSpace | app/api/contact/route.ts:33-34 | a string the email pattern matches contains no whitespace |
| DemoBookingModal.NormalizePhone | components/demo-booking-modal.tsx:83-88 | the result starts with '+' and has no whitespace; a trimmed '+' input loses only its whitespace, any other input becomes '+' and its digits in order |
| DemoBookingModal.NormalizePhoneIdempotent | components/demo-booking-modal.tsx:84-85 | normalising a normalised phone changes nothing |
| DemoBookingModal.FormData.With | components/demo-booking-modal.tsx:61 | `{ ...prev, [field]: value }` sets that field and keeps every other field |
| DemoBookingModal.FormErrorsPerField | components/demo-booking-modal.tsx:67-77 | the error dictionary has an entry for a field exactly when that field's rule fails, holding that rule's message |
| DemoBookingModal.FormErrorsEmptyIffValid | components/demo-booking-modal.tsx:66-80 | no errors exactly when name, country code and phone are non-blank and the trimmed email is non-blank and matches the email pattern; a blank email is reported as required, a malformed one as invalid |
| DemoBookingModal.CollectErrors | components/demo-booking-modal.tsx:67-77 | the dictionary filled check by check equals the form's error dictionary |
| DemoBookingModal.CountryCodeInput | components/demo-booking-modal.tsx:221-228 | empty input stays empty, input starting with '+' is kept, anything else becomes '+' followed by the input with every '+' removed |
| DemoBookingModal.CountryCodeInputIdempotent | components/demo-booking-modal.tsx:221-228 | typing the stored code again stores the same code |
| DemoBookingModal.SplitInitialPhone | components/demo-booking-modal.tsx:46-50 | for a pre-fill starting with '+', the code is the text before the first whitespace and the number is the rest with whitespace deleted |
| DemoBookingModal.SplitInitialPhoneParts | components/demo-booking-modal.tsx:47-49 | the first piece of the split is the text before the first whitespace, and the other pieces join to the rest without whitespace |
| DemoBookingModal.BookingForm.constructor | components/demo-booking-modal.tsx:16-26 | the dialog starts with an empty form, country code "+91", no errors, not loading and no banners |
| DemoBookingModal.BookingForm.HandleInputChange | components/demo-booking-modal.tsx:60-64 | only the named field changes; only that field's error is blanked, and only if it had one |
| DemoBookingModal.BookingForm.OnCountryCodeChange | components/demo-booking-modal.tsx:221-228 | the country code becomes the prefixed input, its own error is blanked if it had one, and the other errors are unchanged |
| DemoBookingModal.BookingForm.ApplyInitialPhoneNumber | components/demo-booking-modal.tsx:43-55 | an empty pre-fill changes nothing; a '+' pre-fill sets code and number from the split; any other pre-fill sets only the number |
| DemoBookingModal.BookingForm.ValidateForm | components/demo-booking-modal.tsx:66-80 | the errors become the form's error dictionary, and the result is true exactly when the form is valid |
| DemoBookingModal.BookingForm.PlaceCall | components/demo-booking-modal.tsx:106-136 | an accepted call clears the form and shows the confirmation; a refusal shows its text or "Failed to trigger the call"; a throw shows its message or the generic one; loading ends false |
| DemoBookingModal.BookingForm.HandleSubmit | components/demo-booking-modal.tsx:90-137 | a request is posted exactly when the form is valid and the normalised phone is strict E.164; it carries that phone and the trimmed name and email; an invalid form leaves only its errors; a bad phone leaves only the phone error |
| BearerAuth.NoSecretAdmitsAll | app/api/send-email/route.ts:12-17 | with no secret configured every request passes |
| BearerAuth.SecretAdmitsOnlyItsBearer | app/api/cron/send-delayed-emails/route.ts:19-25 | with a secret configured, a request passes exactly when its header is "Bearer " followed by the secret; a missing header fails |
| BearerAuth.BearerInjective | app/api/send-email/route.ts:15 | two different secrets never accept the same header |
| CallRoute.PlanCall | app/api/call/route.ts:9-35 | the phone is checked first, then key, agent id and agent phone id in that order; an accepted request dials a strict E.164-style number and names the customer "Guest" when no name is given |
| CallRoute.HandleCall | app/api/call/route.ts:3-66 | an unparsable body gives 500; a guard's refusal is returned as is; otherwise the call is posted and ok, not-ok and a throw map to the forwarded data, 502 and 500 |
| CallRoute.BadRequestIffPhoneRejected | app/api/call/route.ts:9-10 | the status is 400 exactly when the parsed phone is missing or fails the pattern |
| CallRoute.BadGatewayIffUpstreamRefused | app/api/call/route.ts:50-54 | the status is 502 exactly when the call was posted and the upstream answered not-ok |
| CallRoute.ModalPhoneDialledUnchanged | app/api/call/route.ts:9-31 | with the three settings present, a phone the dialog submits is accepted and dialled unchanged |
| ContactRoute.CheckContact | app/api/contact/route.ts:18-36 | the first missing or blank field among first name, last name, email and phone decides the message; then the untrimmed email is matched; otherwise the form passes |
| ContactRoute.HandleContact | app/api/contact/route.ts:14-155 | an unparsable body gives 500; a rejection is returned; a valid form gets 200, and the notification is skipped without credentials and sent or failed otherwise |
| ContactRoute.NotificationNeverChangesResponse | app/api/contact/route.ts:133-147 | the response does not depend on the credentials or on whether the notification is sent |
| ContactRoute.OptionalFieldsIgnored | app/api/contact/route.ts:18-36 | company, use case and notes never affect the decision |
| ContactRoute.PaddedEmailRejected | app/api/contact/route.ts:32-36 | an email with whitespace at either end is refused, as invalid once it is present |
| SendEmailRoute.ComposeMail | app/api/send-email/route.ts:33-163 | the mail goes to the given email from the Gmail user, greets the given name or "Valued Customer", and has a phone line exactly when a phone is given |
| SendEmailRoute.HandleSendEmail | app/api/send-email/route.ts:9-223 | 401 exactly when the secret check fails; then an unparsable body gives 500, a missing email 400 and missing Gmail settings 500; otherwise the mail is sent and the id echoed, or 500 on a send failure |
| SendEmailRoute.UnauthorizedBeforeBody | app/api/send-email/route.ts:12-19 | a refused request gets 401 whatever its body |
| SendEmailRoute.EmailCheckedBeforeConfig | app/api/send-email/route.ts:19-31 | a missing email gives 400 even when Gmail is not configured |
| SendEmailRoute.OkIffSent | app/api/send-email/route.ts:204-221 | 200 exactly when the mail was handed to the transport and it did not throw |
| CaseStudies.FindById | app/case-studies/page.tsx:217 | the result is the first index whose id equals the parameter, and none when no id equals it |
| CaseStudies.InitialSelection | app/case-studies/page.tsx:216-219 | the selection is an entry of the list: the first match, or the first entry when there is none |
| CaseStudies.ShadowedEntryNeverFound | app/case-studies/page.tsx:217 | an entry whose id occurs earlier in the list is never found |
| CaseStudies.KnownIds | app/case-studies/page.tsx:216-219 | 'cinco' and a missing parameter select the first entry, and 'creative-orbit' the second |
| CaseStudies.CaseStudiesPage.constructor | app/case-studies/page.tsx:216-219 | the page starts with the initial selection, which is never the shadowed third entry |
| CaseStudies.CaseStudiesPage.OnStudyParamChange | app/case-studies/page.tsx:221-228 | a truthy parameter that names an entry selects it; anything else keeps the selection; the selection stays in the list and off the third entry |
| SendDelayedEmails.CallRequestStore.FindDue | app/api/cron/send-delayed-emails/route.ts:42-47 | the listing holds every due row once and nothing else: email present, `email_sent_at` null, `scheduled_email_at` set and not after now |
| SendDelayedEmails.CallRequestStore.MarkSent | app/api/cron/send-delayed-emails/route.ts:88-91 | the row with that id gets the time in `email_sent_at`, and no other row changes |
| SendDelayedEmails.ProcessPending | app/api/cron/send-delayed-emails/route.ts:68-110 | the counters, error list, sender calls and store after the loop are those the specification functions give for the fetched rows |
| SendDelayedEmails.RunJob | app/api/cron/send-delayed-emails/route.ts:16-135 | 401, not-configured, client error and fetch error each return before any send or store change; otherwise the listing is exactly the due rows, and processed = successful + failed + skipped, with errors present exactly when something failed |
| SendDelayedEmails.TallyBalances | app/api/cron/send-delayed-emails/route.ts:68-117 | successful + failed + skipped equals the rows fetched, the error list is as long as the failures, and the sender was called once per sent or failed row |
| SendDelayedEmails.ErrorsAreFailedRows | app/api/cron/send-delayed-emails/route.ts:101-104 | an entry is in the error list exactly when some fetched row's send or update threw with that id and message |
| SendDelayedEmails.ApplyMarksShape | app/api/cron/send-delayed-emails/route.ts:88-91 | the run keeps every row and changes at most its `email_sent_at`, to the update's time |
| SendDelayedEmails.UnmarkedRowUnchanged | app/api/cron/send-delayed-emails/route.ts:81-109 | a row that no successful send and update touched, including every row not fetched, is left as it was |
| SendDelayedEmails.MarkedRowSent | app/api/cron/send-delayed-emails/route.ts:81-98 | a row whose send and update went through ends with `email_sent_at` set and its other columns as before |
| SendDelayedEmails.StillDueIffNotMarked | app/api/cron/send-delayed-emails/route.ts:101-109 | a fetched row is still due after the run exactly when it was not marked, so a failed row is retried on the next run |
| SendDelayedEmails.MarkRowOverwrites | app/api/cron/send-delayed-emails/route.ts:88-91 | marking a row twice keeps the second time |

## Left out

- HTML mail bodies, subjects and styles are left out, together with the literal JSON messages of the responses. Only the parts that depend on the input are kept: recipient, sender, greeting name, phone line and echoed id.
- Logging is left out.
- The dialog's `setTimeout` (clearing the confirmation and closing after 1.2 s), the body-overflow effect, the portal and the rendering are left out: they are timers and DOM work.
- React state updates are applied immediately and in order. Batching and stale closures are not modelled.
- The `fetch` to ElevenLabs, nodemailer and the Supabase client are external calls. They appear only through their outcomes: `Upstream`, the send results, `clientError`, `fetchError` and the send/update oracles.
- `lib/email.ts` is not part of this model. `sendDemoFollowUpEmail`, including its throw when Gmail credentials are missing, is the `send` oracle, and `isEmailConfigured` is the boolean `emailConfigured`.
- Timestamps are natural numbers. The ISO-string time of the query and of the update are the parameters `now` and `clock`.
- Overlapping cron runs and duplicate delivery across runs are left out: the model is a single sequential run.
- JSON body values that are not strings (numbers, objects) are left out. Every field is an optional string.
- SendDelayedEmails.RunJob: `POST` runs the same handler and is not a separate member.
- SendDelayedEmails.RunJob: the send and update outcomes are functions of the row id. Ids in one listing are distinct, so no outcome is lost.
- SendDelayedEmails.RunJob: a throw from the query call is folded into `fetchError`.
- CaseStudies: a case study keeps only its id, company, industry and second metric label. The rest is display content.
- Strings are sequences of Unicode characters, not of UTF-16 code units as in JavaScript. Text that is not valid UTF-16, such as a lone surrogate that `[^\s@]` would accept, cannot be written in the model. No proved property depends on the encoding.

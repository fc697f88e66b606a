/**
 * The cron job `GET /api/cron/send-delayed-emails`: after the optional bearer check and the
 * email-configuration check it lists the `call_requests` rows whose follow-up email is due, sends
 * each one, stamps `email_sent_at` on success, and reports how many were sent and how many failed.
 * The store, the mail sender and the clock are parameters: the sender and the store's update are
 * oracles keyed by row id that say whether the call resolved, returned an error or threw.
 */
module SendDelayedEmails {
  import opened Wrappers
  import opened Text
  import opened BearerAuth

  type Id = string

  /** A `call_requests` row, reduced to the columns the job reads or writes; timestamps are numbers. */
  datatype Row = Row(
    name: Option<string>,
    email: Option<string>,
    phone: Option<string>,
    scheduledEmailAt: Option<nat>,
    emailSentAt: Option<nat>)

  /** The query's filters: `email` not null, `email_sent_at` null, `scheduled_email_at <= now` (null never compares). */
  predicate IsDue(row: Row, now: nat) {
    && row.email.Some?
    && row.emailSentAt.None?
    && row.scheduledEmailAt.Some? && row.scheduledEmailAt.value <= now
  }

  /** A fetched row: `id, name, email, phone, scheduled_email_at`. */
  datatype Pending = Pending(id: Id, name: Option<string>, email: Option<string>, phone: Option<string>, scheduledEmailAt: Option<nat>)

  function PendingOf(id: Id, row: Row): Pending {
    Pending(id, row.name, row.email, row.phone, row.scheduledEmailAt)
  }

  predicate DistinctIds(ps: seq<Pending>) {
    forall i, j :: 0 <= i < j < |ps| ==> ps[i].id != ps[j].id
  }

  /** The arguments of one `sendDemoFollowUpEmail` call. */
  datatype FollowUpEmail = FollowUpEmail(to: string, name: string, phone: Option<string>)

  datatype SendOutcome = Delivered | SendThrew(message: string)

  /** The `update ... eq("id", id)` call: no error, an `error` in the result, or a throw. */
  datatype UpdateOutcome = Updated | UpdateReturnedError | UpdateThrew(message: string)

  datatype ErrorEntry = ErrorEntry(id: string, error: string)

  /** The loop's three accumulators. */
  datatype Tally = Tally(successful: nat, failed: nat, errors: seq<ErrorEntry>)

  datatype CronResponse =
    | Unauthorized
    | EmailNotConfigured
    | InternalError(message: string)
    | FetchFailed(details: string)
    | NoPendingEmails
    | Processed(processed: nat, successful: nat, failed: nat, errors: Option<seq<ErrorEntry>>)

  const DefaultName := "Valued Customer"

  function Status(r: CronResponse): int {
    match r
    case Unauthorized => 401
    case InternalError(_) | FetchFailed(_) => 500
    case EmailNotConfigured | NoPendingEmails | Processed(_, _, _, _) => 200
  }

  /** `request.id || "unknown"` */
  function ErrorId(id: Id): string {
    if id == "" then "unknown" else id
  }

  /** The mail sent for a row with an email: name defaults to "Valued Customer", an empty phone is left out. */
  function MailOf(p: Pending): FollowUpEmail
    requires Truthy(p.email)
  {
    FollowUpEmail(p.email.value, OrElse(p.name, DefaultName), if Truthy(p.phone) then Some(p.phone.value) else None)
  }

  /** What one iteration does to a row: skip it (no email), count it as sent, or record a failure. */
  datatype RowOutcome = Skipped | Succeeded | Failed(entry: ErrorEntry)

  function OutcomeOf(p: Pending, send: Id -> SendOutcome, update: Id -> UpdateOutcome): RowOutcome {
    if !Truthy(p.email) then Skipped
    else match send(p.id)
      case SendThrew(message) => Failed(ErrorEntry(ErrorId(p.id), message))
      case Delivered =>
        match update(p.id)
        case UpdateThrew(message) => Failed(ErrorEntry(ErrorId(p.id), message))
        case Updated => Succeeded
        case UpdateReturnedError => Succeeded
  }

  /** The row gets `email_sent_at`: the mail went out and the update went through. */
  predicate Marks(p: Pending, send: Id -> SendOutcome, update: Id -> UpdateOutcome) {
    Truthy(p.email) && send(p.id) == Delivered && update(p.id) == Updated
  }

  function Step(t: Tally, o: RowOutcome): Tally {
    match o
    case Skipped => t
    case Succeeded => t.(successful := t.successful + 1)
    case Failed(entry) => Tally(t.successful, t.failed + 1, t.errors + [entry])
  }

  /** The accumulators after walking `ps` in order. */
  function TallyOf(ps: seq<Pending>, send: Id -> SendOutcome, update: Id -> UpdateOutcome): Tally {
    if ps == [] then Tally(0, 0, [])
    else Step(TallyOf(ps[..|ps| - 1], send, update), OutcomeOf(ps[|ps| - 1], send, update))
  }

  /** The sender's invocations while walking `ps`: one per row with an email, in order. */
  function MailsOf(ps: seq<Pending>): seq<FollowUpEmail> {
    if ps == [] then []
    else
      var p := ps[|ps| - 1];
      MailsOf(ps[..|ps| - 1]) + if Truthy(p.email) then [MailOf(p)] else []
  }

  /** Rows walked past without a send. */
  function SkippedOf(ps: seq<Pending>): nat {
    if ps == [] then 0
    else SkippedOf(ps[..|ps| - 1]) + if Truthy(ps[|ps| - 1].email) then 0 else 1
  }

  /** The store's update by id: sets `email_sent_at` of that row, whatever it held; no row, no change. */
  function MarkRow(rows: map<Id, Row>, id: Id, at: nat): map<Id, Row> {
    if id in rows then rows[id := rows[id].(emailSentAt := Some(at))] else rows
  }

  /** The store after walking `ps`: every row that `Marks` gets the time the clock gave for it. */
  function ApplyMarks(rows: map<Id, Row>, ps: seq<Pending>, send: Id -> SendOutcome, update: Id -> UpdateOutcome,
                      clock: Id -> nat): map<Id, Row>
  {
    if ps == [] then rows
    else
      var prev := ApplyMarks(rows, ps[..|ps| - 1], send, update, clock);
      var p := ps[|ps| - 1];
      if Marks(p, send, update) then MarkRow(prev, p.id, clock(p.id)) else prev
  }

  /** The 200 answer after processing: `errors` is present only when non-empty. */
  function ProcessedResponse(processed: nat, t: Tally): CronResponse {
    Processed(processed, t.successful, t.failed, if |t.errors| > 0 then Some(t.errors) else None)
  }

  /**
   * Every fetched row is counted once: sent, failed or skipped; there is one error entry per
   * failure, and the sender was called once per sent or failed row.
   */
  lemma {:induction false} TallyBalances(ps: seq<Pending>, send: Id -> SendOutcome, update: Id -> UpdateOutcome)
    ensures TallyOf(ps, send, update).successful + TallyOf(ps, send, update).failed + SkippedOf(ps) == |ps|
    ensures |TallyOf(ps, send, update).errors| == TallyOf(ps, send, update).failed
    ensures |MailsOf(ps)| == TallyOf(ps, send, update).successful + TallyOf(ps, send, update).failed
  {
    if ps != [] {
      TallyBalances(ps[..|ps| - 1], send, update);
    }
  }

  /** An error entry is exactly the entry of some row whose send or update threw. */
  lemma {:induction false} ErrorsAreFailedRows(ps: seq<Pending>, send: Id -> SendOutcome, update: Id -> UpdateOutcome,
                                               e: ErrorEntry)
    ensures e in TallyOf(ps, send, update).errors <==>
              exists j :: 0 <= j < |ps| && OutcomeOf(ps[j], send, update) == Failed(e)
  {
    if ps != [] {
      var init := ps[..|ps| - 1];
      var last := |ps| - 1;
      ErrorsAreFailedRows(init, send, update, e);
      if e in TallyOf(ps, send, update).errors {
        if e !in TallyOf(init, send, update).errors {
          assert OutcomeOf(ps[last], send, update) == Failed(e);
        } else {
          var j :| 0 <= j < |init| && OutcomeOf(init[j], send, update) == Failed(e);
          assert ps[j] == init[j];
        }
      }
      if exists j :: 0 <= j < |ps| && OutcomeOf(ps[j], send, update) == Failed(e) {
        var j :| 0 <= j < |ps| && OutcomeOf(ps[j], send, update) == Failed(e);
        if j < last {
          assert init[j] == ps[j];
        }
      }
    }
  }

  /** Marking keeps the rows' ids and touches only `email_sent_at`, setting it to the clock's time. */
  lemma {:induction false} ApplyMarksShape(rows: map<Id, Row>, ps: seq<Pending>, send: Id -> SendOutcome,
                                           update: Id -> UpdateOutcome, clock: Id -> nat)
    ensures ApplyMarks(rows, ps, send, update, clock).Keys == rows.Keys
    ensures forall id :: id in rows ==>
              || ApplyMarks(rows, ps, send, update, clock)[id] == rows[id]
              || ApplyMarks(rows, ps, send, update, clock)[id] == rows[id].(emailSentAt := Some(clock(id)))
  {
    if ps != [] {
      ApplyMarksShape(rows, ps[..|ps| - 1], send, update, clock);
    }
  }

  /** A row that no walked entry marks is left exactly as it was; this covers rows that were not fetched. */
  lemma {:induction false} UnmarkedRowUnchanged(rows: map<Id, Row>, ps: seq<Pending>, send: Id -> SendOutcome,
                                                update: Id -> UpdateOutcome, clock: Id -> nat, id: Id)
    requires id in rows
    requires forall j :: 0 <= j < |ps| && ps[j].id == id ==> !Marks(ps[j], send, update)
    ensures id in ApplyMarks(rows, ps, send, update, clock)
    ensures ApplyMarks(rows, ps, send, update, clock)[id] == rows[id]
  {
    if ps != [] {
      var init := ps[..|ps| - 1];
      forall j | 0 <= j < |init| && init[j].id == id ensures !Marks(init[j], send, update) {
        assert init[j] == ps[j];
      }
      UnmarkedRowUnchanged(rows, init, send, update, clock, id);
    }
  }

  /** A row some walked entry marks ends with `email_sent_at` set to the clock's time and nothing else changed. */
  lemma {:induction false} MarkedRowSent(rows: map<Id, Row>, ps: seq<Pending>, send: Id -> SendOutcome,
                                         update: Id -> UpdateOutcome, clock: Id -> nat, j: nat)
    requires j < |ps| && ps[j].id in rows && Marks(ps[j], send, update)
    ensures ps[j].id in ApplyMarks(rows, ps, send, update, clock)
    ensures ApplyMarks(rows, ps, send, update, clock)[ps[j].id] == rows[ps[j].id].(emailSentAt := Some(clock(ps[j].id)))
  {
    var init := ps[..|ps| - 1];
    ApplyMarksShape(rows, init, send, update, clock);
    if j < |ps| - 1 {
      assert init[j] == ps[j];
      MarkedRowSent(rows, init, send, update, clock, j);
    }
  }

  /**
   * With distinct ids, a fetched row is still due after the walk exactly when it was not marked:
   * a failed send, a failed or refused update, or a missing email leave it for the next run.
   */
  lemma StillDueIffNotMarked(rows: map<Id, Row>, ps: seq<Pending>, send: Id -> SendOutcome,
                             update: Id -> UpdateOutcome, clock: Id -> nat, now: nat, j: nat)
    requires DistinctIds(ps) && j < |ps| && ps[j].id in rows && IsDue(rows[ps[j].id], now)
    ensures ps[j].id in ApplyMarks(rows, ps, send, update, clock)
    ensures IsDue(ApplyMarks(rows, ps, send, update, clock)[ps[j].id], now) <==> !Marks(ps[j], send, update)
  {
    if Marks(ps[j], send, update) {
      MarkedRowSent(rows, ps, send, update, clock, j);
    } else {
      UnmarkedRowUnchanged(rows, ps, send, update, clock, ps[j].id);
    }
  }

  /** The update overwrites: marking a row twice keeps the second time, not the first. */
  lemma MarkRowOverwrites(rows: map<Id, Row>, id: Id, t1: nat, t2: nat)
    requires id in rows
    ensures MarkRow(MarkRow(rows, id, t1), id, t2)[id].emailSentAt == Some(t2)
  {
  }

  /** The `call_requests` table. */
  class CallRequestStore {
    var rows: map<Id, Row>

    constructor (initial: map<Id, Row>)
      ensures rows == initial
    {
      rows := initial;
    }

    /** The select with its three filters: every due row once, in no particular order, and nothing else. */
    method FindDue(now: nat) returns (due: seq<Pending>)
      ensures forall i :: 0 <= i < |due| ==>
                due[i].id in rows && IsDue(rows[due[i].id], now) && due[i] == PendingOf(due[i].id, rows[due[i].id])
      ensures forall id :: id in rows && IsDue(rows[id], now) ==> exists i :: 0 <= i < |due| && due[i].id == id
      ensures DistinctIds(due)
    {
      due := [];
      var left := rows.Keys;
      ghost var position: map<Id, nat> := map[];
      while left != {}
        invariant left <= rows.Keys
        invariant forall i :: 0 <= i < |due| ==> due[i].id in rows && due[i].id !in left
        invariant forall i :: 0 <= i < |due| ==> IsDue(rows[due[i].id], now)
        invariant forall i :: 0 <= i < |due| ==> due[i] == PendingOf(due[i].id, rows[due[i].id])
        invariant forall id :: id in rows && id !in left && IsDue(rows[id], now) ==>
                    id in position && position[id] < |due| && due[position[id]].id == id
        invariant DistinctIds(due)
        decreases left
      {
        var id :| id in left;
        if IsDue(rows[id], now) {
          position := position[id := |due|];
          due := due + [PendingOf(id, rows[id])];
        }
        left := left - {id};
      }
      forall id | id in rows && IsDue(rows[id], now) ensures exists i :: 0 <= i < |due| && due[i].id == id {
        assert due[position[id]].id == id;
      }
    }

    /** `update({ email_sent_at: at }).eq("id", id)` when it goes through. */
    method MarkSent(id: Id, at: nat)
      modifies this
      ensures rows == MarkRow(old(rows), id, at)
    {
      if id in rows {
        rows := rows[id := rows[id].(emailSentAt := Some(at))];
      }
    }
  }

  /**
   * The `for` loop over the fetched rows: a row without an email is skipped, a send or update that
   * throws is counted as a failure with an error entry, anything else as a success; a failure never
   * stops the walk.
   */
  method ProcessPending(store: CallRequestStore, pending: seq<Pending>, send: Id -> SendOutcome,
                        update: Id -> UpdateOutcome, clock: Id -> nat)
    returns (tally: Tally, ghost mails: seq<FollowUpEmail>)
    modifies store
    ensures tally == TallyOf(pending, send, update)
    ensures store.rows == ApplyMarks(old(store.rows), pending, send, update, clock)
    ensures mails == MailsOf(pending)
  {
    var successCount, failureCount := 0, 0;
    var errors: seq<ErrorEntry> := [];
    mails := [];
    var i := 0;
    while i < |pending|
      invariant 0 <= i <= |pending|
      invariant TallyOf(pending[..i], send, update) == Tally(successCount, failureCount, errors)
      invariant store.rows == ApplyMarks(old(store.rows), pending[..i], send, update, clock)
      invariant mails == MailsOf(pending[..i])
    {
      var request := pending[i];
      ghost var walked := pending[..i + 1];
      assert walked[..i] == pending[..i] && walked[i] == request;
      assert TallyOf(walked, send, update) == Step(Tally(successCount, failureCount, errors), OutcomeOf(request, send, update));
      assert ApplyMarks(old(store.rows), walked, send, update, clock) ==
             if Marks(request, send, update) then MarkRow(store.rows, request.id, clock(request.id)) else store.rows;
      assert MailsOf(walked) == mails + if Truthy(request.email) then [MailOf(request)] else [];
      if Truthy(request.email) {
        mails := mails + [MailOf(request)];
        match send(request.id) {
          case SendThrew(message) =>
            failureCount := failureCount + 1;
            errors := errors + [ErrorEntry(ErrorId(request.id), message)];
          case Delivered =>
            match update(request.id) {
              case UpdateThrew(message) =>
                failureCount := failureCount + 1;
                errors := errors + [ErrorEntry(ErrorId(request.id), message)];
              case Updated =>
                store.MarkSent(request.id, clock(request.id));
                successCount := successCount + 1;
              case UpdateReturnedError =>
                successCount := successCount + 1;
            }
        }
      }
      i := i + 1;
    }
    assert pending[..i] == pending;
    tally := Tally(successCount, failureCount, errors);
  }

  /**
   * One run of the job (`POST` runs the same handler). `emailConfigured` is `isEmailConfigured()`,
   * `clientError` the message `createSupabaseClient` throws, `fetchError` the query's error, `now`
   * the time the query compares against, and `send`, `update`, `clock` the per-row sender result,
   * update result and update time. `due` is the query's result and `mails` the sender's calls.
   */
  method RunJob(store: CallRequestStore, secret: Option<string>, header: Option<string>, emailConfigured: bool,
                clientError: Option<string>, fetchError: Option<string>, now: nat,
                send: Id -> SendOutcome, update: Id -> UpdateOutcome, clock: Id -> nat)
    returns (response: CronResponse, ghost due: seq<Pending>, ghost mails: seq<FollowUpEmail>)
    modifies store
    ensures !Authorized(secret, header) ==> response == Unauthorized
    ensures Authorized(secret, header) && !emailConfigured ==> response == EmailNotConfigured
    ensures Authorized(secret, header) && emailConfigured && clientError.Some? ==>
              response == InternalError(clientError.value)
    ensures Authorized(secret, header) && emailConfigured && clientError.None? && fetchError.Some? ==>
              response == FetchFailed(fetchError.value)
    ensures response.Processed? || response == NoPendingEmails <==>
              Authorized(secret, header) && emailConfigured && clientError.None? && fetchError.None?
    ensures !(response.Processed? || response == NoPendingEmails) ==> store.rows == old(store.rows) && mails == []
    ensures response.Processed? || response == NoPendingEmails ==>
              && (forall i :: 0 <= i < |due| ==>
                    due[i].id in old(store.rows) && IsDue(old(store.rows)[due[i].id], now)
                    && due[i] == PendingOf(due[i].id, old(store.rows)[due[i].id]))
              && (forall id :: id in old(store.rows) && IsDue(old(store.rows)[id], now) ==>
                    exists i :: 0 <= i < |due| && due[i].id == id)
              && DistinctIds(due)
              && (response == NoPendingEmails <==> due == [])
              && store.rows == ApplyMarks(old(store.rows), due, send, update, clock)
              && mails == MailsOf(due)
    ensures response.Processed? ==>
              && response == ProcessedResponse(|due|, TallyOf(due, send, update))
              && response.successful + response.failed + SkippedOf(due) == response.processed
              && (response.errors.Some? ==> |response.errors.value| == response.failed > 0)
              && (response.errors.None? ==> response.failed == 0)
  {
    mails := [];
    due := [];
    if !Authorized(secret, header) {
      return Unauthorized, due, mails;
    }
    if !emailConfigured {
      return EmailNotConfigured, due, mails;
    }
    if clientError.Some? {
      return InternalError(clientError.value), due, mails;
    }
    if fetchError.Some? {
      return FetchFailed(fetchError.value), due, mails;
    }
    var pending := store.FindDue(now);
    due := pending;
    if |pending| == 0 {
      return NoPendingEmails, due, mails;
    }
    var tally;
    tally, mails := ProcessPending(store, pending, send, update, clock);
    TallyBalances(pending, send, update);
    response := ProcessedResponse(|pending|, tally);
  }
}

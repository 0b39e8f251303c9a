/** The API's side of the print protocol for one job served by one bridge: the
    row that `claim`, the bridge's status updates and the manager's retry change. */
module PrintServer {
  import opened Wrappers
  import opened PrintProtocol

  datatype Status = Pending | ClaimedBy | SentOn | Printed | FailedOn | Cancelled

  const LEASE_SECONDS := 90
  const MAX_AUTOMATIC_ATTEMPTS := 5

  /** A stored acknowledgement of this job by this bridge. */
  datatype Ack = Ack(attempt: nat, status: Status)

  /** The columns of a print job the protocol depends on, with the stored
      acknowledgements by idempotency key. `retries` counts the manager's retries. */
  datatype Row = Row(
    status: Status, attempt: nat, manual: bool, owned: bool, lease: Option<int>,
    acks: map<string, Ack>, retries: nat)

  const NEW_ROW := Row(Pending, 0, false, false, None, map[], 0)

  /** A status update. `key` is the stripped idempotency key, empty when there is
      none; `taken` says that the tenant stored it for another job or bridge;
      `scoped` says that the caller came with a bridge token, not the legacy key. */
  datatype Request = Request(
    status: Status, attempt: Option<int>, manual: bool, result: PrintResult,
    key: string, taken: bool, scoped: bool)

  /** A lapsed lease is an unknown physical outcome: no automatic retry. */
  function Expire(row: Row, now: int): Row {
    if row.status in {ClaimedBy, SentOn} && row.lease.Some? && row.lease.value < now && !row.manual
    then row.(status := FailedOn, manual := true, lease := None)
    else row
  }

  predicate Claimable(row: Row) {
    (row.status == Pending || (row.status == FailedOn && row.attempt < MAX_AUTOMATIC_ATTEMPTS)) && !row.manual
  }

  function Claim(row: Row, now: int): Row {
    row.(status := ClaimedBy, owned := true, attempt := row.attempt + 1, lease := Some(now + LEASE_SECONDS))
  }

  predicate Allowed(from: Status, to: Status) {
    match from
    case ClaimedBy => to in {SentOn, Printed, FailedOn}
    case SentOn => to in {Printed, FailedOn}
    case FailedOn => to in {ClaimedBy, Cancelled, Printed}
    case _ => false
  }

  /** The acknowledgement stored under a key answers for this request. */
  predicate Replays(row: Row, u: Request)
    requires u.key in row.acks
  {
    var ack := row.acks[u.key];
    ack.attempt == row.attempt && (u.attempt.None? || u.attempt.value == ack.attempt) && ack.status == u.status
  }

  /** The request passes every check for a new transition. */
  predicate Admitted(row: Row, u: Request) {
    && row.owned
    && (if u.attempt.Some? then u.attempt.value == row.attempt else !u.scoped)
    && (u.manual ==> u.status == FailedOn)
    && (u.status == row.status || Allowed(row.status, u.status))
  }

  function Transition(row: Row, u: Request, now: int): Row {
    row.(
      status := u.status,
      manual := if u.status in {FailedOn, Cancelled} then u.manual
                else if u.status in {SentOn, Printed} then false else row.manual,
      lease := if u.status == SentOn then Some(now + LEASE_SECONDS)
               else if u.status in {Printed, FailedOn, Cancelled} then None else row.lease,
      acks := if u.key == "" then row.acks else row.acks[u.key := Ack(row.attempt, u.status)])
  }

  /** A bridge's status update; None is an error response that changes nothing. */
  function Patch(row: Row, u: Request, now: int): Option<Row> {
    if (u.attempt.Some? && u.attempt.value < 1) || (u.scoped && u.key == "") || (u.key != "" && u.taken) then None
    else if u.key != "" && u.key in row.acks then if Replays(row, u) then Some(row) else None
    else if Admitted(row, u) then Some(Transition(row, u, now))
    else None
  }

  /** The manager's explicit retry of an uncertain print. */
  function Retry(row: Row): Option<Row> {
    if row.status != FailedOn || !row.manual then None
    else Some(row.(status := Pending, manual := false, owned := false, lease := None, retries := row.retries + 1))
  }

  /** The stored job, changed in place by the request handlers. */
  class PrintJob {
    var status: Status
    var attempt: nat
    var manual: bool
    var owned: bool
    var lease: Option<int>
    var acks: map<string, Ack>
    ghost var retries: nat

    ghost function View(): Row
      reads this
    {
      Row(status, attempt, manual, owned, lease, acks, retries)
    }

    constructor ()
      ensures View() == NEW_ROW
    {
      status, attempt, manual, owned, lease, acks, retries := Pending, 0, false, false, None, map[], 0;
    }

    method ClaimNext(now: int) returns (claimed: bool)
      modifies this
      ensures claimed == Claimable(Expire(old(View()), now))
      ensures View() == var row := Expire(old(View()), now); if claimed then Claim(row, now) else row
    {
      if status in {ClaimedBy, SentOn} && lease.Some? && lease.value < now && !manual {
        status, manual, lease := FailedOn, true, None;
      }
      claimed := (status == Pending || (status == FailedOn && attempt < MAX_AUTOMATIC_ATTEMPTS)) && !manual;
      if claimed {
        status, owned := ClaimedBy, true;
        attempt := attempt + 1;
        lease := Some(now + LEASE_SECONDS);
      }
    }

    method UpdateFromBridge(u: Request, now: int) returns (ok: bool)
      modifies this
      ensures ok == Patch(old(View()), u, now).Some?
      ensures View() == if ok then Patch(old(View()), u, now).value else old(View())
    {
      if u.attempt.Some? && u.attempt.value < 1 {
        return false;
      }
      if u.scoped && u.key == "" {
        return false;
      }
      if u.key != "" {
        if u.taken {
          return false;
        }
        if u.key in acks {
          var stored := acks[u.key];
          if stored.attempt != attempt || (u.attempt.Some? && stored.attempt != u.attempt.value) {
            return false;
          }
          return stored.status == u.status;
        }
      }
      if !owned {
        return false;
      }
      if u.attempt.Some? && u.attempt.value != attempt {
        return false;
      }
      if u.scoped && u.attempt.None? {
        return false;
      }
      if u.manual && u.status != FailedOn {
        return false;
      }
      if u.status != status && !Allowed(status, u.status) {
        return false;
      }
      status := u.status;
      if u.status == SentOn {
        manual, lease := false, Some(now + LEASE_SECONDS);
      } else if u.status == Printed {
        manual, lease := false, None;
      } else if u.status in {FailedOn, Cancelled} {
        manual, lease := u.manual, None;
      }
      if u.key != "" {
        acks := acks[u.key := Ack(attempt, u.status)];
      }
      return true;
    }

    method RetryManually() returns (ok: bool)
      modifies this
      ensures ok == Retry(old(View())).Some?
      ensures View() == if ok then Retry(old(View())).value else old(View())
    {
      if status != FailedOn || !manual {
        return false;
      }
      status, manual, owned, lease := Pending, false, false, None;
      retries := retries + 1;
      return true;
    }
  }

  /** One step of the joint history of server and bridge, as far as it touches
      this job. `Elsewhere` is anything the server does not see about it. */
  datatype Step =
    | Poll(now: int)
    | Update(request: Request, hash: string, now: int)
    | ManagerRetry
    | Elsewhere(event: Event)

  predicate IsElsewhere(e: Event, id: string) {
    match e
    case Claimed(i, _, _) => i != id
    case Sent(i, _) => i != id
    case Accepted(i, _, _, _) => i != id
    case _ => true
  }

  predicate Legal(steps: seq<Step>, id: string) {
    forall s <- steps :: s.Elsewhere? ==> IsElsewhere(s.event, id)
  }

  /** What an accepted update adds to the history: SENT or a final report. */
  function Traces(u: Request, id: string, attempt: nat, hash: string): History {
    match u.status
    case SentOn => [Sent(id, attempt)]
    case Printed => [Accepted(id, attempt, hash, PrintedReport(u.result))]
    case FailedOn => [Accepted(id, attempt, hash, FailedReport(u.manual))]
    case _ => []
  }

  /** What one step does to the row, and the events it leaves in the history. */
  function After(row: Row, s: Step, id: string): (Row, History) {
    match s
    case Poll(now) =>
      var r := Expire(row, now);
      if Claimable(r) then (Claim(r, now), [Claimed(id, r.attempt + 1, r.retries)]) else (r, [])
    case Update(u, hash, now) => (
      match Patch(row, u, now)
      case None => (row, [])
      case Some(r) => (r, Traces(u, id, row.attempt, hash)))
    case ManagerRetry => (if Retry(row).Some? then Retry(row).value else row, [])
    case Elsewhere(e) => (row, [e])
  }

  function RunFrom(start: Row, steps: seq<Step>, id: string): (Row, History) {
    if steps == [] then (start, [])
    else
      var (row, h) := RunFrom(start, steps[..|steps| - 1], id);
      var (row', more) := After(row, steps[|steps| - 1], id);
      (row', h + more)
  }

  function Run(steps: seq<Step>, id: string): (Row, History) {
    RunFrom(NEW_ROW, steps, id)
  }

  // ----- acknowledgements -----

  /** A stored acknowledgement keeps its meaning. */
  lemma {:induction false} AcksStand(row: Row, s: Step, id: string, key: string)
    requires key in row.acks && key != ""
    ensures var row' := After(row, s, id).0;
            key in row'.acks && row'.acks[key] == row.acks[key] && row'.attempt >= row.attempt
  {
  }

  lemma {:induction false} AcksStandForGood(start: Row, steps: seq<Step>, id: string, key: string)
    requires key in start.acks && key != ""
    ensures var row := RunFrom(start, steps, id).0;
            key in row.acks && row.acks[key] == start.acks[key] && row.attempt >= start.attempt
  {
    if steps != [] {
      var init := steps[..|steps| - 1];
      AcksStandForGood(start, init, id, key);
      AcksStand(RunFrom(start, init, id).0, steps[|steps| - 1], id, key);
    }
  }

  /** An acknowledgement sent again, however much later, changes nothing: it is
      confirmed while its attempt is the current one and refused ever after. */
  lemma {:induction false} RepeatedAcknowledgement(row: Row, u: Request, now: int, steps: seq<Step>, id: string, later: int)
    requires u.key != "" && Patch(row, u, now).Some?
    ensures var first := Patch(row, u, now).value;
            var after := RunFrom(first, steps, id).0;
            Patch(after, u, later) == if after.attempt == row.attempt then Some(after) else None
  {
    AcksStandForGood(Patch(row, u, now).value, steps, id, u.key);
  }

  // ----- attempts -----

  /** How often the server handed the job out. */
  function Claims(h: History, id: string): nat {
    if h == [] then 0
    else Claims(Init(h), id) + if Last(h).Claimed? && Last(h).id == id then 1 else 0
  }

  /** Accepted FAILED reports that leave the job to automatic retries. */
  function AutomaticFailures(h: History, id: string): nat {
    if h == [] then 0
    else
      AutomaticFailures(Init(h), id)
      + if Last(h).Accepted? && Last(h).id == id && Last(h).report == FailedReport(false) then 1 else 0
  }

  /** The job is free to be handed out again without the manager. */
  predicate Free(row: Row) {
    row.status == Pending || (row.status == FailedOn && !row.manual)
  }

  /** Every attempt but the first was released by the manager or by a report. */
  ghost predicate Accounted(row: Row, h: History, id: string) {
    && row.attempt == Claims(h, id)
    && (row.status == Pending ==> !row.owned)
    && Claims(h, id) + (if Free(row) then 1 else 0) <= 1 + row.retries + AutomaticFailures(h, id)
  }

  lemma {:induction false} StepKeepsAccounted(row: Row, h: History, s: Step, id: string)
    requires Accounted(row, h, id)
    requires s.Elsewhere? ==> IsElsewhere(s.event, id)
    ensures Accounted(After(row, s, id).0, h + After(row, s, id).1, id)
  {
    var (row', more) := After(row, s, id);
    if more == [] {
      assert h + more == h;
    } else {
      var h' := Extend(h, more[0]);
      assert h + more == h';
      assert Claims(h', id) == Claims(h, id) + if more[0].Claimed? && more[0].id == id then 1 else 0;
    }
  }

  /** On every run, with whatever bridge: a job is handed out once, once more for
      each of the manager's retries, and once more at most for each FAILED report
      that did not ask for the manager. */
  lemma {:induction false} AttemptsAreAccountedFor(steps: seq<Step>, id: string)
    requires Legal(steps, id)
    ensures Accounted(Run(steps, id).0, Run(steps, id).1, id)
    ensures Claims(Run(steps, id).1, id) <= 1 + Run(steps, id).0.retries + AutomaticFailures(Run(steps, id).1, id)
  {
    if steps != [] {
      var init := steps[..|steps| - 1];
      AttemptsAreAccountedFor(init, id);
      StepKeepsAccounted(Run(init, id).0, Run(init, id).1, steps[|steps| - 1], id);
    }
  }

  // ----- what the row remembers about the history -----

  ghost predicate Consistent(row: Row, h: History, id: string) {
    && Disciplined(h, id)
    && Retries(h, id) <= row.retries
    && (row.status == FailedOn ==> row.manual)
    && (row.status == Pending ==> !row.owned)
    && (row.status == Pending && row.attempt > 0 ==> Retries(h, id) < row.retries)
    && (Held(h, id) ==> row.attempt > 0)
  }

  lemma {:induction false} PollKeepsConsistent(row: Row, h: History, now: int, id: string)
    requires Consistent(row, h, id)
    ensures Consistent(After(row, Poll(now), id).0, h + After(row, Poll(now), id).1, id)
  {
    var r := Expire(row, now);
    if Claimable(r) {
      var h' := Extend(h, Claimed(id, r.attempt + 1, r.retries));
      assert Retries(h', id) == r.retries && !Held(h', id);
    } else {
      assert h + [] == h;
    }
  }

  /** No report is taken about a job that was never handed out. */
  ghost predicate Attempted(row: Row) {
    && (row.owned ==> row.attempt > 0)
    && (row.acks != map[] ==> row.attempt > 0)
  }

  lemma {:induction false} OnlyAttemptedAreOwned(steps: seq<Step>, id: string)
    ensures Attempted(Run(steps, id).0)
  {
    if steps != [] {
      OnlyAttemptedAreOwned(steps[..|steps| - 1], id);
    }
  }

  /** What an honest update does to the row. */
  lemma {:induction false} UpdateFacts(row: Row, u: Request, now: int)
    requires Patch(row, u, now).Some? && Attempted(row)
    requires row.status == FailedOn ==> row.manual
    requires row.status == Pending ==> !row.owned
    requires u.status == FailedOn ==> u.manual
    ensures var r := Patch(row, u, now).value;
            && r.retries == row.retries && r.attempt == row.attempt > 0
            && (r.status == FailedOn ==> r.manual)
            && (r.status == Pending ==> !r.owned && row.status == Pending)
  {
    if u.key in row.acks {
      assert row.acks != map[];
    }
  }

  /** A report leaves what the history says about claims alone. */
  lemma {:induction false} ReportFacts(h: History, e: Event, id: string)
    requires e.Sent? || e.Accepted?
    ensures Disciplined(h + [e], id) == Disciplined(h, id) && Retries(h + [e], id) == Retries(h, id)
    ensures Honest(h + [e]) && e.Accepted? && e.report.FailedReport? ==> e.report.manualRetryRequired
  {
    var h' := Extend(h, e);
  }

  lemma {:induction false} UpdateKeepsConsistent(row: Row, h: History, u: Request, hash: string, now: int, id: string)
    requires Consistent(row, h, id) && Attempted(row)
    requires Honest(h + After(row, Update(u, hash, now), id).1)
    ensures var (row', more) := After(row, Update(u, hash, now), id);
            Consistent(row', h + more, id)
  {
    var more := After(row, Update(u, hash, now), id).1;
    if more == [] {
      assert h + more == h;
    } else {
      assert more == [more[0]];
      ReportFacts(h, more[0], id);
    }
    if Patch(row, u, now).Some? {
      UpdateFacts(row, u, now);
    }
  }

  lemma {:induction false} ElsewhereKeepsConsistent(row: Row, h: History, e: Event, id: string)
    requires Consistent(row, h, id) && IsElsewhere(e, id)
    ensures Consistent(row, h + [e], id)
  {
    var h' := Extend(h, e);
    assert Retries(h', id) == Retries(h, id) && Held(h', id) == Held(h, id);
  }

  lemma {:induction false} RunsAreConsistent(steps: seq<Step>, id: string)
    requires Legal(steps, id) && Honest(Run(steps, id).1)
    ensures Consistent(Run(steps, id).0, Run(steps, id).1, id)
  {
    if steps != [] {
      var init := steps[..|steps| - 1];
      var (row, h) := Run(init, id);
      var s := steps[|steps| - 1];
      HonestPrefix(h + After(row, s, id).1, |h|);
      assert (h + After(row, s, id).1)[..|h|] == h;
      RunsAreConsistent(init, id);
      match s {
        case Poll(now) =>
          PollKeepsConsistent(row, h, now, id);
        case Update(u, hash, now) =>
          OnlyAttemptedAreOwned(init, id);
          UpdateKeepsConsistent(row, h, u, hash, now, id);
        case ManagerRetry =>
          assert h + [] == h;
        case Elsewhere(e) =>
          ElsewhereKeepsConsistent(row, h, e, id);
      }
    }
  }

  /** The bound end to end: whatever the server and a guarded, honest bridge do
      together, a job is dispatched at most once more than a manager retried it. */
  lemma {:induction false} PrintsBoundedByManagerRetries(steps: seq<Step>, id: string)
    requires Legal(steps, id)
    requires Guarded(Run(steps, id).1) && Honest(Run(steps, id).1)
    ensures Prints(Run(steps, id).1, id) <= 1 + Run(steps, id).0.retries
  {
    RunsAreConsistent(steps, id);
    PrintsBoundedByRetries(Run(steps, id).1, id);
  }

  // ----- what becomes of a job -----

  /** A request of the job's owner about its current attempt, with a key of its own. */
  predicate FromOwner(row: Row, u: Request) {
    && row.owned && row.attempt >= 1 && u.attempt == Some(row.attempt)
    && u.scoped && u.key != "" && !u.taken && u.key !in row.acks
  }

  /** A poll hands out a pending job, with the next attempt and a lease of its own. */
  lemma {:induction false} PendingIsHandedOut(row: Row, now: int, id: string)
    requires row.status == Pending && !row.manual
    ensures var (r, h) := After(row, Poll(now), id);
            && h == [Claimed(id, row.attempt + 1, row.retries)]
            && r.status == ClaimedBy && r.owned && r.attempt == row.attempt + 1 && r.lease == Some(now + 90) && !r.manual
  {
  }

  /** A FAILED job that need not wait for the manager is handed out again by itself,
      until it has been five times. */
  lemma {:induction false} RetriedFiveTimes(row: Row, now: int, id: string)
    requires row.status == FailedOn && !row.manual
    ensures var (r, h) := After(row, Poll(now), id);
            if row.attempt < 5 then h == [Claimed(id, row.attempt + 1, row.retries)] && r.status == ClaimedBy
            else h == [] && r == row
  {
  }

  /** The owner may report a claimed job SENT, which renews the lease, and a claimed,
      sent or quarantined one PRINTED or FAILED, which settles it: printed for good, or
      failed and, as the bridge asks, kept for the manager. */
  lemma {:induction false} OwnerReports(row: Row, u: Request, hash: string, now: int, id: string)
    requires FromOwner(row, u) && (u.manual ==> u.status == FailedOn)
    ensures var (r, h) := After(row, Update(u, hash, now), id);
            && (u.status == SentOn && row.status in {ClaimedBy, SentOn} ==>
                  r.status == SentOn && r.lease == Some(now + 90) && !r.manual && h == [Sent(id, row.attempt)])
            && (u.status == Printed && row.status in {ClaimedBy, SentOn, FailedOn, Printed} ==>
                  r.status == Printed && r.lease == None && h == [Accepted(id, row.attempt, hash, PrintedReport(u.result))])
            && (u.status == FailedOn && row.status in {ClaimedBy, SentOn, FailedOn} ==>
                  r.status == FailedOn && r.lease == None && r.manual == u.manual
                  && h == [Accepted(id, row.attempt, hash, FailedReport(u.manual))])
            && (u.status == Cancelled && row.status == FailedOn ==> r.status == Cancelled && r.lease == None && !r.manual && h == [])
            && (u.status == ClaimedBy && row.status in {ClaimedBy, FailedOn} ==>
                  r.status == ClaimedBy && r.lease == row.lease && r.manual == row.manual && h == [])
            && (u.status in {SentOn, FailedOn} && row.status in {Printed, Cancelled, Pending} ==> r == row && h == [])
  {
  }

  /** Whose update is accepted: under a stored key only a repetition of what was stored
      about the current attempt; otherwise the owner's, about that attempt, repeating
      the status or moving it on, and asking for the manager only with FAILED. */
  lemma {:induction false} UpdatesAccepted(row: Row, u: Request, now: int)
    ensures Patch(row, u, now).Some? <==>
              && (u.attempt.Some? ==> u.attempt.value >= 1) && (u.scoped ==> u.key != "") && (u.key != "" ==> !u.taken)
              && if u.key != "" && u.key in row.acks
                 then row.acks[u.key] == Ack(row.attempt, u.status) && (u.attempt.Some? ==> u.attempt.value == row.attempt)
                 else
                   && row.owned && (if u.attempt.Some? then u.attempt.value == row.attempt else !u.scoped)
                   && (u.manual ==> u.status == FailedOn)
                   && (u.status == row.status || (row.status, u.status) in
                         {(ClaimedBy, SentOn), (ClaimedBy, Printed), (ClaimedBy, FailedOn), (SentOn, Printed), (SentOn, FailedOn),
                          (FailedOn, ClaimedBy), (FailedOn, Cancelled), (FailedOn, Printed)})
  {
  }

  /** A printed or cancelled job stays as it is on every run, and is never handed out again. */
  lemma {:induction false} SettledForGood(row: Row, steps: seq<Step>, id: string)
    requires row.status in {Printed, Cancelled} && Legal(steps, id)
    ensures var (r, h) := RunFrom(row, steps, id);
            r.status == row.status && r.attempt == row.attempt && Claims(h, id) == 0
  {
    if steps != [] {
      var init, last := steps[..|steps| - 1], steps[|steps| - 1];
      SettledForGood(row, init, id);
      var (r, h) := RunFrom(row, init, id);
      NoNewClaim(r, h, last, id);
    }
  }

  /** A step that does not hand the job out adds no claim. */
  lemma {:induction false} NoNewClaim(row: Row, h: History, x: Step, id: string)
    requires x.Elsewhere? ==> IsElsewhere(x.event, id)
    requires x.Poll? ==> !Claimable(Expire(row, x.now))
    ensures Claims(h + After(row, x, id).1, id) == Claims(h, id)
  {
    var more := After(row, x, id).1;
    if more == [] {
      assert h + more == h;
    } else {
      var h' := Extend(h, more[0]);
      assert h + more == h';
    }
  }

  /** A job that was handed out, or reported SENT, and about which nothing is heard: the
      first poll after its lease has run out takes it for FAILED and keeps it for the
      manager, and no poll before that touches it. */
  lemma {:induction false} SilenceIsFailure(row: Row, since: int, now: int, id: string)
    requires row.status in {ClaimedBy, SentOn} && !row.manual && row.lease == Some(since + 90)
    ensures var (r, h) := After(row, Poll(now), id);
            && h == []
            && r == if now > since + 90 then row.(status := FailedOn, manual := true, lease := None) else row
  {
  }

  /** The job stands CLAIMED, and came to from FAILED, by an update of its owner. */
  predicate TakenBack(steps: seq<Step>, id: string) {
    steps != [] &&
    var init := steps[..|steps| - 1];
    var before, after := Run(init, id).0, Run(steps, id).0;
    after.status == ClaimedBy
    && if before.status == ClaimedBy then TakenBack(init, id) else before.status == FailedOn && steps[|steps| - 1].Update?
  }

  /** A job that is out for printing has a lease, and does not wait for the manager,
      unless it was taken back; then it has none. */
  lemma {:induction false} LeasedUnlessTakenBack(steps: seq<Step>, id: string)
    ensures var row := Run(steps, id).0;
            && (row.status in {ClaimedBy, SentOn} ==> (row.lease.Some? <==> !TakenBack(steps, id)) && (row.manual ==> TakenBack(steps, id)))
            && (row.status !in {ClaimedBy, SentOn} ==> row.lease.None?)
            && (row.status == Pending ==> !row.manual)
  {
    if steps != [] {
      LeasedUnlessTakenBack(steps[..|steps| - 1], id);
    }
  }

  /** Nothing is heard of the job: polls and attempts of the manager only. */
  predicate Quiet(steps: seq<Step>) {
    forall x <- steps :: x.Poll? || x.ManagerRetry?
  }

  lemma {:induction false} NobodyNotices(row: Row, later: seq<Step>, id: string)
    requires row.status == ClaimedBy && row.lease.None? && Quiet(later)
    ensures RunFrom(row, later, id).0 == row
  {
    if later != [] {
      NobodyNotices(row, later[..|later| - 1], id);
    }
  }

  /** After any run, silence about a job that is out for printing is noticed, and the
      job kept for the manager, if and only if the job was not taken back. */
  lemma {:induction false} SilenceIsNoticed(steps: seq<Step>, id: string)
    requires Run(steps, id).0.status in {ClaimedBy, SentOn}
    ensures (exists later :: Quiet(later) && RunFrom(Run(steps, id).0, later, id).0.status == FailedOn) <==> !TakenBack(steps, id)
  {
    var row := Run(steps, id).0;
    LeasedUnlessTakenBack(steps, id);
    if TakenBack(steps, id) {
      forall later | Quiet(later) ensures RunFrom(row, later, id).0.status == ClaimedBy {
        NobodyNotices(row, later, id);
      }
    } else {
      var later := [Poll(row.lease.value + 1)];
      assert later[..0] == [];
      assert RunFrom(row, [], id) == (row, []);
      assert Quiet(later) && RunFrom(row, later, id).0.status == FailedOn;
    }
  }

  lemma {:induction false} ExhaustedStands(row: Row, later: seq<Step>, id: string)
    requires row.status == FailedOn && !row.manual && row.attempt >= 5 && Quiet(later)
    ensures RunFrom(row, later, id) == (row, [])
  {
    if later != [] {
      var x := later[|later| - 1];
      ExhaustedStands(row, later[..|later| - 1], id);
      assert x in later && After(row, x, id) == (row, []);
      var (_, h) := RunFrom(row, later[..|later| - 1], id);
      assert h + [] == h;
    }
  }

  lemma {:induction false} OneStep(row: Row, x: Step, id: string)
    ensures RunFrom(row, [x], id) == After(row, x, id)
  {
    var steps := [x];
    assert steps[..|steps| - 1] == [];
    assert [] + After(row, x, id).1 == After(row, x, id).1;
  }

  lemma {:induction false} OneClaim(e: Event)
    requires e.Claimed?
    ensures Claims([e], e.id) == 1
  {
    assert Init([e]) == [] && Last([e]) == e;
  }

  /** A FAILED job is handed out again, by polls and by the manager, if and only if it
      waits for the manager or has been handed out less than five times: one that has
      failed five times without asking for the manager never is. */
  lemma {:induction false} FailedJobsComeBack(row: Row, id: string)
    requires row.status == FailedOn
    ensures (exists later :: Quiet(later) && Claims(RunFrom(row, later, id).1, id) > 0) <==> row.manual || row.attempt < 5
  {
    if row.manual {
      var later := [ManagerRetry, Poll(0)];
      assert later[..|later| - 1] == [ManagerRetry];
      OneStep(row, ManagerRetry, id);
      var handed := Claimed(id, row.attempt + 1, row.retries + 1);
      assert RunFrom(row, later, id).1 == [handed];
      OneClaim(handed);
      assert Quiet(later) && Claims(RunFrom(row, later, id).1, id) > 0;
    } else if row.attempt < 5 {
      OneStep(row, Poll(0), id);
      OneClaim(Claimed(id, row.attempt + 1, row.retries));
      assert Quiet([Poll(0)]) && Claims(RunFrom(row, [Poll(0)], id).1, id) > 0;
    } else {
      forall later | Quiet(later) ensures Claims(RunFrom(row, later, id).1, id) == 0 {
        ExhaustedStands(row, later, id);
      }
    }
  }

  /** Nobody but the manager releases the job. */
  predicate Unreleased(steps: seq<Step>) {
    forall x <- steps :: !x.ManagerRetry? && (x.Update? && x.request.status == FailedOn ==> x.request.manual)
  }

  /** A job kept for the manager is not handed out on any run, whatever is polled and
      reported, until the manager retries it; then the next poll hands it out. */
  lemma {:induction false} KeptForTheManager(row: Row, steps: seq<Step>, id: string, now: int)
    requires row.status == FailedOn && row.manual && Legal(steps, id) && Unreleased(steps)
    ensures Claims(RunFrom(row, steps, id).1, id) == 0
    ensures var released := After(row, ManagerRetry, id).0;
            After(released, Poll(now), id).1 == [Claimed(id, row.attempt + 1, row.retries + 1)]
  {
    StaysKept(row, steps, id);
  }

  /** Held, or printed, or cancelled: nothing a poll could hand out. */
  predicate OutOfReach(row: Row) {
    row.status != Pending && (row.status == FailedOn ==> row.manual)
  }

  lemma {:induction false} StaysKept(row: Row, steps: seq<Step>, id: string)
    requires OutOfReach(row) && Legal(steps, id) && Unreleased(steps)
    ensures var (r, h) := RunFrom(row, steps, id); OutOfReach(r) && Claims(h, id) == 0
  {
    if steps != [] {
      var init, last := steps[..|steps| - 1], steps[|steps| - 1];
      StaysKept(row, init, id);
      var (r, h) := RunFrom(row, init, id);
      NoNewClaim(r, h, last, id);
    }
  }
}

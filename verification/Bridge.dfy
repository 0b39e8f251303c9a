/** `PrintBridge`: claims jobs, prints each at most once per accepted report, and
    settles what earlier runs left open. Every method keeps its promise however it
    ends, including when the process dies inside it. */
module Bridge {
  import opened Wrappers
  import opened PrintProtocol
  import opened JournalEntries
  import opened JournalCodec
  import opened JournalFile
  import opened World
  import opened JournalSafety
  import opened Journal

  predicate Extends(before: History, after: History) {
    |before| <= |after| && after[..|before|] == before
  }

  predicate NoPrints(before: History, after: History) {
    forall i :: |before| <= i < |after| ==> !after[i].Dispatched?
  }

  predicate NoPrintedReports(before: History, after: History) {
    forall i :: |before| <= i < |after| && after[i].Accepted? ==> after[i].report.FailedReport?
  }

  predicate PrintsOnly(before: History, after: History, id: string, hash: string) {
    forall i :: |before| <= i < |after| && after[i].Dispatched? ==> after[i] == Dispatched(id, hash)
  }

  /** Two stretches of history read as one. */
  lemma {:induction false} Compose(a: History, b: History, c: History)
    requires Extends(a, b) && Extends(b, c)
    ensures Extends(a, c)
    ensures FaultFree(a, c) <==> FaultFree(a, b) && FaultFree(b, c)
    ensures NoPrints(a, b) && NoPrints(b, c) ==> NoPrints(a, c)
    ensures NoPrintedReports(a, b) && NoPrintedReports(b, c) ==> NoPrintedReports(a, c)
    ensures forall id, hash :: PrintsOnly(a, b, id, hash) && NoPrints(b, c) ==> PrintsOnly(a, c, id, hash)
    ensures forall e <- b :: e in c
  {
    assert c[..|a|] == b[..|a|];
    assert forall i :: 0 <= i < |b| ==> c[i] == b[i];
  }

  lemma {:induction false} OneEvent(before: History, o: Outcome, e: Event, after: History)
    requires Did(before, o, e, after)
    ensures Extends(before, after)
    ensures e != Fault ==> (FaultFree(before, after) <==> o.Done?)
    ensures !e.Dispatched? ==> NoPrints(before, after)
    ensures !(e.Accepted? && e.report.PrintedReport?) ==> NoPrintedReports(before, after)
  {
    if !o.Done? {
      assert after[|after| - 1] == Fault;
    }
  }

  lemma {:induction false} FaultsOnly(before: History, after: History)
    requires OnlyFaults(before, after)
    ensures Extends(before, after) && !FaultFree(before, after)
    ensures NoPrints(before, after) && NoPrintedReports(before, after)
  {
    assert after[|before|] == Fault;
  }

  lemma {:induction false} Nothing(h: History)
    ensures Extends(h, h) && FaultFree(h, h) && NoPrints(h, h) && NoPrintedReports(h, h)
  {
  }

  /** What recovery tells the API about one unacknowledged entry. */
  function RecoveryReport(e: JournalEntry): Event {
    Accepted(e.jobId, e.attemptCount, e.documentHash,
             if e.state == PRINTED && e.result.Some? then PrintedReport(e.result.value) else FailedReport(true))
  }

  function RecoveryReports(es: Entries): History {
    if es == [] then [] else RecoveryReports(es[..|es| - 1]) + [RecoveryReport(es[|es| - 1])]
  }

  /** Recovery reports every entry once, in order: PRINTED with its result when the
      journal has one, and otherwise FAILED for the operator. */
  lemma {:induction false} ReportedAsItIs(es: Entries, k: nat)
    requires k < |es|
    ensures |RecoveryReports(es)| == |es|
    ensures var e, r := es[k], RecoveryReports(es)[k];
            && r.Accepted? && r.id == e.jobId && r.attempt == e.attemptCount && r.hash == e.documentHash
            && (e.state == PRINTED && e.result.Some? ==> r.report == PrintedReport(e.result.value))
            && (e.state == DISPATCHING || e.result.None? ==> r.report == FailedReport(true))
    decreases |es|
  {
    var init := es[..|es| - 1];
    if init != [] {
      ReportedAsItIs(init, if k < |init| then k else 0);
    }
  }

  // ----- what is asked for, whatever comes of it -----

  /** Exactly these requests were made since. */
  predicate Asks(before: seq<Asked>, after: seq<Asked>, events: History) {
    && |after| == |before| + |events| && after[..|before|] == before
    && forall i :: 0 <= i < |events| ==> after[|before| + i].event == events[i]
  }

  /** These requests were made since, and perhaps others after them. */
  predicate AsksFirst(before: seq<Asked>, after: seq<Asked>, events: History) {
    |before| + |events| <= |after| && Asks(before, after[..|before| + |events|], events)
  }

  lemma {:induction false} AsksFirstOn(a: seq<Asked>, b: seq<Asked>, c: seq<Asked>, events: History)
    requires AsksFirst(a, b, events) && |b| <= |c| && c[..|b|] == b
    ensures AsksFirst(a, c, events)
  {
    assert b[..|a| + |events|] == c[..|a| + |events|];
  }

  lemma {:induction false} AsksOn(a: seq<Asked>, b: seq<Asked>, c: seq<Asked>, first: History, second: History)
    requires Asks(a, b, first) && Asks(b, c, second)
    ensures Asks(a, c, first + second)
    ensures first != [] ==> c[|a|] == b[|a|]
  {
    assert c[..|b|] == b && c[..|a|] == b[..|a|];
    forall i | 0 <= i < |first + second| ensures c[|a| + i].event == (first + second)[i] {
      if i < |first| {
        assert c[|a| + i] == b[|a| + i];
      } else {
        assert c[|a| + i] == c[|b| + (i - |first|)];
      }
    }
    if first != [] {
      assert c[..|b|][|a|] == b[|a|];
    }
  }

  function FailureOf(job: Job, hash: string): Event {
    Accepted(job.id, job.attemptCount, hash, FailedReport(true))
  }

  /** What is reported about a claimed job with an entry left open. */
  function OutcomeOf(e: JournalEntry, job: Job, hash: string): Event {
    Accepted(job.id, job.attemptCount, hash,
             if e.documentHash == hash && e.state == PRINTED && e.result.Some?
             then PrintedReport(e.result.value) else FailedReport(true))
  }

  /** The requests that `process` makes unless the process dies. With an entry left open
      one report. Otherwise print, SENT and PRINTED; but FAILED instead of printing when
      the journal could not be written, instead of going on when the transport failed,
      and instead of PRINTED when the result could not be kept. */
  ghost predicate Worked(before: seq<Asked>, after: seq<Asked>, h: History, es: Entries, job: Job, hash: string, broken: bool) {
    if HasUnacknowledged(es, job.id) then Asks(before, after, [OutcomeOf(Find(es, job.id).value, job, hash)])
    else Attempted(before, after, h, job, hash, broken)
  }

  ghost predicate Attempted(before: seq<Asked>, after: seq<Asked>, h: History, job: Job, hash: string, broken: bool) {
    var spool, sent := Dispatched(job.id, hash), Sent(job.id, job.attemptCount);
    || (broken && Asks(before, after, [FailureOf(job, hash)]))
    || (Asks(before, after, [spool, FailureOf(job, hash)]) && after[|before|].outcome.Failed?)
    || (broken && Asks(before, after, [spool, sent, FailureOf(job, hash)]) && after[|before|].outcome.Done?)
    || exists r :: Returned(job.id, hash, r) in h && Confirmed(before, after, job, hash, r)
  }

  /** The transport gave a result, and it was reported. */
  predicate Confirmed(before: seq<Asked>, after: seq<Asked>, job: Job, hash: string, r: PrintResult) {
    && Asks(before, after, [Dispatched(job.id, hash), Sent(job.id, job.attemptCount),
                            Accepted(job.id, job.attemptCount, hash, PrintedReport(r))])
    && after[|before|].outcome.Done?
  }

  /** SENT, then PRINTED, or FAILED when the result could not be kept. */
  predicate Finished(before: seq<Asked>, after: seq<Asked>, job: Job, hash: string, r: PrintResult, broken: bool) {
    var sent := Sent(job.id, job.attemptCount);
    || Asks(before, after, [sent, Accepted(job.id, job.attemptCount, hash, PrintedReport(r))])
    || (broken && Asks(before, after, [sent, FailureOf(job, hash)]))
  }

  lemma {:induction false} ReturnedStays(h: History, h': History, id: string, hash: string, r: PrintResult)
    requires Extends(h, h') && Returned(id, hash, r) in h
    ensures Returned(id, hash, r) in h'
  {
    var i :| 0 <= i < |h| && h[i] == Returned(id, hash, r);
    assert h'[..|h|][i] == h'[i];
  }

  lemma {:induction false} OneAsked(before: seq<Asked>, e: Event, o: Outcome)
    ensures Asks(before, before + [Asked(e, o)], [e])
  {
  }

  lemma {:induction false} FinishedBy(a: seq<Asked>, b: seq<Asked>, c: seq<Asked>, sentOutcome: Outcome,
                                      job: Job, hash: string, r: PrintResult, broken: bool, e: Event)
    requires b == a + [Asked(Sent(job.id, job.attemptCount), sentOutcome)] && Asks(b, c, [e])
    requires e == Accepted(job.id, job.attemptCount, hash, PrintedReport(r)) || (broken && e == FailureOf(job, hash))
    ensures Finished(a, c, job, hash, r, broken)
  {
    var sent := Sent(job.id, job.attemptCount);
    OneAsked(a, sent, sentOutcome);
    AsksOn(a, b, c, [sent], [e]);
    assert [sent] + [e] == [sent, e];
  }

  lemma {:induction false} AttemptFailed(a: seq<Asked>, b: seq<Asked>, c: seq<Asked>, h: History, job: Job, hash: string, broken: bool)
    requires b == a + [Asked(Dispatched(job.id, hash), Failed)] && Asks(b, c, [FailureOf(job, hash)])
    ensures Attempted(a, c, h, job, hash, broken)
  {
    OneAsked(a, Dispatched(job.id, hash), Failed);
    AsksOn(a, b, c, [Dispatched(job.id, hash)], [FailureOf(job, hash)]);
    assert [Dispatched(job.id, hash)] + [FailureOf(job, hash)] == [Dispatched(job.id, hash), FailureOf(job, hash)];
  }

  lemma {:induction false} AttemptFinished(a: seq<Asked>, b: seq<Asked>, c: seq<Asked>, h: History, job: Job, hash: string,
                                    r: PrintResult, broken: bool)
    requires Returned(job.id, hash, r) in h
    requires b == a + [Asked(Dispatched(job.id, hash), Done)] && Finished(b, c, job, hash, r, broken)
    ensures Attempted(a, c, h, job, hash, broken)
  {
    var spool, sent := Dispatched(job.id, hash), Sent(job.id, job.attemptCount);
    var printed, failed := Accepted(job.id, job.attemptCount, hash, PrintedReport(r)), FailureOf(job, hash);
    OneAsked(a, spool, Done);
    if Asks(b, c, [sent, printed]) {
      AsksOn(a, b, c, [spool], [sent, printed]);
      assert [spool] + [sent, printed] == [spool, sent, printed];
      assert Confirmed(a, c, job, hash, r);
    } else {
      AsksOn(a, b, c, [spool], [sent, failed]);
      assert [spool] + [sent, failed] == [spool, sent, failed];
    }
  }

  /** The requests that follow a claim which came through. */
  ghost predicate Served(before: seq<Asked>, after: seq<Asked>, h: History, payload: Payload, es: Entries, p: Platform, broken: bool) {
    match payload
    case WellFormed(job) => Worked(before, after, h, es, job, p.hash(job.document), broken)
    case Malformed(id, attempt) => Asks(before, after, [Accepted(id, attempt, "", FailedReport(true))])
    case _ => after == before
  }

  /** What a fault-free `process` adds to the history. */
  ghost predicate Handled(before: History, after: History, es: Entries, job: Job, hash: string) {
    if HasUnacknowledged(es, job.id) then
      var e := Find(es, job.id).value;
      after == before + [Accepted(job.id, job.attemptCount, hash,
                                  if e.documentHash == hash && e.state == PRINTED && e.result.Some?
                                  then PrintedReport(e.result.value) else FailedReport(true))]
    else
      exists r :: after == before + [Dispatched(job.id, hash), Returned(job.id, hash, r), Sent(job.id, job.attemptCount),
                                     Accepted(job.id, job.attemptCount, hash, PrintedReport(r))]
  }

  lemma {:induction false} HandledInTwo(h0: History, h1: History, h2: History, es: Entries, job: Job, hash: string, r: PrintResult)
    requires !HasUnacknowledged(es, job.id)
    requires h1 == h0 + [Dispatched(job.id, hash), Returned(job.id, hash, r)]
    requires h2 == h1 + [Sent(job.id, job.attemptCount), Accepted(job.id, job.attemptCount, hash, PrintedReport(r))]
    ensures Handled(h0, h2, es, job, hash)
  {
    assert h2 == h0 + [Dispatched(job.id, hash), Returned(job.id, hash, r), Sent(job.id, job.attemptCount),
                       Accepted(job.id, job.attemptCount, hash, PrintedReport(r))];
  }

  /** What a fault-free `poll` adds to the history: the claim, and what became of it. */
  ghost predicate Polled(before: History, after: History, payload: Payload, es: Entries, p: Platform) {
    if payload.NoJob? then after == before
    else
      && |after| > |before| && IsClaimFor(after[|before|], payload)
      && var claimed := before + [after[|before|]];
         match payload
         case WellFormed(job) => Handled(claimed, after, es, job, p.hash(job.document))
         case Malformed(id, attempt) => after == claimed + [Accepted(id, attempt, "", FailedReport(true))]
         case _ => after == claimed
  }

  /** A claim and what followed it, read as one poll. */
  lemma {:induction false} PolledOnce(h0: History, h1: History, h2: History, payload: Payload, es: Entries, p: Platform)
    requires Extends(h0, h1) && Extends(h1, h2) && |h1| == |h0| + 1 && IsClaimFor(Last(h1), payload)
    requires FaultFree(h1, h2) ==>
               match payload
               case WellFormed(job) => Handled(h1, h2, es, job, p.hash(job.document))
               case Malformed(id, attempt) => h2 == h1 + [Accepted(id, attempt, "", FailedReport(true))]
               case _ => h2 == h1
    ensures FaultFree(h0, h2) ==> Polled(h0, h2, payload, es, p)
  {
    assert h1 == h0 + [h2[|h0|]] by {
      assert h2[|h0|] == h2[..|h1|][|h0|];
    }
  }

  ghost predicate NothingOpen(es: Entries) {
    forall id :: !HasUnacknowledged(es, id)
  }

  lemma {:induction false} NothingOpenExactly(es: Entries)
    requires Distinct(es)
    ensures NothingOpen(es) <==> Unacknowledged(es) == []
  {
    UnacknowledgedMembers(es);
    if Unacknowledged(es) != [] {
      FirstIsOpen(es, Unacknowledged(es)[0]);
    }
    forall id | HasUnacknowledged(es, id) ensures Unacknowledged(es) != [] {
      FindMeansIn(es, id);
      assert Find(es, id).value in Unacknowledged(es);
    }
  }

  /** Where nothing is open, what a poll adds does not depend on the journal. */
  lemma {:induction false} PolledFresh(before: History, after: History, payload: Payload, es: Entries, p: Platform)
    requires NothingOpen(es) && Polled(before, after, payload, es, p)
    ensures Polled(before, after, payload, [], p)
  {
  }

  /** The history is that many polls longer, one after the other, each a claim and
      what became of it, with nothing left open from before. */
  ghost predicate Lived(before: History, after: History, payloads: seq<Payload>, p: Platform)
    decreases |payloads|
  {
    if payloads == [] then after == before
    else
      var n := |payloads| - 1;
      exists h :: Lived(before, h, payloads[..n], p) && Polled(h, after, payloads[n], [], p)
  }

  lemma {:induction false} LivedOn(before: History, h: History, after: History, payloads: seq<Payload>, payload: Payload, p: Platform)
    requires Lived(before, h, payloads, p) && Polled(h, after, payload, [], p)
    ensures Lived(before, after, payloads + [payload], p)
  {
    var all := payloads + [payload];
    assert all[..|all| - 1] == payloads;
  }

  /** What the journal says about the other jobs stays as it is. */
  ghost predicate OthersStand(es: Entries, es': Entries, id: string) {
    forall x :: x != id ==> (HasUnacknowledged(es', x) <==> HasUnacknowledged(es, x))
  }

  lemma {:induction false} PutStands(es: Entries, e: JournalEntry, p: Platform)
    requires Distinct(es)
    ensures OthersStand(es, Trim(Put(es, e), JOURNAL_LIMIT, p), e.jobId)
  {
    PutDistinct(es, e);
    forall x | x != e.jobId ensures HasUnacknowledged(Trim(Put(es, e), JOURNAL_LIMIT, p), x) <==> HasUnacknowledged(es, x) {
      PutFinds(es, e, x);
      TrimKeepsSuppression(Put(es, e), JOURNAL_LIMIT, p, x);
    }
  }

  lemma {:induction false} AckStands(es: Entries, id: string, p: Platform)
    requires Distinct(es)
    ensures OthersStand(es, Acked(es, id, p), id)
  {
    var e := Find(es, id);
    if e.Some? && !e.value.acknowledged {
      FindMeansIn(es, id);
      PutStands(es, e.value.(acknowledged := true), p);
    }
  }

  lemma {:induction false} StandOn(a: Entries, b: Entries, c: Entries, id: string)
    requires OthersStand(a, b, id) && OthersStand(b, c, id)
    ensures OthersStand(a, c, id)
  {
  }

  // ----- journal changes that keep the journal safe -----

  lemma {:induction false} AckKeepsSafe(es: Entries, id: string, p: Platform, h: History)
    requires Safe(es, h) && !Open(h, id)
    ensures Safe(Acked(es, id, p), h) && Safe(RolledBack(es, id, p), h)
  {
    var e := Find(es, id);
    if e.Some? && !e.value.acknowledged {
      FindMeansIn(es, id);
      var put := Put(es, e.value.(acknowledged := true));
      SafePut(es, e.value.(acknowledged := true), h);
      SafeTrim(put, JOURNAL_LIMIT, p, h);
      SafePut(Acked(es, id, p), e.value, h);
    }
  }

  /** Acknowledging an entry takes it, and only it, off the unresolved list. */
  lemma {:induction false} AckSettles(es: Entries, id: string, p: Platform)
    requires Distinct(es)
    ensures !HasUnacknowledged(Acked(es, id, p), id)
    ensures HasUnacknowledged(es, id) && Unacknowledged(es) != [] && Unacknowledged(es)[0].jobId == id
            ==> Unacknowledged(Acked(es, id, p)) == Unacknowledged(es)[1..]
  {
    var e := Find(es, id);
    if e.Some? && !e.value.acknowledged {
      FindMeansIn(es, id);
      var acked := e.value.(acknowledged := true);
      PutDistinct(es, acked);
      PutFinds(es, acked, id);
      TrimKeepsSuppression(Put(es, acked), JOURNAL_LIMIT, p, id);
      TrimKeepsUnacknowledged(Put(es, acked), JOURNAL_LIMIT, p);
      if Unacknowledged(es) != [] && Unacknowledged(es)[0].jobId == id {
        FirstSettled(es, acked);
      }
    }
  }

  lemma {:induction false} FirstSettled(es: Entries, acked: JournalEntry)
    requires Distinct(es) && acked.acknowledged
    requires Unacknowledged(es) != [] && Unacknowledged(es)[0].jobId == acked.jobId
    ensures Unacknowledged(Put(es, acked)) == Unacknowledged(es)[1..]
  {
    if es[0].acknowledged {
      UnacknowledgedMembers(es[1..]);
      assert Unacknowledged(es)[0] in es[1..];
      FirstSettled(es[1..], acked);
      assert Put(es, acked)[1..] == Put(es[1..], acked);
    } else {
      assert Put(es, acked)[1..] == es[1..];
    }
  }

  lemma {:induction false} DispatchIsSafe(es: Entries, job: Job, p: Platform, now: string, h: History)
    requires Safe(es, h)
    ensures var after := Trim(Put(es, DispatchingEntry(job, p, now)), JOURNAL_LIMIT, p);
            Safe(after, h) && HasUnacknowledged(after, job.id)
  {
    var e := DispatchingEntry(job, p, now);
    SafePut(es, e, h);
    SafeTrim(Put(es, e), JOURNAL_LIMIT, p, h);
    PutFinds(es, e, job.id);
    TrimKeepsSuppression(Put(es, e), JOURNAL_LIMIT, p, job.id);
  }

  lemma {:induction false} PrintedIsSafe(es: Entries, job: Job, r: PrintResult, p: Platform, at: string, h: History)
    requires Safe(es, h) && Returned(job.id, p.hash(job.document), r) in h
    ensures var after := Trim(Put(es, PrintedEntry(job, r, p, at)), JOURNAL_LIMIT, p);
            Safe(after, h) && HasUnacknowledged(after, job.id)
  {
    var e := PrintedEntry(job, r, p, at);
    SafePut(es, e, h);
    SafeTrim(Put(es, e), JOURNAL_LIMIT, p, h);
    PutFinds(es, e, job.id);
    TrimKeepsSuppression(Put(es, e), JOURNAL_LIMIT, p, job.id);
  }

  predicate IsHonestCall(h: History, e: Event) {
    match e
    case Sent(_, _) => true
    case Accepted(id, _, hash, PrintedReport(r)) => Returned(id, hash, r) in h
    case Accepted(_, _, _, FailedReport(manual)) => manual
    case _ => false
  }

  /** A call to the API, however it ends, leaves everything as safe as it was. */
  lemma {:induction false} CallKeepsSafe(es: Entries, fs: set<File>, p: Platform, h: History, o: Outcome, e: Event, h': History)
    requires Did(h, o, e, h') && IsHonestCall(h, e)
    requires Guarded(h) && Honest(h) && Safe(es, h) && FilesSafe(fs, p, h)
    ensures Guarded(h') && Honest(h') && Safe(es, h') && FilesSafe(fs, p, h')
    ensures o.Done? && e.Accepted? ==> !Open(h', e.id)
    ensures forall x <- h :: x in h'
  {
    var h1 := Extend(h, e);
    SafeGrows(es, h, e);
    FilesSafeGrow(fs, p, h, e);
    if !o.Done? {
      var base := if h' == h + [Fault] then h else h1;
      var last := Extend(base, Fault);
      SafeGrows(es, base, Fault);
      FilesSafeGrow(fs, p, base, Fault);
    }
  }

  /** A claim, however it ends, leaves everything as safe as it was. */
  lemma {:induction false} ClaimKeepsSafe(es: Entries, fs: set<File>, p: Platform, h: History, e: Event, h': History)
    requires Guarded(h) && Honest(h) && Safe(es, h) && FilesSafe(fs, p, h)
    requires e.Claimed? || e.Fault?
    requires h' == h + [e] || h' == h + [e] + [Fault]
    ensures Guarded(h') && Honest(h') && Safe(es, h') && FilesSafe(fs, p, h')
    ensures Extends(h, h') && NoPrints(h, h') && NoPrintedReports(h, h')
    ensures h' == h + [e] && e.Claimed? ==> Standing(h', e.id)
  {
    var h1 := Extend(h, e);
    SafeGrows(es, h, e);
    FilesSafeGrow(fs, p, h, e);
    if h' != h1 {
      var h2 := Extend(h1, Fault);
      SafeGrows(es, h1, Fault);
      FilesSafeGrow(fs, p, h1, Fault);
    }
  }

  /** A print behind a suppressing entry, however it ends, leaves everything safe. */
  lemma {:induction false} PrintKeepsSafe(es: Entries, fs: set<File>, p: Platform, h: History, o: Outcome,
                       id: string, hash: string, result: PrintResult, h': History)
    requires Guarded(h) && Honest(h) && Safe(es, h) && FilesSafe(fs, p, h)
    requires Standing(h, id) && !Open(h, id)
    requires HasUnacknowledged(es, id) && forall f <- fs :: FileSuppresses(f, p, id)
    requires if o.Done? then h' == h + [Dispatched(id, hash)] + [Returned(id, hash, result)]
             else h' == h + [Fault] || h' == h + [Dispatched(id, hash)] + [Fault]
    ensures Guarded(h') && Honest(h') && Safe(es, h') && FilesSafe(fs, p, h')
  {
    var h1 := Extend(h, Dispatched(id, hash));
    SafeGrows(es, h, Dispatched(id, hash));
    FilesSafeGrow(fs, p, h, Dispatched(id, hash));
    var base := if h' == h + [Fault] then h else h1;
    var e := if o.Done? then Returned(id, hash, result) else Fault;
    var last := Extend(base, e);
    SafeGrows(es, base, e);
    FilesSafeGrow(fs, p, base, e);
  }

  class PrintBridge {
    const world: Outside
    const journal: PrintJournal

    constructor (world: Outside, journal: PrintJournal)
      requires journal.world == world
      ensures this.world == world && this.journal == journal
    {
      this.world, this.journal := world, journal;
    }

    /** The durability `persist` needs: a synced directory, or no power loss. */
    ghost predicate Wired() {
      journal.world == world && (world.posix || !world.powerLoss)
    }

    /** What survives the process: a lawful history and only safe files. */
    ghost predicate DiskGood()
      reads world
    {
      && Guarded(world.history) && Honest(world.history)
      && world.disk.visible in world.disk.durable
      && FilesSafe(world.Files(), journal.platform, world.history)
    }

    /** What a living process adds: a loaded, safe journal in memory. */
    ghost predicate Good()
      reads world, journal
    {
      DiskGood() && journal.loaded && Safe(journal.entries, world.history)
    }

    ghost predicate GoodAfter(o: Outcome)
      reads world, journal
    {
      DiskGood() && (o.Crashed? || Good())
    }

    /** After journal work that met only faults, `DiskGood` follows from the entries written. */
    twostate lemma JournalKeepsGood(written: Entries)
      requires old(DiskGood()) && Safe(written, old(world.history))
      requires world.history == old(world.history) || OnlyFaults(old(world.history), world.history)
      requires world.Files() <= old(world.Files()) + {Whole(Encode(written))}
      requires world.disk.visible in world.disk.durable
      ensures DiskGood()
      ensures forall es: Entries {:trigger Safe(es, world.history)} :: Safe(es, old(world.history)) ==> Safe(es, world.history)
      ensures forall id :: Open(world.history, id) == old(Open(world.history, id))
      ensures forall id :: Standing(world.history, id) == old(Standing(world.history, id))
    {
      var p := journal.platform;
      var h := old(world.history);
      WrittenIsSafe(written, p, h);
      assert FilesSafe(old(world.Files()) + {Whole(Encode(written))}, p, h);
      if world.history != h {
        FaultsKeepRules(h, world.history);
        FaultsKeepSafe(written, old(world.Files()) + {Whole(Encode(written))}, p, h, world.history);
        forall es: Entries | Safe(es, h)
          ensures Safe(es, world.history)
        {
          FaultsKeepSafe(es, {}, p, h, world.history);
        }
      }
    }

    /** `markPrinted`, `markFailed`, `recoverPrinted`, `recoverUncertainDispatch`. */
    method Report(id: string, attempt: int, ghost hash: string, report: Report) returns (o: Outcome)
      requires Wired() && Good()
      requires report.PrintedReport? ==> Returned(id, hash, report.result) in world.history
      requires report.FailedReport? ==> report.manualRetryRequired
      modifies world`history, world`asked
      ensures world.reliable ==> o.Done?
      ensures Did(old(world.history), o, Accepted(id, attempt, hash, report), world.history)
      ensures Good()
      ensures o.Done? ==> !Open(world.history, id)
      ensures forall e <- old(world.history) :: e in world.history
      ensures world.asked == old(world.asked) + [Asked(Accepted(id, attempt, hash, report), o)]
    {
      o := world.SendReport(id, attempt, hash, report);
      CallKeepsSafe(journal.entries, world.Files(), journal.platform, old(world.history), o,
                    Accepted(id, attempt, hash, report), world.history);
    }

    method Acknowledge(id: string) returns (o: Outcome)
      requires Wired() && Good() && !Open(world.history, id)
      modifies journal`entries, world
      ensures world.reliable ==> o.Done?
      ensures GoodAfter(o)
      ensures o.Done? ==> world.history == old(world.history) && journal.entries == Acked(old(journal.entries), id, journal.platform)
      ensures !o.Done? ==> OnlyFaults(old(world.history), world.history)
      ensures world.asked == old(world.asked) && world.claims == old(world.claims)
      ensures if o.Done? then world.diskFaults == old(world.diskFaults) else world.diskFaults > old(world.diskFaults)
    {
      AckKeepsSafe(journal.entries, id, journal.platform, world.history);
      o := journal.MarkAcknowledged(id);
      JournalKeepsGood(Acked(old(journal.entries), id, journal.platform));
    }

    /** Reports FAILED and, if the API takes it, closes the journal entry. */
    method AcknowledgeFailure(job: Job, manualRetryRequired: bool) returns (o: Outcome)
      requires Wired() && Good()
      requires manualRetryRequired // as every caller in the bridge asks
      modifies journal`entries, world
      ensures world.reliable ==> FaultFree(old(world.history), world.history)
      ensures GoodAfter(o) && !o.Failed?
      ensures Extends(old(world.history), world.history)
      ensures NoPrints(old(world.history), world.history) && NoPrintedReports(old(world.history), world.history)
      ensures o.Crashed? ==> !FaultFree(old(world.history), world.history)
      ensures FaultFree(old(world.history), world.history) ==>
                && world.history == old(world.history)
                   + [Accepted(job.id, job.attemptCount, journal.platform.hash(job.document), FailedReport(true))]
                && journal.entries == Acked(old(journal.entries), job.id, journal.platform)
      ensures Asks(old(world.asked), world.asked, [FailureOf(job, journal.platform.hash(job.document))])
      ensures world.claims == old(world.claims) && world.diskFaults >= old(world.diskFaults)
      ensures world.asked[|world.asked| - 1].outcome.Done? && world.diskFaults == old(world.diskFaults) ==>
                journal.entries == Acked(old(journal.entries), job.id, journal.platform)
    {
      ghost var hash := journal.platform.hash(job.document);
      ghost var h0 := world.history;
      o := Report(job.id, job.attemptCount, hash, FailedReport(manualRetryRequired));
      ghost var h1 := world.history;
      OneEvent(h0, o, Accepted(job.id, job.attemptCount, hash, FailedReport(true)), h1);
      if o.Done? && manualRetryRequired {
        o := Acknowledge(job.id);
        if !o.Done? {
          FaultsOnly(h1, world.history);
        } else {
          Nothing(h1);
        }
        Compose(h0, h1, world.history);
      }
      if o.Failed? {
        o := Done;
      }
    }

    /** `recordDispatching`: once it returns, every file a restart can find
        suppresses the job. */
    method RecordDispatching(job: Job) returns (o: Outcome)
      requires journal.world == world && journal.loaded
      requires Wired() ==> Good()
      modifies journal`entries, world
      ensures world.reliable ==> o.Done?
      ensures o.Done? ==> world.history == old(world.history)
      ensures !o.Done? ==> OnlyFaults(old(world.history), world.history)
      ensures o.Done? ==> world.disk == ApplyAll(old(world.disk), PersistSteps(Encode(journal.entries), world.posix))
      ensures Wired() ==>
                && GoodAfter(o)
                && OthersStand(old(journal.entries), journal.entries, job.id)
                && (o.Done? ==> HasUnacknowledged(journal.entries, job.id))
                && (o.Done? ==> forall f <- world.Files() :: FileSuppresses(f, journal.platform, job.id))
      ensures forall id :: Open(world.history, id) == old(Open(world.history, id))
      ensures forall id :: Standing(world.history, id) == old(Standing(world.history, id))
      ensures world.asked == old(world.asked) && world.claims == old(world.claims)
      ensures if o.Done? then world.diskFaults == old(world.diskFaults) else world.diskFaults > old(world.diskFaults)
    {
      ghost var now;
      o, now := journal.RecordDispatching(job);
      if world.history != old(world.history) {
        FaultsKeepRules(old(world.history), world.history);
      }
      if Wired() {
        DispatchIsSafe(old(journal.entries), job, journal.platform, now, old(world.history));
        JournalKeepsGood(journal.entries);
        PutStands(old(journal.entries), DispatchingEntry(job, journal.platform, now), journal.platform);
        WrittenSuppresses(journal.entries, journal.platform, job.id);
      }
    }

    /** `printer.print`, allowed only behind a durable entry for a standing claim
        where the durability of the journal can be relied on. */
    method Print(job: Job) returns (o: Outcome, result: PrintResult)
      requires journal.world == world
      requires Wired() ==>
                 && Good() && Standing(world.history, job.id) && !Open(world.history, job.id)
                 && HasUnacknowledged(journal.entries, job.id)
                 && forall f <- world.Files() :: FileSuppresses(f, journal.platform, job.id)
      modifies world`history, world`asked
      ensures world.reliable ==> o.Done?
      ensures Wired() ==> Good()
      ensures Extends(old(world.history), world.history)
      ensures PrintsOnly(old(world.history), world.history, job.id, journal.platform.hash(job.document))
      ensures NoPrintedReports(old(world.history), world.history)
      ensures var hash := journal.platform.hash(job.document);
              o.Done? ==> world.history == old(world.history) + [Dispatched(job.id, hash), Returned(job.id, hash, result)]
      ensures !o.Done? ==> !FaultFree(old(world.history), world.history)
      ensures world.asked == old(world.asked) + [Asked(Dispatched(job.id, journal.platform.hash(job.document)), o)]
    {
      ghost var hash := journal.platform.hash(job.document);
      o, result := world.Print(job, hash);
      ghost var h0 := old(world.history);
      ghost var h1 := Extend(h0, Dispatched(job.id, hash));
      ghost var h2 := Extend(h1, Returned(job.id, hash, result));
      assert h1[|h0|] == Dispatched(job.id, hash);
      assert h2 == h0 + [Dispatched(job.id, hash), Returned(job.id, hash, result)];
      assert !o.Done? ==> Last(world.history) == Fault;
      if Wired() {
        PrintKeepsSafe(journal.entries, world.Files(), journal.platform, h0, o, job.id, hash, result, world.history);
      }
    }

    /** The durable entry, then the print: what `process` does with a job that has
        no unresolved entry, up to the transport's answer. */
    method Dispatch(job: Job) returns (o: Outcome, result: PrintResult)
      requires journal.world == world && journal.loaded
      requires !HasUnacknowledged(journal.entries, job.id)
      requires Wired() ==> Good() && Standing(world.history, job.id)
      modifies journal`entries, world
      ensures world.reliable ==> o.Done?
      ensures Wired() ==> GoodAfter(o) && OthersStand(old(journal.entries), journal.entries, job.id)
      ensures Extends(old(world.history), world.history)
      ensures PrintsOnly(old(world.history), world.history, job.id, journal.platform.hash(job.document))
      ensures NoPrintedReports(old(world.history), world.history)
      ensures var hash := journal.platform.hash(job.document);
              o.Done? ==>
                && world.history == old(world.history) + [Dispatched(job.id, hash), Returned(job.id, hash, result)]
                && world.disk == ApplyAll(old(world.disk), PersistSteps(Encode(journal.entries), world.posix))
      ensures !o.Done? ==> !FaultFree(old(world.history), world.history)
      ensures world.claims == old(world.claims)
      ensures if o.Done? || world.diskFaults == old(world.diskFaults)
              then world.diskFaults == old(world.diskFaults)
                   && world.asked == old(world.asked) + [Asked(Dispatched(job.id, journal.platform.hash(job.document)), o)]
              else world.diskFaults > old(world.diskFaults) && world.asked == old(world.asked)
    {
      o := RecordDispatching(job);
      if !o.Done? {
        FaultsOnly(old(world.history), world.history);
        result := *;
        return;
      }
      o, result := Print(job);
    }

    /** `markSent`, whose failure the caller only logs. */
    method MarkSent(job: Job) returns (o: Outcome)
      requires Wired() && Good()
      modifies world`history, world`asked
      ensures world.reliable ==> o.Done?
      ensures Good()
      ensures Did(old(world.history), o, Sent(job.id, job.attemptCount), world.history)
      ensures world.asked == old(world.asked) + [Asked(Sent(job.id, job.attemptCount), o)]
    {
      o := world.SendSent(job.id, job.attemptCount);
      CallKeepsSafe(journal.entries, world.Files(), journal.platform, old(world.history), o,
                    Sent(job.id, job.attemptCount), world.history);
    }

    method RecordPrinted(job: Job, result: PrintResult) returns (o: Outcome)
      requires Wired() && Good()
      requires Returned(job.id, journal.platform.hash(job.document), result) in world.history
      modifies journal`entries, world
      ensures world.reliable ==> o.Done?
      ensures OthersStand(old(journal.entries), journal.entries, job.id)
      ensures GoodAfter(o)
      ensures o.Done? ==> world.history == old(world.history)
      ensures !o.Done? ==> OnlyFaults(old(world.history), world.history)
      ensures world.asked == old(world.asked) && world.claims == old(world.claims)
      ensures if o.Done? then world.diskFaults == old(world.diskFaults) else world.diskFaults > old(world.diskFaults)
    {
      ghost var at;
      o, at := journal.RecordPrinted(job, result);
      PrintedIsSafe(old(journal.entries), job, result, journal.platform, at, old(world.history));
      JournalKeepsGood(journal.entries);
      PutStands(old(journal.entries), PrintedEntry(job, result, journal.platform, at), journal.platform);
    }

    /** The durable entry and the print; when either fails, FAILED is reported and nothing
        more is done about the claim. */
    method TryPrint(job: Job) returns (o: Outcome, printed: bool, result: PrintResult)
      requires Wired() && Good() && Standing(world.history, job.id) && !HasUnacknowledged(journal.entries, job.id)
      modifies journal`entries, world
      ensures world.reliable ==> printed
      ensures GoodAfter(o) && !o.Failed?
      ensures Extends(old(world.history), world.history)
      ensures PrintsOnly(old(world.history), world.history, job.id, journal.platform.hash(job.document))
      ensures world.claims == old(world.claims) && world.diskFaults >= old(world.diskFaults)
      ensures var hash := journal.platform.hash(job.document);
              if printed then
                && o.Done? && OthersStand(old(journal.entries), journal.entries, job.id)
                && world.history == old(world.history) + [Dispatched(job.id, hash), Returned(job.id, hash, result)]
                && world.asked == old(world.asked) + [Asked(Dispatched(job.id, hash), Done)]
              else
                && !FaultFree(old(world.history), world.history)
                && (o.Done? ==> Attempted(old(world.asked), world.asked, world.history, job, hash, world.diskFaults > old(world.diskFaults)))
    {
      ghost var h0, hash := world.history, journal.platform.hash(job.document);
      o, result := Dispatch(job);
      printed := o.Done?;
      ghost var h1, asked := world.history, world.asked;
      if o.Failed? {
        o := AcknowledgeFailure(job, true);
        Compose(h0, h1, world.history);
        if asked != old(world.asked) {
          AttemptFailed(old(world.asked), asked, world.asked, world.history, job, hash, world.diskFaults > old(world.diskFaults));
        }
      }
    }

    /** A claimed job without an unresolved entry: at most this document is printed, and
        only behind a durable entry. */
    method ProcessFresh(job: Job) returns (o: Outcome)
      requires Wired() && Good() && Standing(world.history, job.id) && !HasUnacknowledged(journal.entries, job.id)
      modifies journal`entries, world
      ensures world.reliable ==> FaultFree(old(world.history), world.history)
      ensures GoodAfter(o) && !o.Failed?
      ensures Extends(old(world.history), world.history)
      ensures PrintsOnly(old(world.history), world.history, job.id, journal.platform.hash(job.document))
      ensures o.Crashed? ==> !FaultFree(old(world.history), world.history)
      ensures FaultFree(old(world.history), world.history) ==>
                && !HasUnacknowledged(journal.entries, job.id)
                && OthersStand(old(journal.entries), journal.entries, job.id)
                && Handled(old(world.history), world.history, old(journal.entries), job, journal.platform.hash(job.document))
      ensures world.claims == old(world.claims) && world.diskFaults >= old(world.diskFaults)
      ensures o.Done? ==> Attempted(old(world.asked), world.asked, world.history, job,
                                    journal.platform.hash(job.document), world.diskFaults > old(world.diskFaults))
    {
      ghost var h0, hash := world.history, journal.platform.hash(job.document);
      var printed, result;
      o, printed, result := TryPrint(job);
      if !printed {
        return;
      }
      ghost var h1, es, asked := world.history, journal.entries, world.asked;
      o := FinishPrinted(job, result);
      Compose(h0, h1, world.history);
      if o.Done? {
        assert h1[|h0| + 1] == Returned(job.id, hash, result);
        ReturnedStays(h1, world.history, job.id, hash, result);
        AttemptFinished(old(world.asked), asked, world.asked, world.history, job, hash, result,
                 world.diskFaults > old(world.diskFaults));
      }
      if FaultFree(h1, world.history) {
        StandOn(old(journal.entries), es, journal.entries, job.id);
        HandledInTwo(h0, h1, world.history, old(journal.entries), job, hash, result);
      }
    }

    /** One claimed job. With an unresolved entry nothing is printed, and what it says
        is reported. */
    method Process(job: Job) returns (o: Outcome)
      requires Wired() && Good() && Standing(world.history, job.id)
      modifies journal`entries, world
      ensures world.reliable ==> FaultFree(old(world.history), world.history)
      ensures GoodAfter(o) && !o.Failed?
      ensures Extends(old(world.history), world.history)
      ensures PrintsOnly(old(world.history), world.history, job.id, journal.platform.hash(job.document))
      ensures old(HasUnacknowledged(journal.entries, job.id)) ==> NoPrints(old(world.history), world.history)
      ensures old(HasUnacknowledged(journal.entries, job.id))
              && old(Find(journal.entries, job.id).value.documentHash) != journal.platform.hash(job.document)
              ==> NoPrintedReports(old(world.history), world.history)
      ensures o.Crashed? ==> !FaultFree(old(world.history), world.history)
      ensures FaultFree(old(world.history), world.history) ==>
                && !HasUnacknowledged(journal.entries, job.id)
                && OthersStand(old(journal.entries), journal.entries, job.id)
                && Handled(old(world.history), world.history, old(journal.entries), job, journal.platform.hash(job.document))
      ensures world.claims == old(world.claims) && world.diskFaults >= old(world.diskFaults)
      ensures o.Done? ==> Worked(old(world.asked), world.asked, world.history, old(journal.entries), job,
                                 journal.platform.hash(job.document), world.diskFaults > old(world.diskFaults))
    {
      var previous := Find(journal.entries, job.id);
      if previous.Some? && !previous.value.acknowledged {
        o := RecoverClaimedJournalEntry(job, previous.value);
        AckStands(old(journal.entries), job.id, journal.platform);
        return;
      }
      o := ProcessFresh(job);
    }

    /** After the transport confirmed: SENT, the durable PRINTED entry, then the report. */
    method FinishPrinted(job: Job, result: PrintResult) returns (o: Outcome)
      requires Wired() && Good()
      requires Returned(job.id, journal.platform.hash(job.document), result) in world.history
      modifies journal`entries, world
      ensures world.reliable ==> FaultFree(old(world.history), world.history)
      ensures GoodAfter(o) && !o.Failed?
      ensures Extends(old(world.history), world.history) && NoPrints(old(world.history), world.history)
      ensures o.Crashed? ==> !FaultFree(old(world.history), world.history)
      ensures FaultFree(old(world.history), world.history) ==>
                && !HasUnacknowledged(journal.entries, job.id)
                && OthersStand(old(journal.entries), journal.entries, job.id)
                && world.history == old(world.history)
                   + [Sent(job.id, job.attemptCount),
                      Accepted(job.id, job.attemptCount, journal.platform.hash(job.document), PrintedReport(result))]
      ensures world.claims == old(world.claims) && world.diskFaults >= old(world.diskFaults)
      ensures o.Done? ==> Finished(old(world.asked), world.asked, job, journal.platform.hash(job.document), result,
                                   world.diskFaults > old(world.diskFaults))
    {
      ghost var hash := journal.platform.hash(job.document);
      ghost var h0 := world.history;
      o := MarkSent(job);
      ghost var h1, asked, sent := world.history, world.asked, o;
      OneEvent(h0, o, Sent(job.id, job.attemptCount), h1);
      Compose(h0, h0, h1);
      if o.Crashed? {
        return;
      }
      o := RecordPrinted(job, result);
      ghost var h2 := world.history;
      if !o.Done? {
        FaultsOnly(h1, h2);
        Compose(h0, h1, h2);
        if o.Failed? {
          o := AcknowledgeFailure(job, true);
          Compose(h0, h2, world.history);
          FinishedBy(old(world.asked), asked, world.asked, sent, job, hash, result, true, FailureOf(job, hash));
        }
        return;
      }
      ghost var es := journal.entries;
      o := ReportAndAcknowledge(job.id, job.attemptCount, hash, PrintedReport(result));
      Compose(h0, h1, world.history);
      FinishedBy(old(world.asked), asked, world.asked, sent, job, hash, result, world.diskFaults > old(world.diskFaults),
                 Accepted(job.id, job.attemptCount, hash, PrintedReport(result)));
      if FaultFree(h1, world.history) {
        AckStands(es, job.id, journal.platform);
        StandOn(old(journal.entries), es, journal.entries, job.id);
      }
    }

    /** A report followed, once accepted, by the acknowledgement; errors are only logged. */
    method ReportAndAcknowledge(id: string, attempt: int, ghost hash: string, report: Report) returns (o: Outcome)
      requires Wired() && Good()
      requires report.PrintedReport? ==> Returned(id, hash, report.result) in world.history
      requires report.FailedReport? ==> report.manualRetryRequired
      modifies journal`entries, world
      ensures world.reliable ==> FaultFree(old(world.history), world.history)
      ensures GoodAfter(o) && !o.Failed?
      ensures Extends(old(world.history), world.history) && NoPrints(old(world.history), world.history)
      ensures report.FailedReport? ==> NoPrintedReports(old(world.history), world.history)
      ensures o.Crashed? ==> !FaultFree(old(world.history), world.history)
      ensures FaultFree(old(world.history), world.history) ==>
                && world.history == old(world.history) + [Accepted(id, attempt, hash, report)]
                && journal.entries == Acked(old(journal.entries), id, journal.platform)
                && !HasUnacknowledged(journal.entries, id)
      ensures Asks(old(world.asked), world.asked, [Accepted(id, attempt, hash, report)])
      ensures world.claims == old(world.claims) && world.diskFaults >= old(world.diskFaults)
      ensures world.asked[|world.asked| - 1].outcome.Done? && world.diskFaults == old(world.diskFaults) ==>
                journal.entries == Acked(old(journal.entries), id, journal.platform)
    {
      ghost var h0 := world.history;
      o := Report(id, attempt, hash, report);
      ghost var h1 := world.history;
      OneEvent(h0, o, Accepted(id, attempt, hash, report), h1);
      if o.Done? {
        AckSettles(journal.entries, id, journal.platform);
        o := Acknowledge(id);
        if !o.Done? {
          FaultsOnly(h1, world.history);
        } else {
          Nothing(h1);
        }
        Compose(h0, h1, world.history);
      }
      if o.Failed? {
        o := Done;
      }
    }

    /** The server handed out a job whose earlier outcome is still unreported. */
    method RecoverClaimedJournalEntry(job: Job, entry: JournalEntry) returns (o: Outcome)
      requires Wired() && Good()
      requires Find(journal.entries, job.id) == Some(entry) && !entry.acknowledged
      modifies journal`entries, world
      ensures world.reliable ==> FaultFree(old(world.history), world.history)
      ensures GoodAfter(o) && !o.Failed?
      ensures Extends(old(world.history), world.history) && NoPrints(old(world.history), world.history)
      ensures entry.documentHash != journal.platform.hash(job.document)
              ==> NoPrintedReports(old(world.history), world.history)
      ensures o.Crashed? ==> !FaultFree(old(world.history), world.history)
      ensures FaultFree(old(world.history), world.history) ==>
                && !HasUnacknowledged(journal.entries, job.id)
                && journal.entries == Acked(old(journal.entries), job.id, journal.platform)
                && Handled(old(world.history), world.history, old(journal.entries), job, journal.platform.hash(job.document))
      ensures Asks(old(world.asked), world.asked, [OutcomeOf(entry, job, journal.platform.hash(job.document))])
      ensures world.claims == old(world.claims) && world.diskFaults >= old(world.diskFaults)
    {
      var hash := journal.platform.hash(job.document);
      FindMeansIn(journal.entries, job.id);
      if entry.documentHash != hash {
        AckSettles(journal.entries, job.id, journal.platform);
        o := AcknowledgeFailure(job, true);
        return;
      }
      if entry.state == PRINTED && entry.result.Some? {
        o := ReportAndAcknowledge(job.id, job.attemptCount, hash, PrintedReport(entry.result.value));
      } else {
        o := ReportAndAcknowledge(job.id, job.attemptCount, hash, FailedReport(true));
      }
    }

    /** Settles, oldest first, whatever the journal still holds open. With an
        accepting API and a working disk nothing is left open, each entry is
        reported exactly once as what it is, and nothing is printed. */
    method RecoverJournal() returns (o: Outcome)
      requires Wired() && Good()
      modifies journal`entries, world
      ensures world.reliable ==> FaultFree(old(world.history), world.history)
      ensures GoodAfter(o) && !o.Failed?
      ensures Extends(old(world.history), world.history) && NoPrints(old(world.history), world.history)
      ensures o.Crashed? ==> !FaultFree(old(world.history), world.history)
      ensures FaultFree(old(world.history), world.history) ==>
                && Unacknowledged(journal.entries) == []
                && world.history == old(world.history) + RecoveryReports(Unacknowledged(old(journal.entries)))
      ensures world.claims == old(world.claims) && world.diskFaults >= old(world.diskFaults)
      ensures o.Done? ==> Asks(old(world.asked), world.asked, RecoveryReports(Unacknowledged(old(journal.entries))))
    {
      ghost var h0 := world.history;
      var snapshot := Unacknowledged(journal.entries);
      UnacknowledgedMembers(journal.entries);
      Nothing(h0);
      for i := 0 to |snapshot|
        invariant Good()
        invariant Extends(h0, world.history) && NoPrints(h0, world.history)
        invariant forall e <- snapshot :: Backed(e, world.history)
        invariant SettledUpTo(h0, world.history, journal.entries, snapshot, i)
        invariant world.reliable ==> FaultFree(h0, world.history)
        invariant world.claims == old(world.claims) && world.diskFaults >= old(world.diskFaults)
        invariant Asks(old(world.asked), world.asked, RecoveryReports(snapshot[..i]))
      {
        var entry := snapshot[i];
        ghost var asked := world.asked;
        assert snapshot[..i + 1][..i] == snapshot[..i];
        ghost var h1 := world.history;
        ghost var es := journal.entries;
        var report := if entry.state == PRINTED && entry.result.Some?
                      then PrintedReport(entry.result.value) else FailedReport(true);
        o := ReportAndAcknowledge(entry.jobId, entry.attemptCount, entry.documentHash, report);
        Compose(h0, h1, world.history);
        if o.Crashed? {
          return;
        }
        AsksOn(old(world.asked), asked, world.asked, RecoveryReports(snapshot[..i]), [RecoveryReport(entry)]);
        RecoveryStep(h0, h1, world.history, es, journal.entries, snapshot, i, journal.platform);
      }
      assert snapshot[..|snapshot|] == snapshot;
      o := Done;
    }

    /** Claims at most one job and processes it; a claim that fails validation is
        reported as failed, and every error is only logged. */
    method Poll() returns (o: Outcome, ghost payload: Payload)
      requires Wired() && Good()
      modifies journal`entries, world
      ensures world.reliable ==> FaultFree(old(world.history), world.history)
      ensures GoodAfter(o) && !o.Failed?
      ensures Extends(old(world.history), world.history)
      ensures payload.Malformed? || payload.Unreadable? ==>
                NoPrints(old(world.history), world.history) && NoPrintedReports(old(world.history), world.history)
      ensures FaultFree(old(world.history), world.history) ==>
                && !o.Crashed?
                && Polled(old(world.history), world.history, payload, old(journal.entries), journal.platform)
                && forall id :: HasUnacknowledged(journal.entries, id) ==> old(HasUnacknowledged(journal.entries, id))
      ensures o.Done? ==> |old(world.asked)| <= |world.asked| && world.asked[..|old(world.asked)|] == old(world.asked)
      ensures |world.claims| == |old(world.claims)| + 1 && world.claims[..|old(world.claims)|] == old(world.claims)
      ensures world.diskFaults >= old(world.diskFaults)
      ensures o.Done? ==>
                if world.claims[|world.claims| - 1].Done?
                then Served(old(world.asked), world.asked, world.history, payload, old(journal.entries), journal.platform,
                            world.diskFaults > old(world.diskFaults))
                else world.asked == old(world.asked)
    {
      ghost var h0 := world.history;
      var answer;
      o, answer := RequestClaim();
      payload := answer;
      ghost var h1 := world.history;
      if !o.Done? {
        if o.Failed? {
          o := Done;
        }
        return;
      }
      match answer {
        case WellFormed(job) =>
          o := Process(job);
          Compose(h0, h1, world.history);
          PolledOnce(h0, h1, world.history, answer, old(journal.entries), journal.platform);
        case Malformed(id, attempt) =>
          o := ReportMalformedClaim(id, attempt);
          Compose(h0, h1, world.history);
          PolledOnce(h0, h1, world.history, answer, old(journal.entries), journal.platform);
        case _ =>
      }
    }

    /** `markMalformedClaimFailed`: a ticket that cannot be printed waits for the operator. */
    method ReportMalformedClaim(id: string, attempt: int) returns (o: Outcome)
      requires Wired() && Good()
      modifies world`history, world`asked
      ensures world.reliable ==> FaultFree(old(world.history), world.history)
      ensures Good() && !o.Failed?
      ensures Extends(old(world.history), world.history)
      ensures NoPrints(old(world.history), world.history) && NoPrintedReports(old(world.history), world.history)
      ensures o.Crashed? ==> !FaultFree(old(world.history), world.history)
      ensures FaultFree(old(world.history), world.history) ==>
                world.history == old(world.history) + [Accepted(id, attempt, "", FailedReport(true))]
      ensures Asks(old(world.asked), world.asked, [Accepted(id, attempt, "", FailedReport(true))])
    {
      o := Report(id, attempt, "", FailedReport(true));
      OneEvent(old(world.history), o, Accepted(id, attempt, "", FailedReport(true)), world.history);
      if o.Failed? {
        o := Done;
      }
    }

    method RequestClaim() returns (o: Outcome, payload: Payload)
      requires Wired() && Good()
      modifies world`history, world`claims
      ensures world.reliable ==> o.Done?
      ensures Good() && Extends(old(world.history), world.history)
      ensures NoPrints(old(world.history), world.history) && NoPrintedReports(old(world.history), world.history)
      ensures o.Done? && payload.WellFormed? ==> Standing(world.history, payload.job.id)
      ensures o.Done? ==> if payload.NoJob? then world.history == old(world.history)
                          else |world.history| == |old(world.history)| + 1 && IsClaimFor(Last(world.history), payload)
      ensures o.Done? <==> FaultFree(old(world.history), world.history)
      ensures world.claims == old(world.claims) + [o]
    {
      ghost var h0 := world.history;
      o, payload := world.RequestClaim();
      if world.history != h0 {
        ClaimKeepsSafe(journal.entries, world.Files(), journal.platform, h0, world.history[|h0|], world.history);
      }
      assert !o.Done? ==> world.history[|world.history| - 1] == Fault;
    }

    /** One turn of the loop: whatever is open is settled, then one poll is made. */
    method Turn() returns (o: Outcome, ghost payload: Payload)
      requires Wired() && Good()
      modifies journal`entries, world
      ensures GoodAfter(o) && !o.Failed?
      ensures Extends(old(world.history), world.history)
      ensures o.Crashed? ==> !FaultFree(old(world.history), world.history)
      ensures world.reliable ==> FaultFree(old(world.history), world.history)
      ensures FaultFree(old(world.history), world.history) ==>
                && Unacknowledged(journal.entries) == []
                && Polled(old(world.history) + RecoveryReports(Unacknowledged(old(journal.entries))), world.history,
                          payload, [], journal.platform)
      ensures world.diskFaults >= old(world.diskFaults)
      ensures o.Done? ==> |world.claims| == |old(world.claims)| + 1
      ensures o.Done? ==> AsksFirst(old(world.asked), world.asked, RecoveryReports(Unacknowledged(old(journal.entries))))
      ensures o.Done? ==> |old(world.asked)| <= |world.asked| && world.asked[..|old(world.asked)|] == old(world.asked)
    {
      ghost var h0 := world.history;
      o := RecoverJournal();
      ghost var h1, es, asked := world.history, journal.entries, world.asked;
      if o.Crashed? {
        payload := NoJob;
        return;
      }
      NothingOpenExactly(es);
      o, payload := Poll();
      Compose(h0, h1, world.history);
      if o.Done? {
        assert asked[..|asked|] == asked;
        AsksFirstOn(old(world.asked), asked, world.asked, RecoveryReports(Unacknowledged(old(journal.entries))));
      }
      if FaultFree(h0, world.history) {
        PolledFresh(h1, world.history, payload, es, journal.platform);
        NothingOpenExactly(journal.entries);
      }
    }

    /** The life of a process whose journal is loaded: recover, then recover and poll
        until stopped. */
    method Live(polls: nat) returns (o: Outcome, ghost payloads: seq<Payload>)
      requires Wired() && Good()
      modifies journal`entries, world
      ensures GoodAfter(o) && !o.Failed? && Extends(old(world.history), world.history)
      ensures o.Done? ==> |payloads| == polls && |world.claims| == |old(world.claims)| + polls
      ensures o.Done? ==> AsksFirst(old(world.asked), world.asked, RecoveryReports(Unacknowledged(old(journal.entries))))
      ensures o.Crashed? ==> !FaultFree(old(world.history), world.history)
      ensures world.reliable ==> FaultFree(old(world.history), world.history)
      ensures FaultFree(old(world.history), world.history) ==>
                Lived(old(world.history) + RecoveryReports(Unacknowledged(old(journal.entries))), world.history, payloads, journal.platform)
    {
      ghost var h0, es := world.history, journal.entries;
      payloads := [];
      o := RecoverJournal();
      ghost var recovered := world.history;
      assert world.asked[..|world.asked|] == world.asked;
      for i := 0 to polls
        invariant GoodAfter(o) && !o.Failed? && Extends(h0, world.history)
        invariant o.Crashed? ==> !FaultFree(h0, world.history)
        invariant |payloads| == i
        invariant world.reliable ==> FaultFree(h0, world.history)
        invariant o.Done? ==> |world.claims| == |old(world.claims)| + i
        invariant o.Done? ==> AsksFirst(old(world.asked), world.asked, RecoveryReports(Unacknowledged(es)))
        invariant FaultFree(h0, world.history) ==>
                    && recovered == h0 + RecoveryReports(Unacknowledged(es))
                    && Unacknowledged(journal.entries) == []
                    && Lived(recovered, world.history, payloads, journal.platform)
      {
        if o.Crashed? {
          return;
        }
        ghost var h2, asked := world.history, world.asked;
        ghost var payload;
        o, payload := Turn();
        Compose(h0, h2, world.history);
        if o.Done? {
          AsksFirstOn(old(world.asked), asked, world.asked, RecoveryReports(Unacknowledged(es)));
        }
        if FaultFree(h0, world.history) {
          assert h2 + RecoveryReports([]) == h2;
          LivedOn(recovered, h2, world.history, payloads, payload, journal.platform);
        }
        payloads := payloads + [payload];
      }
    }

    /** One life of the process: load, recover, then recover and poll until stopped.
        An unreadable journal ends it before anything is claimed. Without faults it
        reports what the file left open, each entry once and in order, and then makes
        every poll; and where every call comes through there are no faults, whatever
        missing or readable file it starts from. */
    method Run(polls: nat) returns (o: Outcome, ghost payloads: seq<Payload>)
      requires Wired() && DiskGood() && journal.entries == []
      modifies journal, world
      ensures DiskGood()
      ensures Extends(old(world.history), world.history)
      ensures o.Done? ==> |payloads| == polls
      ensures o.Crashed? ==> !FaultFree(old(world.history), world.history)
      ensures FaultFree(old(world.history), world.history) ==>
                && o.Done?
                && Readable(old(world.disk.visible), journal.platform)
                && Lived(old(world.history) + RecoveryReports(Unacknowledged(ReadFrom(old(world.disk.visible), journal.platform))),
                         world.history, payloads, journal.platform)
      ensures world.reliable && Readable(old(world.disk.visible), journal.platform) ==>
                FaultFree(old(world.history), world.history)
      ensures o.Done? ==> |world.claims| == |old(world.claims)| + polls
      ensures o.Done? ==> AsksFirst(old(world.asked), world.asked,
                                    RecoveryReports(Unacknowledged(ReadFrom(old(world.disk.visible), journal.platform))))
      ensures o.Failed? ==> world.asked == old(world.asked) && world.claims == old(world.claims)
    {
      ghost var h0 := world.history;
      payloads := [];
      o := journal.Load();
      ghost var h1 := world.history;
      if !o.Done? {
        FaultsOnly(h0, h1);
        FaultsKeepRules(h0, h1);
        FaultsKeepSafe([], world.Files(), journal.platform, h0, h1);
        return;
      }
      assert FileSafe(world.disk.visible, journal.platform, h0);
      assert journal.entries == ReadFrom(old(world.disk.visible), journal.platform);
      o, payloads := Live(polls);
    }
  }

  /** Without faults since `h0`, exactly the first `i` entries have been settled. */
  ghost predicate SettledUpTo(h0: History, h: History, es: Entries, snapshot: Entries, i: nat)
    requires i <= |snapshot|
  {
    FaultFree(h0, h) ==>
      Unacknowledged(es) == snapshot[i..] && h == h0 + RecoveryReports(snapshot[..i])
  }

  /** One more snapshot entry settled. */
  lemma {:induction false} RecoveryStep(h0: History, h1: History, h2: History, es: Entries, es': Entries, snapshot: Entries, i: nat, p: Platform)
    requires Extends(h0, h1) && Extends(h1, h2)
    requires Distinct(es) && i < |snapshot| && SettledUpTo(h0, h1, es, snapshot, i)
    requires FaultFree(h1, h2) ==> h2 == h1 + [RecoveryReport(snapshot[i])] && es' == Acked(es, snapshot[i].jobId, p)
    ensures SettledUpTo(h0, h2, es', snapshot, i + 1)
  {
    Compose(h0, h1, h2);
    if FaultFree(h0, h2) {
      SettleNext(es, snapshot, i, p);
      assert h2 == h0 + (RecoveryReports(snapshot[..i]) + [RecoveryReport(snapshot[i])]);
    }
  }

  lemma {:induction false} SettleNext(es: Entries, snapshot: Entries, i: nat, p: Platform)
    requires Distinct(es) && i < |snapshot| && Unacknowledged(es) == snapshot[i..]
    ensures Unacknowledged(Acked(es, snapshot[i].jobId, p)) == snapshot[i + 1..]
    ensures RecoveryReports(snapshot[..i + 1]) == RecoveryReports(snapshot[..i]) + [RecoveryReport(snapshot[i])]
  {
    var e := snapshot[i];
    assert Unacknowledged(es)[0] == e;
    FirstIsOpen(es, e);
    AckSettles(es, e.jobId, p);
    assert snapshot[i..][1..] == snapshot[i + 1..];
    assert snapshot[..i + 1][..i] == snapshot[..i];
  }

  lemma {:induction false} FirstIsOpen(es: Entries, e: JournalEntry)
    requires Distinct(es) && Unacknowledged(es) != [] && Unacknowledged(es)[0] == e
    ensures HasUnacknowledged(es, e.jobId)
  {
    UnacknowledgedMembers(es);
    FindDistinct(es, e);
  }

  // ----- what a restart tells the API -----

  lemma {:induction false} EntryIsReported(es: Entries, e: JournalEntry, p: Platform) returns (k: nat)
    requires Distinct(es) && !e.acknowledged && Storable(e, p) && forall x <- es :: Storable(x, p)
    ensures var read := ReadFrom(Whole(Encode(Trim(Put(es, e), JOURNAL_LIMIT, p))), p);
            k < |Unacknowledged(read)| && Unacknowledged(read)[k] == e
  {
    var kept := Trim(Put(es, e), JOURNAL_LIMIT, p);
    PutDistinct(es, e);
    PutMembers(es, e);
    PutFinds(es, e, e.jobId);
    FindMeansIn(Put(es, e), e.jobId);
    UnacknowledgedMembers(Put(es, e));
    TrimKeepsUnacknowledged(Put(es, e), JOURNAL_LIMIT, p);
    TrimDistinct(Put(es, e), JOURNAL_LIMIT, p);
    TrimMembers(Put(es, e), JOURNAL_LIMIT, p);
    JournalRoundTrip(kept, p);
    assert e in Unacknowledged(kept);
    k :| 0 <= k < |Unacknowledged(kept)| && Unacknowledged(kept)[k] == e;
  }

  /** What can be stored of a claimed job. */
  predicate IsRecordable(job: Job, p: Platform, at: string) {
    job.id != "" && job.attemptCount >= 1 && IsDigest(p.hash(job.document)) && p.isDate(at)
  }

  /** Once `recordPrinted` is on disk, a process that starts from the file reports the
      job PRINTED, under its attempt, with its document's hash and its result. */
  lemma {:induction false} PrintedIsReportedAfterRestart(es: Entries, job: Job, r: PrintResult, p: Platform, at: string)
    requires Distinct(es) && forall x <- es :: Storable(x, p)
    requires IsRecordable(job, p, at) && p.isDate(r.printedAt) && IsTransport(r.transport)
    ensures var read := ReadFrom(Whole(Encode(Trim(Put(es, PrintedEntry(job, r, p, at)), JOURNAL_LIMIT, p))), p);
            Accepted(job.id, job.attemptCount, p.hash(job.document), PrintedReport(r)) in RecoveryReports(Unacknowledged(read))
  {
    var e := PrintedEntry(job, r, p, at);
    var k := EntryIsReported(es, e, p);
    ReportedAsItIs(Unacknowledged(ReadFrom(Whole(Encode(Trim(Put(es, e), JOURNAL_LIMIT, p))), p)), k);
  }

  /** Once only `recordDispatching` is, it reports the job FAILED for the operator. */
  lemma {:induction false} DispatchingIsReportedAfterRestart(es: Entries, job: Job, p: Platform, at: string)
    requires Distinct(es) && forall x <- es :: Storable(x, p)
    requires IsRecordable(job, p, at)
    ensures var read := ReadFrom(Whole(Encode(Trim(Put(es, DispatchingEntry(job, p, at)), JOURNAL_LIMIT, p))), p);
            Accepted(job.id, job.attemptCount, p.hash(job.document), FailedReport(true)) in RecoveryReports(Unacknowledged(read))
  {
    var e := DispatchingEntry(job, p, at);
    var k := EntryIsReported(es, e, p);
    ReportedAsItIs(Unacknowledged(ReadFrom(Whole(Encode(Trim(Put(es, e), JOURNAL_LIMIT, p))), p)), k);
  }

  /** A completed write of a suppressing journal keeps the job from being printed
      again after any restart if and only if the platform is POSIX, or power
      cannot fail, or every content a power loss could bring back already did. */
  lemma {:induction false} SuppressionSurvives(d: Disk, es: Entries, p: Platform, id: string, posix: bool, powerLoss: bool)
    requires HasUnacknowledged(es, id)
    ensures (forall f <- Reloads(ApplyAll(d, PersistSteps(Encode(es), posix)), powerLoss) :: FileSuppresses(f, p, id))
            <==> posix || !powerLoss || forall f <- d.durable :: FileSuppresses(f, p, id)
  {
    PersistDone(d, Encode(es), posix, powerLoss);
    WrittenSuppresses(es, p, id);
  }

  /** Where the durability in `Wired` is missing the bound of `EveryRun` fails: the
      bridge's own calls, on a branch's first job, with a server that hands it
      out again only after a manager's retry. On Windows a power loss right after
      the print brings back the missing journal file; the restarted bridge finds
      nothing open and prints the ticket again, no report made in between. */
  method WindowsPowerLossPrintsTwice(platform: Platform, job: Job) returns (world: Outside)
    ensures !world.posix && world.powerLoss
    ensures Honest(world.history) && Disciplined(world.history, job.id)
    ensures Prints(world.history, job.id) == 2 && Reports(world.history, job.id) == 0
  {
    world := new Outside(false, true, true);
    var result := PrintFromNothing(world, platform, job, 0);
    world.NoteFault();
    world.LosePower(Absent);
    var again := job.(attemptCount := job.attemptCount + 1);
    var result' := PrintFromNothing(world, platform, again, 1);
    TwoDispatches(world.history, job, again, platform.hash(job.document), result, result');
  }

  /** A start without a journal file, one claim, and its print, nothing failing.
      Without the directory sync the missing file can still come back. */
  method PrintFromNothing(world: Outside, platform: Platform, job: Job, ghost retries: nat) returns (result: PrintResult)
    requires world.reliable && !world.posix && world.powerLoss
    requires world.disk == Disk(NoTemp, Absent, true, {Absent})
    modifies world
    ensures var hash := platform.hash(job.document);
            world.history == old(world.history)
              + [Claimed(job.id, job.attemptCount, retries), Dispatched(job.id, hash), Returned(job.id, hash, result)]
    ensures Absent in world.disk.durable
  {
    var journal := new PrintJournal(world, platform);
    var bridge := new PrintBridge(world, journal);
    var o := journal.Load();
    o := world.HandOut(WellFormed(job), retries);
    ghost var h1 := world.history;
    assert h1 == old(world.history) + [Claimed(job.id, job.attemptCount, retries)];
    o, result := bridge.Dispatch(job);
    PersistDone(Disk(NoTemp, Absent, true, {Absent}), Encode(journal.entries), false, true);
  }

  lemma {:induction false} TwoDispatches(h: History, job: Job, again: Job, hash: string, r: PrintResult, r': PrintResult)
    requires again.id == job.id
    requires h == [Claimed(job.id, job.attemptCount, 0), Dispatched(job.id, hash), Returned(job.id, hash, r), Fault,
                   Claimed(job.id, again.attemptCount, 1), Dispatched(job.id, hash), Returned(job.id, hash, r')]
    ensures Honest(h) && Disciplined(h, job.id) && Prints(h, job.id) == 2 && Reports(h, job.id) == 0
  {
    var none: History := [];
    PrintOnTop(none, h[0], h[1], h[2], job.id);
    var printed := none + [h[0]] + [h[1]] + [h[2]];
    OneMore(printed, Fault, job.id);
    var restarted := printed + [Fault];
    PrintOnTop(restarted, h[4], h[5], h[6], job.id);
    assert h == restarted + [h[4]] + [h[5]] + [h[6]];
  }

  lemma {:induction false} PrintOnTop(h: History, claimed: Event, dispatched: Event, returned: Event, id: string)
    requires Honest(h) && Disciplined(h, id) && !Held(h, id)
    requires claimed.Claimed? && claimed.id == id && claimed.retries >= Retries(h, id)
    requires dispatched.Dispatched? && dispatched.id == id
    requires returned.Returned? && returned.id == id && returned.hash == dispatched.hash
    ensures var h' := h + [claimed] + [dispatched] + [returned];
            && Honest(h') && Disciplined(h', id) && !Held(h', id)
            && Prints(h', id) == Prints(h, id) + 1 && Reports(h', id) == Reports(h, id)
            && Retries(h', id) == claimed.retries
  {
    OneMore(h, claimed, id);
    OneMore(h + [claimed], dispatched, id);
    OneMore(h + [claimed] + [dispatched], returned, id);
  }

  /** The counts and rules after one more event. */
  lemma {:induction false} OneMore(h: History, e: Event, id: string)
    ensures Prints(h + [e], id) == Prints(h, id) + if e.Dispatched? && e.id == id then 1 else 0
    ensures Reports(h + [e], id) == Reports(h, id) + if e.Accepted? && e.id == id then 1 else 0
    ensures Retries(h + [e], id) == if e.Claimed? && e.id == id then e.retries else Retries(h, id)
    ensures Held(h + [e], id) == (if e.Claimed? then e.id != id && Held(h, id)
                                  else if e.Accepted? then e.id == id || Held(h, id) else Held(h, id))
    ensures e.Claimed? && e.id == id ==>
              (Disciplined(h + [e], id) <==> Disciplined(h, id) && e.retries >= Retries(h, id)
                                             && (Held(h, id) ==> e.retries > Retries(h, id)))
    ensures !e.Claimed? ==> Disciplined(h + [e], id) == Disciplined(h, id)
    ensures e.Claimed? || e.Dispatched? || e.Fault? ==> Honest(h + [e]) == Honest(h)
    ensures e.Returned? ==> (Honest(h + [e]) <==> Honest(h) && Dispatched(e.id, e.hash) in h)
  {
    var h' := Extend(h, e);
  }

  /** Every run: any number of process lives, each ending in a stop, an error or a
      crash at any step, against any server, printer, network and disk. Paper comes
      out at most once more than the API accepted reports, every PRINTED report is
      genuine, and by `GuardedPrefix` this held at every moment on the way. */
  method EveryRun(posix: bool, powerLoss: bool, platform: Platform, lives: nat) returns (world: Outside)
    requires posix || !powerLoss
    ensures Guarded(world.history) && Honest(world.history)
    ensures forall id :: Prints(world.history, id) <= 1 + Reports(world.history, id)
    ensures forall n, id | 0 <= n <= |world.history| ::
              Prints(world.history[..n], id) <= 1 + Reports(world.history[..n], id)
  {
    world := new Outside(posix, powerLoss, false);
    for i := 0 to lives
      invariant fresh(world)
      invariant world.posix == posix && world.powerLoss == powerLoss
      invariant Guarded(world.history) && Honest(world.history)
      invariant world.disk.visible in world.disk.durable
      invariant FilesSafe(world.Files(), platform, world.history)
    {
      var journal := new PrintJournal(world, platform);
      var bridge := new PrintBridge(world, journal);
      var polls: nat := *;
      var o;
      ghost var payloads;
      o, payloads := bridge.Run(polls);
      world.Restart();
    }
    forall n, id | 0 <= n <= |world.history|
      ensures Prints(world.history[..n], id) <= 1 + Reports(world.history[..n], id)
    {
      GuardedPrefix(world.history, n);
      PrintsBoundedByReports(world.history[..n], id);
    }
    assert world.history[..|world.history|] == world.history;
  }
}

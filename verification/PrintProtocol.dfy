/** What one branch's printing looks like from outside the bridge process: a
    history of claims, physical dispatches and acknowledgements that survives
    every crash. The rules are stated on histories alone; Bridge.dfy shows that
    the bridge's code can only write histories that keep them. */
module PrintProtocol {

  datatype PrintResult = PrintResult(externalReference: string, printedAt: string, transport: string)

  datatype Report =
    | PrintedReport(result: PrintResult)
    | FailedReport(manualRetryRequired: bool)

  datatype Event =
    // the server handed the job out; `retries` is its count of operator retries so far
    | Claimed(id: string, attempt: int, retries: nat)
    // the transport was asked to print: paper may come out from here on
    | Dispatched(id: string, hash: string)
    // the transport confirmed that print
    | Returned(id: string, hash: string, result: PrintResult)
    | Sent(id: string, attempt: int)
    // the API committed a final report about the document with this hash
    | Accepted(id: string, attempt: int, hash: string, report: Report)
    // some step against the disk, the network or the printer failed, or the process died
    | Fault

  type History = seq<Event>

  function Last(h: History): Event
    requires h != []
  {
    h[|h| - 1]
  }

  function Init(h: History): History
    requires h != []
  {
    h[..|h| - 1]
  }

  /** Number of times paper may have come out for a job. */
  function Prints(h: History, id: string): nat {
    if h == [] then 0
    else Prints(Init(h), id) + if Last(h).Dispatched? && Last(h).id == id then 1 else 0
  }

  /** Number of final reports about a job the API accepted. */
  function Reports(h: History, id: string): nat {
    if h == [] then 0
    else Reports(Init(h), id) + if Last(h).Accepted? && Last(h).id == id then 1 else 0
  }

  /** A dispatch of this job has no accepted report after it yet. */
  predicate Open(h: History, id: string) {
    h != [] &&
    match Last(h)
    case Dispatched(i, _) => i == id || Open(Init(h), id)
    case Accepted(i, _, _, _) => i != id && Open(Init(h), id)
    case _ => Open(Init(h), id)
  }

  /** The latest thing the server did about this job was to hand it out. */
  predicate Standing(h: History, id: string) {
    h != [] &&
    match Last(h)
    case Claimed(i, _, _) => i == id || Standing(Init(h), id)
    case Accepted(i, _, _, _) => i != id && Standing(Init(h), id)
    case _ => Standing(Init(h), id)
  }

  /** The latest thing the server did about this job was to accept a report. */
  predicate Held(h: History, id: string) {
    h != [] &&
    match Last(h)
    case Claimed(i, _, _) => i != id && Held(Init(h), id)
    case Accepted(i, _, _, _) => i == id || Held(Init(h), id)
    case _ => Held(Init(h), id)
  }

  /** Operator retries the server had counted when it last handed the job out. */
  function Retries(h: History, id: string): nat {
    if h == [] then 0
    else if Last(h).Claimed? && Last(h).id == id then Last(h).retries
    else Retries(Init(h), id)
  }

  /** The bridge's rule: print only for a standing claim, and never while an
      earlier print of the same job is unreported. */
  predicate Guarded(h: History) {
    h == [] ||
    (Guarded(Init(h)) &&
     (Last(h).Dispatched? ==> !Open(Init(h), Last(h).id) && Standing(Init(h), Last(h).id)))
  }

  /** Every confirmation follows a dispatch of that very document, every PRINTED
      report repeats a result the transport gave for that very document, and
      every FAILED report keeps the job out of automatic retries. */
  predicate Honest(h: History) {
    h == [] ||
    (Honest(Init(h)) &&
     match Last(h)
     case Returned(id, hash, _) => Dispatched(id, hash) in Init(h)
     case Accepted(id, _, hash, PrintedReport(r)) => Returned(id, hash, r) in Init(h)
     case Accepted(_, _, _, FailedReport(manual)) => manual
     case _ => true)
  }

  /** The server's rule for a job: once it has an accepted report, it is handed
      out again only after one more operator retry. PrintServer.dfy derives it from the API code. */
  predicate Disciplined(h: History, id: string) {
    h == [] ||
    (Disciplined(Init(h), id) &&
     match Last(h)
     case Claimed(i, _, retries) =>
       i == id ==>
         retries >= Retries(Init(h), id) && (Held(Init(h), id) ==> retries > Retries(Init(h), id))
     case _ => true)
  }

  /** At most one print per accepted report, plus the one still open. */
  lemma {:induction false} PrintsBoundedByReports(h: History, id: string)
    requires Guarded(h)
    ensures Prints(h, id) <= Reports(h, id) + (if Open(h, id) then 1 else 0)
    ensures Prints(h, id) <= 1 + Reports(h, id)
  {
    if h != [] {
      PrintsBoundedByReports(Init(h), id);
    }
  }

  lemma {:induction false} StandingIsNotHeld(h: History, id: string)
    ensures !(Standing(h, id) && Held(h, id))
  {
    if h != [] {
      StandingIsNotHeld(Init(h), id);
    }
  }

  /** Against a disciplined server the bound is in operator retries. */
  lemma {:induction false} PrintsBoundedByRetries(h: History, id: string)
    requires Guarded(h) && Disciplined(h, id)
    ensures Prints(h, id) <= Retries(h, id) + (if Open(h, id) || Held(h, id) then 1 else 0)
    ensures Prints(h, id) <= 1 + Retries(h, id)
  {
    if h != [] {
      PrintsBoundedByRetries(Init(h), id);
      StandingIsNotHeld(Init(h), id);
    }
  }

  /** The bound cannot be tightened: guarded, honest histories of a disciplined
      server reach it for any number of retries. */
  lemma {:induction false} RetryBoundIsReached(id: string, hash: string, n: nat)
    ensures exists h :: Tight(h, id, n)
  {
    var h: History := [];
    if n > 0 {
      RetryBoundIsReached(id, hash, n - 1);
      h :| Tight(h, id, n - 1);
    }
    var h1 := Extend(h, Claimed(id, n + 1, n));
    assert Prints(h, id) == n && Retries(h1, id) == n;
    assert Standing(h1, id) && !Open(h1, id) && Disciplined(h1, id);
    var h2 := Extend(h1, Dispatched(id, hash));
    assert Prints(h2, id) == Prints(h1, id) + 1 && Retries(h2, id) == Retries(h1, id);
    assert Guarded(h2) && Prints(h2, id) == 1 + n && Retries(h2, id) == n;
    TightWhenReported(h2, id, hash, n);
  }

  ghost predicate Tight(h: History, id: string, n: nat) {
    && Guarded(h) && Honest(h) && Disciplined(h, id)
    && Prints(h, id) == 1 + n && Retries(h, id) == n && !Open(h, id)
  }

  lemma {:induction false} TightWhenReported(h: History, id: string, hash: string, n: nat)
    requires Guarded(h) && Honest(h) && Disciplined(h, id) && Dispatched(id, hash) in h
    requires Prints(h, id) == 1 + n && Retries(h, id) == n
    ensures exists h' :: Tight(h', id, n)
  {
    var r := PrintResult("ref", "now", "mock");
    var h1 := Extend(h, Returned(id, hash, r));
    assert Honest(h1) && Prints(h1, id) == 1 + n && Retries(h1, id) == n;
    var h2 := Extend(h1, Accepted(id, n + 1, hash, PrintedReport(r)));
    assert Prints(h2, id) == Prints(h1, id) && Retries(h2, id) == Retries(h1, id);
    assert !Open(h2, id);
    assert Tight(h2, id, n);
  }

  /** One appended event, unfolded. */
  lemma {:induction false} Extend(h: History, e: Event) returns (h': History)
    ensures h' == h + [e] && h' != [] && Init(h') == h && Last(h') == e
  {
    h' := h + [e];
    assert h'[..|h|] == h;
  }

  /** Every PRINTED report anywhere in an honest history rests on an earlier
      confirmation for the same job and document, and that on an earlier dispatch. */
  lemma {:induction false} PrintedReportsAreGenuine(h: History, i: nat)
    requires Honest(h) && i < |h|
    requires h[i].Accepted? && h[i].report.PrintedReport?
    ensures exists j, k ::
      0 <= k < j < i &&
      h[j] == Returned(h[i].id, h[i].hash, h[i].report.result) &&
      h[k] == Dispatched(h[i].id, h[i].hash)
  {
    HonestPrefix(h, i + 1);
    var p := h[..i + 1];
    assert Init(p) == h[..i] && Last(p) == h[i];
    var j :| 0 <= j < i && h[j] == Returned(h[i].id, h[i].hash, h[i].report.result);
    HonestPrefix(h, j + 1);
    var q := h[..j + 1];
    assert Init(q) == h[..j] && Last(q) == h[j];
    var k :| 0 <= k < j && h[k] == Dispatched(h[j].id, h[j].hash);
  }

  lemma {:induction false} HonestPrefix(h: History, n: nat)
    requires Honest(h) && n <= |h|
    ensures Honest(h[..n])
  {
    if n < |h| {
      HonestPrefix(Init(h), n);
      assert Init(h)[..n] == h[..n];
    } else {
      assert h[..n] == h;
    }
  }

  /** The rules hold of a history exactly when they hold of all its prefixes, so
      what is shown of a whole run was true at every moment of it. */
  lemma {:induction false} GuardedPrefix(h: History, n: nat)
    requires Guarded(h) && n <= |h|
    ensures Guarded(h[..n])
  {
    if n < |h| {
      GuardedPrefix(Init(h), n);
      assert Init(h)[..n] == h[..n];
    } else {
      assert h[..n] == h;
    }
  }
}

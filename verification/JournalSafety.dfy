/** When a journal is good enough to print by, given what has happened so far. */
module JournalSafety {
  import opened Wrappers
  import opened PrintProtocol
  import opened JournalEntries
  import opened JournalCodec
  import opened JournalFile

  /** A recorded result is one the transport gave for that job and document. */
  ghost predicate Backed(e: JournalEntry, h: History) {
    e.state == PRINTED ==> e.result.Some? && Returned(e.jobId, e.documentHash, e.result.value) in h
  }

  /** Every unreported print is suppressed by an unacknowledged entry. */
  ghost predicate Suppressing(es: Entries, h: History) {
    forall id :: Open(h, id) ==> HasUnacknowledged(es, id)
  }

  ghost predicate Safe(es: Entries, h: History) {
    Distinct(es) && Suppressing(es, h) && forall e <- es :: Backed(e, h)
  }

  /** A bridge started from this file prints by a safe journal or not at all. */
  ghost predicate FileSafe(f: File, p: Platform, h: History) {
    match f
    case Absent => Safe([], h)
    case Torn => true
    case Whole(json) => Decode(json, p).Some? ==> Safe(Decode(json, p).value, h)
  }

  ghost predicate FilesSafe(fs: set<File>, p: Platform, h: History) {
    forall f <- fs :: FileSafe(f, p, h)
  }

  lemma {:induction false} WrittenIsSafe(es: Entries, p: Platform, h: History)
    requires Safe(es, h)
    ensures FileSafe(Whole(Encode(es)), p, h)
  {
    JournalRoundTrip(es, p);
  }

  /** Any event but a dispatch keeps a safe journal safe; a dispatch needs its own entry. */
  lemma {:induction false} SafeGrows(es: Entries, h: History, e: Event)
    requires Safe(es, h)
    requires e.Dispatched? ==> HasUnacknowledged(es, e.id)
    ensures Safe(es, h + [e])
  {
    var h' := Extend(h, e);
    forall id | Open(h', id)
      ensures HasUnacknowledged(es, id)
    {
      assert Open(h, id) || (e.Dispatched? && e.id == id);
    }
  }

  lemma {:induction false} FilesSafeGrow(fs: set<File>, p: Platform, h: History, e: Event)
    requires FilesSafe(fs, p, h)
    requires e.Dispatched? ==> forall f <- fs :: FileSuppresses(f, p, e.id)
    ensures FilesSafe(fs, p, h + [e])
  {
    forall f <- fs
      ensures FileSafe(f, p, h + [e])
    {
      match f {
        case Absent =>
          SafeGrows([], h, e);
        case Torn =>
        case Whole(json) =>
          if Decode(json, p).Some? {
            SafeGrows(Decode(json, p).value, h, e);
          }
      }
    }
  }

  /** A bridge started from this file would not print the job. */
  ghost predicate FileSuppresses(f: File, p: Platform, id: string) {
    match f
    case Absent => false
    case Torn => true
    case Whole(json) => Decode(json, p).Some? ==> HasUnacknowledged(Decode(json, p).value, id)
  }

  lemma {:induction false} WrittenSuppresses(es: Entries, p: Platform, id: string)
    requires HasUnacknowledged(es, id)
    ensures FileSuppresses(Whole(Encode(es)), p, id)
  {
    JournalRoundTrip(es, p);
  }

  /** Events that only record faults change nothing. */
  lemma {:induction false} FaultsKeepRules(h: History, h': History)
    requires |h| <= |h'| && h'[..|h|] == h
    requires forall i :: |h| <= i < |h'| ==> h'[i] == Fault
    ensures forall id :: Open(h', id) == Open(h, id) && Standing(h', id) == Standing(h, id)
    ensures Guarded(h') == Guarded(h) && Honest(h') == Honest(h)
    ensures forall e :: e != Fault ==> (e in h' <==> e in h)
  {
    if |h'| > |h| {
      FaultsKeepRules(h, Init(h'));
      assert Last(h') == Fault && h' == Init(h') + [Fault];
    } else {
      assert h' == h;
    }
  }

  lemma {:induction false} FaultsKeepSafe(es: Entries, fs: set<File>, p: Platform, h: History, h': History)
    requires |h| <= |h'| && h'[..|h|] == h
    requires forall i :: |h| <= i < |h'| ==> h'[i] == Fault
    ensures Safe(es, h) ==> Safe(es, h')
    ensures FilesSafe(fs, p, h) ==> FilesSafe(fs, p, h')
  {
    FaultsKeepRules(h, h');
  }

  lemma {:induction false} SafePut(es: Entries, e: JournalEntry, h: History)
    requires Safe(es, h) && Backed(e, h)
    requires Open(h, e.jobId) ==> !e.acknowledged
    ensures Safe(Put(es, e), h)
  {
    PutDistinct(es, e);
    PutMembers(es, e);
    forall id | Open(h, id)
      ensures HasUnacknowledged(Put(es, e), id)
    {
      PutFinds(es, e, id);
    }
  }

  lemma {:induction false} SafeTrim(es: Entries, limit: nat, p: Platform, h: History)
    requires Safe(es, h)
    ensures Safe(Trim(es, limit, p), h)
  {
    TrimDistinct(es, limit, p);
    TrimMembers(es, limit, p);
    forall id | Open(h, id)
      ensures HasUnacknowledged(Trim(es, limit, p), id)
    {
      TrimKeepsSuppression(es, limit, p, id);
    }
  }
}

/** The journal's contents: an insertion-ordered map of entries, as the
    JavaScript `Map` keeps it, and the bound that trimming enforces. */
module JournalEntries {
  import opened Wrappers
  import opened PrintProtocol

  datatype EntryState = DISPATCHING | PRINTED

  datatype JournalEntry = JournalEntry(
    jobId: string, attemptCount: int, printerCode: string, documentHash: string,
    state: EntryState, result: Option<PrintResult>, acknowledged: bool, recordedAt: string)

  type Entries = seq<JournalEntry>

  /** What the platform decides: which strings are dates, how the locale orders
      strings, and the SHA-256 digest of a document. */
  datatype Platform = Platform(
    isDate: string -> bool, collation: string -> int, hash: string -> string)

  const JOURNAL_LIMIT: nat := 2000

  /** No two entries share a job id. */
  ghost predicate Distinct(es: Entries) {
    forall i, j :: 0 <= i < j < |es| ==> es[i].jobId != es[j].jobId
  }

  function Find(es: Entries, id: string): Option<JournalEntry> {
    if es == [] then None
    else if es[0].jobId == id then Some(es[0])
    else Find(es[1..], id)
  }

  /** `Map.set`: a known id keeps its place, a new one goes last. */
  function Put(es: Entries, e: JournalEntry): Entries {
    if es == [] then [e]
    else if es[0].jobId == e.jobId then [e] + es[1..]
    else [es[0]] + Put(es[1..], e)
  }

  function Unacknowledged(es: Entries): Entries {
    if es == [] then []
    else (if es[0].acknowledged then [] else [es[0]]) + Unacknowledged(es[1..])
  }

  function Acknowledged(es: Entries): Entries {
    if es == [] then []
    else (if es[0].acknowledged then [es[0]] else []) + Acknowledged(es[1..])
  }

  /** The one entry state that suppresses a physical print. */
  predicate HasUnacknowledged(es: Entries, id: string) {
    Find(es, id).Some? && !Find(es, id).value.acknowledged
  }

  /** Stable sort, newest record first. */
  function InsertNewest(e: JournalEntry, sorted: Entries, p: Platform): Entries {
    if sorted == [] then [e]
    else if p.collation(sorted[0].recordedAt) > p.collation(e.recordedAt)
    then [sorted[0]] + InsertNewest(e, sorted[1..], p)
    else [e] + sorted
  }

  function NewestFirst(es: Entries, p: Platform): Entries {
    if es == [] then [] else InsertNewest(es[0], NewestFirst(es[1..], p), p)
  }

  function Room(limit: nat, used: nat): nat {
    if used < limit then limit - used else 0
  }

  function Trim(es: Entries, limit: nat, p: Platform): Entries {
    if |es| <= limit then es
    else
      var unacked := Unacknowledged(es);
      var acked := NewestFirst(Acknowledged(es), p);
      unacked + acked[..if Room(limit, |unacked|) <= |acked| then Room(limit, |unacked|) else |acked|]
  }

  // ----- the ordered map -----

  lemma {:induction false} FindMeansIn(es: Entries, id: string)
    ensures Find(es, id).Some? ==> Find(es, id).value in es && Find(es, id).value.jobId == id
    ensures Find(es, id).None? ==> forall e <- es :: e.jobId != id
  {
    if es != [] && es[0].jobId != id {
      FindMeansIn(es[1..], id);
    }
  }

  lemma {:induction false} FindDistinct(es: Entries, e: JournalEntry)
    requires Distinct(es) && e in es
    ensures Find(es, e.jobId) == Some(e)
  {
    FindMeansIn(es, e.jobId);
  }

  lemma {:induction false} PutFinds(es: Entries, e: JournalEntry, id: string)
    ensures Find(Put(es, e), id) == if id == e.jobId then Some(e) else Find(es, id)
  {
    if es != [] && es[0].jobId != e.jobId {
      PutFinds(es[1..], e, id);
      assert Put(es, e)[1..] == Put(es[1..], e);
    } else if es != [] {
      assert Put(es, e)[1..] == es[1..];
    }
  }

  lemma {:induction false} PutMembers(es: Entries, e: JournalEntry)
    ensures forall x <- Put(es, e) :: x == e || (x in es && (Distinct(es) ==> x.jobId != e.jobId))
  {
    if es != [] && es[0].jobId != e.jobId {
      PutMembers(es[1..], e);
    } else if es != [] {
      assert forall x <- Put(es, e) :: x == e || x in es[1..];
      assert Distinct(es) ==> forall x <- es[1..] :: x.jobId != es[0].jobId;
    }
  }

  lemma {:induction false} PutDistinct(es: Entries, e: JournalEntry)
    requires Distinct(es)
    ensures Distinct(Put(es, e))
  {
    if es != [] && es[0].jobId != e.jobId {
      PutDistinct(es[1..], e);
      PutMembers(es[1..], e);
      assert forall x <- es[1..] :: x.jobId != es[0].jobId;
      assert forall x <- Put(es[1..], e) :: x.jobId != es[0].jobId;
    } else if es != [] {
      assert forall x <- es[1..] :: x.jobId != es[0].jobId;
    }
  }

  /** A known id keeps its position and every other entry its own. */
  lemma {:induction false} PutInPlace(es: Entries, e: JournalEntry)
    ensures |Put(es, e)| == if Find(es, e.jobId).Some? then |es| else |es| + 1
    ensures forall i :: 0 <= i < |es| && es[i].jobId != e.jobId ==> Put(es, e)[i] == es[i]
  {
    if es != [] && es[0].jobId != e.jobId {
      PutInPlace(es[1..], e);
    }
  }

  lemma {:induction false} DistinctSnoc(init: Entries, last: JournalEntry)
    ensures Distinct(init + [last]) <==> Distinct(init) && Find(init, last.jobId).None?
  {
    var es := init + [last];
    FindMeansIn(init, last.jobId);
    if Distinct(es) {
      assert forall i :: 0 <= i < |init| ==> es[i] == init[i];
      assert forall e <- init :: e.jobId != es[|init|].jobId;
    }
  }

  // ----- filters and sorting -----

  lemma {:induction false} UnacknowledgedMembers(es: Entries)
    ensures forall e :: e in Unacknowledged(es) <==> e in es && !e.acknowledged
    ensures |Unacknowledged(es)| + |Acknowledged(es)| == |es|
  {
    if es != [] {
      UnacknowledgedMembers(es[1..]);
      assert es == [es[0]] + es[1..];
    }
  }

  lemma {:induction false} AcknowledgedMembers(es: Entries)
    ensures forall e :: e in Acknowledged(es) <==> e in es && e.acknowledged
  {
    if es != [] {
      AcknowledgedMembers(es[1..]);
      assert es == [es[0]] + es[1..];
    }
  }

  lemma {:induction false} DistinctAhead(e: JournalEntry, es: Entries)
    requires Distinct(es) && forall x <- es :: x.jobId != e.jobId
    ensures Distinct([e] + es)
  {
  }

  lemma {:induction false} FiltersDistinct(es: Entries)
    requires Distinct(es)
    ensures Distinct(Unacknowledged(es)) && Distinct(Acknowledged(es))
  {
    if es != [] {
      var rest := es[1..];
      FiltersDistinct(rest);
      UnacknowledgedMembers(rest);
      AcknowledgedMembers(rest);
      assert forall x <- rest :: x.jobId != es[0].jobId;
      if es[0].acknowledged {
        DistinctAhead(es[0], Acknowledged(rest));
      } else {
        DistinctAhead(es[0], Unacknowledged(rest));
      }
    }
  }

  lemma {:induction false} UnacknowledgedConcat(a: Entries, b: Entries)
    ensures Unacknowledged(a + b) == Unacknowledged(a) + Unacknowledged(b)
  {
    if a == [] {
      assert a + b == b;
    } else {
      UnacknowledgedConcat(a[1..], b);
      assert (a + b)[1..] == a[1..] + b;
      Associate(if a[0].acknowledged then [] else [a[0]], Unacknowledged(a[1..]), Unacknowledged(b));
    }
  }

  lemma {:induction false} AllUnacknowledged(es: Entries)
    requires forall e <- es :: !e.acknowledged
    ensures Unacknowledged(es) == es
  {
    if es != [] {
      AllUnacknowledged(es[1..]);
    }
  }

  lemma {:induction false} NoneUnacknowledged(es: Entries)
    requires forall e <- es :: e.acknowledged
    ensures Unacknowledged(es) == []
  {
    if es != [] {
      NoneUnacknowledged(es[1..]);
    }
  }

  ghost predicate Sorted(es: Entries, p: Platform) {
    forall i, j :: 0 <= i < j < |es| ==> p.collation(es[i].recordedAt) >= p.collation(es[j].recordedAt)
  }

  lemma {:induction false} InsertNewestPermutes(e: JournalEntry, sorted: Entries, p: Platform)
    ensures multiset(InsertNewest(e, sorted, p)) == multiset(sorted) + multiset{e}
  {
    if sorted != [] {
      assert sorted == [sorted[0]] + sorted[1..];
      InsertNewestPermutes(e, sorted[1..], p);
    }
  }

  lemma {:induction false} InsertNewestSorts(e: JournalEntry, sorted: Entries, p: Platform)
    requires Sorted(sorted, p)
    ensures Sorted(InsertNewest(e, sorted, p), p)
  {
    if sorted != [] && p.collation(sorted[0].recordedAt) > p.collation(e.recordedAt) {
      InsertNewestSorts(e, sorted[1..], p);
      InsertNewestPermutes(e, sorted[1..], p);
      var rest := InsertNewest(e, sorted[1..], p);
      forall x | x in rest
        ensures p.collation(sorted[0].recordedAt) >= p.collation(x.recordedAt)
      {
        assert x in multiset(rest);
        assert x == e || x in sorted[1..];
      }
      SortedCons(sorted[0], rest, p);
    } else if sorted != [] {
      SortedCons(e, sorted, p);
    }
  }

  lemma {:induction false} SortedCons(e: JournalEntry, rest: Entries, p: Platform)
    requires Sorted(rest, p)
    requires forall x <- rest :: p.collation(e.recordedAt) >= p.collation(x.recordedAt)
    ensures Sorted([e] + rest, p)
  {
    var all := [e] + rest;
    forall i, j | 0 <= i < j < |all|
      ensures p.collation(all[i].recordedAt) >= p.collation(all[j].recordedAt)
    {
      assert all[j] == rest[j - 1];
      assert i > 0 ==> all[i] == rest[i - 1];
    }
  }

  lemma {:induction false} NewestFirstPermutes(es: Entries, p: Platform)
    ensures multiset(NewestFirst(es, p)) == multiset(es)
  {
    if es != [] {
      NewestFirstPermutes(es[1..], p);
      InsertNewestPermutes(es[0], NewestFirst(es[1..], p), p);
      assert es == [es[0]] + es[1..];
    }
  }

  lemma {:induction false} NewestFirstIsSorted(es: Entries, p: Platform)
    ensures Sorted(NewestFirst(es, p), p)
  {
    if es != [] {
      NewestFirstIsSorted(es[1..], p);
      InsertNewestSorts(es[0], NewestFirst(es[1..], p), p);
    }
  }

  lemma {:induction false} NewestFirstSorts(es: Entries, p: Platform)
    ensures Sorted(NewestFirst(es, p), p)
    ensures multiset(NewestFirst(es, p)) == multiset(es)
    ensures |NewestFirst(es, p)| == |es|
  {
    NewestFirstIsSorted(es, p);
    NewestFirstPermutes(es, p);
    assert |multiset(NewestFirst(es, p))| == |multiset(es)|;
  }

  lemma {:induction false} PermutationDistinct(a: Entries, b: Entries)
    requires multiset(a) == multiset(b) && Distinct(a)
    ensures Distinct(b)
  {
    forall i, j | 0 <= i < j < |b|
      ensures b[i].jobId != b[j].jobId
    {
      if b[i] == b[j] {
        TwiceMeansTwo(b, i, j);
        AtMostOnce(a, b[i]);
      } else {
        assert b[i] in multiset(b) && b[j] in multiset(b);
        assert b[i] in a && b[j] in a;
      }
    }
  }

  lemma {:induction false} TwiceMeansTwo<T>(s: seq<T>, i: nat, j: nat)
    requires i < j < |s| && s[i] == s[j]
    ensures multiset(s)[s[i]] >= 2
  {
    var x := s[i];
    assert s == s[..i] + [x] + s[i + 1..j] + [x] + s[j + 1..];
    assert multiset(s)[x] == multiset(s[..i])[x] + 1 + multiset(s[i + 1..j])[x] + 1 + multiset(s[j + 1..])[x];
  }

  lemma {:induction false} AtMostOnce(es: Entries, e: JournalEntry)
    requires Distinct(es)
    ensures multiset(es)[e] <= 1
  {
    if es != [] {
      AtMostOnce(es[1..], e);
      assert es == [es[0]] + es[1..];
      if es[0] == e {
        assert forall x <- es[1..] :: x.jobId != e.jobId;
        assert e !in multiset(es[1..]);
      }
    }
  }

  // ----- what trimming promises -----

  /** Trimming never loses an unacknowledged entry, nor reorders them. */
  lemma {:induction false} TrimKeepsUnacknowledged(es: Entries, limit: nat, p: Platform)
    ensures Unacknowledged(Trim(es, limit, p)) == Unacknowledged(es)
  {
    if |es| > limit {
      var unacked, acked := Unacknowledged(es), NewestFirst(Acknowledged(es), p);
      var rest := Trim(es, limit, p)[|unacked|..];
      assert Trim(es, limit, p) == unacked + rest;
      UnacknowledgedConcat(unacked, rest);
      UnacknowledgedMembers(es);
      AllUnacknowledged(unacked);
      NewestFirstSorts(Acknowledged(es), p);
      AcknowledgedMembers(es);
      forall e | e in rest
        ensures e.acknowledged
      {
        assert e in multiset(acked);
      }
      NoneUnacknowledged(rest);
    }
  }

  /** Exactly as many entries survive as fit, and never fewer than are unresolved. */
  lemma {:induction false} TrimSize(es: Entries, limit: nat, p: Platform)
    ensures |Trim(es, limit, p)| ==
            if |es| <= limit then |es|
            else if |Unacknowledged(es)| <= limit then limit
            else |Unacknowledged(es)|
  {
    UnacknowledgedMembers(es);
    NewestFirstSorts(Acknowledged(es), p);
  }

  /** What trimming takes away, as a multiset. */
  ghost function Dropped(es: Entries, limit: nat, p: Platform): multiset<JournalEntry> {
    multiset(es) - multiset(Trim(es, limit, p))
  }

  /** Nothing is invented; what is dropped was acknowledged, and is no newer than
      any acknowledged entry that was kept. */
  lemma {:induction false} TrimDropsOldestAcknowledged(es: Entries, limit: nat, p: Platform)
    ensures multiset(Trim(es, limit, p)) <= multiset(es)
    ensures forall d <- Dropped(es, limit, p) :: d.acknowledged
    ensures forall d <- Dropped(es, limit, p), k <- Trim(es, limit, p) ::
              k.acknowledged ==> p.collation(d.recordedAt) <= p.collation(k.recordedAt)
  {
    if |es| > limit {
      var kept := Trim(es, limit, p);
      var unacked, acked := Unacknowledged(es), NewestFirst(Acknowledged(es), p);
      var n := |kept| - |unacked|;
      NewestFirstSorts(Acknowledged(es), p);
      SplitMultiset(es);
      assert kept == unacked + acked[..n];
      DroppedTail(es, limit, p, n);
      AcknowledgedMembers(es);
      forall d <- Dropped(es, limit, p)
        ensures d.acknowledged
      {
        assert d in multiset(acked);
      }
      forall d <- Dropped(es, limit, p), k <- kept | k.acknowledged
        ensures p.collation(d.recordedAt) <= p.collation(k.recordedAt)
      {
        UnacknowledgedMembers(es);
        TailIsOlder(acked, n, k, d, p);
      }
    }
  }

  lemma {:induction false} DroppedTail(es: Entries, limit: nat, p: Platform, n: nat)
    requires |es| > limit && n <= |NewestFirst(Acknowledged(es), p)|
    requires Trim(es, limit, p) == Unacknowledged(es) + NewestFirst(Acknowledged(es), p)[..n]
    ensures Dropped(es, limit, p) == multiset(NewestFirst(Acknowledged(es), p)[n..])
    ensures Dropped(es, limit, p) <= multiset(NewestFirst(Acknowledged(es), p))
    ensures multiset(Trim(es, limit, p)) <= multiset(es)
  {
    var acked := NewestFirst(Acknowledged(es), p);
    NewestFirstSorts(Acknowledged(es), p);
    SplitMultiset(es);
    SplitAt(Unacknowledged(es), acked, n);
  }

  lemma {:induction false} SplitAt(a: Entries, b: Entries, n: nat)
    requires n <= |b|
    ensures multiset(a + b[..n]) + multiset(b[n..]) == multiset(a) + multiset(b)
  {
    assert b == b[..n] + b[n..];
  }

  lemma {:induction false} TailIsOlder(acked: Entries, n: nat, k: JournalEntry, d: JournalEntry, p: Platform)
    requires Sorted(acked, p) && n <= |acked|
    requires k in acked[..n] && d in multiset(acked[n..])
    ensures p.collation(d.recordedAt) <= p.collation(k.recordedAt)
  {
    var i :| 0 <= i < n && acked[i] == k;
    assert d in acked[n..];
    var j :| n <= j < |acked| && acked[j] == d;
  }

  lemma {:induction false} SplitMultiset(es: Entries)
    ensures multiset(es) == multiset(Unacknowledged(es)) + multiset(Acknowledged(es))
  {
    if es != [] {
      SplitMultiset(es[1..]);
      assert es == [es[0]] + es[1..];
    }
  }

  lemma {:induction false} TrimMembers(es: Entries, limit: nat, p: Platform)
    ensures forall e <- Trim(es, limit, p) :: e in es
  {
    TrimDropsOldestAcknowledged(es, limit, p);
    forall e | e in Trim(es, limit, p)
      ensures e in es
    {
      assert e in multiset(Trim(es, limit, p));
    }
  }

  lemma {:induction false} TrimDistinct(es: Entries, limit: nat, p: Platform)
    requires Distinct(es)
    ensures Distinct(Trim(es, limit, p))
  {
    if |es| > limit {
      var unacked, acked := Unacknowledged(es), NewestFirst(Acknowledged(es), p);
      FiltersDistinct(es);
      NewestFirstSorts(Acknowledged(es), p);
      PermutationDistinct(Acknowledged(es), acked);
      UnacknowledgedMembers(es);
      AcknowledgedMembers(es);
      forall x, y | x in unacked && y in acked
        ensures x.jobId != y.jobId
      {
        assert y in multiset(acked);
        FindDistinct(es, x);
        FindDistinct(es, y);
      }
    }
  }

  /** A job that suppresses printing before trimming still does so afterwards. */
  lemma {:induction false} TrimKeepsSuppression(es: Entries, limit: nat, p: Platform, id: string)
    requires Distinct(es)
    ensures HasUnacknowledged(Trim(es, limit, p), id) <==> HasUnacknowledged(es, id)
  {
    var kept := Trim(es, limit, p);
    TrimKeepsUnacknowledged(es, limit, p);
    TrimDistinct(es, limit, p);
    SuppressionIsMembership(es, id);
    SuppressionIsMembership(kept, id);
  }

  lemma {:induction false} SuppressionIsMembership(es: Entries, id: string)
    requires Distinct(es)
    ensures HasUnacknowledged(es, id) <==> exists e :: e in Unacknowledged(es) && e.jobId == id
  {
    UnacknowledgedMembers(es);
    FindMeansIn(es, id);
    forall e | e in Unacknowledged(es) && e.jobId == id
      ensures HasUnacknowledged(es, id)
    {
      FindDistinct(es, e);
    }
  }
}

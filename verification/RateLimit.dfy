/** The sliding-window limit on credential failures: audit rows are counted before
    the credentials are looked at, and only a wrong credential adds one. */
module RateLimit {

  /** One audit row: (action, credential key, address) and when it was stored. */
  datatype Failure = Failure(key: (string, string, string), at: int)

  datatype Limits = Limits(window: nat, attempts: nat)

  function CountSince(rows: seq<Failure>, key: (string, string, string), since: int): nat {
    if rows == [] then 0
    else CountSince(rows[..|rows| - 1], key, since)
         + if rows[|rows| - 1].key == key && rows[|rows| - 1].at >= since then 1 else 0
  }

  /** Rows of one key inside a closed interval. */
  function CountBetween(rows: seq<Failure>, key: (string, string, string), from: int, to: int): nat {
    if rows == [] then 0
    else CountBetween(rows[..|rows| - 1], key, from, to)
         + if rows[|rows| - 1].key == key && from <= rows[|rows| - 1].at <= to then 1 else 0
  }

  predicate Limited(rows: seq<Failure>, key: (string, string, string), now: int, limits: Limits) {
    CountSince(rows, key, now - limits.window) >= limits.attempts
  }

  /** A login attempt: when it looks, when a failure row is stored, and whether the
      credentials are right. */
  datatype Attempt = Attempt(key: (string, string, string), now: int, stored: int, valid: bool)

  function After(rows: seq<Failure>, a: Attempt, limits: Limits): seq<Failure> {
    if Limited(rows, a.key, a.now, limits) || a.valid then rows else rows + [Failure(a.key, a.stored)]
  }

  function Run(attempts: seq<Attempt>, limits: Limits): seq<Failure> {
    if attempts == [] then []
    else After(Run(attempts[..|attempts| - 1], limits), attempts[|attempts| - 1], limits)
  }

  /** A row is stored no earlier than its request looked. */
  predicate Timely(attempts: seq<Attempt>) {
    forall a <- attempts :: a.now <= a.stored
  }

  lemma {:induction false} BetweenWithinSince(rows: seq<Failure>, key: (string, string, string), from: int, to: int, since: int)
    requires since <= from
    ensures CountBetween(rows, key, from, to) <= CountSince(rows, key, since)
  {
    if rows != [] {
      BetweenWithinSince(rows[..|rows| - 1], key, from, to, since);
    }
  }

  /** Over the whole run, no interval as long as the window holds more failures of
      one key than the limit, wherever the interval starts. */
  lemma {:induction false} WindowBound(attempts: seq<Attempt>, limits: Limits, key: (string, string, string), from: int)
    requires Timely(attempts)
    ensures CountBetween(Run(attempts, limits), key, from, from + limits.window) <= limits.attempts
  {
    if attempts != [] {
      var init, a := attempts[..|attempts| - 1], attempts[|attempts| - 1];
      WindowBound(init, limits, key, from);
      var rows := Run(init, limits);
      if !Limited(rows, a.key, a.now, limits) && !a.valid {
        assert (rows + [Failure(a.key, a.stored)])[..|rows|] == rows;
        if a.key == key && from <= a.stored <= from + limits.window {
          BetweenWithinSince(rows, key, from, from + limits.window, a.now - limits.window);
        }
      }
    }
  }

  lemma {:induction false} NothingRecent(rows: seq<Failure>, key: (string, string, string), since: int)
    requires forall r <- rows :: r.key == key ==> r.at < since
    ensures CountSince(rows, key, since) == 0
  {
    if rows != [] {
      NothingRecent(rows[..|rows| - 1], key, since);
    }
  }

  lemma {:induction false} LaterCountsLess(rows: seq<Failure>, key: (string, string, string), since: int, later: int)
    requires since <= later
    ensures CountSince(rows, key, later) <= CountSince(rows, key, since)
  {
    if rows != [] {
      LaterCountsLess(rows[..|rows| - 1], key, since, later);
    }
  }

  /** A key that is limited now is let in again from some moment on, at the latest
      when its last recorded failure has left the window. */
  lemma {:induction false} LockoutHasAnEnd(rows: seq<Failure>, limits: Limits, key: (string, string, string), now: int, last: int)
    returns (open: int)
    requires limits.attempts > 0 && Limited(rows, key, now, limits)
    requires forall r <- rows :: r.key == key ==> r.at <= last
    ensures now < open <= last + limits.window + 1
    ensures Limited(rows, key, open - 1, limits) && !Limited(rows, key, open, limits)
    decreases last + limits.window + 1 - now
  {
    if now > last + limits.window {
      NothingRecent(rows, key, now - limits.window);
      assert false;
    } else if Limited(rows, key, now + 1, limits) {
      open := LockoutHasAnEnd(rows, limits, key, now + 1, last);
    } else {
      open := now + 1;
    }
  }

  /** An attempt that looks before the lockout ends leaves the key's count as it was. */
  lemma {:induction false} LockedOutLeavesNoTrace(rows: seq<Failure>, a: Attempt, limits: Limits, key: (string, string, string), open: int, since: int)
    requires Limited(rows, key, open - 1, limits)
    requires a.key == key ==> a.now < open
    ensures CountSince(After(rows, a, limits), key, since) == CountSince(rows, key, since)
  {
    if a.key == key {
      LaterCountsLess(rows, key, a.now - limits.window, open - 1 - limits.window);
    } else {
      assert (rows + [Failure(a.key, a.stored)])[..|rows|] == rows;
    }
  }

  lemma {:induction false} LockedOutCountStands(
      attempts: seq<Attempt>, more: seq<Attempt>, limits: Limits, key: (string, string, string), open: int, since: int)
    requires Limited(Run(attempts, limits), key, open - 1, limits)
    requires forall a <- more :: a.key == key ==> a.now < open
    ensures CountSince(Run(attempts + more, limits), key, since) == CountSince(Run(attempts, limits), key, since)
  {
    if more == [] {
      assert attempts + more == attempts;
    } else {
      var init := more[..|more| - 1];
      var all := attempts + more;
      assert all[..|all| - 1] == attempts + init;
      LockedOutCountStands(attempts, init, limits, key, open, since);
      LockedOutCountStands(attempts, init, limits, key, open, open - 1 - limits.window);
      LockedOutLeavesNoTrace(Run(attempts + init, limits), more[|more| - 1], limits, key, open, since);
    }
  }

  /** Hammering cannot prolong a lockout: whatever is tried on the key before it
      ends, and on other keys at any time, it ends at the same moment. */
  lemma {:induction false} LockoutEnds(attempts: seq<Attempt>, more: seq<Attempt>, limits: Limits, key: (string, string, string), open: int)
    requires Limited(Run(attempts, limits), key, open - 1, limits) && !Limited(Run(attempts, limits), key, open, limits)
    requires forall a <- more :: a.key == key ==> a.now < open
    ensures forall t :: Limited(Run(attempts + more, limits), key, t, limits) <==> t < open
  {
    var rows := Run(attempts, limits);
    forall t
      ensures Limited(Run(attempts + more, limits), key, t, limits) <==> t < open
    {
      LockedOutCountStands(attempts, more, limits, key, open, t - limits.window);
      if t < open {
        LaterCountsLess(rows, key, t - limits.window, open - 1 - limits.window);
      } else {
        LaterCountsLess(rows, key, open - limits.window, t - limits.window);
      }
    }
  }

  // ----- the limit, counted over the attempts themselves -----

  /** The `j`-th attempt was looked at, had wrong credentials for the key, and was
      stored at or after a moment. */
  predicate CountsAt(attempts: seq<Attempt>, j: nat, key: (string, string, string), since: int, limits: Limits)
    requires j < |attempts|
    decreases j, 2
  {
    && attempts[j].key == key && !attempts[j].valid && attempts[j].stored >= since
    && LookedAt(attempts, j, limits)
  }

  /** The attempts among the first `n` that do. */
  function WrongSince(attempts: seq<Attempt>, n: nat, key: (string, string, string), since: int, limits: Limits): set<nat>
    requires n <= |attempts|
    decreases n, 0
  {
    set j: nat | j < n && CountsAt(attempts, j, key, since, limits)
  }

  /** Fewer wrong credentials of the key than the limit stand in the window before the
      attempt, so that its own are looked at. */
  predicate LookedAt(attempts: seq<Attempt>, j: nat, limits: Limits)
    requires j < |attempts|
    decreases j, 1
  {
    |WrongSince(attempts, j, attempts[j].key, attempts[j].now - limits.window, limits)| < limits.attempts
  }

  lemma {:induction false} OneMoreWrong(attempts: seq<Attempt>, n: nat, key: (string, string, string), since: int, limits: Limits)
    requires n < |attempts|
    ensures |WrongSince(attempts, n + 1, key, since, limits)| == |WrongSince(attempts, n, key, since, limits)|
              + if CountsAt(attempts, n, key, since, limits) then 1 else 0
  {
    var before, after := WrongSince(attempts, n, key, since, limits), WrongSince(attempts, n + 1, key, since, limits);
    assert n !in before;
    if CountsAt(attempts, n, key, since, limits) {
      assert after == before + {n};
    } else {
      assert after == before;
    }
  }

  lemma {:induction false} OneMoreRow(rows: seq<Failure>, a: Attempt, key: (string, string, string), since: int, limits: Limits)
    ensures CountSince(After(rows, a, limits), key, since) == CountSince(rows, key, since)
              + if a.key == key && !a.valid && a.stored >= since && !Limited(rows, a.key, a.now, limits) then 1 else 0
  {
    assert (rows + [Failure(a.key, a.stored)])[..|rows|] == rows;
  }

  /** The stored rows are the wrong credentials that were looked at. */
  lemma {:induction false} RowsAreTheWrong(attempts: seq<Attempt>, n: nat, key: (string, string, string), since: int, limits: Limits)
    requires n <= |attempts|
    ensures CountSince(Run(attempts[..n], limits), key, since) == |WrongSince(attempts, n, key, since, limits)|
    decreases n
  {
    if n == 0 {
      assert WrongSince(attempts, 0, key, since, limits) == {};
    } else {
      var a := attempts[n - 1];
      assert attempts[..n][..n - 1] == attempts[..n - 1];
      RowsAreTheWrong(attempts, n - 1, key, since, limits);
      RowsAreTheWrong(attempts, n - 1, a.key, a.now - limits.window, limits);
      OneMoreRow(Run(attempts[..n - 1], limits), a, key, since, limits);
      OneMoreWrong(attempts, n - 1, key, since, limits);
    }
  }

  /** After any run an attempt on a key is refused unseen if and only if at least as
      many wrong credentials as the limit, looked at in their turn, stand in the window
      before it; right ones never count. */
  lemma {:induction false} RefusedExactly(attempts: seq<Attempt>, key: (string, string, string), now: int, limits: Limits)
    ensures Limited(Run(attempts, limits), key, now, limits) <==>
            |WrongSince(attempts, |attempts|, key, now - limits.window, limits)| >= limits.attempts
  {
    assert attempts[..|attempts|] == attempts;
    RowsAreTheWrong(attempts, |attempts|, key, now - limits.window, limits);
  }

  class LoginGuard {
    const limits: Limits
    var rows: seq<Failure>

    constructor (limits: Limits)
      ensures this.limits == limits && rows == []
    {
      this.limits, rows := limits, [];
    }

    /** The check, then the credentials, then the audit row of a failure. */
    method Login(key: (string, string, string), now: int, stored: int, valid: bool) returns (ok: bool)
      modifies this
      ensures rows == After(old(rows), Attempt(key, now, stored, valid), limits)
      ensures ok <==> valid && !Limited(old(rows), key, now, limits)
    {
      var failed := CountSince(rows, key, now - limits.window);
      if failed >= limits.attempts {
        return false;
      }
      if !valid {
        rows := rows + [Failure(key, stored)];
        return false;
      }
      return true;
    }
  }
}

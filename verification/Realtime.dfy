/** The realtime hubs. Coroutines on one event loop interleave only where they
    await something that is not ready, so each action below is one stretch of code
    between two such awaits. The local hub's lock is never held across an await and
    so never blocks; the Redis hub's lock is, and `queue` is its line of waiters:
    the holder first, the others in the order they asked. */
module Realtime {
  import opened Wrappers

  type Tenant = int
  type Branch = int
  type Socket = int
  type Key = (Tenant, Option<Branch>)
  type Connections = map<Key, set<Socket>>

  datatype Task = Subscribe(tenant: Tenant) | Unsubscribe(tenant: Tenant)

  /** `awaiting` tells that the lock's holder is inside its Redis call; `channels`
      is what Redis itself has subscribed; `failed` collects the tenants whose last
      subscribe call raised. */
  datatype State = State(
    connections: Connections, subscribed: set<Tenant>, channels: set<Tenant>,
    queue: seq<Task>, awaiting: bool, failed: set<Tenant>)

  const EMPTY := State(map[], {}, {}, [], false, {})

  datatype Action =
    // connect: register the socket and ask for the lock
    | Join(tenant: Tenant, branch: Option<Branch>, socket: Socket)
    // disconnect: drop the socket and, if it was the tenant's last, ask for the lock
    | Leave(tenant: Tenant, branch: Option<Branch>, socket: Socket)
    // broadcast: the local hub drops a stale socket behind the Redis hub's back
    | Evict(tenant: Tenant, branch: Option<Branch>, socket: Socket)
    // the lock's holder runs up to its Redis call, or finishes without one
    | Enter
    // the Redis call returns, or raises
    | Resume(ok: bool)

  function Added(c: Connections, k: Key, s: Socket): Connections {
    c[k := (if k in c then c[k] else {}) + {s}]
  }

  function Discarded(c: Connections, k: Key, s: Socket): Connections {
    if k !in c || c[k] == {} then c
    else if c[k] - {s} == {} then c - {k}
    else c[k := c[k] - {s}]
  }

  predicate HasTenant(c: Connections, t: Tenant) {
    exists k <- c.Keys :: k.0 == t
  }

  predicate Registered(c: Connections, t: Tenant) {
    exists k <- c.Keys, s <- c[k] :: k.0 == t
  }

  /** The last task for the tenant still in line for the lock. */
  function Pending(queue: seq<Task>, t: Tenant): Option<Task> {
    if queue == [] then None
    else if queue[|queue| - 1].tenant == t then Some(queue[|queue| - 1])
    else Pending(queue[..|queue| - 1], t)
  }

  function Step(h: State, a: Action): State {
    match a
    case Join(t, b, s) =>
      h.(connections := Added(h.connections, (t, b), s), queue := h.queue + [Subscribe(t)])
    case Leave(t, b, s) =>
      var left := Discarded(h.connections, (t, b), s);
      h.(connections := left, queue := if HasTenant(left, t) then h.queue else h.queue + [Unsubscribe(t)])
    case Evict(t, b, s) =>
      h.(connections := Discarded(h.connections, (t, b), s))
    case Enter => (
      if h.queue == [] || h.awaiting then h
      else
        match h.queue[0]
        case Subscribe(t) =>
          if t in h.subscribed then h.(queue := h.queue[1..]) else h.(awaiting := true)
        case Unsubscribe(t) =>
          if t in h.subscribed then h.(awaiting := true) else h.(queue := h.queue[1..]))
    case Resume(ok) => (
      if h.queue == [] || !h.awaiting then h
      else
        var rest := h.(queue := h.queue[1..], awaiting := false);
        match h.queue[0]
        case Subscribe(t) =>
          if ok then rest.(channels := h.channels + {t}, subscribed := h.subscribed + {t}, failed := h.failed - {t})
          else rest.(failed := h.failed + {t})
        case Unsubscribe(t) =>
          rest.(channels := if ok then h.channels - {t} else h.channels, subscribed := h.subscribed - {t}))
  }

  function Run(actions: seq<Action>): State {
    if actions == [] then EMPTY
    else Step(Run(actions[..|actions| - 1]), actions[|actions| - 1])
  }

  // ----- the invariant -----

  ghost predicate NoEmptySets(c: Connections) {
    forall k <- c.Keys :: c[k] != {}
  }

  /** Whoever still has sockets is subscribed, or will be by the last task in line
      for it, or its last subscribe call raised. */
  ghost predicate Covered(h: State) {
    forall t :: HasTenant(h.connections, t) ==>
      match Pending(h.queue, t)
      case Some(task) => task == Subscribe(t)
      case None => t in h.subscribed || t in h.failed
  }

  ghost predicate HolderConsistent(h: State) {
    h.awaiting ==> h.queue != [] && (h.queue[0].Subscribe? <==> h.queue[0].tenant !in h.subscribed)
  }

  ghost predicate Inv(h: State) {
    && NoEmptySets(h.connections)
    && HolderConsistent(h)
    && Covered(h)
    && h.failed !! h.subscribed
    && h.subscribed <= h.channels
  }

  lemma {:induction false} PendingSnoc(queue: seq<Task>, task: Task, t: Tenant)
    ensures Pending(queue + [task], t) == if task.tenant == t then Some(task) else Pending(queue, t)
  {
    assert (queue + [task])[..|queue|] == queue;
  }

  /** Serving the head changes a tenant's last pending task only if it was the head. */
  lemma {:induction false} PendingServed(queue: seq<Task>, t: Tenant)
    requires queue != []
    ensures Pending(queue[1..], t).Some? ==> Pending(queue, t) == Pending(queue[1..], t)
    ensures Pending(queue[1..], t).None? ==>
              Pending(queue, t) == if queue[0].tenant == t then Some(queue[0]) else None
  {
    if |queue| > 1 {
      PendingServed(queue[..|queue| - 1], t);
      assert queue[..|queue| - 1][1..] == queue[1..][..|queue| - 2];
    }
  }

  lemma {:induction false} DiscardedShrinks(c: Connections, k: Key, s: Socket)
    requires NoEmptySets(c)
    ensures NoEmptySets(Discarded(c, k, s))
    ensures forall t :: HasTenant(Discarded(c, k, s), t) ==> HasTenant(c, t)
  {
    assert Discarded(c, k, s).Keys <= c.Keys;
  }

  lemma {:induction false} JoinKeepsInv(h: State, t: Tenant, b: Option<Branch>, s: Socket)
    requires Inv(h)
    ensures Inv(Step(h, Join(t, b, s)))
  {
    var h' := Step(h, Join(t, b, s));
    forall u | HasTenant(h'.connections, u)
      ensures match Pending(h'.queue, u)
              case Some(task) => task == Subscribe(u)
              case None => u in h'.subscribed || u in h'.failed
    {
      PendingSnoc(h.queue, Subscribe(t), u);
      if u != t {
        var k :| k in h'.connections.Keys && k.0 == u;
        assert k in h.connections.Keys;
      }
    }
  }

  lemma {:induction false} LeaveKeepsInv(h: State, t: Tenant, b: Option<Branch>, s: Socket)
    requires Inv(h)
    ensures Inv(Step(h, Leave(t, b, s))) && Inv(Step(h, Evict(t, b, s)))
  {
    DiscardedShrinks(h.connections, (t, b), s);
    forall u
      ensures Pending(h.queue + [Unsubscribe(t)], u) == if t == u then Some(Unsubscribe(t)) else Pending(h.queue, u)
    {
      PendingSnoc(h.queue, Unsubscribe(t), u);
    }
  }

  lemma {:induction false} HolderKeepsInv(h: State, a: Action)
    requires Inv(h) && (a.Enter? || a.Resume?)
    ensures Inv(Step(h, a))
  {
    if h.queue != [] {
      forall u
        ensures Pending(h.queue[1..], u).Some? ==> Pending(h.queue, u) == Pending(h.queue[1..], u)
        ensures Pending(h.queue[1..], u).None? ==>
                  Pending(h.queue, u) == if h.queue[0].tenant == u then Some(h.queue[0]) else None
      {
        PendingServed(h.queue, u);
      }
    }
  }

  lemma {:induction false} RunsKeepInv(actions: seq<Action>)
    ensures Inv(Run(actions))
  {
    if actions != [] {
      var init, a := actions[..|actions| - 1], actions[|actions| - 1];
      RunsKeepInv(init);
      match a {
        case Join(t, b, s) => JoinKeepsInv(Run(init), t, b, s);
        case Leave(t, b, s) => LeaveKeepsInv(Run(init), t, b, s);
        case Evict(t, b, s) => LeaveKeepsInv(Run(init), t, b, s);
        case _ => HolderKeepsInv(Run(init), a);
      }
    }
  }

  // ----- the calls to Redis -----

  /** A call to Redis about a tenant that has returned, or raised. */
  datatype Call = Call(subscribes: bool, ok: bool)

  /** This action is the end of a call about the tenant. */
  predicate Returns(h: State, a: Action, t: Tenant) {
    a.Resume? && h.awaiting && h.queue != [] && h.queue[0].tenant == t
  }

  /** The last call about the tenant that has come to its end. */
  function LastCall(actions: seq<Action>, t: Tenant): Option<Call> {
    if actions == [] then None
    else
      var init, a := actions[..|actions| - 1], actions[|actions| - 1];
      if Returns(Run(init), a, t) then Some(Call(Run(init).queue[0].Subscribe?, a.ok)) else LastCall(init, t)
  }

  /** The last one that reached Redis. */
  function LastThrough(actions: seq<Action>, t: Tenant): Option<Call> {
    if actions == [] then None
    else
      var init, a := actions[..|actions| - 1], actions[|actions| - 1];
      if Returns(Run(init), a, t) && a.ok then Some(Call(Run(init).queue[0].Subscribe?, true)) else LastThrough(init, t)
  }

  predicate LastSubscribeRaised(actions: seq<Action>, t: Tenant) {
    LastCall(actions, t) == Some(Call(true, false))
  }

  /** On every interleaving a tenant is marked subscribed if and only if the last call
      about it was a subscription that went through, and Redis delivers if and only if
      the last call that went through was one. */
  lemma {:induction false} CallsDecide(actions: seq<Action>, t: Tenant)
    ensures t in Run(actions).subscribed <==> LastCall(actions, t) == Some(Call(true, true))
    ensures t in Run(actions).failed <==> LastSubscribeRaised(actions, t)
    ensures t in Run(actions).channels <==> LastThrough(actions, t) == Some(Call(true, true))
  {
    if actions != [] {
      RunsKeepInv(actions[..|actions| - 1]);
      CallsDecide(actions[..|actions| - 1], t);
    }
  }

  // ----- what it is for -----

  lemma {:induction false} HasElement(s: set<Socket>)
    ensures s == {} || exists x :: x in s
  {
    if forall x :: x !in s {
      assert s == {};
    }
  }

  lemma {:induction false} KeysMeanSockets(c: Connections, t: Tenant)
    requires NoEmptySets(c)
    ensures HasTenant(c, t) <==> Registered(c, t)
  {
    if HasTenant(c, t) {
      var k :| k in c.Keys && k.0 == t;
      HasElement(c[k]);
    }
  }

  /** `has_tenant_connections` looks only at keys; it is exact all the same. */
  lemma {:induction false} HasTenantIsExact(actions: seq<Action>, t: Tenant)
    ensures HasTenant(Run(actions).connections, t) <==> Registered(Run(actions).connections, t)
  {
    RunsKeepInv(actions);
    KeysMeanSockets(Run(actions).connections, t);
  }

  /** On every interleaving: a tenant with a socket here and no call in flight is
      subscribed exactly unless its last subscribe call raised, and what is
      subscribed here Redis delivers. */
  lemma {:induction false} ConnectedMeansSubscribed(actions: seq<Action>, t: Tenant)
    requires var h := Run(actions); Registered(h.connections, t) && Pending(h.queue, t).None?
    ensures var h := Run(actions);
            && (t in h.subscribed <==> !LastSubscribeRaised(actions, t))
            && (t in h.subscribed ==> t in h.channels)
  {
    RunsKeepInv(actions);
    CallsDecide(actions, t);
    var c := Run(actions).connections;
    var k, s :| k in c.Keys && s in c[k] && k.0 == t;
    assert HasTenant(c, t);
  }

  predicate NothingRaises(actions: seq<Action>) {
    Resume(false) !in actions
  }

  lemma {:induction false} NothingRaised(actions: seq<Action>, t: Tenant)
    requires NothingRaises(actions)
    ensures !LastSubscribeRaised(actions, t)
  {
    if actions != [] {
      NothingRaised(actions[..|actions| - 1], t);
    }
  }

  /** With Redis calls that succeed there is no exception to it. */
  lemma {:induction false} ConnectedMeansDelivered(actions: seq<Action>, t: Tenant)
    requires NothingRaises(actions)
    requires var h := Run(actions); Registered(h.connections, t) && Pending(h.queue, t).None?
    ensures t in Run(actions).subscribed && t in Run(actions).channels
  {
    NothingRaised(actions, t);
    ConnectedMeansSubscribed(actions, t);
  }

  /** The whole line served, with every Redis call succeeding. */
  function Drain(h: State): State
    decreases |h.queue|, if h.awaiting then 0 else 1
  {
    if h.queue == [] then h
    else if h.awaiting then Drain(Step(h, Resume(true)))
    else Drain(Step(h, Enter))
  }

  /** No call is ever stuck: from any reachable state the calls in flight finish,
      and then every tenant with a socket is subscribed unless it had failed. */
  lemma {:induction false} DrainSettles(h: State)
    requires Inv(h)
    ensures Inv(Drain(h)) && Drain(h).queue == [] && Drain(h).connections == h.connections
    ensures Drain(h).failed <= h.failed
    ensures forall t :: HasTenant(h.connections, t) ==> t in Drain(h).subscribed || t in h.failed
    decreases |h.queue|, if h.awaiting then 0 else 1
  {
    if h.queue != [] {
      var a := if h.awaiting then Resume(true) else Enter;
      HolderKeepsInv(h, a);
      DrainSettles(Step(h, a));
    }
  }

  /** The tenant's last socket went by eviction, and no join or leave followed. */
  predicate EvictedLast(actions: seq<Action>, t: Tenant) {
    actions != [] &&
    var init, last := actions[..|actions| - 1], actions[|actions| - 1];
    match last
    case Join(u, _, _) => u != t && EvictedLast(init, t)
    case Leave(u, _, _) => u != t && EvictedLast(init, t)
    case Evict(_, _, _) =>
      EvictedLast(init, t) || (HasTenant(Run(init).connections, t) && !HasTenant(Run(actions).connections, t))
    case _ => EvictedLast(init, t)
  }

  /** What a tenant without sockets is owed: an unsubscription, unless it was evicted. */
  ghost predicate Gone(h: State, t: Tenant, evicted: bool) {
    && (evicted ==> !HasTenant(h.connections, t))
    && (!HasTenant(h.connections, t) ==>
          match Pending(h.queue, t)
          case Some(task) => task == if evicted then Subscribe(t) else Unsubscribe(t)
          case None => if evicted then t in h.subscribed || t in h.failed else t !in h.subscribed)
  }

  lemma {:induction false} JoinKeepsGone(h: State, u: Tenant, b: Option<Branch>, s: Socket, t: Tenant, evicted: bool)
    requires Inv(h) && Gone(h, t, evicted)
    ensures Gone(Step(h, Join(u, b, s)), t, u != t && evicted)
  {
    PendingSnoc(h.queue, Subscribe(u), t);
    var c, d := h.connections, Step(h, Join(u, b, s)).connections;
    if HasTenant(c, t) {
      var k :| k in c.Keys && k.0 == t;
      assert k in d.Keys;
    }
    assert (u, b) in d.Keys;
  }

  lemma {:induction false} DiscardedElsewhere(c: Connections, u: Tenant, b: Option<Branch>, s: Socket, t: Tenant)
    requires u != t
    ensures HasTenant(Discarded(c, (u, b), s), t) <==> HasTenant(c, t)
  {
    if HasTenant(c, t) {
      var k :| k in c.Keys && k.0 == t;
      assert k in Discarded(c, (u, b), s).Keys;
    }
  }

  lemma {:induction false} LeaveKeepsGone(h: State, u: Tenant, b: Option<Branch>, s: Socket, t: Tenant, evicted: bool)
    requires Inv(h) && Gone(h, t, evicted)
    ensures Gone(Step(h, Leave(u, b, s)), t, u != t && evicted)
  {
    PendingSnoc(h.queue, Unsubscribe(u), t);
    DiscardedShrinks(h.connections, (u, b), s);
    if u != t {
      DiscardedElsewhere(h.connections, u, b, s, t);
    }
  }

  lemma {:induction false} EvictKeepsGone(h: State, u: Tenant, b: Option<Branch>, s: Socket, t: Tenant, evicted: bool)
    requires Inv(h) && Gone(h, t, evicted)
    ensures var after := Step(h, Evict(u, b, s));
            Gone(after, t, evicted || (HasTenant(h.connections, t) && !HasTenant(after.connections, t)))
  {
    DiscardedShrinks(h.connections, (u, b), s);
  }

  lemma {:induction false} HolderKeepsGone(h: State, a: Action, t: Tenant, evicted: bool)
    requires Inv(h) && Gone(h, t, evicted) && (a.Enter? || a.Resume?)
    ensures Gone(Step(h, a), t, evicted)
  {
    if h.queue != [] {
      PendingServed(h.queue, t);
    }
  }

  lemma {:induction false} RunsKeepGone(actions: seq<Action>, t: Tenant)
    ensures Gone(Run(actions), t, EvictedLast(actions, t))
  {
    if actions != [] {
      var init, a := actions[..|actions| - 1], actions[|actions| - 1];
      RunsKeepGone(init, t);
      RunsKeepInv(init);
      match a {
        case Join(u, b, s) => JoinKeepsGone(Run(init), u, b, s, t, EvictedLast(init, t));
        case Leave(u, b, s) => LeaveKeepsGone(Run(init), u, b, s, t, EvictedLast(init, t));
        case Evict(u, b, s) => EvictKeepsGone(Run(init), u, b, s, t, EvictedLast(init, t));
        case _ => HolderKeepsGone(Run(init), a, t, EvictedLast(init, t));
      }
    }
  }

  /** A tenant with no call in flight is subscribed without a socket if and only if its
      last socket went by eviction inside a broadcast, no join or leave followed, and
      its last subscribe call did not raise. */
  lemma {:induction false} SubscribedWithoutSockets(actions: seq<Action>, t: Tenant)
    requires Pending(Run(actions).queue, t).None?
    ensures var h := Run(actions);
            t in h.subscribed && !Registered(h.connections, t) <==> EvictedLast(actions, t) && !LastSubscribeRaised(actions, t)
  {
    RunsKeepGone(actions, t);
    RunsKeepInv(actions);
    CallsDecide(actions, t);
    KeysMeanSockets(Run(actions).connections, t);
  }

  lemma {:induction false} NobodyEvicted(actions: seq<Action>, t: Tenant)
    requires forall a <- actions :: !a.Evict?
    ensures !EvictedLast(actions, t)
  {
    if actions != [] {
      NobodyEvicted(actions[..|actions| - 1], t);
    }
  }

  /** So without evictions subscription is exact both ways. */
  lemma {:induction false} SubscribedMeansConnected(actions: seq<Action>, t: Tenant)
    requires forall a <- actions :: !a.Evict?
    requires Pending(Run(actions).queue, t).None? && t in Run(actions).subscribed
    ensures Registered(Run(actions).connections, t)
  {
    NobodyEvicted(actions, t);
    SubscribedWithoutSockets(actions, t);
  }

  /** And with them it happens: eviction leaves the subscription of a tenant that has no
      socket any more. */
  lemma {:induction false} SubscribedDoesNotMeanConnected(t: Tenant, b: Option<Branch>, s: Socket)
    ensures exists actions ::
              && NothingRaises(actions) && Run(actions).queue == []
              && t in Run(actions).subscribed && !HasTenant(Run(actions).connections, t)
  {
    var a0: seq<Action> := [];
    var a1 := a0 + [Join(t, b, s)];
    assert a1[..|a1| - 1] == a0;
    assert {} + {s} == {s};
    assert Run(a1) == State(map[(t, b) := {s}], {}, {}, [Subscribe(t)], false, {});
    var a2 := a1 + [Enter];
    assert a2[..|a2| - 1] == a1;
    assert Run(a2) == Run(a1).(awaiting := true);
    var a3 := a2 + [Resume(true)];
    assert a3[..|a3| - 1] == a2;
    assert Run(a3) == State(map[(t, b) := {s}], {t}, {t}, [], false, {});
    var a4 := a3 + [Evict(t, b, s)];
    assert a4[..|a4| - 1] == a3;
    assert Run(a4).connections == map[];
    assert NothingRaises(a4);
  }

  // ----- broadcasts -----

  /** What happens when an event is sent to a socket: it arrives, the socket's
      authorisation has lapsed and it is closed, or sending fails. */
  datatype Delivery = Delivered | Refused | Broken

  type Wire = (Key, Socket) -> Delivery

  function SocketsAt(c: Connections, k: Key): set<Socket> {
    if k in c then c[k] else {}
  }

  /** The keys an event of this branch goes to: the branch's own and, for a branch
      event, the business-wide one. */
  predicate Hears(k: Key, t: Tenant, b: Option<Branch>) {
    k == (t, b) || (b.Some? && k == (t, None))
  }

  /** An event that arrives at the socket under some key. */
  predicate Reached(c: Connections, t: Tenant, b: Option<Branch>, wire: Wire, s: Socket) {
    exists k <- c.Keys :: Hears(k, t, b) && s in c[k] && wire(k, s) == Delivered
  }

  predicate Stale(c: Connections, t: Tenant, b: Option<Branch>, wire: Wire, s: Socket) {
    exists k <- c.Keys :: Hears(k, t, b) && s in c[k] && wire(k, s) != Delivered
  }

  /** The registry less some sockets under the keys that hear the event. */
  function Without(c: Connections, t: Tenant, b: Option<Branch>, gone: set<Socket>): Connections {
    map k | k in c.Keys && (Hears(k, t, b) ==> c[k] - gone != {}) :: if Hears(k, t, b) then c[k] - gone else c[k]
  }

  function Evicted(c: Connections, t: Tenant, b: Option<Branch>, stale: seq<Socket>): Connections {
    if stale == [] then c
    else
      var s := stale[|stale| - 1];
      var own := Discarded(Evicted(c, t, b, stale[..|stale| - 1]), (t, b), s);
      if b.Some? then Discarded(own, (t, None), s) else own
  }

  function SetOf(sockets: seq<Socket>): set<Socket> {
    set s | s in sockets
  }

  lemma {:induction false} DiscardedAt(c: Connections, k: Key, s: Socket)
    requires NoEmptySets(c)
    ensures NoEmptySets(Discarded(c, k, s))
    ensures forall x :: SocketsAt(Discarded(c, k, s), x) == SocketsAt(c, x) - if x == k then {s} else {}
  {
  }

  lemma {:induction false} WithoutAt(c: Connections, t: Tenant, b: Option<Branch>, gone: set<Socket>)
    requires NoEmptySets(c)
    ensures NoEmptySets(Without(c, t, b, gone))
    ensures forall x :: SocketsAt(Without(c, t, b, gone), x) == SocketsAt(c, x) - if Hears(x, t, b) then gone else {}
  {
  }

  /** A registry without empty sets is what it lists under each key. */
  lemma {:induction false} SameSockets(c: Connections, d: Connections)
    requires NoEmptySets(c) && NoEmptySets(d) && forall x :: SocketsAt(c, x) == SocketsAt(d, x)
    ensures c == d
  {
    forall x | x in c.Keys ensures x in d.Keys && c[x] == d[x] {
      assert SocketsAt(c, x) == SocketsAt(d, x);
    }
    forall x | x in d.Keys ensures x in c.Keys {
      assert SocketsAt(c, x) == SocketsAt(d, x);
    }
  }

  lemma {:induction false} DiscardedIsWithout(c: Connections, t: Tenant, b: Option<Branch>, gone: set<Socket>, s: Socket)
    requires NoEmptySets(c)
    ensures var own := Discarded(Without(c, t, b, gone), (t, b), s);
            (if b.Some? then Discarded(own, (t, None), s) else own) == Without(c, t, b, gone + {s})
  {
    var before, after := Without(c, t, b, gone), Without(c, t, b, gone + {s});
    var own := Discarded(before, (t, b), s);
    var both := if b.Some? then Discarded(own, (t, None), s) else own;
    WithoutAt(c, t, b, gone);
    WithoutAt(c, t, b, gone + {s});
    DiscardedAt(before, (t, b), s);
    DiscardedAt(own, (t, None), s);
    forall x ensures SocketsAt(both, x) == SocketsAt(after, x) {
      assert SocketsAt(own, x) == SocketsAt(before, x) - if x == (t, b) then {s} else {};
    }
    SameSockets(both, after);
  }

  /** However often a socket is listed as stale, evicting the list takes exactly those
      sockets from exactly those keys, and drops the keys left empty. */
  lemma {:induction false} EvictedIsWithout(c: Connections, t: Tenant, b: Option<Branch>, stale: seq<Socket>)
    requires NoEmptySets(c)
    ensures Evicted(c, t, b, stale) == Without(c, t, b, SetOf(stale))
  {
    if stale == [] {
      WithoutAt(c, t, b, SetOf(stale));
      SameSockets(c, Without(c, t, b, SetOf(stale)));
    } else {
      var init, last := stale[..|stale| - 1], stale[|stale| - 1];
      EvictedIsWithout(c, t, b, init);
      DiscardedIsWithout(c, t, b, SetOf(init), last);
      assert stale == init + [last];
      assert SetOf(stale) == SetOf(init) + {last};
    }
  }

  function Evictions(t: Tenant, b: Option<Branch>, stale: seq<Socket>): seq<Action> {
    if stale == [] then []
    else
      var s := stale[|stale| - 1];
      Evictions(t, b, stale[..|stale| - 1]) + [Evict(t, b, s)] + (if b.Some? then [Evict(t, None, s)] else [])
  }

  lemma {:induction false} RunSnoc(actions: seq<Action>, a: Action)
    ensures Run(actions + [a]) == Step(Run(actions), a)
  {
    assert (actions + [a])[..|actions|] == actions;
  }

  lemma {:induction false} EvictOne(actions: seq<Action>, t: Tenant, b: Option<Branch>, s: Socket)
    ensures var own := Discarded(Run(actions).connections, (t, b), s);
            Run(actions + [Evict(t, b, s)] + if b.Some? then [Evict(t, None, s)] else []) ==
            Run(actions).(connections := if b.Some? then Discarded(own, (t, None), s) else own)
  {
    var one := actions + [Evict(t, b, s)];
    RunSnoc(actions, Evict(t, b, s));
    RunSnoc(one, Evict(t, None, s));
    assert one + [] == one;
  }

  /** In the interleaving a broadcast is its evictions: the registry loses the stale
      sockets, and subscriptions and waiting line stay as they are. */
  lemma {:induction false} BroadcastIsItsEvictions(actions: seq<Action>, t: Tenant, b: Option<Branch>, stale: seq<Socket>)
    ensures Run(actions + Evictions(t, b, stale)) ==
            Run(actions).(connections := Evicted(Run(actions).connections, t, b, stale))
  {
    if stale == [] {
      assert actions + [] == actions;
    } else {
      var s := stale[|stale| - 1];
      var earlier := Evictions(t, b, stale[..|stale| - 1]);
      BroadcastIsItsEvictions(actions, t, b, stale[..|stale| - 1]);
      EvictOne(actions + earlier, t, b, s);
      assert actions + Evictions(t, b, stale) == actions + earlier + [Evict(t, b, s)] + if b.Some? then [Evict(t, None, s)] else [];
    }
  }

  /** After a broadcast the same event would reach every socket that is left under its
      keys, and would drop nobody: one broadcast finds all that is stale. */
  lemma {:induction false} BroadcastCleansUp(c: Connections, t: Tenant, b: Option<Branch>, wire: Wire, gone: set<Socket>, s: Socket)
    requires forall x :: x in gone <==> Stale(c, t, b, wire, x)
    ensures var left := Without(c, t, b, gone);
            && !Stale(left, t, b, wire, s)
            && (Reached(left, t, b, wire, s) <==> Reached(c, t, b, wire, s) && !Stale(c, t, b, wire, s))
  {
    var left := Without(c, t, b, gone);
    if Reached(c, t, b, wire, s) && !Stale(c, t, b, wire, s) {
      var k :| k in c.Keys && Hears(k, t, b) && s in c[k] && wire(k, s) == Delivered;
      assert s in c[k] - gone;
      assert k in left.Keys && s in left[k];
    }
  }

  // ----- who is registered, and who hears -----

  /** The action is about this socket under this key. */
  predicate Touches(a: Action, k: Key, s: Socket) {
    (a.Join? || a.Leave? || a.Evict?) && (a.tenant, a.branch) == k && a.socket == s
  }

  /** The last thing that happened to the socket under the key is that it joined. */
  predicate JoinedLast(actions: seq<Action>, k: Key, s: Socket) {
    exists i :: 0 <= i < |actions| && Touches(actions[i], k, s) && actions[i].Join?
                && forall j :: i < j < |actions| ==> !Touches(actions[j], k, s)
  }

  lemma {:induction false} JoinedLastStep(actions: seq<Action>, k: Key, s: Socket)
    requires actions != []
    ensures var init, last := actions[..|actions| - 1], actions[|actions| - 1];
            JoinedLast(actions, k, s) <==> if Touches(last, k, s) then last.Join? else JoinedLast(init, k, s)
  {
    var init, last := actions[..|actions| - 1], actions[|actions| - 1];
    if JoinedLast(actions, k, s) && !Touches(last, k, s) {
      var i :| 0 <= i < |actions| && Touches(actions[i], k, s) && actions[i].Join?
               && forall j :: i < j < |actions| ==> !Touches(actions[j], k, s);
      assert init[i] == actions[i];
    }
    if JoinedLast(init, k, s) && !Touches(last, k, s) {
      var i :| 0 <= i < |init| && Touches(init[i], k, s) && init[i].Join?
               && forall j :: i < j < |init| ==> !Touches(init[j], k, s);
      assert actions[i] == init[i];
      forall j | i < j < |actions| ensures !Touches(actions[j], k, s) {
        assert j < |init| ==> actions[j] == init[j];
      }
    }
    if Touches(last, k, s) && last.Join? {
      assert actions[|actions| - 1] == last;
    }
  }

  lemma {:induction false} StepRegisters(h: State, a: Action, k: Key, s: Socket)
    requires NoEmptySets(h.connections)
    ensures s in SocketsAt(Step(h, a).connections, k) <==>
            if Touches(a, k, s) then a.Join? else s in SocketsAt(h.connections, k)
  {
    if a.Leave? || a.Evict? {
      DiscardedAt(h.connections, (a.tenant, a.branch), a.socket);
    }
  }

  /** On every run a socket is registered under a key if and only if the last thing
      that happened to it there, among joins, leaves and evictions, is a join. */
  lemma {:induction false} RegisteredExactly(actions: seq<Action>, k: Key, s: Socket)
    ensures s in SocketsAt(Run(actions).connections, k) <==> JoinedLast(actions, k, s)
  {
    if actions != [] {
      var init := actions[..|actions| - 1];
      RegisteredExactly(init, k, s);
      RunsKeepInv(init);
      StepRegisters(Run(init), actions[|actions| - 1], k, s);
      JoinedLastStep(actions, k, s);
    }
  }

  /** So an event sent after any run arrives at exactly the sockets that joined last,
      under the branch or, for a branch event, business-wide, and whose wire delivers. */
  lemma {:induction false} EventsArriveExactly(actions: seq<Action>, t: Tenant, b: Option<Branch>, wire: Wire, s: Socket)
    ensures Reached(Run(actions).connections, t, b, wire, s) <==>
            || (JoinedLast(actions, (t, b), s) && wire((t, b), s) == Delivered)
            || (b.Some? && JoinedLast(actions, (t, None), s) && wire((t, None), s) == Delivered)
  {
    var c := Run(actions).connections;
    RegisteredExactly(actions, (t, b), s);
    RegisteredExactly(actions, (t, None), s);
    assert forall k :: s in SocketsAt(c, k) <==> k in c.Keys && s in c[k];
  }

  // ----- the classes -----

  /** Process-local fan-out. */
  class RealtimeHub {
    var connections: Connections

    constructor ()
      ensures connections == map[]
    {
      connections := map[];
    }

    method Connect(t: Tenant, b: Option<Branch>, s: Socket)
      modifies this
      ensures connections == Added(old(connections), (t, b), s)
      ensures forall k: Key, x: Socket ::
                x in SocketsAt(connections, k) <==> x in SocketsAt(old(connections), k) || (k == (t, b) && x == s)
    {
      var key := (t, b);
      if key !in connections {
        connections := connections[key := {}];
      }
      connections := connections[key := connections[key] + {s}];
    }

    method Disconnect(t: Tenant, b: Option<Branch>, s: Socket)
      modifies this
      ensures connections == Discarded(old(connections), (t, b), s)
    {
      var key := (t, b);
      if key in connections && connections[key] != {} {
        var left := connections[key] - {s};
        connections := connections[key := left];
        if left == {} {
          connections := connections - {key};
        }
      }
    }

    method HasTenantConnections(t: Tenant) returns (found: bool)
      ensures found == HasTenant(connections, t)
      ensures NoEmptySets(connections) ==> found == Registered(connections, t)
    {
      if NoEmptySets(connections) {
        KeysMeanSockets(connections, t);
      }
      found := exists key <- connections.Keys :: key.0 == t;
    }

    method ListOf(key: Key) returns (sockets: seq<Socket>)
      ensures forall s :: s in sockets <==> s in SocketsAt(connections, key)
    {
      var rest := SocketsAt(connections, key);
      sockets := [];
      while rest != {}
        invariant rest <= SocketsAt(connections, key)
        invariant forall s :: s in sockets <==> s in SocketsAt(connections, key) && s !in rest
        decreases rest
      {
        HasElement(rest);
        var s :| s in rest;
        sockets := sockets + [s];
        rest := rest - {s};
      }
    }

    /** Sends to every socket listed under one key. */
    method SendTo(key: Key, wire: Wire) returns (received: set<Socket>, stale: seq<Socket>)
      ensures forall s :: s in received <==> s in SocketsAt(connections, key) && wire(key, s) == Delivered
      ensures forall s :: s in stale <==> s in SocketsAt(connections, key) && wire(key, s) != Delivered
    {
      var targets := ListOf(key);
      received, stale := {}, [];
      for i := 0 to |targets|
        invariant forall s :: s in received <==> s in targets[..i] && wire(key, s) == Delivered
        invariant forall s :: s in stale <==> s in targets[..i] && wire(key, s) != Delivered
      {
        assert targets[..i + 1] == targets[..i] + [targets[i]];
        if wire(key, targets[i]) == Delivered {
          received := received + {targets[i]};
        } else {
          stale := stale + [targets[i]];
        }
      }
      assert targets[..|targets|] == targets;
    }

    /** `broadcast`: the event arrives exactly at the sockets whose authorisation and
        connection hold, among those of the branch and the business-wide ones; every
        other one of them is dropped from both keys. */
    method Broadcast(t: Tenant, b: Option<Branch>, wire: Wire) returns (received: set<Socket>, ghost stale: seq<Socket>)
      requires NoEmptySets(connections)
      modifies this
      ensures forall s :: s in received <==> Reached(old(connections), t, b, wire, s)
      ensures forall s :: s in stale <==> Stale(old(connections), t, b, wire, s)
      ensures connections == Evicted(old(connections), t, b, stale) == Without(old(connections), t, b, SetOf(stale))
      ensures NoEmptySets(connections)
    {
      var dropped;
      received, dropped := SendTo((t, b), wire);
      if b.Some? {
        var business, alsoDropped := SendTo((t, None), wire);
        received, dropped := received + business, dropped + alsoDropped;
      }
      stale := dropped;
      EvictedIsWithout(old(connections), t, b, dropped);
      DropStale(t, b, dropped);
    }

    /** Every stale socket is dropped from both keys. */
    method DropStale(t: Tenant, b: Option<Branch>, stale: seq<Socket>)
      modifies this
      ensures connections == Evicted(old(connections), t, b, stale)
    {
      for i := 0 to |stale|
        invariant connections == Evicted(old(connections), t, b, stale[..i])
      {
        assert stale[..i + 1][..i] == stale[..i];
        Disconnect(t, b, stale[i]);
        if b.Some? {
          Disconnect(t, None, stale[i]);
        }
      }
      assert stale[..|stale|] == stale;
    }
  }

  /** Cross-process fan-out: each method is one action of the interleaving. */
  class RedisRealtimeHub {
    const local: RealtimeHub
    var subscribed: set<Tenant>
    var queue: seq<Task>
    var awaiting: bool
    ghost var channels: set<Tenant>
    ghost var failed: set<Tenant>

    ghost function View(): State
      reads this, local
    {
      State(local.connections, subscribed, channels, queue, awaiting, failed)
    }

    constructor ()
      ensures View() == EMPTY && fresh(local)
    {
      local := new RealtimeHub();
      subscribed, queue, awaiting, channels, failed := {}, [], false, {}, {};
    }

    method Connect(t: Tenant, b: Option<Branch>, s: Socket)
      modifies this, local
      ensures View() == Step(old(View()), Join(t, b, s))
    {
      local.Connect(t, b, s);
      queue := queue + [Subscribe(t)];
    }

    method Disconnect(t: Tenant, b: Option<Branch>, s: Socket)
      modifies this, local
      ensures View() == Step(old(View()), Leave(t, b, s))
    {
      local.Disconnect(t, b, s);
      var busy := local.HasTenantConnections(t);
      if busy {
        return;
      }
      queue := queue + [Unsubscribe(t)];
    }

    method EvictStale(t: Tenant, b: Option<Branch>, s: Socket)
      modifies local
      ensures View() == Step(old(View()), Evict(t, b, s))
    {
      local.Disconnect(t, b, s);
    }

    /** Under the lock: check, then call Redis if needed. */
    method EnterLocked()
      requires queue != [] && !awaiting
      modifies this
      ensures View() == Step(old(View()), Enter)
    {
      match queue[0] {
        case Subscribe(t) =>
          if t !in subscribed {
            awaiting := true;
          } else {
            queue := queue[1..];
          }
        case Unsubscribe(t) =>
          if t in subscribed {
            awaiting := true;
          } else {
            queue := queue[1..];
          }
      }
    }

    /** The Redis call is over; a failed unsubscribe is suppressed, a failed
        subscribe leaves the tenant unmarked. Either way the lock is released. */
    method ResumeLocked(ok: bool)
      requires queue != [] && awaiting
      modifies this
      ensures View() == Step(old(View()), Resume(ok))
    {
      match queue[0] {
        case Subscribe(t) =>
          if ok {
            channels := channels + {t};
            subscribed := subscribed + {t};
            failed := failed - {t};
          } else {
            failed := failed + {t};
          }
        case Unsubscribe(t) =>
          if ok {
            channels := channels - {t};
          }
          subscribed := subscribed - {t};
      }
      queue, awaiting := queue[1..], false;
    }
  }
}

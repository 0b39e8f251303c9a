/** Kitchen tickets of one order: how their progress drives the items, the order and
    the table. Updates are handled one after the other. */
module Kitchen {
  import opened Wrappers

  datatype TicketStatus = New | Accepted | Preparing | Ready | Completed | Cancelled

  datatype ItemStatus =
    | ItemDraft | ItemSubmitted | ItemAccepted | ItemPreparing | ItemReady | ItemServed | ItemCancelled | ItemVoided

  datatype OrderStatus =
    | Draft | Submitted | AwaitingApproval | OrderAccepted | OrderPreparing | PartiallyReady | OrderReady | Served
    | BillRequested | PaymentPending | Paid | OrderCancelled | Voided

  datatype TableState =
    | Available | Occupied | OrderPending | TablePreparing | TableReady | TableBill | TablePayment | Cleaning | Disabled

  /** A dish's status, on the ticket and on the order. */
  datatype Item = Item(onTicket: ItemStatus, onOrder: ItemStatus)

  datatype Ticket = Ticket(status: TicketStatus, items: seq<Item>)

  datatype State = State(
    tickets: seq<Ticket>, order: OrderStatus, version: nat, table: Option<TableState>, tableVersion: nat)

  predicate MayBecome(from: TicketStatus, to: TicketStatus) {
    match from
    case New => to in {Accepted, Cancelled}
    case Accepted => to in {Preparing, Cancelled}
    case Preparing => to in {Ready, Cancelled}
    case Ready => to == Completed
    case Completed | Cancelled => false
  }

  function ItemFor(status: TicketStatus): Option<ItemStatus> {
    match status
    case New => None
    case Accepted => Some(ItemAccepted)
    case Preparing => Some(ItemPreparing)
    case Ready => Some(ItemReady)
    case Completed => Some(ItemServed)
    case Cancelled => Some(ItemCancelled)
  }

  /** The order is still in the kitchen's own part of its life. */
  predicate Follows(order: OrderStatus) {
    order in {Submitted, AwaitingApproval, OrderAccepted, OrderPreparing, PartiallyReady, OrderReady, Served}
  }

  predicate IsDone(t: Ticket) {
    t.status == Ready || t.status == Completed
  }

  predicate AllDone(tickets: seq<Ticket>) {
    forall i :: 0 <= i < |tickets| ==> IsDone(tickets[i])
  }

  predicate SomeDone(tickets: seq<Ticket>) {
    exists i :: 0 <= i < |tickets| && IsDone(tickets[i])
  }

  predicate SomePreparing(tickets: seq<Ticket>) {
    exists i :: 0 <= i < |tickets| && tickets[i].status == Preparing
  }

  function NextOrder(order: OrderStatus, tickets: seq<Ticket>): OrderStatus {
    if AllDone(tickets) then OrderReady
    else if SomeDone(tickets) then PartiallyReady
    else if SomePreparing(tickets) then OrderPreparing
    else order
  }

  function Moved(t: Ticket, to: TicketStatus): Ticket {
    var item := ItemFor(to);
    Ticket(to, if item.None? then t.items else seq(|t.items|, _ => Item(item.value, item.value)))
  }

  predicate Effective(s: State, i: nat, to: TicketStatus) {
    i < |s.tickets| && MayBecome(s.tickets[i].status, to)
  }

  /** `update_ticket_status`; a refusal and a repetition change nothing. */
  function Updated(s: State, i: nat, to: TicketStatus): State {
    if !Effective(s, i, to) then s
    else
      var tickets := s.tickets[i := Moved(s.tickets[i], to)];
      if !Follows(s.order) then s.(tickets := tickets)
      else
        State(tickets, NextOrder(s.order, tickets), s.version + 1,
              if s.table.None? then None else Some(if AllDone(tickets) then TableReady else TablePreparing),
              if s.table.None? then s.tableVersion else s.tableVersion + 1)
  }

  class OrderTickets {
    var tickets: seq<Ticket>
    var order: OrderStatus
    var version: nat
    var table: Option<TableState>
    var tableVersion: nat

    function Value(): State
      reads this
    {
      State(tickets, order, version, table, tableVersion)
    }

    constructor (s: State)
      ensures Value() == s
    {
      tickets, order, version, table, tableVersion := s.tickets, s.order, s.version, s.table, s.tableVersion;
    }

    /** Sets every dish of the ticket, on the ticket and on the order. */
    method SetItems(i: nat, status: ItemStatus)
      requires i < |tickets|
      modifies this`tickets
      ensures tickets == old(tickets)[i := old(tickets)[i].(items := seq(|old(tickets)[i].items|, _ => Item(status, status)))]
    {
      var items := tickets[i].items;
      for k := 0 to |items|
        invariant |items| == |old(tickets)[i].items|
        invariant forall j :: 0 <= j < k ==> items[j] == Item(status, status)
        invariant tickets == old(tickets)
      {
        items := items[k := Item(status, status)];
      }
      tickets := tickets[i := tickets[i].(items := items)];
      assert items == seq(|old(tickets)[i].items|, _ => Item(status, status));
    }

    method CollectStatuses() returns (statuses: set<TicketStatus>)
      ensures forall st :: st in statuses <==> exists i :: 0 <= i < |tickets| && tickets[i].status == st
    {
      statuses := {};
      for i := 0 to |tickets|
        invariant forall st :: st in statuses <==> exists j :: 0 <= j < i && tickets[j].status == st
      {
        statuses := statuses + {tickets[i].status};
      }
    }

    method UpdateTicketStatus(i: nat, to: TicketStatus) returns (ok: bool)
      requires i < |tickets|
      modifies this
      ensures Value() == Updated(old(Value()), i, to)
      ensures ok <==> to == old(tickets)[i].status || MayBecome(old(tickets)[i].status, to)
    {
      if to == tickets[i].status {
        return true;
      }
      if !MayBecome(tickets[i].status, to) {
        return false;
      }
      tickets := tickets[i := tickets[i].(status := to)];
      var item := ItemFor(to);
      if item.Some? {
        SetItems(i, item.value);
      }
      assert tickets == old(tickets)[i := Moved(old(tickets)[i], to)];
      if Follows(order) {
        FollowKitchen();
      }
      ok := true;
    }

    method FollowKitchen()
      modifies `order, `version, `table, `tableVersion
      ensures order == NextOrder(old(order), tickets) && version == old(version) + 1
      ensures table == if old(table).None? then None else Some(if AllDone(tickets) then TableReady else TablePreparing)
      ensures tableVersion == if old(table).None? then old(tableVersion) else old(tableVersion) + 1
    {
      var statuses := CollectStatuses();
      var state := TablePreparing;
      if statuses <= {Ready, Completed} {
        assert forall i :: 0 <= i < |tickets| ==> tickets[i].status in statuses;
        order := OrderReady;
        state := TableReady;
      } else if Ready in statuses || Completed in statuses {
        order := PartiallyReady;
      } else if Preparing in statuses {
        order := OrderPreparing;
      }
      version := version + 1;
      if table.Some? {
        table := Some(state);
        tableVersion := tableVersion + 1;
      }
    }
  }

  // ----- runs -----

  datatype Request = Request(ticket: nat, status: TicketStatus)

  function Run(s: State, requests: seq<Request>): State {
    if requests == [] then s
    else
      var r := requests[|requests| - 1];
      Updated(Run(s, requests[..|requests| - 1]), r.ticket, r.status)
  }

  function EffectiveIn(s: State, requests: seq<Request>): nat {
    if requests == [] then 0
    else
      var init, r := requests[..|requests| - 1], requests[|requests| - 1];
      EffectiveIn(s, init) + if Effective(Run(s, init), r.ticket, r.status) then 1 else 0
  }

  /** How many more steps a ticket has before it. */
  function StepsLeft(status: TicketStatus): nat {
    match status
    case New => 4
    case Accepted => 3
    case Preparing => 2
    case Ready => 1
    case Completed | Cancelled => 0
  }

  function Left(tickets: seq<Ticket>): nat {
    if tickets == [] then 0 else StepsLeft(tickets[0].status) + Left(tickets[1..])
  }

  lemma {:induction false} MovingLeavesLess(tickets: seq<Ticket>, i: nat, t: Ticket)
    requires i < |tickets|
    ensures Left(tickets[i := t]) == Left(tickets) - StepsLeft(tickets[i].status) + StepsLeft(t.status)
  {
    if i > 0 {
      MovingLeavesLess(tickets[1..], i - 1, t);
      assert tickets[i := t][1..] == tickets[1..][i - 1 := t];
    } else {
      assert tickets[i := t][1..] == tickets[1..];
    }
  }

  lemma {:induction false} UpdatesUseUpSteps(s: State, requests: seq<Request>)
    ensures EffectiveIn(s, requests) + Left(Run(s, requests).tickets) <= Left(s.tickets)
    ensures |Run(s, requests).tickets| == |s.tickets|
    decreases |requests|
  {
    if requests != [] {
      var init, r := requests[..|requests| - 1], requests[|requests| - 1];
      UpdatesUseUpSteps(s, init);
      var before := Run(s, init);
      if Effective(before, r.ticket, r.status) {
        MovingLeavesLess(before.tickets, r.ticket, Moved(before.tickets[r.ticket], r.status));
      }
    }
  }

  lemma {:induction false} FourStepsEach(tickets: seq<Ticket>)
    requires forall i :: 0 <= i < |tickets| ==> tickets[i].status == New
    ensures Left(tickets) == 4 * |tickets|
  {
    if tickets != [] {
      FourStepsEach(tickets[1..]);
    }
  }

  // ----- what the order shows -----

  function Rank(order: OrderStatus): nat {
    match order
    case Draft => 0
    case Submitted => 1
    case AwaitingApproval => 2
    case OrderAccepted => 3
    case OrderPreparing => 4
    case PartiallyReady => 5
    case OrderReady => 6
    case Served => 7
    case _ => 8
  }

  /** An order as it is sent to the kitchen. */
  predicate Sent(s: State) {
    && s.tickets != [] && s.order in {Submitted, AwaitingApproval, OrderAccepted}
    && forall i :: 0 <= i < |s.tickets| ==> s.tickets[i].status == New
  }

  predicate Shows(s: State) {
    && s.tickets != [] && Follows(s.order) && s.order != Served
    && (AllDone(s.tickets) <==> s.order == OrderReady)
    && (SomeDone(s.tickets) && !AllDone(s.tickets) <==> s.order == PartiallyReady)
    && (SomePreparing(s.tickets) && !SomeDone(s.tickets) ==> s.order == OrderPreparing)
  }

  lemma {:induction false} DoneStaysDone(tickets: seq<Ticket>, i: nat, to: TicketStatus)
    requires i < |tickets| && MayBecome(tickets[i].status, to)
    ensures var after := tickets[i := Moved(tickets[i], to)];
            (AllDone(tickets) ==> AllDone(after)) && (SomeDone(tickets) ==> SomeDone(after))
  {
    var after := tickets[i := Moved(tickets[i], to)];
    if SomeDone(tickets) {
      var k :| 0 <= k < |tickets| && IsDone(tickets[k]);
      assert IsDone(after[k]);
    }
  }

  lemma {:induction false} UpdateKeepsShows(s: State, i: nat, to: TicketStatus)
    requires Shows(s)
    ensures Shows(Updated(s, i, to)) && Rank(Updated(s, i, to).order) >= Rank(s.order)
    ensures Updated(s, i, to).version == s.version + if Effective(s, i, to) then 1 else 0
  {
    if Effective(s, i, to) {
      var after := s.tickets[i := Moved(s.tickets[i], to)];
      DoneStaysDone(s.tickets, i, to);
      assert AllDone(after) ==> IsDone(after[0]);
    }
  }

  lemma {:induction false} RunKeepsShows(s: State, requests: seq<Request>)
    requires Shows(s)
    ensures Shows(Run(s, requests)) && Run(s, requests).version == s.version + EffectiveIn(s, requests)
    decreases |requests|
  {
    if requests != [] {
      var init, r := requests[..|requests| - 1], requests[|requests| - 1];
      RunKeepsShows(s, init);
      UpdateKeepsShows(Run(s, init), r.ticket, r.status);
    }
  }

  lemma {:induction false} SentShows(s: State)
    requires Sent(s)
    ensures Shows(s)
  {
    assert !IsDone(s.tickets[0]);
  }

  /** On every run from a sent order the order is ready exactly when every ticket is
      ready or completed, and partially ready exactly when only some are. */
  lemma {:induction false} ReadyMeansEveryTicketIsDone(s: State, requests: seq<Request>)
    requires Sent(s)
    ensures var t := Run(s, requests);
            && (t.order == OrderReady <==> AllDone(t.tickets))
            && (t.order == PartiallyReady <==> SomeDone(t.tickets) && !AllDone(t.tickets))
            && (SomePreparing(t.tickets) && !SomeDone(t.tickets) ==> t.order == OrderPreparing)
  {
    SentShows(s);
    RunKeepsShows(s, requests);
  }

  lemma {:induction false} RunsCompose(s: State, earlier: seq<Request>, later: seq<Request>)
    ensures Run(s, earlier + later) == Run(Run(s, earlier), later)
    decreases |later|
  {
    if later == [] {
      assert earlier + later == earlier;
    } else {
      var all, init := earlier + later, later[..|later| - 1];
      assert all[..|all| - 1] == earlier + init;
      RunsCompose(s, earlier, init);
    }
  }

  lemma {:induction false} RunRanks(s: State, requests: seq<Request>)
    requires Shows(s)
    ensures Rank(Run(s, requests).order) >= Rank(s.order)
    decreases |requests|
  {
    if requests != [] {
      var init, r := requests[..|requests| - 1], requests[|requests| - 1];
      RunRanks(s, init);
      RunKeepsShows(s, init);
      UpdateKeepsShows(Run(s, init), r.ticket, r.status);
    }
  }

  /** Its status never moves back: what more requests do, they do not undo. */
  lemma {:induction false} NeverMovesBack(s: State, earlier: seq<Request>, later: seq<Request>)
    requires Sent(s)
    ensures Rank(Run(s, earlier + later).order) >= Rank(Run(s, earlier).order)
  {
    SentShows(s);
    RunKeepsShows(s, earlier);
    RunsCompose(s, earlier, later);
    RunRanks(Run(s, earlier), later);
  }

  /** From the first effective update on, the table is ready when the order is and in
      preparation otherwise, and its version counts the updates; an order without a
      table gets none. */
  lemma {:induction false} TableFollowsOrder(s: State, requests: seq<Request>)
    requires Sent(s)
    ensures var t := Run(s, requests);
            if s.table.None? then t.table.None? && t.tableVersion == s.tableVersion
            else
              && t.table.Some? && t.tableVersion == s.tableVersion + EffectiveIn(s, requests)
              && (EffectiveIn(s, requests) > 0 ==> t.table == Some(if t.order == OrderReady then TableReady else TablePreparing))
    decreases |requests|
  {
    if requests != [] {
      var init, r := requests[..|requests| - 1], requests[|requests| - 1];
      TableFollowsOrder(s, init);
      SentShows(s);
      RunKeepsShows(s, init);
      UpdateKeepsShows(Run(s, init), r.ticket, r.status);
    }
  }

  /** At most four updates per ticket take effect, however many are asked for, and the
      order's version counts them. */
  lemma {:induction false} AtMostFourUpdatesPerTicket(s: State, requests: seq<Request>)
    requires Sent(s)
    ensures EffectiveIn(s, requests) <= 4 * |s.tickets|
    ensures Run(s, requests).version == s.version + EffectiveIn(s, requests)
  {
    FourStepsEach(s.tickets);
    UpdatesUseUpSteps(s, requests);
    SentShows(s);
    RunKeepsShows(s, requests);
  }

  predicate AllAt(items: seq<Item>, status: ItemStatus) {
    forall k :: 0 <= k < |items| ==> items[k] == Item(status, status)
  }

  /** Dishes as their ticket has them. */
  predicate ItemsFollow(t: Ticket) {
    match t.status
    case New => true
    case Accepted => AllAt(t.items, ItemAccepted)
    case Preparing => AllAt(t.items, ItemPreparing)
    case Ready => AllAt(t.items, ItemReady)
    case Completed => AllAt(t.items, ItemServed)
    case Cancelled => AllAt(t.items, ItemCancelled)
  }

  predicate AllItemsFollow(s: State) {
    forall i :: 0 <= i < |s.tickets| ==> ItemsFollow(s.tickets[i])
  }

  lemma {:induction false} UpdateKeepsItems(s: State, i: nat, to: TicketStatus)
    requires AllItemsFollow(s)
    ensures var t := Updated(s, i, to);
            && AllItemsFollow(t) && |t.tickets| == |s.tickets|
            && forall k :: 0 <= k < |s.tickets| ==> |t.tickets[k].items| == |s.tickets[k].items|
  {
    if Effective(s, i, to) {
      assert ItemsFollow(Moved(s.tickets[i], to));
    }
  }

  /** No dish is lost, and every dish stands where its ticket does. */
  lemma {:induction false} ItemsAlwaysFollow(s: State, requests: seq<Request>)
    requires Sent(s)
    ensures AllItemsFollow(Run(s, requests)) && |Run(s, requests).tickets| == |s.tickets|
    ensures forall k :: 0 <= k < |s.tickets| ==> |Run(s, requests).tickets[k].items| == |s.tickets[k].items|
    decreases |requests|
  {
    if requests != [] {
      var init, r := requests[..|requests| - 1], requests[|requests| - 1];
      ItemsAlwaysFollow(s, init);
      UpdateKeepsItems(Run(s, init), r.ticket, r.status);
    }
  }

  /** Once the order has left the kitchen's part, or before it has come to it, no ticket
      update touches it, its table, or their versions. */
  lemma {:induction false} CheckoutStands(s: State, requests: seq<Request>)
    requires s.order in {Draft, BillRequested, PaymentPending, Paid, OrderCancelled, Voided}
    ensures Run(s, requests).order == s.order && Run(s, requests).version == s.version
    ensures Run(s, requests).table == s.table && Run(s, requests).tableVersion == s.tableVersion
    decreases |requests|
  {
    if requests != [] {
      CheckoutStands(s, requests[..|requests| - 1]);
    }
  }

  // ----- what updates achieve -----

  /** An update is admitted if and only if it takes the ticket exactly one step on, or
      cancels it before it is ready; and then the ticket stands there. */
  lemma {:induction false} OneStepOrCancel(s: State, i: nat, to: TicketStatus)
    requires i < |s.tickets|
    ensures Effective(s, i, to) <==>
            if to == Cancelled then StepsLeft(s.tickets[i].status) >= 2
            else StepsLeft(s.tickets[i].status) >= 1 && StepsLeft(to) == StepsLeft(s.tickets[i].status) - 1
    ensures Effective(s, i, to) ==> Updated(s, i, to).tickets[i].status == to
    ensures forall k :: 0 <= k < |s.tickets| && k != i ==> Updated(s, i, to).tickets[k] == s.tickets[k]
  {
  }

  /** The four updates that take a ticket through. */
  function Through(i: nat): seq<Request> {
    [Request(i, Accepted), Request(i, Preparing), Request(i, Ready), Request(i, Completed)]
  }

  lemma {:induction false} RunSnoc(s: State, requests: seq<Request>, n: nat)
    requires n < |requests|
    ensures Run(s, requests[..n + 1]) == Updated(Run(s, requests[..n]), requests[n].ticket, requests[n].status)
  {
    assert requests[..n + 1][..n] == requests[..n];
  }

  /** A new ticket can be taken through to the end, and its neighbours stay where they are. */
  lemma {:induction false} TicketsGoThrough(s: State, i: nat)
    requires i < |s.tickets| && s.tickets[i].status == New
    ensures var t := Run(s, Through(i));
            && |t.tickets| == |s.tickets| && t.tickets[i].status == Completed
            && forall k :: 0 <= k < |s.tickets| && k != i ==> t.tickets[k] == s.tickets[k]
  {
    var requests := Through(i);
    assert requests[..0] == [] && requests[..4] == requests;
    RunSnoc(s, requests, 0);
    RunSnoc(s, requests, 1);
    RunSnoc(s, requests, 2);
    RunSnoc(s, requests, 3);
    OneStepOrCancel(s, i, Accepted);
    OneStepOrCancel(Run(s, requests[..1]), i, Preparing);
    OneStepOrCancel(Run(s, requests[..2]), i, Ready);
    OneStepOrCancel(Run(s, requests[..3]), i, Completed);
  }

  function AllThrough(n: nat): seq<Request> {
    if n == 0 then [] else AllThrough(n - 1) + Through(n - 1)
  }

  lemma {:induction false} FirstOnesGoThrough(s: State, n: nat)
    requires n <= |s.tickets| && forall k :: 0 <= k < |s.tickets| ==> s.tickets[k].status == New
    ensures var t := Run(s, AllThrough(n));
            && |t.tickets| == |s.tickets|
            && forall k :: 0 <= k < |s.tickets| ==> t.tickets[k].status == if k < n then Completed else New
  {
    if n > 0 {
      FirstOnesGoThrough(s, n - 1);
      RunsCompose(s, AllThrough(n - 1), Through(n - 1));
      TicketsGoThrough(Run(s, AllThrough(n - 1)), n - 1);
    }
  }

  lemma {:induction false} NoEffectNoChange(s: State, requests: seq<Request>)
    requires EffectiveIn(s, requests) == 0
    ensures Run(s, requests) == s
    decreases |requests|
  {
    if requests != [] {
      NoEffectNoChange(s, requests[..|requests| - 1]);
    }
  }

  /** So every order sent to the kitchen can be made ready, its table with it. */
  lemma {:induction false} EveryOrderCanBecomeReady(s: State)
    requires Sent(s)
    ensures exists requests :: Run(s, requests).order == OrderReady
                               && (s.table.Some? ==> Run(s, requests).table == Some(TableReady))
  {
    var requests := AllThrough(|s.tickets|);
    FirstOnesGoThrough(s, |s.tickets|);
    ReadyMeansEveryTicketIsDone(s, requests);
    var t := Run(s, requests);
    assert AllDone(t.tickets);
    assert t.tickets[0].status == Completed && s.tickets[0].status == New;
    if EffectiveIn(s, requests) == 0 {
      NoEffectNoChange(s, requests);
      assert false;
    }
    if s.table.Some? {
      TableFollowsOrder(s, requests);
    }
  }

  /** Some other ticket is in preparation or done. */
  predicate OthersUnderWay(tickets: seq<Ticket>, i: nat) {
    exists k :: 0 <= k < |tickets| && k != i && (IsDone(tickets[k]) || tickets[k].status == Preparing)
  }

  /** An order served by hand is another matter: an update takes it back exactly when it
      takes effect and puts its ticket in preparation or beyond, or finds another ticket
      there. */
  lemma {:induction false} ServedMovesBack(s: State, i: nat, to: TicketStatus)
    requires s.order == Served && s.tickets != []
    ensures Rank(Updated(s, i, to).order) < Rank(Served) <==>
            Effective(s, i, to) && (to in {Preparing, Ready, Completed} || OthersUnderWay(s.tickets, i))
  {
    if Effective(s, i, to) {
      var after := s.tickets[i := Moved(s.tickets[i], to)];
      assert after[i].status == to;
      assert forall k :: 0 <= k < |after| && k != i ==> after[k] == s.tickets[k];
      assert AllDone(after) ==> IsDone(after[i]);
    }
  }
}

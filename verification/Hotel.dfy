/** One hotel room's stays: check-in, room charges, check-out, and what every run of
    them bills. */
module Hotel {
  import opened Wrappers

  // ----- references -----

  /** Which characters are white space, and lower-casing character by character. */
  datatype Text = Text(white: char -> bool, lower: char -> char)

  ghost predicate Sound(text: Text) {
    text.white(' ') && forall c :: text.white(text.lower(c)) == text.white(c)
  }

  function Strip(s: string, text: Text): string {
    if s != "" && text.white(s[0]) then Strip(s[1..], text)
    else if s != "" && text.white(s[|s| - 1]) then Strip(s[..|s| - 1], text)
    else s
  }

  predicate AllWhite(s: string, text: Text) {
    forall c <- s :: text.white(c)
  }

  /** Stripping takes white space off both ends and nothing else, until none is left. */
  lemma {:induction false} StrippedIs(s: string, text: Text) returns (before: string, after: string)
    ensures s == before + Strip(s, text) + after && AllWhite(before, text) && AllWhite(after, text)
    ensures var t := Strip(s, text); t != "" ==> !text.white(t[0]) && !text.white(t[|t| - 1])
    decreases |s|
  {
    before, after := "", "";
    if s != "" && text.white(s[0]) {
      before, after := StrippedIs(s[1..], text);
      before := [s[0]] + before;
      assert s == [s[0]] + s[1..];
    } else if s != "" && text.white(s[|s| - 1]) {
      before, after := StrippedIs(s[..|s| - 1], text);
      after := after + [s[|s| - 1]];
      assert s == s[..|s| - 1] + [s[|s| - 1]];
    }
  }

  function LowerCase(s: string, text: Text): (r: string)
    ensures |r| == |s| && forall i :: 0 <= i < |s| ==> r[i] == text.lower(s[i])
  {
    seq(|s|, i requires 0 <= i < |s| => text.lower(s[i]))
  }

  /** The length of the leading run without white space. */
  function WordLength(s: string, text: Text): (n: nat)
    ensures n <= |s| && (forall i :: 0 <= i < n ==> !text.white(s[i])) && (n < |s| ==> text.white(s[n]))
  {
    if s == "" || text.white(s[0]) then 0 else 1 + WordLength(s[1..], text)
  }

  /** `split()`: the runs without white space. */
  function Tokens(s: string, text: Text): seq<string>
    decreases |s|
  {
    if s == "" then []
    else if text.white(s[0]) then Tokens(s[1..], text)
    else
      var n := WordLength(s, text);
      [s[..n]] + Tokens(s[n..], text)
  }

  predicate OneWord(s: string, text: Text) {
    s != "" && forall i :: 0 <= i < |s| ==> !text.white(s[i])
  }

  lemma {:induction false} TokensAreWords(s: string, token: string, text: Text)
    requires token in Tokens(s, text)
    ensures OneWord(token, text)
    decreases |s|
  {
    if text.white(s[0]) {
      TokensAreWords(s[1..], token, text);
    } else {
      var n := WordLength(s, text);
      if token in Tokens(s[n..], text) {
        TokensAreWords(s[n..], token, text);
      }
    }
  }

  function RoomToken(number: string, text: Text): string {
    LowerCase(Strip(number, text), text)
  }

  function Keyed(reference: Option<string>): string {
    if reference.Some? then reference.value else ""
  }

  function ReferenceTokens(reference: Option<string>, text: Text): seq<string> {
    Tokens(LowerCase(Strip(Keyed(reference), text), text), text)
  }

  // ----- the folio -----

  datatype Status = Pending | Completed | Refunded | Voided

  datatype Payment = Payment(id: nat, kind: string, status: Status, reference: Option<string>, createdAt: int, amount: real)

  /** A completed room charge whose reference names the room. */
  predicate NamesRoom(p: Payment, number: string, text: Text) {
    && p.kind == "ROOM_CHARGE" && p.status == Completed
    && RoomToken(number, text) in ReferenceTokens(p.reference, text)
  }

  predicate Charges(p: Payment, number: string, since: int, text: Text) {
    p.createdAt >= since && NamesRoom(p, number, text)
  }

  function ChargesOf(ps: seq<Payment>, number: string, since: int, text: Text): (cs: seq<Payment>)
    ensures forall p :: p in cs <==> p in ps && Charges(p, number, since, text)
  {
    if ps == [] then []
    else (if Charges(ps[0], number, since, text) then [ps[0]] else []) + ChargesOf(ps[1..], number, since, text)
  }

  function Total(ps: seq<Payment>): real {
    if ps == [] then 0.0 else ps[0].amount + Total(ps[1..])
  }

  function Flat(orders: seq<seq<Payment>>): seq<Payment> {
    if orders == [] then [] else orders[0] + Flat(orders[1..])
  }

  predicate OnSomeOrder(orders: seq<seq<Payment>>, p: Payment) {
    exists i :: 0 <= i < |orders| && p in orders[i]
  }

  lemma {:induction false} OnFirstOrLater(orders: seq<seq<Payment>>, p: Payment)
    requires orders != []
    ensures OnSomeOrder(orders, p) <==> p in orders[0] || OnSomeOrder(orders[1..], p)
  {
    if OnSomeOrder(orders, p) {
      var i :| 0 <= i < |orders| && p in orders[i];
      assert i > 0 ==> p in orders[1..][i - 1];
    }
    if OnSomeOrder(orders[1..], p) {
      var i :| 0 <= i < |orders[1..]| && p in orders[1..][i];
      assert p in orders[i + 1];
    }
  }

  lemma {:induction false} FlatHas(orders: seq<seq<Payment>>, p: Payment)
    ensures p in Flat(orders) <==> OnSomeOrder(orders, p)
  {
    if orders != [] {
      FlatHas(orders[1..], p);
      OnFirstOrLater(orders, p);
    }
  }

  lemma {:induction false} ChargesOfJoins(a: seq<Payment>, b: seq<Payment>, number: string, since: int, text: Text)
    ensures ChargesOf(a + b, number, since, text) == ChargesOf(a, number, since, text) + ChargesOf(b, number, since, text)
  {
    if a == [] {
      assert a + b == b;
    } else {
      assert (a + b)[1..] == a[1..] + b;
      ChargesOfJoins(a[1..], b, number, since, text);
    }
  }

  lemma {:induction false} TotalJoins(a: seq<Payment>, b: seq<Payment>)
    ensures Total(a + b) == Total(a) + Total(b)
  {
    if a == [] {
      assert a + b == b;
    } else {
      assert (a + b)[1..] == a[1..] + b;
      TotalJoins(a[1..], b);
    }
  }

  /** The query's own filter, before the references are read. */
  predicate Selected(order: seq<Payment>, since: int) {
    exists p :: p in order && p.kind == "ROOM_CHARGE" && p.status == Completed && p.reference.Some? && p.createdAt >= since
  }

  lemma {:induction false} NoReferenceNoTokens(text: Text)
    ensures ReferenceTokens(None, text) == []
  {
    assert LowerCase(Strip("", text), text) == "";
  }

  lemma {:induction false} UnselectedOwesNothing(order: seq<Payment>, number: string, since: int, text: Text)
    requires !Selected(order, since)
    ensures ChargesOf(order, number, since, text) == []
  {
    if order != [] {
      NoReferenceNoTokens(text);
      assert order[0] in order && !Charges(order[0], number, since, text);
      assert forall p :: p in order[1..] ==> p in order;
      UnselectedOwesNothing(order[1..], number, since, text);
    }
  }

  /** `_room_folio`: the total, order by order, is that of all charges at once. */
  method RoomFolio(orders: seq<seq<Payment>>, number: string, since: Option<int>, text: Text) returns (total: real)
    ensures total == if since.Some? then Total(ChargesOf(Flat(orders), number, since.value, text)) else 0.0
  {
    if RoomToken(number, text) == "" || since.None? {
      NoTokenNoCharges(Flat(orders), number, if since.Some? then since.value else 0, text);
      return 0.0;
    }
    total := 0.0;
    for i := 0 to |orders|
      invariant total + Total(ChargesOf(Flat(orders[i..]), number, since.value, text)) ==
                Total(ChargesOf(Flat(orders), number, since.value, text))
    {
      var matching := ChargesOf(orders[i], number, since.value, text);
      assert orders[i..][1..] == orders[i + 1..];
      ChargesOfJoins(orders[i], Flat(orders[i + 1..]), number, since.value, text);
      TotalJoins(matching, ChargesOf(Flat(orders[i + 1..]), number, since.value, text));
      if Selected(orders[i], since.value) {
        if matching != [] {
          total := total + Total(matching);
        }
      } else {
        UnselectedOwesNothing(orders[i], number, since.value, text);
      }
    }
  }

  lemma {:induction false} NoTokenNoCharges(ps: seq<Payment>, number: string, since: int, text: Text)
    ensures RoomToken(number, text) == "" ==> ChargesOf(ps, number, since, text) == []
  {
    var charges := ChargesOf(ps, number, since, text);
    if charges != [] {
      assert charges[0] in charges;
      TokensAreWords(LowerCase(Strip(Keyed(charges[0].reference), text), text), RoomToken(number, text), text);
    }
  }

  // ----- the room -----

  datatype RoomState = RoomState(number: string, active: bool, occupied: bool, guest: string, since: Option<int>, version: int)

  datatype Bill = Bill(guest: string, since: Option<int>, until: int, charged: seq<Payment>, total: real)

  function CheckedIn(r: RoomState, guest: string, expected: int, now: int, text: Text): Option<RoomState> {
    if !r.active || r.occupied || r.version != expected then None
    else Some(r.(occupied := true, guest := Strip(guest, text), since := Some(now), version := r.version + 1))
  }

  predicate MayCheckOut(r: RoomState, expected: int) {
    r.occupied && r.guest != "" && r.version == expected
  }

  function CheckedOut(r: RoomState): RoomState {
    r.(occupied := false, guest := "", since := None, version := r.version + 1)
  }

  function Folio(orders: seq<seq<Payment>>, r: RoomState, text: Text): seq<Payment> {
    if r.since.None? then [] else ChargesOf(Flat(orders), r.number, r.since.value, text)
  }

  function BillFor(orders: seq<seq<Payment>>, r: RoomState, now: int, text: Text): Bill {
    Bill(r.guest, r.since, now, Folio(orders, r, text), Total(Folio(orders, r, text)))
  }

  class HotelRoom {
    var number: string
    var isActive: bool
    var occupied: bool
    var guestName: string
    var checkedInAt: Option<int>
    var version: int

    function Value(): RoomState
      reads this
    {
      RoomState(number, isActive, occupied, guestName, checkedInAt, version)
    }

    constructor (number: string)
      ensures Value() == RoomState(number, true, false, "", None, 1)
    {
      this.number, isActive, occupied, guestName, checkedInAt, version := number, true, false, "", None, 1;
    }

    /** `check_in_hotel_room` */
    method CheckIn(guest: string, expected: int, now: int, text: Text) returns (ok: bool)
      modifies this
      ensures ok == CheckedIn(old(Value()), guest, expected, now, text).Some?
      ensures Value() == if ok then CheckedIn(old(Value()), guest, expected, now, text).value else old(Value())
      ensures ok <==> old(isActive) && !old(occupied) && old(version) == expected
      ensures ok ==> Value() == RoomState(old(number), true, true, Strip(guest, text), Some(now), old(version) + 1)
    {
      if !isActive || occupied || version != expected {
        return false;
      }
      occupied := true;
      guestName := Strip(guest, text);
      checkedInAt := Some(now);
      version := version + 1;
      ok := true;
    }

    /** `check_out_hotel_room` */
    method CheckOut(orders: seq<seq<Payment>>, expected: int, now: int, text: Text) returns (total: Option<real>)
      modifies this
      ensures total.Some? <==> MayCheckOut(old(Value()), expected)
      ensures Value() == if total.Some? then CheckedOut(old(Value())) else old(Value())
      ensures total.Some? <==> old(occupied) && old(guestName) != "" && old(version) == expected
      ensures total.Some? ==> Value() == RoomState(old(number), old(isActive), false, "", None, old(version) + 1)
      ensures total.Some? ==> total.value == BillFor(orders, old(Value()), now, text).total
    {
      if !occupied || guestName == "" || version != expected {
        return None;
      }
      var due := RoomFolio(orders, number, checkedInAt, text);
      occupied, guestName, checkedInAt, version := false, "", None, version + 1;
      return Some(due);
    }
  }

  // ----- runs -----

  datatype Action =
    | Pay(order: nat, kind: string, status: Status, reference: Option<string>, amount: real)
    | SetStatus(order: nat, index: nat, status: Status)
    | CheckIn(guest: string, expected: int)
    | CheckOut(expected: int)
    | Edit(number: string, active: bool)

  datatype State = State(room: RoomState, orders: seq<seq<Payment>>, bills: seq<Bill>, clock: int, paid: nat)

  function Placed(orders: seq<seq<Payment>>, order: nat, p: Payment): seq<seq<Payment>> {
    if order < |orders| then orders[order := orders[order] + [p]] else orders + [[p]]
  }

  function Marked(orders: seq<seq<Payment>>, order: nat, index: nat, status: Status): seq<seq<Payment>>
    requires order < |orders| && index < |orders[order]|
  {
    orders[order := orders[order][index := orders[order][index].(status := status)]]
  }

  /** One request, handled at some moment. */
  function Step(s: State, a: Action, now: int, text: Text): State {
    var t := s.(clock := now);
    match a
    case Pay(order, kind, status, reference, amount) =>
      t.(orders := Placed(s.orders, order, Payment(s.paid, kind, status, reference, now, amount)), paid := s.paid + 1)
    case SetStatus(order, index, status) =>
      if order < |s.orders| && index < |s.orders[order]|
      then t.(orders := Marked(s.orders, order, index, status))
      else t
    case CheckIn(guest, expected) =>
      var entered := CheckedIn(s.room, guest, expected, now, text);
      if entered.Some? then t.(room := entered.value) else t
    case CheckOut(expected) =>
      if MayCheckOut(s.room, expected)
      then t.(room := CheckedOut(s.room), bills := s.bills + [BillFor(s.orders, s.room, now, text)])
      else t
    case Edit(number, active) =>
      t.(room := s.room.(number := number, active := active, version := s.room.version + 1))
  }

  /** What one request does to the payments on the orders: one that was made stays where
      it is, and only its status may be changed. */
  lemma {:induction false} PaymentsStay(s: State, a: Action, now: int, text: Text, i: nat, j: nat)
    requires i < |s.orders| && j < |s.orders[i]|
    ensures var orders := Step(s, a, now, text).orders;
            && i < |orders| && j < |orders[i]|
            && orders[i][j] == s.orders[i][j].(status := if a.SetStatus? && a.order == i && a.index == j then a.status
                                                         else s.orders[i][j].status)
  {
  }

  /** A payment goes to the end of the order named, or of a new one. */
  lemma {:induction false} PaymentsArrive(s: State, a: Action, now: int, text: Text)
    requires a.Pay?
    ensures var orders := Step(s, a, now, text).orders;
            var i := if a.order < |s.orders| then a.order else |s.orders|;
            && i < |orders| && |orders[i]| == 1 + (if i < |s.orders| then |s.orders[i]| else 0)
            && orders[i][|orders[i]| - 1] == Payment(s.paid, a.kind, a.status, a.reference, now, a.amount)
  {
  }

  /** Editing a room changes its number and whether it can be let, and leaves the stay. */
  lemma {:induction false} EditingKeepsTheStay(s: State, number: string, active: bool, now: int, text: Text)
    ensures Step(s, Edit(number, active), now, text) ==
            s.(clock := now, room := RoomState(number, active, s.room.occupied, s.room.guest, s.room.since, s.room.version + 1))
  {
  }

  datatype Request = Request(action: Action, after: nat)

  /** A request comes `after` ticks after the one before. */
  function Next(s: State, r: Request, text: Text): State {
    Step(s, r.action, s.clock + r.after, text)
  }

  /** No two requests are closer than the gap: with a gap of one, no two are handled at
      one moment. */
  predicate Paced(requests: seq<Request>, gap: nat) {
    forall i :: 0 <= i < |requests| ==> requests[i].after >= gap
  }

  function Run(s: State, requests: seq<Request>, text: Text): State
    decreases |requests|
  {
    if requests == [] then s
    else Next(Run(s, requests[..|requests| - 1], text), requests[|requests| - 1], text)
  }

  function Opened(number: string): State {
    State(RoomState(number, true, false, "", None, 1), [], [], 0, 0)
  }

  // ----- no payment is lost -----

  /** The payment stands there, whatever its status is by now. */
  predicate StandsAt(orders: seq<seq<Payment>>, i: nat, j: nat, p: Payment) {
    i < |orders| && j < |orders[i]| && orders[i][j].(status := p.status) == p
  }

  lemma {:induction false} PaymentKept(s: State, requests: seq<Request>, text: Text, n: nat, i: nat, j: nat, p: Payment)
    requires n <= |requests| && StandsAt(Run(s, requests[..n], text).orders, i, j, p)
    ensures StandsAt(Run(s, requests, text).orders, i, j, p)
    decreases |requests| - n
  {
    if n == |requests| {
      assert requests[..n] == requests;
    } else {
      var before := Run(s, requests[..n], text);
      assert requests[..n + 1][..n] == requests[..n];
      PaymentsStay(before, requests[n].action, before.clock + requests[n].after, text, i, j);
      PaymentKept(s, requests, text, n + 1, i, j, p);
    }
  }

  /** On every run each payment is and stays on its order, or on a new one where it
      named none that was there, with its kind, reference, moment and amount. */
  lemma {:induction false} EveryPaymentStands(s: State, requests: seq<Request>, text: Text, n: nat) returns (j: nat)
    requires n < |requests| && requests[n].action.Pay?
    ensures var a, before := requests[n].action, Run(s, requests[..n], text);
            var i := if a.order < |before.orders| then a.order else |before.orders|;
            StandsAt(Run(s, requests, text).orders, i, j,
                     Payment(before.paid, a.kind, a.status, a.reference, before.clock + requests[n].after, a.amount))
  {
    var a, before := requests[n].action, Run(s, requests[..n], text);
    var now := before.clock + requests[n].after;
    var i := if a.order < |before.orders| then a.order else |before.orders|;
    var p := Payment(before.paid, a.kind, a.status, a.reference, now, a.amount);
    PaymentsArrive(before, a, now, text);
    assert requests[..n + 1][..n] == requests[..n];
    var orders := Run(s, requests[..n + 1], text).orders;
    j := |orders[i]| - 1;
    PaymentKept(s, requests, text, n + 1, i, j, p);
  }

  // ----- what every run keeps -----

  predicate BillDated(b: Bill, clock: int) {
    && b.since.Some? && b.since.value <= b.until <= clock && b.total == Total(b.charged)
    && forall p :: p in b.charged ==> b.since.value <= p.createdAt <= b.until
  }

  predicate Before(a: Bill, b: Bill, gap: nat) {
    a.since.Some? && b.since.Some? && a.until + gap <= b.since.value
  }

  predicate BillsDated(bills: seq<Bill>, clock: int, gap: nat) {
    && (forall i :: 0 <= i < |bills| ==> BillDated(bills[i], clock))
    && forall i, j :: 0 <= i < j < |bills| ==> Before(bills[i], bills[j], gap)
  }

  predicate PaymentsDated(orders: seq<seq<Payment>>, clock: int) {
    forall p :: p in Flat(orders) ==> p.createdAt <= clock
  }

  predicate RoomDated(room: RoomState, bills: seq<Bill>, clock: int, gap: nat) {
    && (room.occupied <==> room.since.Some?)
    && (room.occupied ==> room.since.value <= clock && forall i :: 0 <= i < |bills| ==> bills[i].until + gap <= room.since.value)
  }

  predicate Inv(s: State, gap: nat) {
    && PaymentsDated(s.orders, s.clock) && BillsDated(s.bills, s.clock, gap)
    && RoomDated(s.room, s.bills, s.clock, gap)
  }

  lemma {:induction false} PlacingDates(orders: seq<seq<Payment>>, order: nat, p: Payment, clock: int)
    requires PaymentsDated(orders, clock) && p.createdAt >= clock
    ensures PaymentsDated(Placed(orders, order, p), p.createdAt)
  {
    var placed := Placed(orders, order, p);
    forall q | q in Flat(placed) ensures q.createdAt <= p.createdAt {
      FlatHas(placed, q);
      FlatHas(orders, q);
      var i :| 0 <= i < |placed| && q in placed[i];
      assert q != p ==> i < |orders| && q in orders[i];
    }
  }

  lemma {:induction false} SettingDates(orders: seq<seq<Payment>>, order: nat, index: nat, status: Status, clock: int)
    requires PaymentsDated(orders, clock) && order < |orders| && index < |orders[order]|
    ensures PaymentsDated(Marked(orders, order, index, status), clock)
  {
    var changed := Marked(orders, order, index, status);
    forall q | q in Flat(changed) ensures q.createdAt <= clock {
      FlatHas(changed, q);
      var i :| 0 <= i < |changed| && q in changed[i];
      var k :| 0 <= k < |changed[i]| && changed[i][k] == q;
      FlatHas(orders, orders[i][k]);
    }
  }

  lemma {:induction false} CheckOutKeepsInv(s: State, now: int, text: Text, gap: nat)
    requires Inv(s, gap) && now >= s.clock && s.room.occupied
    ensures BillsDated(s.bills + [BillFor(s.orders, s.room, now, text)], now, gap)
  {
    var b := BillFor(s.orders, s.room, now, text);
    assert BillDated(b, now);
    assert forall i :: 0 <= i < |s.bills| ==> Before(s.bills[i], b, gap);
  }

  lemma {:induction false} PayKeepsInv(s: State, r: Request, text: Text, gap: nat)
    requires Inv(s, gap) && r.action.Pay?
    ensures Inv(Next(s, r, text), gap)
  {
    var a := r.action;
    PlacingDates(s.orders, a.order, Payment(s.paid, a.kind, a.status, a.reference, s.clock + r.after, a.amount), s.clock);
  }

  lemma {:induction false} StatusKeepsInv(s: State, r: Request, text: Text, gap: nat)
    requires Inv(s, gap) && r.action.SetStatus?
    ensures Inv(Next(s, r, text), gap)
  {
    var a := r.action;
    if a.order < |s.orders| && a.index < |s.orders[a.order]| {
      SettingDates(s.orders, a.order, a.index, a.status, s.clock);
    }
  }

  lemma {:induction false} CheckInKeepsInv(s: State, r: Request, text: Text, gap: nat)
    requires Inv(s, gap) && r.after >= gap && (r.action.CheckIn? || r.action.Edit?)
    ensures Inv(Next(s, r, text), gap)
  {
  }

  lemma {:induction false} LeavingKeepsInv(s: State, r: Request, text: Text, gap: nat)
    requires Inv(s, gap) && r.after >= gap && r.action.CheckOut?
    ensures Inv(Next(s, r, text), gap)
  {
    WhatCheckOutDoes(s, r, text);
    if s.room.occupied {
      CheckOutKeepsInv(s, s.clock + r.after, text, gap);
    }
  }

  lemma {:induction false} NextKeepsInv(s: State, r: Request, text: Text, gap: nat)
    requires Inv(s, gap) && r.after >= gap
    ensures Inv(Next(s, r, text), gap)
  {
    match r.action
    case Pay(_, _, _, _, _) => PayKeepsInv(s, r, text, gap);
    case SetStatus(_, _, _) => StatusKeepsInv(s, r, text, gap);
    case CheckOut(_) => LeavingKeepsInv(s, r, text, gap);
    case _ => CheckInKeepsInv(s, r, text, gap);
  }

  lemma {:induction false} RunKeepsInv(s: State, requests: seq<Request>, text: Text, gap: nat)
    requires Inv(s, gap) && Paced(requests, gap)
    ensures Inv(Run(s, requests, text), gap)
    decreases |requests|
  {
    if requests != [] {
      RunKeepsInv(s, requests[..|requests| - 1], text, gap);
      NextKeepsInv(Run(s, requests[..|requests| - 1], text), requests[|requests| - 1], text, gap);
    }
  }

  /** On every run, refunds and renumbering included, what one bill charges was paid
      before anything the next one charges: no payment is on two bills. */
  lemma {:induction false} BilledAtMostOnce(number: string, requests: seq<Request>, text: Text, i: nat, j: nat)
    requires Paced(requests, 1) && i < j < |Run(Opened(number), requests, text).bills|
    ensures var bills := Run(Opened(number), requests, text).bills;
            forall p, q :: p in bills[i].charged && q in bills[j].charged ==> p.createdAt < q.createdAt
  {
    RunKeepsInv(Opened(number), requests, text, 1);
    var bills := Run(Opened(number), requests, text).bills;
    assert Before(bills[i], bills[j], 1) && BillDated(bills[i], bills[i].until) && BillDated(bills[j], bills[j].until);
  }

  // ----- what the bills add up to -----

  predicate InStay(p: Payment, b: Bill) {
    b.since.Some? && b.since.value <= p.createdAt <= b.until
  }

  predicate InFinishedStay(p: Payment, bills: seq<Bill>) {
    exists i :: 0 <= i < |bills| && InStay(p, bills[i])
  }

  /** The room's charges paid while a stay that has since ended was on. */
  function Owed(ps: seq<Payment>, bills: seq<Bill>, number: string, text: Text): real {
    if ps == [] then 0.0
    else
      (if InFinishedStay(ps[0], bills) && NamesRoom(ps[0], number, text) then ps[0].amount else 0.0) +
      Owed(ps[1..], bills, number, text)
  }

  function Billed(bills: seq<Bill>): real {
    if bills == [] then 0.0 else Billed(bills[..|bills| - 1]) + bills[|bills| - 1].total
  }

  lemma {:induction false} OwedJoins(a: seq<Payment>, b: seq<Payment>, bills: seq<Bill>, number: string, text: Text)
    ensures Owed(a + b, bills, number, text) == Owed(a, bills, number, text) + Owed(b, bills, number, text)
  {
    if a == [] {
      assert a + b == b;
    } else {
      assert (a + b)[1..] == a[1..] + b;
      OwedJoins(a[1..], b, bills, number, text);
    }
  }

  /** A payment outside the finished stays changes nothing, whichever order it is on. */
  lemma {:induction false} LaterPaymentOwesNothing(
    orders: seq<seq<Payment>>, order: nat, p: Payment, bills: seq<Bill>, number: string, text: Text)
    requires !InFinishedStay(p, bills)
    ensures Owed(Flat(Placed(orders, order, p)), bills, number, text) == Owed(Flat(orders), bills, number, text)
    decreases orders
  {
    var placed := Placed(orders, order, p);
    assert Owed([p], bills, number, text) == 0.0 + Owed([p][1..], bills, number, text);
    if orders == [] {
      assert placed == [[p]] && [[p]][1..] == [] && Flat(placed) == [p] + Flat([]);
      assert [p] + Flat([]) == [p];
    } else if order == 0 {
      assert placed[1..] == orders[1..];
      OwedJoins(orders[0] + [p], Flat(orders[1..]), bills, number, text);
      OwedJoins(orders[0], [p], bills, number, text);
      OwedJoins(orders[0], Flat(orders[1..]), bills, number, text);
    } else {
      assert placed[0] == orders[0] && placed[1..] == Placed(orders[1..], order - 1, p);
      LaterPaymentOwesNothing(orders[1..], order - 1, p, bills, number, text);
      OwedJoins(orders[0], Flat(placed[1..]), bills, number, text);
      OwedJoins(orders[0], Flat(orders[1..]), bills, number, text);
    }
  }

  /** A new bill adds exactly the charges since the check-in. */
  lemma {:induction false} NewBillAdds(ps: seq<Payment>, bills: seq<Bill>, b: Bill, number: string, text: Text)
    requires b.since.Some? && forall i :: 0 <= i < |bills| ==> bills[i].until < b.since.value
    requires forall p :: p in ps ==> p.createdAt <= b.until
    ensures Owed(ps, bills + [b], number, text) ==
            Owed(ps, bills, number, text) + Total(ChargesOf(ps, number, b.since.value, text))
  {
    if ps != [] {
      NewBillAdds(ps[1..], bills, b, number, text);
      OneMoreStay(ps[0], bills, b);
      var first := if Charges(ps[0], number, b.since.value, text) then [ps[0]] else [];
      assert ps[0] in ps && [ps[0]][1..] == [];
      TotalJoins(first, ChargesOf(ps[1..], number, b.since.value, text));
    }
  }

  lemma {:induction false} OneMoreStay(p: Payment, bills: seq<Bill>, b: Bill)
    requires b.since.Some? && p.createdAt <= b.until && forall i :: 0 <= i < |bills| ==> bills[i].until < b.since.value
    ensures InFinishedStay(p, bills + [b]) <==> InFinishedStay(p, bills) || p.createdAt >= b.since.value
    ensures !(InFinishedStay(p, bills) && p.createdAt >= b.since.value)
  {
    var more := bills + [b];
    assert more[|bills|] == b;
    assert forall i :: 0 <= i < |bills| ==> more[i] == bills[i];
  }

  /** What a payment adds to what is owed. */
  function Share(p: Payment, bills: seq<Bill>, number: string, text: Text): real {
    if InFinishedStay(p, bills) && NamesRoom(p, number, text) then p.amount else 0.0
  }

  lemma {:induction false} OwedOne(p: Payment, bills: seq<Bill>, number: string, text: Text)
    ensures Owed([p], bills, number, text) == Share(p, bills, number, text)
  {
    assert [p][1..] == [];
  }

  lemma {:induction false} OwedChanged(ps: seq<Payment>, k: nat, q: Payment, bills: seq<Bill>, number: string, text: Text)
    requires k < |ps|
    ensures Owed(ps[k := q], bills, number, text) ==
            Owed(ps, bills, number, text) - Share(ps[k], bills, number, text) + Share(q, bills, number, text)
  {
    var front, back := ps[..k], ps[k + 1..];
    assert ps == front + ([ps[k]] + back) && ps[k := q] == front + ([q] + back);
    OwedJoins(front, [ps[k]] + back, bills, number, text);
    OwedJoins(front, [q] + back, bills, number, text);
    OwedJoins([ps[k]], back, bills, number, text);
    OwedJoins([q], back, bills, number, text);
    OwedOne(ps[k], bills, number, text);
    OwedOne(q, bills, number, text);
  }

  lemma {:induction false} MarkingOwes(
    orders: seq<seq<Payment>>, order: nat, index: nat, status: Status, bills: seq<Bill>, number: string, text: Text)
    requires order < |orders| && index < |orders[order]|
    ensures var p := orders[order][index];
            Owed(Flat(Marked(orders, order, index, status)), bills, number, text) ==
            Owed(Flat(orders), bills, number, text) - Share(p, bills, number, text) +
            Share(p.(status := status), bills, number, text)
    decreases orders
  {
    var marked := Marked(orders, order, index, status);
    OwedJoins(orders[0], Flat(orders[1..]), bills, number, text);
    OwedJoins(marked[0], Flat(marked[1..]), bills, number, text);
    if order == 0 {
      assert marked[1..] == orders[1..];
      OwedChanged(orders[0], index, orders[0][index].(status := status), bills, number, text);
    } else {
      assert marked[1..] == Marked(orders[1..], order - 1, index, status);
      MarkingOwes(orders[1..], order - 1, index, status, bills, number, text);
    }
  }

  /** A status change that makes or unmakes a charge of a stay that has ended. */
  predicate Unsettles(s: State, r: Request, number: string, text: Text) {
    match r.action
    case SetStatus(order, index, status) => (
      order < |s.orders| && index < |s.orders[order]| &&
      var p := s.orders[order][index];
      InFinishedStay(p, s.bills) && NamesRoom(p, number, text) != NamesRoom(p.(status := status), number, text))
    case _ => false
  }

  predicate Settled(s: State, r: Request, number: string, text: Text) {
    !Unsettles(s, r, number, text) && (r.action.Edit? ==> r.action.number == number)
  }

  /** No renumbering, and no later refunds: before check-out payments may be refunded,
      voided or completed freely. */
  predicate SettledRun(number: string, requests: seq<Request>, text: Text) {
    forall i :: 0 <= i < |requests| ==> Settled(Run(Opened(number), requests[..i], text), requests[i], number, text)
  }

  predicate Balanced(s: State, number: string, text: Text) {
    s.room.number == number && Billed(s.bills) == Owed(Flat(s.orders), s.bills, number, text)
  }

  lemma {:induction false} PayBalances(s: State, order: nat, p: Payment, number: string, text: Text)
    requires Inv(s, 1) && Balanced(s, number, text) && p.createdAt > s.clock
    ensures Billed(s.bills) == Owed(Flat(Placed(s.orders, order, p)), s.bills, number, text)
  {
    assert !InFinishedStay(p, s.bills);
    LaterPaymentOwesNothing(s.orders, order, p, s.bills, number, text);
  }

  lemma {:induction false} CheckOutBalances(s: State, now: int, number: string, text: Text)
    requires Inv(s, 1) && Balanced(s, number, text) && s.room.occupied && now > s.clock
    ensures var bills := s.bills + [BillFor(s.orders, s.room, now, text)];
            Billed(bills) == Owed(Flat(s.orders), bills, number, text)
  {
    var b := BillFor(s.orders, s.room, now, text);
    NewBillAdds(Flat(s.orders), s.bills, b, number, text);
    assert (s.bills + [b])[..|s.bills|] == s.bills;
  }

  /** The condition is exact: a status change leaves a balanced room balanced if and
      only if it does not unsettle it, or the payment is of nothing. */
  lemma {:induction false} StatusChangeBalances(s: State, order: nat, index: nat, status: Status, after: nat, number: string, text: Text)
    requires Balanced(s, number, text) && order < |s.orders| && index < |s.orders[order]|
    ensures var r := Request(SetStatus(order, index, status), after);
            Balanced(Next(s, r, text), number, text) <==>
            !Unsettles(s, r, number, text) || s.orders[order][index].amount == 0.0
  {
    MarkingOwes(s.orders, order, index, status, s.bills, number, text);
    var p := s.orders[order][index];
    assert InFinishedStay(p.(status := status), s.bills) <==> InFinishedStay(p, s.bills) by {
      assert forall i :: 0 <= i < |s.bills| ==> InStay(p.(status := status), s.bills[i]) == InStay(p, s.bills[i]);
    }
  }

  lemma {:induction false} PayNextBalances(s: State, r: Request, number: string, text: Text)
    requires Inv(s, 1) && Balanced(s, number, text) && r.action.Pay? && r.after >= 1
    ensures Balanced(Next(s, r, text), number, text)
  {
    var a := r.action;
    PayBalances(s, a.order, Payment(s.paid, a.kind, a.status, a.reference, s.clock + r.after, a.amount), number, text);
  }

  lemma {:induction false} WhatCheckOutDoes(s: State, r: Request, text: Text)
    requires r.action.CheckOut?
    ensures var t := Next(s, r, text);
            && t.orders == s.orders && t.room.number == s.room.number
            && (t.bills == s.bills ||
                (s.room.occupied && t.bills == s.bills + [BillFor(s.orders, s.room, s.clock + r.after, text)]))
  {
  }

  lemma {:induction false} CheckOutNextBalances(s: State, r: Request, number: string, text: Text)
    requires Inv(s, 1) && Balanced(s, number, text) && r.action.CheckOut? && r.after >= 1
    ensures Balanced(Next(s, r, text), number, text)
  {
    WhatCheckOutDoes(s, r, text);
    var t := Next(s, r, text);
    if t.bills != s.bills {
      CheckOutBalances(s, s.clock + r.after, number, text);
    }
  }

  lemma {:induction false} StatusNextBalances(s: State, r: Request, number: string, text: Text)
    requires Balanced(s, number, text) && r.action.SetStatus? && Settled(s, r, number, text)
    ensures Balanced(Next(s, r, text), number, text)
  {
    var a := r.action;
    if a.order < |s.orders| && a.index < |s.orders[a.order]| {
      StatusChangeBalances(s, a.order, a.index, a.status, r.after, number, text);
    }
  }

  lemma {:induction false} NextBalances(s: State, r: Request, number: string, text: Text)
    requires Inv(s, 1) && Balanced(s, number, text) && Settled(s, r, number, text) && r.after >= 1
    ensures Balanced(Next(s, r, text), number, text)
  {
    match r.action
    case Pay(_, _, _, _, _) => PayNextBalances(s, r, number, text);
    case SetStatus(_, _, _) => StatusNextBalances(s, r, number, text);
    case CheckOut(_) => CheckOutNextBalances(s, r, number, text);
    case _ => NoPaymentBalances(s, r, number, text);
  }

  lemma {:induction false} NoPaymentBalances(s: State, r: Request, number: string, text: Text)
    requires Balanced(s, number, text) && Settled(s, r, number, text)
    requires r.action.CheckIn? || r.action.Edit?
    ensures Balanced(Next(s, r, text), number, text)
  {
  }

  lemma {:induction false} SettledPrefix(number: string, requests: seq<Request>, text: Text)
    requires requests != [] && SettledRun(number, requests, text)
    ensures SettledRun(number, requests[..|requests| - 1], text)
    ensures Settled(Run(Opened(number), requests[..|requests| - 1], text), requests[|requests| - 1], number, text)
  {
    var init := requests[..|requests| - 1];
    forall i | 0 <= i < |init| ensures Settled(Run(Opened(number), init[..i], text), init[i], number, text) {
      assert init[..i] == requests[..i];
    }
  }

  lemma {:induction false} RunBalances(number: string, requests: seq<Request>, text: Text)
    requires Paced(requests, 1) && SettledRun(number, requests, text)
    ensures Balanced(Run(Opened(number), requests, text), number, text)
    decreases |requests|
  {
    if requests != [] {
      var earlier := requests[..|requests| - 1];
      SettledPrefix(number, requests, text);
      RunBalances(number, earlier, text);
      RunKeepsInv(Opened(number), earlier, text, 1);
      NextBalances(Run(Opened(number), earlier, text), requests[|requests| - 1], number, text);
    }
  }

  /** Without renumbering and later refunds, the bills add up to exactly the room's
      charges paid during the stays that have ended. */
  lemma {:induction false} BillsAreConserved(number: string, requests: seq<Request>, text: Text)
    requires Paced(requests, 1) && SettledRun(number, requests, text)
    ensures var s := Run(Opened(number), requests, text);
            Billed(s.bills) == Owed(Flat(s.orders), s.bills, number, text)
  {
    RunBalances(number, requests, text);
  }

  // ----- where it falls short -----

  lemma {:induction false} StuckStaysStuck(s: State, requests: seq<Request>, text: Text)
    requires s.room.occupied && s.room.guest == ""
    ensures var t := Run(s, requests, text);
            t.room.occupied && t.room.guest == "" && t.bills == s.bills
    decreases |requests|
  {
    if requests != [] {
      StuckStaysStuck(s, requests[..|requests| - 1], text);
    }
  }

  /** A guest checked in can be checked out exactly when the name is not all white
      space; otherwise the room is taken for good, whatever is asked of it later. */
  lemma {:induction false} BlankGuestTakesTheRoomForGood(s: State, guest: string, expected: int, now: int, requests: seq<Request>, text: Text)
    requires CheckedIn(s.room, guest, expected, now, text).Some?
    ensures var t := Step(s, CheckIn(guest, expected), now, text);
            && t.room.occupied
            && (Strip(guest, text) != "" <==> MayCheckOut(t.room, t.room.version))
            && (Strip(guest, text) == "" ==> Run(t, requests, text).room.occupied && Run(t, requests, text).bills == s.bills)
  {
    var t := Step(s, CheckIn(guest, expected), now, text);
    if Strip(guest, text) == "" {
      StuckStaysStuck(t, requests, text);
    }
  }

  lemma {:induction false} WordLengthStops(a: string, c: char, b: string, text: Text)
    requires text.white(c)
    ensures WordLength(a + [c] + b, text) == WordLength(a, text)
  {
    var all := a + [c] + b;
    if a != "" && !text.white(a[0]) {
      assert all[1..] == a[1..] + [c] + b;
      WordLengthStops(a[1..], c, b, text);
    }
  }

  lemma {:induction false} FirstToken(s: string, n: nat, text: Text)
    requires s != "" && !text.white(s[0]) && n == WordLength(s, text)
    ensures 0 < n <= |s| && Tokens(s, text) == [s[..n]] + Tokens(s[n..], text)
  {
  }

  lemma {:induction false} TokensSplit(a: string, c: char, b: string, text: Text)
    requires text.white(c)
    ensures Tokens(a + [c] + b, text) == Tokens(a, text) + Tokens(b, text)
    decreases |a|
  {
    var all := a + [c] + b;
    if a == "" {
      assert all[1..] == b;
    } else if text.white(a[0]) {
      assert all[1..] == a[1..] + [c] + b;
      TokensSplit(a[1..], c, b, text);
    } else {
      var n := WordLength(a, text);
      FirstToken(a, n, text);
      WordLengthStops(a, c, b, text);
      FirstToken(all, n, text);
      assert all[..n] == a[..n] && all[n..] == a[n..] + [c] + b;
      TokensSplit(a[n..], c, b, text);
      assert [a[..n]] + (Tokens(a[n..], text) + Tokens(b, text)) == Tokens(a, text) + Tokens(b, text);
    }
  }

  lemma {:induction false} StrippingKeepsTokens(s: string, text: Text)
    ensures Tokens(Strip(s, text), text) == Tokens(s, text)
    decreases |s|
  {
    if s != "" && text.white(s[0]) {
      StrippingKeepsTokens(s[1..], text);
    } else if s != "" && text.white(s[|s| - 1]) {
      var front := s[..|s| - 1];
      StrippingKeepsTokens(front, text);
      TokensSplit(front, s[|s| - 1], "", text);
      assert s == front + [s[|s| - 1]] + "";
    }
  }

  lemma {:induction false} LowerCaseStrips(s: string, text: Text)
    requires Sound(text)
    ensures LowerCase(Strip(s, text), text) == Strip(LowerCase(s, text), text)
    decreases |s|
  {
    var lower := LowerCase(s, text);
    if s != "" && text.white(s[0]) {
      LowerCaseStrips(s[1..], text);
      assert lower[1..] == LowerCase(s[1..], text);
    } else if s != "" && text.white(s[|s| - 1]) {
      LowerCaseStrips(s[..|s| - 1], text);
      assert lower[..|s| - 1] == LowerCase(s[..|s| - 1], text);
    }
  }

  lemma {:induction false} TokensOfOneWord(s: string, text: Text)
    requires OneWord(s, text)
    ensures Tokens(s, text) == [s]
  {
    var n := WordLength(s, text);
    assert n == |s| && s[..n] == s && s[n..] == "";
  }

  /** `folio_reference`: what the staff are told to key in for a guest's charges. */
  function FolioReference(number: string, guest: string): string {
    if guest != "" then number + " " + guest else number
  }

  /** Stripping first makes no difference to the tokens. */
  lemma {:induction false} TokensOfLowerCase(s: string, text: Text)
    requires Sound(text)
    ensures Tokens(LowerCase(Strip(s, text), text), text) == Tokens(LowerCase(s, text), text)
  {
    LowerCaseStrips(s, text);
    StrippingKeepsTokens(LowerCase(s, text), text);
  }

  lemma {:induction false} ReferenceStartsWithTheNumber(number: string, guest: string, text: Text)
    requires Sound(text)
    ensures ReferenceTokens(Some(FolioReference(number, guest)), text) ==
            Tokens(RoomToken(number, text), text) + if guest != "" then Tokens(LowerCase(guest, text), text) else []
  {
    var reference := FolioReference(number, guest);
    TokensOfLowerCase(number, text);
    TokensOfLowerCase(reference, text);
    if guest != "" {
      var lower := LowerCase(number, text);
      assert LowerCase(reference, text) == lower + [text.lower(' ')] + LowerCase(guest, text);
      TokensSplit(lower, text.lower(' '), LowerCase(guest, text), text);
    }
  }

  lemma {:induction false} LowerCaseKeepsWords(s: string, text: Text)
    requires Sound(text)
    ensures OneWord(LowerCase(s, text), text) <==> OneWord(s, text)
  {
    assert forall i :: 0 <= i < |s| ==> text.white(LowerCase(s, text)[i]) == text.white(s[i]);
  }

  /** Keyed in as told, a charge reaches the room exactly when the room number, less
      the space around it, is one word: a room called "12 A" is never charged. */
  lemma {:induction false} FolioReferenceReachesTheRoom(number: string, guest: string, text: Text)
    requires Sound(text)
    ensures RoomToken(number, text) in ReferenceTokens(Some(FolioReference(number, guest)), text) <==>
            OneWord(Strip(number, text), text)
  {
    var token := RoomToken(number, text);
    var reference := FolioReference(number, guest);
    LowerCaseKeepsWords(Strip(number, text), text);
    if OneWord(token, text) {
      ReferenceStartsWithTheNumber(number, guest, text);
      TokensOfOneWord(token, text);
    } else if token in ReferenceTokens(Some(reference), text) {
      TokensAreWords(LowerCase(Strip(reference, text), text), token, text);
      assert false;
    }
  }

  /** And then no payment is ever charged to it, whatever its reference says. */
  lemma {:induction false} UnreachableRoomIsNeverCharged(p: Payment, number: string, text: Text)
    requires Sound(text) && !OneWord(Strip(number, text), text)
    ensures !NamesRoom(p, number, text)
  {
    LowerCaseKeepsWords(Strip(number, text), text);
    if NamesRoom(p, number, text) {
      TokensAreWords(LowerCase(Strip(Keyed(p.reference), text), text), RoomToken(number, text), text);
      assert false;
    }
  }

  // ----- what a bill charges -----

  /** A stretch without white space that cannot be made longer. */
  predicate IsRun(s: string, i: nat, j: nat, text: Text) {
    && i < j <= |s| && (forall k :: i <= k < j ==> !text.white(s[k]))
    && (i > 0 ==> text.white(s[i - 1])) && (j < |s| ==> text.white(s[j]))
  }

  ghost predicate HasRun(s: string, word: string, text: Text) {
    exists i: nat, j: nat :: IsRun(s, i, j, text) && s[i..j] == word
  }

  lemma {:induction false} SliceOfTail(s: string, n: nat, i: nat, j: nat)
    requires n <= |s| && i <= j <= |s| - n
    ensures s[n..][i..j] == s[n + i..n + j]
  {
    var a, b := s[n..][i..j], s[n + i..n + j];
    assert |a| == |b| && forall k :: 0 <= k < |a| ==> a[k] == b[k];
  }

  lemma {:induction false} RunsLater(s: string, n: nat, word: string, text: Text)
    requires n <= |s| && (n == |s| || n == 0 || text.white(s[n]) || text.white(s[n - 1]))
    requires HasRun(s[n..], word, text)
    ensures HasRun(s, word, text)
  {
    var i: nat, j: nat :| IsRun(s[n..], i, j, text) && s[n..][i..j] == word;
    SliceOfTail(s, n, i, j);
    assert forall k :: n + i <= k < n + j ==> s[k] == s[n..][k - n];
    assert i > 0 ==> s[n + i - 1] == s[n..][i - 1];
    assert n + j < |s| ==> s[n + j] == s[n..][j];
    assert i == 0 ==> s[n] == s[n..][0];
    assert IsRun(s, n + i, n + j, text);
  }

  lemma {:induction false} RunInTail(s: string, n: nat, i: nat, j: nat, text: Text)
    requires n <= i && IsRun(s, i, j, text)
    ensures HasRun(s[n..], s[i..j], text)
  {
    SliceOfTail(s, n, i - n, j - n);
    assert IsRun(s[n..], i - n, j - n, text);
  }

  /** Splitting yields exactly the stretches without white space. */
  lemma {:induction false} TokensAreRuns(s: string, word: string, text: Text)
    ensures word in Tokens(s, text) <==> HasRun(s, word, text)
    decreases |s|
  {
    if s != "" && text.white(s[0]) {
      TokensAreRuns(s[1..], word, text);
      if HasRun(s, word, text) {
        var i: nat, j: nat :| IsRun(s, i, j, text) && s[i..j] == word;
        RunInTail(s, 1, i, j, text);
      }
      if HasRun(s[1..], word, text) {
        RunsLater(s, 1, word, text);
      }
    } else if s != "" {
      var n := WordLength(s, text);
      FirstToken(s, n, text);
      TokensAreRuns(s[n..], word, text);
      assert IsRun(s, 0, n, text) && s[0..n] == s[..n];
      if HasRun(s, word, text) {
        var i: nat, j: nat :| IsRun(s, i, j, text) && s[i..j] == word;
        if i < n {
          assert i == 0 && j == n;
        } else {
          RunInTail(s, n, i, j, text);
        }
      }
      if HasRun(s[n..], word, text) {
        RunsLater(s, n, word, text);
      }
    }
  }

  /** One of the reference's words is the room's number, upper or lower case. */
  ghost predicate Mentions(reference: string, number: string, text: Text) {
    exists i: nat, j: nat :: IsRun(reference, i, j, text) && LowerCase(reference[i..j], text) == LowerCase(Strip(number, text), text)
  }

  lemma {:induction false} MentionsIsToken(reference: string, number: string, text: Text)
    requires Sound(text)
    ensures RoomToken(number, text) in ReferenceTokens(Some(reference), text) <==> Mentions(reference, number, text)
  {
    var lower, token := LowerCase(reference, text), RoomToken(number, text);
    TokensOfLowerCase(reference, text);
    TokensAreRuns(lower, token, text);
    if HasRun(lower, token, text) {
      var i: nat, j: nat :| IsRun(lower, i, j, text) && lower[i..j] == token;
      RunsOfLowerCase(reference, i, j, text);
    }
    if Mentions(reference, number, text) {
      var i: nat, j: nat :| IsRun(reference, i, j, text) && LowerCase(reference[i..j], text) == token;
      RunsOfLowerCase(reference, i, j, text);
    }
  }

  lemma {:induction false} RunsOfLowerCase(s: string, i: nat, j: nat, text: Text)
    requires Sound(text)
    ensures IsRun(LowerCase(s, text), i, j, text) <==> IsRun(s, i, j, text)
    ensures i <= j <= |s| ==> LowerCase(s, text)[i..j] == LowerCase(s[i..j], text)
  {
    assert forall k :: 0 <= k < |s| ==> text.white(LowerCase(s, text)[k]) == text.white(s[k]);
  }

  /** A bill charges exactly the completed room charges made since the guest came whose
      reference has the room's number for one of its words. */
  lemma {:induction false} BillsChargeExactly(orders: seq<seq<Payment>>, room: RoomState, now: int, text: Text, p: Payment)
    requires Sound(text)
    ensures p in BillFor(orders, room, now, text).charged <==>
              && OnSomeOrder(orders, p) && room.since.Some? && p.createdAt >= room.since.value
              && p.kind == "ROOM_CHARGE" && p.status == Completed
              && p.reference.Some? && Mentions(p.reference.value, room.number, text)
  {
    FlatHas(orders, p);
    if p.reference.Some? {
      MentionsIsToken(p.reference.value, room.number, text);
    } else {
      NoReferenceNoTokens(text);
    }
  }

  // ----- requests at one moment -----

  /** What is on a bill stays on its order, as a charge of the room. */
  predicate KeepsCharged(s: State, number: string, text: Text) {
    && s.room.number == number
    && forall i, p :: 0 <= i < |s.bills| && p in s.bills[i].charged ==> p in Flat(s.orders) && NamesRoom(p, number, text)
  }

  /** A charge that a later stay's beginning does not shut out is on that stay's bill. */
  predicate ChargesAgain(bills: seq<Bill>) {
    forall i, j, p :: 0 <= i < j < |bills| && p in bills[i].charged && bills[j].since.Some? && p.createdAt >= bills[j].since.value ==>
      p in bills[j].charged
  }

  lemma {:induction false} MarkingKeepsOthers(orders: seq<seq<Payment>>, order: nat, index: nat, status: Status, p: Payment)
    requires order < |orders| && index < |orders[order]| && p in Flat(orders)
    requires p == orders[order][index] ==> p.status == status
    ensures p in Flat(Marked(orders, order, index, status))
  {
    var marked := Marked(orders, order, index, status);
    FlatHas(orders, p);
    FlatHas(marked, p);
    var i :| 0 <= i < |orders| && p in orders[i];
    var k :| 0 <= k < |orders[i]| && orders[i][k] == p;
    assert marked[i][k] == p;
  }

  lemma {:induction false} PlacingKeepsOthers(orders: seq<seq<Payment>>, order: nat, q: Payment, p: Payment)
    requires p in Flat(orders)
    ensures p in Flat(Placed(orders, order, q))
  {
    var placed := Placed(orders, order, q);
    FlatHas(orders, p);
    FlatHas(placed, p);
    var i :| 0 <= i < |orders| && p in orders[i];
    assert p in placed[i];
  }

  lemma {:induction false} ChargedIsInStay(s: State, i: nat, p: Payment)
    requires Inv(s, 0) && i < |s.bills| && p in s.bills[i].charged
    ensures InFinishedStay(p, s.bills)
  {
    assert BillDated(s.bills[i], s.clock) && InStay(p, s.bills[i]);
  }

  lemma {:induction false} MarkingKeepsCharged(s: State, r: Request, number: string, text: Text, i: nat, p: Payment)
    requires Inv(s, 0) && KeepsCharged(s, number, text) && Settled(s, r, number, text) && r.action.SetStatus?
    requires r.action.order < |s.orders| && r.action.index < |s.orders[r.action.order]|
    requires i < |s.bills| && p in s.bills[i].charged
    ensures p in Flat(Marked(s.orders, r.action.order, r.action.index, r.action.status))
  {
    ChargedIsInStay(s, i, p);
    MarkingKeepsOthers(s.orders, r.action.order, r.action.index, r.action.status, p);
  }

  lemma {:induction false} OldChargeStays(s: State, r: Request, number: string, text: Text, i: nat, p: Payment)
    requires Inv(s, 0) && KeepsCharged(s, number, text) && Settled(s, r, number, text)
    requires i < |s.bills| && p in s.bills[i].charged
    ensures p in Flat(Next(s, r, text).orders) && NamesRoom(p, number, text)
  {
    match r.action
    case Pay(order, kind, status, reference, amount) =>
      PlacingKeepsOthers(s.orders, order, Payment(s.paid, kind, status, reference, s.clock + r.after, amount), p);
    case SetStatus(order, index, status) =>
      if order < |s.orders| && index < |s.orders[order]| {
        MarkingKeepsCharged(s, r, number, text, i, p);
      }
    case _ =>
  }

  lemma {:induction false} NextKeepsCharged(s: State, r: Request, number: string, text: Text)
    requires Inv(s, 0) && KeepsCharged(s, number, text) && Settled(s, r, number, text)
    ensures KeepsCharged(Next(s, r, text), number, text)
  {
    var t := Next(s, r, text);
    forall i, p | 0 <= i < |t.bills| && p in t.bills[i].charged ensures p in Flat(t.orders) && NamesRoom(p, number, text) {
      if i < |s.bills| {
        assert t.bills[i] == s.bills[i];
        OldChargeStays(s, r, number, text, i, p);
      }
    }
  }

  lemma {:induction false} BillChargesAgain(s: State, b: Bill, number: string, text: Text, p: Payment)
    requires KeepsCharged(s, number, text) && s.room.occupied && b == BillFor(s.orders, s.room, b.until, text)
    requires exists i :: 0 <= i < |s.bills| && p in s.bills[i].charged
    requires b.since.Some? && p.createdAt >= b.since.value
    ensures p in b.charged
  {
    var i :| 0 <= i < |s.bills| && p in s.bills[i].charged;
    assert p in Flat(s.orders) && NamesRoom(p, number, text);
  }

  lemma {:induction false} NextChargesAgain(s: State, r: Request, number: string, text: Text)
    requires KeepsCharged(s, number, text) && ChargesAgain(s.bills)
    ensures ChargesAgain(Next(s, r, text).bills)
  {
    var bills := Next(s, r, text).bills;
    if |bills| > |s.bills| {
      var b := bills[|s.bills|];
      forall i, j, p | 0 <= i < j < |bills| && p in bills[i].charged && bills[j].since.Some? && p.createdAt >= bills[j].since.value
        ensures p in bills[j].charged
      {
        assert bills[i] == s.bills[i];
        if j == |s.bills| {
          BillChargesAgain(s, b, number, text, p);
        } else {
          assert bills[j] == s.bills[j];
        }
      }
    }
  }

  lemma {:induction false} RunChargesAgain(number: string, requests: seq<Request>, text: Text)
    requires SettledRun(number, requests, text)
    ensures var s := Run(Opened(number), requests, text); KeepsCharged(s, number, text) && ChargesAgain(s.bills)
    decreases |requests|
  {
    if requests != [] {
      var earlier := requests[..|requests| - 1];
      var s := Run(Opened(number), earlier, text);
      SettledPrefix(number, requests, text);
      RunChargesAgain(number, earlier, text);
      RunKeepsInv(Opened(number), earlier, text, 0);
      NextKeepsCharged(s, requests[|requests| - 1], number, text);
      NextChargesAgain(s, requests[|requests| - 1], number, text);
    }
  }

  lemma {:induction false} OnBothBills(bills: seq<Bill>, clock: int, i: nat, j: nat, p: Payment)
    requires BillsDated(bills, clock, 0) && i < j < |bills| && p in bills[i].charged && p in bills[j].charged
    ensures p.createdAt == bills[i].until && Some(p.createdAt) == bills[j].since
  {
    assert Before(bills[i], bills[j], 0) && BillDated(bills[i], clock) && BillDated(bills[j], clock);
  }

  /** On every run, whatever happens at one moment, only a payment made at the very
      moment when one stay ended and the other began can be on both bills. */
  lemma {:induction false} OnBothBillsAtOneMoment(number: string, requests: seq<Request>, text: Text, i: nat, j: nat, p: Payment)
    requires i < j < |Run(Opened(number), requests, text).bills|
    ensures var bills := Run(Opened(number), requests, text).bills;
            p in bills[i].charged && p in bills[j].charged ==>
              p.createdAt == bills[i].until && Some(p.createdAt) == bills[j].since
  {
    RunKeepsInv(Opened(number), requests, text, 0);
    var s := Run(Opened(number), requests, text);
    if p in s.bills[i].charged && p in s.bills[j].charged {
      OnBothBills(s.bills, s.clock, i, j, p);
    }
  }

  /** And without renumbering and later refunds each such payment is: a charge on one
      bill is on a later one if and only if it was made at the moment when the first
      stay ended and the other began. */
  lemma {:induction false} BilledTwiceExactly(number: string, requests: seq<Request>, text: Text, i: nat, j: nat, p: Payment)
    requires SettledRun(number, requests, text) && i < j < |Run(Opened(number), requests, text).bills|
    requires p in Run(Opened(number), requests, text).bills[i].charged
    ensures var bills := Run(Opened(number), requests, text).bills;
            p in bills[j].charged <==> p.createdAt == bills[i].until && Some(p.createdAt) == bills[j].since
  {
    OnBothBillsAtOneMoment(number, requests, text, i, j, p);
    RunChargesAgain(number, requests, text);
  }

  /** Five requests at one moment. */
  function SameMoment(guest: string, reference: string, amount: real): seq<Request> {
    [ Request(CheckIn(guest, 1), 0), Request(Pay(0, "ROOM_CHARGE", Completed, Some(reference), amount), 0),
      Request(CheckOut(2), 0), Request(CheckIn(guest, 3), 0), Request(CheckOut(4), 0) ]
  }

  lemma {:induction false} RunSnoc(s: State, requests: seq<Request>, n: nat, text: Text)
    requires n < |requests|
    ensures Run(s, requests[..n + 1], text) == Next(Run(s, requests[..n], text), requests[n], text)
  {
    assert requests[..n + 1][..n] == requests[..n];
  }

  lemma {:induction false} PaidAtCheckIn(number: string, guest: string, reference: string, amount: real, text: Text)
    requires Strip(guest, text) != ""
    ensures var p := Payment(0, "ROOM_CHARGE", Completed, Some(reference), 0, amount);
            var s := Run(Opened(number), SameMoment(guest, reference, amount)[..2], text);
            s == State(RoomState(number, true, true, Strip(guest, text), Some(0), 2), [[p]], [], 0, 1)
  {
    var requests, s := SameMoment(guest, reference, amount), Opened(number);
    RunSnoc(s, requests, 0, text);
    RunSnoc(s, requests, 1, text);
    assert Placed([], 0, Payment(0, "ROOM_CHARGE", Completed, Some(reference), 0, amount)) ==
           [[Payment(0, "ROOM_CHARGE", Completed, Some(reference), 0, amount)]];
  }

  lemma {:induction false} ChargesTheOne(p: Payment, room: RoomState, text: Text)
    requires room.since == Some(p.createdAt) && Charges(p, room.number, p.createdAt, text)
    ensures BillFor([[p]], room, p.createdAt, text) == Bill(room.guest, room.since, p.createdAt, [p], Total([p]))
  {
    assert Flat([[p]]) == [p] by {
      assert [[p]][1..] == [];
      assert [p] + Flat([]) == [p];
    }
    assert ChargesOf([p], room.number, p.createdAt, text) == [p] by {
      assert [p][1..] == [];
    }
  }

  /** It does happen: the second guest is billed for the first one's charge. */
  lemma {:induction false} SameMomentBillsTwice(number: string, guest: string, reference: string, amount: real, text: Text)
    requires Strip(guest, text) != "" && RoomToken(number, text) in ReferenceTokens(Some(reference), text)
    ensures var bills := Run(Opened(number), SameMoment(guest, reference, amount), text).bills;
            |bills| == 2 && |bills[0].charged| == 1 && bills[1].charged == bills[0].charged
  {
    var requests, s := SameMoment(guest, reference, amount), Opened(number);
    var p := Payment(0, "ROOM_CHARGE", Completed, Some(reference), 0, amount);
    PaidAtCheckIn(number, guest, reference, amount, text);
    ChargesTheOne(p, Run(s, requests[..2], text).room, text);
    RunSnoc(s, requests, 2, text);
    RunSnoc(s, requests, 3, text);
    ChargesTheOne(p, Run(s, requests[..4], text).room, text);
    RunSnoc(s, requests, 4, text);
    assert requests[..5] == requests;
  }
}

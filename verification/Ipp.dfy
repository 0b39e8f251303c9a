/** Reading the job state out of an IPP response, against the message grammar of
    sections 3.1 and 3.5.1 of RFC 8010. */
module Ipp {
  import opened Wrappers

  type Byte = x: int | 0 <= x < 256
  type Bytes = seq<Byte>

  const END_TAG: Byte := 0x03
  const FIRST_VALUE_TAG: Byte := 0x10
  const ENUM_TAG: Byte := 0x23
  // "job-state"
  const JOB_STATE: Bytes := [0x6a, 0x6f, 0x62, 0x2d, 0x73, 0x74, 0x61, 0x74, 0x65]
  const MAX_RESPONSE := 65536

  /** A big-endian unsigned number. */
  function Number(b: Bytes): nat {
    if b == [] then 0 else Number(b[..|b| - 1]) * 256 + b[|b| - 1]
  }

  function U16(b: Bytes, i: nat): nat
    requires i + 2 <= |b|
  {
    Number(b[i..i + 2])
  }

  /** Four bytes in two's complement. */
  function Signed(b: Bytes): int {
    if Number(b) >= 0x80000000 then Number(b) - 0x100000000 else Number(b)
  }

  function PutU16(n: nat): (b: Bytes)
    requires n < 65536
    ensures |b| == 2
  {
    [n / 256, n % 256]
  }

  lemma {:induction false} PutThenGet(n: nat)
    requires n < 65536
    ensures Number(PutU16(n)) == n
  {
    var b := PutU16(n);
    assert b[..1] == [b[0]] && b[..1][..0] == [];
    assert Number(b[..1]) == Number([]) * 256 + b[0];
  }

  predicate IsState(state: int) {
    3 <= state <= 9
  }

  function AsState(b: Bytes): Option<int> {
    if IsState(Signed(b)) then Some(Signed(b)) else None
  }

  // ----- the grammar -----

  datatype Value = Value(tag: Byte, bytes: Bytes)

  /** An attribute with one value or more; further values repeat it namelessly. */
  datatype Attribute = Attribute(name: Bytes, first: Value, more: seq<Value>)

  datatype Group = Group(tag: Byte, attributes: seq<Attribute>)

  predicate ValidValue(v: Value) {
    v.tag >= FIRST_VALUE_TAG && |v.bytes| < 65536
  }

  predicate ValidValues(vs: seq<Value>) {
    forall i :: 0 <= i < |vs| ==> ValidValue(vs[i])
  }

  predicate ValidAttribute(a: Attribute) {
    a.name != [] && |a.name| < 65536 && ValidValue(a.first) && ValidValues(a.more)
  }

  predicate ValidAttributes(xs: seq<Attribute>) {
    forall i :: 0 <= i < |xs| ==> ValidAttribute(xs[i])
  }

  predicate ValidGroup(g: Group) {
    g.tag < FIRST_VALUE_TAG && g.tag != END_TAG && ValidAttributes(g.attributes)
  }

  predicate ValidGroups(gs: seq<Group>) {
    forall i :: 0 <= i < |gs| ==> ValidGroup(gs[i])
  }

  /** The encoder of one attribute value, as requests are built with it. */
  function EncodeField(tag: Byte, name: Bytes, value: Bytes): Bytes
    requires |name| < 65536 && |value| < 65536
  {
    [tag] + PutU16(|name|) + name + PutU16(|value|) + value
  }

  function EncodeValues(vs: seq<Value>): Bytes
    requires ValidValues(vs)
  {
    if vs == [] then [] else EncodeField(vs[0].tag, [], vs[0].bytes) + EncodeValues(vs[1..])
  }

  function EncodeAttribute(a: Attribute): Bytes
    requires ValidAttribute(a)
  {
    EncodeField(a.first.tag, a.name, a.first.bytes) + EncodeValues(a.more)
  }

  function EncodeAttributes(xs: seq<Attribute>): Bytes
    requires ValidAttributes(xs)
  {
    if xs == [] then [] else EncodeAttribute(xs[0]) + EncodeAttributes(xs[1..])
  }

  function EncodeGroups(gs: seq<Group>): Bytes
    requires ValidGroups(gs)
  {
    if gs == [] then [] else [gs[0].tag] + EncodeAttributes(gs[0].attributes) + EncodeGroups(gs[1..])
  }

  /** Version, status and request id; groups; the end tag; any trailing data. */
  function EncodeResponse(header: Bytes, gs: seq<Group>, trailing: Bytes): Bytes
    requires |header| == 8 && ValidGroups(gs)
  {
    header + (EncodeGroups(gs) + ([END_TAG] + trailing))
  }

  // ----- what a response means -----

  predicate IsEnum(v: Value) {
    v.tag == ENUM_TAG && |v.bytes| == 4
  }

  function FirstEnum(vs: seq<Value>): (v: Option<Value>)
    ensures v.Some? ==> IsEnum(v.value)
  {
    if vs == [] then None else if IsEnum(vs[0]) then Some(vs[0]) else FirstEnum(vs[1..])
  }

  /** The first four-byte enum among the values of an attribute named job-state. */
  function FirstJobState(xs: seq<Attribute>): (v: Option<Value>)
    ensures v.Some? ==> IsEnum(v.value)
  {
    if xs == [] then None
    else
      var found := if xs[0].name == JOB_STATE then FirstEnum([xs[0].first] + xs[0].more) else None;
      if found.Some? then found else FirstJobState(xs[1..])
  }

  function JobStateOf(gs: seq<Group>): (v: Option<Value>)
    ensures v.Some? ==> IsEnum(v.value)
  {
    if gs == [] then None
    else
      var found := FirstJobState(gs[0].attributes);
      if found.Some? then found else JobStateOf(gs[1..])
  }

  function Judge(v: Option<Value>): Option<int> {
    if v.Some? then AsState(v.value.bytes) else None
  }

  // ----- the reader -----

  /** One turn of the reader's loop on the unread bytes: it stops, or goes on after
      `used` of them with the name then current. */
  datatype Turn = Stop(state: Option<int>) | More(used: nat, name: Bytes)

  /** The lengths of the name and value that follow a value tag, if all is there. */
  function Lengths(rest: Bytes): Option<(nat, nat)>
    requires rest != []
  {
    if |rest| < 3 || |rest| < 5 + Number(rest[1..3]) then None
    else
      var n := Number(rest[1..3]);
      var size := Number(rest[n + 3..n + 5]);
      if |rest| < n + 5 + size then None else Some((n, size))
  }

  function Take(rest: Bytes, name: Bytes): (t: Turn)
    requires rest != []
    ensures t.More? ==> 0 < t.used <= |rest|
  {
    if rest[0] == END_TAG then Stop(None)
    else if rest[0] < FIRST_VALUE_TAG then More(1, [])
    else
      match Lengths(rest)
      case None => Stop(None)
      case Some((n, size)) =>
        var current := if n > 0 then rest[3..3 + n] else name;
        if current == JOB_STATE && rest[0] == ENUM_TAG && size == 4
        then Stop(AsState(rest[n + 5..n + 9]))
        else More(n + 5 + size, current)
  }

  /** The reader's loop as a function of the unread bytes and the sticky name. */
  function Scan(rest: Bytes, name: Bytes): Option<int>
    decreases |rest|
  {
    if rest == [] then None
    else
      match Take(rest, name)
      case Stop(state) => state
      case More(used, current) => Scan(rest[used..], current)
  }

  function Parse(data: Bytes): Option<int> {
    if |data| < 9 || |data| > MAX_RESPONSE || U16(data, 2) > 0x00ff then None
    else Scan(data[8..], [])
  }

  /** The body of the loop: reads one tag and, for a value, its name and bytes. */
  method ReadTurn(data: Bytes, start: nat, name: Bytes) returns (t: Turn)
    requires start < |data|
    ensures t == Take(data[start..], name)
  {
    ghost var rest := data[start..];
    var offset := start;
    var tag := data[offset];
    offset := offset + 1;
    if tag == END_TAG {
      return Stop(None);
    }
    if tag < FIRST_VALUE_TAG {
      return More(1, []);
    }
    if offset + 2 > |data| {
      return Stop(None);
    }
    var nameSize := U16(data, offset);
    assert rest[1..3] == data[offset..offset + 2];
    offset := offset + 2;
    if offset + nameSize + 2 > |data| {
      return Stop(None);
    }
    var current := if nameSize > 0 then data[offset..offset + nameSize] else name;
    assert rest[3..3 + nameSize] == data[offset..offset + nameSize];
    offset := offset + nameSize;
    var valueSize := U16(data, offset);
    assert rest[nameSize + 3..nameSize + 5] == data[offset..offset + 2];
    offset := offset + 2;
    if offset + valueSize > |data| {
      return Stop(None);
    }
    if current == JOB_STATE && tag == ENUM_TAG && valueSize == 4 {
      assert rest[nameSize + 5..nameSize + 9] == data[offset..offset + 4];
      return Stop(AsState(data[offset..offset + 4]));
    }
    return More(offset + valueSize - start, current);
  }

  /** One turn, in terms of what is left to scan. */
  method NextTurn(data: Bytes, start: nat, name: Bytes, ghost meaning: Option<int>) returns (t: Turn)
    requires start < |data| && Means(data, start, name, meaning)
    ensures t.Stop? ==> t.state == meaning
    ensures t.More? ==> 0 < t.used <= |data| - start && Means(data, start + t.used, t.name, meaning)
  {
    t := ReadTurn(data, start, name);
    OneTurn(data, start, name, t, meaning);
  }

  lemma {:induction false} OneTurn(data: Bytes, start: nat, name: Bytes, t: Turn, meaning: Option<int>)
    requires start < |data| && Means(data, start, name, meaning) && t == Take(data[start..], name)
    ensures t.Stop? ==> t.state == meaning
    ensures t.More? ==> 0 < t.used <= |data| - start && Means(data, start + t.used, t.name, meaning)
  {
    if t.More? {
      assert data[start..][t.used..] == data[start + t.used..];
    }
  }

  lemma {:induction false} MeansNothingAtTheEnd(data: Bytes, name: Bytes, meaning: Option<int>)
    requires Means(data, |data|, name, meaning)
    ensures meaning == None
  {
    assert data[|data|..] == [];
  }

  /** Reading on from here gives this result. */
  predicate Means(data: Bytes, at: nat, name: Bytes, meaning: Option<int>)
    requires at <= |data|
  {
    Scan(data[at..], name) == meaning
  }

  /** The loop. */
  method ScanFrom(data: Bytes, start: nat, ghost meaning: Option<int>) returns (state: Option<int>)
    requires start <= |data| && Means(data, start, [], meaning)
    ensures state == meaning
  {
    var offset := start;
    var name: Bytes := [];
    while offset < |data|
      invariant start <= offset <= |data|
      invariant Means(data, offset, name, meaning)
    {
      var turn := NextTurn(data, offset, name, meaning);
      if turn.Stop? {
        return turn.state;
      }
      offset, name := offset + turn.used, turn.name;
    }
    MeansNothingAtTheEnd(data, name, meaning);
    return None;
  }

  /** `parseCupsJobState`; None is the thrown error. */
  method ParseCupsJobState(data: Bytes) returns (state: Option<int>)
    ensures state == Parse(data)
  {
    if |data| < 9 || |data| > MAX_RESPONSE || U16(data, 2) > 0x00ff {
      return None;
    }
    state := ScanFrom(data, 8, Parse(data));
  }

  // ----- reader against grammar -----

  lemma {:induction false} FieldParts(tag: Byte, name: Bytes, value: Bytes, rest: Bytes)
    requires |name| < 65536 && |value| < 65536
    ensures var all := EncodeField(tag, name, value) + rest;
            var n, size := |name|, |value|;
            && |all| == n + 5 + size + |rest| && all[0] == tag
            && all[1..3] == PutU16(n) && all[3..3 + n] == name
            && all[n + 3..n + 5] == PutU16(size) && all[n + 5..n + 5 + size] == value
            && all[n + 5 + size..] == rest
  {
  }

  lemma {:induction false} TakeField(tag: Byte, name: Bytes, value: Bytes, rest: Bytes, current: Bytes)
    requires tag >= FIRST_VALUE_TAG && |name| < 65536 && |value| < 65536
    ensures var now := if name != [] then name else current;
            Take(EncodeField(tag, name, value) + rest, current) ==
            if now == JOB_STATE && IsEnum(Value(tag, value)) then Stop(AsState(value))
            else More(|name| + 5 + |value|, now)
  {
    var all := EncodeField(tag, name, value) + rest;
    FieldParts(tag, name, value, rest);
    PutThenGet(|name|);
    PutThenGet(|value|);
    assert Lengths(all) == Some((|name|, |value|));
  }

  lemma {:induction false} ScanField(tag: Byte, name: Bytes, value: Bytes, rest: Bytes, current: Bytes)
    requires tag >= FIRST_VALUE_TAG && |name| < 65536 && |value| < 65536
    ensures var now := if name != [] then name else current;
            Scan(EncodeField(tag, name, value) + rest, current) ==
            if now == JOB_STATE && IsEnum(Value(tag, value)) then AsState(value) else Scan(rest, now)
  {
    FieldParts(tag, name, value, rest);
    TakeField(tag, name, value, rest, current);
  }

  lemma {:induction false} ScanValues(vs: seq<Value>, rest: Bytes, name: Bytes)
    requires ValidValues(vs)
    ensures Scan(EncodeValues(vs) + rest, name) ==
            if name == JOB_STATE && FirstEnum(vs).Some? then Judge(FirstEnum(vs)) else Scan(rest, name)
  {
    if vs == [] {
      assert EncodeValues(vs) + rest == rest;
    } else {
      var field := EncodeField(vs[0].tag, [], vs[0].bytes);
      assert EncodeValues(vs) + rest == field + (EncodeValues(vs[1..]) + rest);
      ScanField(vs[0].tag, [], vs[0].bytes, EncodeValues(vs[1..]) + rest, name);
      ScanValues(vs[1..], rest, name);
    }
  }

  lemma {:induction false} ScanAttribute(a: Attribute, rest: Bytes, name: Bytes)
    requires ValidAttribute(a)
    ensures Scan(EncodeAttribute(a) + rest, name) ==
            if a.name == JOB_STATE && FirstEnum([a.first] + a.more).Some?
            then Judge(FirstEnum([a.first] + a.more)) else Scan(rest, a.name)
  {
    var field := EncodeField(a.first.tag, a.name, a.first.bytes);
    assert EncodeAttribute(a) + rest == field + (EncodeValues(a.more) + rest);
    ScanField(a.first.tag, a.name, a.first.bytes, EncodeValues(a.more) + rest, name);
    ScanValues(a.more, rest, a.name);
    assert ([a.first] + a.more)[1..] == a.more;
  }

  /** The name the reader is left with after some attributes. */
  function LastName(xs: seq<Attribute>, name: Bytes): Bytes {
    if xs == [] then name else xs[|xs| - 1].name
  }

  lemma {:induction false} ScanAttributes(xs: seq<Attribute>, rest: Bytes, name: Bytes)
    requires ValidAttributes(xs)
    ensures Scan(EncodeAttributes(xs) + rest, name) ==
            if FirstJobState(xs).Some? then Judge(FirstJobState(xs)) else Scan(rest, LastName(xs, name))
  {
    if xs == [] {
      assert EncodeAttributes(xs) + rest == rest;
    } else {
      var tail := EncodeAttributes(xs[1..]) + rest;
      assert EncodeAttributes(xs) + rest == EncodeAttribute(xs[0]) + tail;
      ScanAttribute(xs[0], tail, name);
      ScanAttributes(xs[1..], rest, xs[0].name);
    }
  }

  /** At a group delimiter the reader forgets the name, whatever it was; at the end
      tag it gives up. */
  lemma {:induction false} ScanGroups(gs: seq<Group>, trailing: Bytes, name: Bytes)
    requires ValidGroups(gs)
    ensures Scan(EncodeGroups(gs) + ([END_TAG] + trailing), name) == Judge(JobStateOf(gs))
  {
    var end := [END_TAG] + trailing;
    if gs == [] {
      assert EncodeGroups(gs) + end == end;
    } else {
      var attributes := EncodeAttributes(gs[0].attributes);
      var tail := EncodeGroups(gs[1..]) + end;
      var all := EncodeGroups(gs) + end;
      assert all == [gs[0].tag] + (attributes + tail);
      assert all[1..] == attributes + tail;
      ScanAttributes(gs[0].attributes, tail, []);
      ScanGroups(gs[1..], trailing, LastName(gs[0].attributes, []));
    }
  }

  /** For every well-formed successful response that is not too long, the reader
      returns the first job-state enum when it is a job state, and fails otherwise. */
  lemma {:induction false} ParseReadsTheGrammar(header: Bytes, gs: seq<Group>, trailing: Bytes)
    requires |header| == 8 && ValidGroups(gs)
    requires U16(header, 2) <= 0x00ff
    requires |EncodeResponse(header, gs, trailing)| <= MAX_RESPONSE
    ensures Parse(EncodeResponse(header, gs, trailing)) == Judge(JobStateOf(gs))
  {
    var data := EncodeResponse(header, gs, trailing);
    assert data[8..] == EncodeGroups(gs) + ([END_TAG] + trailing);
    assert data[2..4] == header[2..4];
    ScanGroups(gs, trailing, []);
  }

  /** Spelt out for the shortest response there is: a status that is not an error, one
      group of job attributes, in it job-state as a four-byte enum, the end tag. The
      state is reported if it is 3 to 9. */
  lemma {:induction false} ShortestResponse(header: Bytes, state: Byte)
    requires |header| == 8 && header[2] == 0
    ensures var response := header + [0x02] + [0x23, 0, 9] + [0x6a, 0x6f, 0x62, 0x2d, 0x73, 0x74, 0x61, 0x74, 0x65]
                            + ([0, 4] + [0, 0, 0, state]) + [0x03];
            Parse(response) == if 3 <= state <= 9 then Some(state) else None
  {
    var bytes := [0, 0, 0, state];
    var attribute := Attribute([0x6a, 0x6f, 0x62, 0x2d, 0x73, 0x74, 0x61, 0x74, 0x65], Value(0x23, bytes), []);
    var gs := [Group(0x02, [attribute])];
    ShortestEncoding(header, attribute);
    SmallStatus(header);
    ParseReadsTheGrammar(header, gs, []);
    assert FirstJobState([attribute]) == Some(Value(0x23, bytes));
    SmallNumber(state);
  }

  lemma {:induction false} ShortestEncoding(header: Bytes, a: Attribute)
    requires |header| == 8 && ValidAttribute(a) && a.more == []
    requires a.first.tag == 0x23 && |a.name| == 9 && |a.first.bytes| == 4
    ensures ValidGroups([Group(0x02, [a])])
    ensures EncodeResponse(header, [Group(0x02, [a])], []) ==
            header + [0x02] + [0x23, 0, 9] + a.name + ([0, 4] + a.first.bytes) + [0x03]
  {
    var gs := [Group(0x02, [a])];
    assert ValidAttributes([a]) && ValidGroups(gs);
    OneAttribute(a);
    assert gs[1..] == [] && EncodeGroups(gs) == [0x02] + EncodeAttributes([a]) + [];
  }

  lemma {:induction false} OneAttribute(a: Attribute)
    requires ValidAttribute(a) && a.more == []
    ensures EncodeAttributes([a]) == [a.first.tag] + PutU16(|a.name|) + a.name + PutU16(|a.first.bytes|) + a.first.bytes
  {
    assert [a][1..] == [];
    assert EncodeAttributes([a]) == EncodeAttribute(a) + [];
  }

  lemma {:induction false} SmallStatus(header: Bytes)
    requires |header| == 8 && header[2] == 0
    ensures U16(header, 2) <= 0x00ff
  {
    var b := header[2..4];
    assert b[..1] == [b[0]] && b[..1][..0] == [];
    assert Number(b[..1]) == Number([]) * 256 + b[0];
  }

  lemma {:induction false} SmallNumber(state: Byte)
    ensures Signed([0, 0, 0, state]) == state
  {
    var b: Bytes := [0, 0, 0, state];
    assert b[..3][..2] == b[..2] && b[..2][..1] == b[..1] && b[..1][..0] == [];
    assert Number(b[..1]) == Number([]) * 256 + b[0];
    assert Number(b[..2]) == Number(b[..1]) * 256 + b[1];
    assert Number(b[..3]) == Number(b[..2]) * 256 + b[2];
  }

  lemma {:induction false} TakePrefix(rest: Bytes, k: nat, name: Bytes)
    requires 0 < k <= |rest|
    ensures Take(rest[..k], name) != Stop(None) ==> Take(rest, name) == Take(rest[..k], name)
  {
    var cut := rest[..k];
    if Lengths(cut).Some? {
      var (n, size) := Lengths(cut).value;
      assert cut[1..3] == rest[1..3];
      assert cut[n + 3..n + 5] == rest[n + 3..n + 5];
      assert cut[3..3 + n] == rest[3..3 + n];
      if size == 4 {
        assert cut[n + 5..n + 9] == rest[n + 5..n + 9];
      }
    }
  }

  lemma {:induction false} ScanPrefix(rest: Bytes, k: nat, name: Bytes)
    requires k <= |rest| && Scan(rest[..k], name).Some?
    ensures Scan(rest, name) == Scan(rest[..k], name)
    decreases |rest|
  {
    var cut := rest[..k];
    TakePrefix(rest, k, name);
    if Take(cut, name).More? {
      var More(used, current) := Take(cut, name);
      assert cut[used..] == rest[used..][..k - used];
      ScanPrefix(rest[used..], k - used, current);
    }
  }

  /** A cut-off response never reports a state the whole one would not. */
  lemma {:induction false} TruncationNeverInvents(data: Bytes, k: nat)
    requires k <= |data| <= MAX_RESPONSE && Parse(data[..k]).Some?
    ensures Parse(data) == Parse(data[..k])
  {
    assert data[..k][2..4] == data[2..4];
    assert data[..k][8..] == data[8..][..k - 8];
    ScanPrefix(data[8..], k - 8, []);
  }

  predicate SpeltAt(data: Bytes, p: nat, state: int) {
    2 <= p <= |data| - 4 && Number(data[p - 2..p]) == 4 && Signed(data[p..p + 4]) == state
  }

  lemma {:induction false} TakeIsGrounded(rest: Bytes, name: Bytes)
    requires rest != [] && Take(rest, name).Stop? && Take(rest, name).state.Some?
    ensures var state := Take(rest, name).state.value;
            IsState(state) && SpeltAt(rest, Number(rest[1..3]) + 5, state)
  {
  }

  lemma {:induction false} SpeltLater(rest: Bytes, used: nat, p: nat, state: int)
    requires used <= |rest| && SpeltAt(rest[used..], p, state)
    ensures SpeltAt(rest, used + p, state)
  {
    assert rest[used..][p - 2..p] == rest[used + p - 2..used + p];
    assert rest[used..][p..p + 4] == rest[used + p..used + p + 4];
  }

  /** Whatever the bytes, a reported state is a job state spelt out in them as a
      value of four bytes. */
  lemma {:induction false} ScanIsGrounded(rest: Bytes, name: Bytes)
    requires Scan(rest, name).Some?
    ensures IsState(Scan(rest, name).value)
    ensures exists p :: SpeltAt(rest, p, Scan(rest, name).value)
    decreases |rest|
  {
    var turn := Take(rest, name);
    if turn.Stop? {
      TakeIsGrounded(rest, name);
    } else {
      ScanIsGrounded(rest[turn.used..], turn.name);
      var p :| SpeltAt(rest[turn.used..], p, Scan(rest, name).value);
      SpeltLater(rest, turn.used, p, Scan(rest, name).value);
    }
  }

  /** On every byte string the reader returns a job state or throws. */
  lemma {:induction false} ParseIsGrounded(data: Bytes)
    requires Parse(data).Some?
    ensures IsState(Parse(data).value)
    ensures exists p :: SpeltAt(data, p, Parse(data).value)
  {
    ScanIsGrounded(data[8..], []);
    var p :| SpeltAt(data[8..], p, Parse(data).value);
    SpeltLater(data, 8, p, Parse(data).value);
  }
}

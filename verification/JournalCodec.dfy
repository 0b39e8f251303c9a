/** How the journal is written as JSON and how `load` reads it back. */
module JournalCodec {
  import opened Wrappers
  import opened PrintProtocol
  import opened JournalEntries

  datatype Json =
    | JNull
    | JBool(b: bool)
    | JNumber(n: real)
    | JString(s: string)
    | JArray(items: seq<Json>)
    | JObject(fields: map<string, Json>)

  function EncodeResult(r: Option<PrintResult>): Json {
    match r
    case None => JNull
    case Some(PrintResult(reference, printedAt, transport)) =>
      JObject(map[
        "externalReference" := JString(reference),
        "printedAt" := JString(printedAt),
        "transport" := JString(transport)])
  }

  function EncodeEntry(e: JournalEntry): Json {
    JObject(map[
      "jobId" := JString(e.jobId),
      "attemptCount" := JNumber(e.attemptCount as real),
      "printerCode" := JString(e.printerCode),
      "documentHash" := JString(e.documentHash),
      "state" := JString(if e.state == PRINTED then "PRINTED" else "DISPATCHING"),
      "result" := EncodeResult(e.result),
      "acknowledged" := JBool(e.acknowledged),
      "recordedAt" := JString(e.recordedAt)])
  }

  function EncodeEntries(es: Entries): seq<Json> {
    if es == [] then [] else EncodeEntries(es[..|es| - 1]) + [EncodeEntry(es[|es| - 1])]
  }

  function Encode(es: Entries): Json {
    JArray(EncodeEntries(es))
  }

  predicate IsString(o: map<string, Json>, key: string) {
    key in o && o[key].JString?
  }

  /** Sixty-four lower-case hexadecimal digits. */
  predicate IsDigest(s: string) {
    |s| == 64 && forall c <- s :: '0' <= c <= '9' || 'a' <= c <= 'f'
  }

  predicate IsTransport(s: string) {
    s in {"mock", "windows", "macos"}
  }

  function DecodeResult(o: map<string, Json>, p: Platform): Option<PrintResult> {
    if "result" !in o || !o["result"].JObject? then None
    else
      var r := o["result"].fields;
      if && IsString(r, "externalReference")
         && IsString(r, "printedAt") && p.isDate(r["printedAt"].s)
         && IsString(r, "transport") && IsTransport(r["transport"].s)
      then Some(PrintResult(r["externalReference"].s, r["printedAt"].s, r["transport"].s))
      else None
  }

  /** The fields every entry needs, whatever its state. */
  predicate HasCommonFields(o: map<string, Json>, p: Platform) {
    && IsString(o, "jobId") && o["jobId"].s != ""
    && "attemptCount" in o && o["attemptCount"].JNumber?
    && o["attemptCount"].n == o["attemptCount"].n.Floor as real
    && o["attemptCount"].n.Floor >= 1
    && IsString(o, "printerCode")
    && IsString(o, "documentHash") && IsDigest(o["documentHash"].s)
    && "acknowledged" in o && o["acknowledged"].JBool?
    && IsString(o, "recordedAt") && p.isDate(o["recordedAt"].s)
  }

  /** `asJournalEntry`: one stored record, or nothing if any part of it is off. */
  function DecodeEntry(v: Json, p: Platform): Option<JournalEntry> {
    if !v.JObject? then None
    else
      var o := v.fields;
      if !HasCommonFields(o, p) then None
      else
        var entry := (state: EntryState, result: Option<PrintResult>) => JournalEntry(
          o["jobId"].s, o["attemptCount"].n.Floor, o["printerCode"].s, o["documentHash"].s,
          state, result, o["acknowledged"].b, o["recordedAt"].s);
        var dispatching := "state" in o && o["state"] == JString("DISPATCHING");
        var result := DecodeResult(o, p);
        if !dispatching && result.None? then None
        // records from before the state field was introduced
        else if "state" !in o then Some(entry(PRINTED, result))
        else if dispatching && "result" in o && o["result"] == JNull then Some(entry(DISPATCHING, None))
        else if o["state"] == JString("PRINTED") then Some(entry(PRINTED, result))
        else None
  }

  /** The whole file or nothing: one bad or repeated record blocks it all. */
  function DecodeEntries(items: seq<Json>, p: Platform): Option<Entries> {
    if items == [] then Some([])
    else
      var init := DecodeEntries(items[..|items| - 1], p);
      var entry := DecodeEntry(items[|items| - 1], p);
      if init.None? || entry.None? || Find(init.value, entry.value.jobId).Some? then None
      else Some(init.value + [entry.value])
  }

  function Decode(v: Json, p: Platform): Option<Entries> {
    if v.JArray? then DecodeEntries(v.items, p) else None
  }

  /** What an entry must be like to survive being written and read. */
  predicate Storable(e: JournalEntry, p: Platform) {
    && e.jobId != ""
    && e.attemptCount >= 1
    && IsDigest(e.documentHash)
    && p.isDate(e.recordedAt)
    && (e.state == DISPATCHING ==> e.result.None?)
    && (e.state == PRINTED ==>
          e.result.Some? && p.isDate(e.result.value.printedAt) && IsTransport(e.result.value.transport))
  }

  lemma {:induction false} ResultRoundTrip(e: JournalEntry, p: Platform)
    ensures DecodeResult(EncodeEntry(e).fields, p) ==
            if e.result.Some? && p.isDate(e.result.value.printedAt) && IsTransport(e.result.value.transport)
            then e.result else None
  {
    if e.result.Some? {
      var PrintResult(reference, printedAt, transport) := e.result.value;
      assert EncodeEntry(e).fields["result"] == EncodeResult(Some(e.result.value));
    }
  }

  lemma {:induction false} CommonFieldsRoundTrip(e: JournalEntry, p: Platform)
    ensures HasCommonFields(EncodeEntry(e).fields, p) <==>
            e.jobId != "" && e.attemptCount >= 1 && IsDigest(e.documentHash) && p.isDate(e.recordedAt)
  {
    assert (e.attemptCount as real).Floor == e.attemptCount;
  }

  /** Reading a written entry gives it back, or nothing, and never a different one. */
  lemma {:induction false} EntryRoundTrip(e: JournalEntry, p: Platform)
    ensures DecodeEntry(EncodeEntry(e), p) == if Storable(e, p) then Some(e) else None
  {
    assert (e.attemptCount as real).Floor == e.attemptCount;
    ResultRoundTrip(e, p);
    CommonFieldsRoundTrip(e, p);
  }

  /** A record from before the state field was introduced reads as a print that was
      confirmed. */
  lemma {:induction false} OldRecordsArePrinted(e: JournalEntry, p: Platform)
    requires e.state == PRINTED && Storable(e, p)
    ensures DecodeEntry(JObject(EncodeEntry(e).fields - {"state"}), p) == Some(e)
  {
    var o, whole := EncodeEntry(e).fields - {"state"}, EncodeEntry(e).fields;
    assert forall key :: key != "state" ==> (key in o <==> key in whole);
    assert forall key :: key in o ==> o[key] == whole[key];
    assert (e.attemptCount as real).Floor == e.attemptCount;
    ResultRoundTrip(e, p);
    CommonFieldsRoundTrip(e, p);
    assert HasCommonFields(o, p);
    assert DecodeResult(o, p) == DecodeResult(whole, p);
  }

  // ----- which records are read at all -----

  predicate HasResult(o: map<string, Json>, p: Platform) {
    "result" in o && o["result"].JObject? &&
    var r := o["result"].fields;
    && "externalReference" in r && r["externalReference"].JString?
    && "printedAt" in r && r["printedAt"].JString? && p.isDate(r["printedAt"].s)
    && "transport" in r && r["transport"] in {JString("mock"), JString("windows"), JString("macos")}
  }

  predicate IsNumber(n: real, k: int) {
    n == k as real
  }

  lemma {:induction false} WholeNumber(n: real)
    ensures n == n.Floor as real && n.Floor >= 1 <==> exists k :: k >= 1 && IsNumber(n, k)
  {
    if n == n.Floor as real && n.Floor >= 1 {
      assert IsNumber(n, n.Floor);
    }
    if k :| k >= 1 && IsNumber(n, k) {
      assert (k as real).Floor == k;
    }
  }

  lemma {:induction false} DigestExactly(s: string)
    ensures IsDigest(s) <==> |s| == 64 && forall i :: 0 <= i < 64 ==> s[i] in "0123456789abcdef"
  {
    forall c <- s ensures c in "0123456789abcdef" <==> '0' <= c <= '9' || 'a' <= c <= 'f' {
      HexExactly(c);
    }
    assert forall i :: 0 <= i < |s| ==> s[i] in s;
  }

  lemma {:induction false} HexExactly(c: char)
    ensures c in "0123456789abcdef" <==> '0' <= c <= '9' || 'a' <= c <= 'f'
  {
    var hex := "0123456789abcdef";
    if '0' <= c <= '9' {
      assert hex[c as int - '0' as int] == c;
    } else if 'a' <= c <= 'f' {
      assert hex[10 + c as int - 'a' as int] == c;
    }
  }

  /** A record is read if and only if it has an id, a whole attempt number from one up,
      a printer, a digest of 64 hexadecimal digits, an acknowledgement and a date; and
      either says that it is only DISPATCHING and has no result, or is PRINTED, or says
      nothing, and has one. */
  lemma {:induction false} RecordsExactly(o: map<string, Json>, p: Platform)
    ensures DecodeEntry(JObject(o), p).Some? <==>
              && "jobId" in o && o["jobId"].JString? && o["jobId"].s != ""
              && "attemptCount" in o && o["attemptCount"].JNumber?
              && (exists k :: k >= 1 && IsNumber(o["attemptCount"].n, k))
              && "printerCode" in o && o["printerCode"].JString?
              && "documentHash" in o && o["documentHash"].JString? && |o["documentHash"].s| == 64
              && (forall i :: 0 <= i < 64 ==> o["documentHash"].s[i] in "0123456789abcdef")
              && "acknowledged" in o && o["acknowledged"].JBool?
              && "recordedAt" in o && o["recordedAt"].JString? && p.isDate(o["recordedAt"].s)
              && if "state" in o && o["state"] == JString("DISPATCHING") then "result" in o && o["result"] == JNull
                 else ("state" !in o || o["state"] == JString("PRINTED")) && HasResult(o, p)
  {
    if "documentHash" in o && o["documentHash"].JString? {
      DigestExactly(o["documentHash"].s);
    }
    if "attemptCount" in o && o["attemptCount"].JNumber? {
      WholeNumber(o["attemptCount"].n);
    }
    assert DecodeResult(o, p).Some? <==> HasResult(o, p);
  }

  // ----- the whole file -----

  /** The journal reads back exactly as written if and only if every entry can be
      stored and no job id occurs twice; otherwise loading refuses the file. */
  lemma {:induction false} JournalRoundTrip(es: Entries, p: Platform)
    ensures Decode(Encode(es), p) ==
            if (forall e <- es :: Storable(e, p)) && Distinct(es) then Some(es) else None
  {
    if es != [] {
      var init, last := es[..|es| - 1], es[|es| - 1];
      assert es == init + [last];
      JournalRoundTrip(init, p);
      EntryRoundTrip(last, p);
      DistinctSnoc(init, last);
      DecodeSnoc(EncodeEntries(init), EncodeEntry(last), p);
      assert (forall e <- es :: Storable(e, p)) <==> (forall e <- init :: Storable(e, p)) && Storable(last, p);
    }
  }

  lemma {:induction false} DecodeSnoc(items: seq<Json>, item: Json, p: Platform)
    ensures DecodeEntries(items + [item], p) ==
            var init, entry := DecodeEntries(items, p), DecodeEntry(item, p);
            if init.None? || entry.None? || Find(init.value, entry.value.jobId).Some? then None
            else Some(init.value + [entry.value])
  {
    assert (items + [item])[..|items|] == items;
  }

  /** Claims may carry attempt number 0; the record it leaves cannot be loaded. */
  lemma {:induction false} AttemptZeroBlocksLoading(es: Entries, e: JournalEntry, p: Platform)
    requires e in es && e.attemptCount == 0
    ensures Decode(Encode(es), p).None?
  {
    JournalRoundTrip(es, p);
  }

  /** Loading never drops evidence: an accepted file yields one entry per record,
      in order, each the reading of its record, with distinct job ids. */
  lemma {:induction false} LoadingKeepsEveryRecord(items: seq<Json>, p: Platform)
    requires DecodeEntries(items, p).Some?
    ensures var es := DecodeEntries(items, p).value;
            && |es| == |items|
            && (forall i :: 0 <= i < |es| ==> DecodeEntry(items[i], p) == Some(es[i]))
            && Distinct(es)
  {
    if items != [] {
      var init := items[..|items| - 1];
      LoadingKeepsEveryRecord(init, p);
      var before := DecodeEntries(init, p).value;
      var last := DecodeEntry(items[|items| - 1], p).value;
      FindMeansIn(before, last.jobId);
      forall i | 0 <= i < |items| - 1
        ensures DecodeEntry(items[i], p) == Some(before[i])
      {
        assert init[i] == items[i];
      }
    }
  }

  /** A refused prefix refuses the file. */
  lemma {:induction false} RefusalIsFinal(items: seq<Json>, n: nat, p: Platform)
    requires n <= |items| && DecodeEntries(items[..n], p).None?
    ensures DecodeEntries(items, p).None?
  {
    if n < |items| {
      assert items[..|items| - 1][..n] == items[..n];
      RefusalIsFinal(items[..|items| - 1], n, p);
    } else {
      assert items[..n] == items;
    }
  }
}

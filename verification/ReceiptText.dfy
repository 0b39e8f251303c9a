/** What a receipt says, read off the document's own fields: every heading, field,
    line and total with its value, in the order of the ticket. The renderer prints
    exactly this text, and all of it exactly when nothing is crowded out. */
module ReceiptText {
  import opened Wrappers
  import opened TextWrap
  import opened ReceiptDocument
  import opened Receipt
  import opened ReceiptPrint

  function Or(text: Option<string>, otherwise: string): string {
    match text
    case Some(s) => s
    case None => otherwise
  }

  predicate Filled(text: Option<string>) {
    text.Some? && text.value != ""
  }

  // ----- the kinds of ticket -----

  /** Bills and courier slips carry prices; a document that does not say what it is
      counts as a bill if it has totals or comes from the till without a station. */
  predicate PrintsPrices(job: Claim, locale: Locale) {
    match job.document.kind
    case Some(kind) => kind in {Bill, Courier}
    case None => job.document.totals.Some? || (job.preparationStationId.None? && locale.upper(job.document.stationName) == "KASA")
  }

  predicate IsCourierSlip(job: Claim) {
    job.document.kind == Some(Courier)
  }

  predicate IsKitchenTicket(job: Claim, locale: Locale) {
    match job.document.kind
    case Some(kind) => kind == Preparation
    case None => !PrintsPrices(job, locale) && !job.isTestPrint
  }

  lemma {:induction false} KindIs(job: Claim, locale: Locale)
    ensures KindOf(job, locale) in {Bill, Courier} <==> PrintsPrices(job, locale)
    ensures KindOf(job, locale) == Courier <==> IsCourierSlip(job)
    ensures KindOf(job, locale) == Preparation <==> IsKitchenTicket(job, locale)
  {
  }

  // ----- the head -----

  function Heading(shown: bool, text: string): string {
    if shown then Ink(text) else ""
  }

  function HeadText(job: Claim, locale: Locale): string {
    var doc, named := job.document, !IsKitchenTicket(job, locale);
    Heading(named && Filled(doc.businessName), locale.upper(Or(doc.businessName, "")))
    + Heading(named, locale.upper(doc.branchName))
    + Heading(true, locale.upper(doc.title))
    + Heading(job.isReprint, if job.copies > 1 then "KOPYA" else "TEKRAR YAZDIRILDI")
    + Heading(job.isTestPrint, "TEST ÇIKTISI")
  }

  lemma {:induction false} OneHeading(shown: bool, text: string)
    ensures InkOf(if shown then [text] else []) == Heading(shown, text)
  {
    if shown {
      InkOfOne(text);
    }
  }

  lemma {:induction false} FiveInks(a: seq<string>, b: seq<string>, c: seq<string>, d: seq<string>, e: seq<string>)
    ensures InkOf(a + b + c + d + e) == InkOf(a) + InkOf(b) + InkOf(c) + InkOf(d) + InkOf(e)
  {
    InkOfJoins(a + b + c + d, e);
    InkOfJoins(a + b + c, d);
    InkOfJoins(a + b, c);
    InkOfJoins(a, b);
  }

  lemma {:induction false} FiveHeadings(a: bool, ta: string, b: bool, tb: string, tc: string, d: bool, td: string, e: bool, te: string)
    ensures InkOf((if a then [ta] else []) + (if b then [tb] else []) + [tc] + (if d then [td] else []) + (if e then [te] else [])) ==
            Heading(a, ta) + Heading(b, tb) + Heading(true, tc) + Heading(d, td) + Heading(e, te)
  {
    FiveInks(if a then [ta] else [], if b then [tb] else [], [tc], if d then [td] else [], if e then [te] else []);
    OneHeading(a, ta);
    OneHeading(b, tb);
    InkOfOne(tc);
    OneHeading(d, td);
    OneHeading(e, te);
  }

  lemma {:induction false} HeadSays(job: Claim, locale: Locale)
    ensures InkOf(Headings(job, locale)) == HeadText(job, locale)
  {
    var doc, named := job.document, !IsKitchenTicket(job, locale);
    KindIs(job, locale);
    FiveHeadings(named && Filled(doc.businessName), locale.upper(Or(doc.businessName, "")), named, locale.upper(doc.branchName),
                 locale.upper(doc.title), job.isReprint, if job.copies > 1 then "KOPYA" else "TEKRAR YAZDIRILDI",
                 job.isTestPrint, "TEST ÇIKTISI");
  }

  // ----- the labelled fields -----

  /** The labelled values of a ticket, in order, and when each is shown. */
  function Facts(job: Claim, locale: Locale): seq<Field> {
    var doc, courier := job.document, IsCourierSlip(job);
    [ Field(!IsKitchenTicket(job, locale) && doc.receiptNumber.Some?, "FİŞ NO",
            if !IsKitchenTicket(job, locale) && doc.receiptNumber.Some? then locale.number(doc.receiptNumber.value) else ""),
      Field(true, "Sipariş No", doc.orderNumber),
      Field(Filled(doc.tableName), "Masa", Or(doc.tableName, "")),
      Field(!Filled(doc.tableName) && Filled(doc.orderLabel), "Sipariş", Or(doc.orderLabel, "")),
      Field(Filled(doc.sourceLabel) && (!Filled(doc.waiterName) || doc.sourceLabel.value !in {"GARSON", "KASA"}),
            "Kaynak", Or(doc.sourceLabel, "")),
      Field(Filled(doc.waiterName), Or(doc.staffLabel, "Garson"), Or(doc.waiterName, "")),
      Field(courier && Filled(doc.customerName), "Müşteri", Or(doc.customerName, "")),
      Field(courier && Filled(doc.customerPhone), "Telefon", Or(doc.customerPhone, "")),
      Field(courier && Filled(doc.deliveryAddress), "Adres", Or(doc.deliveryAddress, "")),
      Field(courier && Filled(doc.paymentLabel), "Ödeme", Or(doc.paymentLabel, "")),
      Field(true, "Tarih", locale.date(doc.submittedAt)),
      Field(true, "Saat", locale.time(doc.submittedAt)) ]
  }

  lemma {:induction false} FieldsSay(job: Claim, locale: Locale)
    ensures Fields(job, locale) == Facts(job, locale)
  {
    KindIs(job, locale);
  }

  // ----- the lines -----

  /** What the customer pays for a line: its total, else its unit price, else nothing;
      a line on the house says so. */
  function LineTotal(line: Line, currency: Option<string>, locale: Locale): string {
    if line.complimentary then "İKRAM"
    else
      locale.amount(
        match line.lineTotal
        case Some(total) => total
        case None => Or(line.unitPrice, "0"), currency)
  }

  function UnitPrice(line: Line, currency: Option<string>, locale: Locale): string {
    locale.amount(Or(line.unitPrice, "0"), currency)
  }

  lemma {:induction false} ItemSays(line: Line, currency: Option<string>, locale: Locale)
    ensures var item := ItemOf(line, currency, locale);
            && item.line == line && item.quantity == line.quantity
            && item.unit == UnitPrice(line, currency, locale) && item.total == LineTotal(line, currency, locale)
  {
  }

  function Longer(n: nat, text: string): nat {
    if |text| > n then |text| else n
  }

  function LongestQuantity(lines: seq<Line>): nat {
    if lines == [] then 4 else Longer(LongestQuantity(lines[1..]), lines[0].quantity)
  }

  function LongestTotal(lines: seq<Line>, currency: Option<string>, locale: Locale): nat {
    if lines == [] then 6 else Longer(LongestTotal(lines[1..], currency, locale), LineTotal(lines[0], currency, locale))
  }

  function LongestUnit(lines: seq<Line>, currency: Option<string>, locale: Locale): nat {
    if lines == [] then 5 else Longer(LongestUnit(lines[1..], currency, locale), UnitPrice(lines[0], currency, locale))
  }

  /** The columns left for the names beside the others. */
  function NameColumns(lines: seq<Line>, currency: Option<string>, width: nat, courier: bool, locale: Locale): int {
    width - (if LongestQuantity(lines) < 5 then LongestQuantity(lines) else 5) - LongestTotal(lines, currency, locale) - 2
    - if courier then LongestUnit(lines, currency, locale) + 1 else 0
  }

  lemma {:induction false} QuantitiesSay(lines: seq<Line>, currency: Option<string>, locale: Locale)
    ensures Widest(4, ItemsOf(lines, currency, locale), (item: Item) => item.quantity) == LongestQuantity(lines)
    decreases lines
  {
    if lines != [] {
      QuantitiesSay(lines[1..], currency, locale);
      assert ItemsOf(lines, currency, locale)[1..] == ItemsOf(lines[1..], currency, locale);
      ItemSays(lines[0], currency, locale);
    }
  }

  lemma {:induction false} TotalsOfLinesSay(lines: seq<Line>, currency: Option<string>, locale: Locale)
    ensures Widest(6, ItemsOf(lines, currency, locale), (item: Item) => item.total) == LongestTotal(lines, currency, locale)
    decreases lines
  {
    if lines != [] {
      TotalsOfLinesSay(lines[1..], currency, locale);
      assert ItemsOf(lines, currency, locale)[1..] == ItemsOf(lines[1..], currency, locale);
      ItemSays(lines[0], currency, locale);
    }
  }

  lemma {:induction false} UnitPricesSay(lines: seq<Line>, currency: Option<string>, locale: Locale)
    ensures Widest(5, ItemsOf(lines, currency, locale), (item: Item) => item.unit) == LongestUnit(lines, currency, locale)
    decreases lines
  {
    if lines != [] {
      UnitPricesSay(lines[1..], currency, locale);
      assert ItemsOf(lines, currency, locale)[1..] == ItemsOf(lines[1..], currency, locale);
      ItemSays(lines[0], currency, locale);
    }
  }

  /** The layout follows the widths: the table's name column is what the others leave. */
  lemma {:induction false} NameColumnsAre(lines: seq<Line>, currency: Option<string>, width: nat, courier: bool, locale: Locale)
    ensures TableFor(ItemsOf(lines, currency, locale), width, courier).name == NameColumns(lines, currency, width, courier, locale)
  {
    QuantitiesSay(lines, currency, locale);
    TotalsOfLinesSay(lines, currency, locale);
    UnitPricesSay(lines, currency, locale);
  }

  function WideLineText(line: Line, currency: Option<string>, courier: bool, columns: nat, locale: Locale): string
    requires columns >= 1
  {
    BannerInk(line, locale)
    + NameInk(Wrapped(line.name, columns),
              Ink(line.quantity) + (if courier then Ink(UnitPrice(line, currency, locale)) else "") + Ink(LineTotal(line, currency, locale)))
    + ExtrasInk(line)
  }

  function WideText(lines: seq<Line>, currency: Option<string>, courier: bool, columns: nat, locale: Locale): string
    requires columns >= 1
  {
    if lines == [] then ""
    else WideLineText(lines[0], currency, courier, columns, locale) + WideText(lines[1..], currency, courier, columns, locale)
  }

  function CompactLineText(line: Line, currency: Option<string>, courier: bool, width: nat, locale: Locale): string {
    BannerInk(line, locale)
    + (NameInk(NamesFor(line.name, line.quantity + "x", 6, width), Ink(line.quantity + "x"))
       + ((if courier then Ink("Birim" + ":") + Ink(UnitPrice(line, currency, locale)) else "")
          + (Ink("Toplam" + ":") + Ink(LineTotal(line, currency, locale)))))
    + ExtrasInk(line)
  }

  function CompactText(lines: seq<Line>, currency: Option<string>, courier: bool, width: nat, locale: Locale): string {
    if lines == [] then ""
    else CompactLineText(lines[0], currency, courier, width, locale) + CompactText(lines[1..], currency, courier, width, locale)
  }

  lemma {:induction false} ThreeAmounts(item: Item, courier: bool)
    ensures InkOf(Amounts(item.quantity, item, courier)) ==
            Ink(item.quantity) + (if courier then Ink(item.unit) else "") + Ink(item.total)
  {
    InkOfOne(item.quantity);
    InkOfOne(item.total);
    InkOfJoins([item.quantity] + (if courier then [item.unit] else []), [item.total]);
    if courier {
      InkOfOne(item.unit);
      InkOfJoins([item.quantity], [item.unit]);
    } else {
      assert [item.quantity] + [] == [item.quantity];
    }
  }

  lemma {:induction false} WideSays(lines: seq<Line>, currency: Option<string>, t: Table, locale: Locale)
    requires t.name >= 1
    ensures WideItemsInk(ItemsOf(lines, currency, locale), t, locale) == WideText(lines, currency, t.units, t.name, locale)
    decreases lines
  {
    if lines != [] {
      var items := ItemsOf(lines, currency, locale);
      WideSays(lines[1..], currency, t, locale);
      assert items[1..] == ItemsOf(lines[1..], currency, locale);
      ItemSays(lines[0], currency, locale);
      ThreeAmounts(items[0], t.units);
    }
  }

  lemma {:induction false} CompactItemSays(line: Line, currency: Option<string>, width: nat, courier: bool, locale: Locale)
    ensures var item := ItemOf(line, currency, locale);
            BannerInk(item.line, locale) + CompactInk(item, width, courier) + ExtrasInk(item.line) ==
            CompactLineText(line, currency, courier, width, locale)
  {
    ItemSays(line, currency, locale);
  }

  lemma {:induction false} CompactSays(lines: seq<Line>, currency: Option<string>, width: nat, courier: bool, locale: Locale)
    ensures CompactItemsInk(ItemsOf(lines, currency, locale), width, courier, locale) == CompactText(lines, currency, courier, width, locale)
    decreases lines
  {
    if lines != [] {
      CompactSays(lines[1..], currency, width, courier, locale);
      assert ItemsOf(lines, currency, locale)[1..] == ItemsOf(lines[1..], currency, locale);
      CompactItemSays(lines[0], currency, width, courier, locale);
    }
  }

  function LinesText(job: Claim, width: nat, locale: Locale): string {
    var doc, courier := job.document, IsCourierSlip(job);
    var columns := NameColumns(doc.lines, doc.currency, width, courier, locale);
    if !PrintsPrices(job, locale) then LinesInk(doc.lines, width, locale)
    else if columns < 6 then
      Ink("Ürün") + Ink("Adet") + CompactText(doc.lines, doc.currency, courier, width, locale) + Ink(Rule('-', width))
    else
      InkOf(["Ürün", "Adet"] + (if courier then ["Birim"] else []) + ["Toplam"])
      + WideText(doc.lines, doc.currency, courier, columns, locale) + Ink(Rule('-', width))
  }

  /** Nothing on a line is crowded out. */
  predicate LinesKept(job: Claim, width: nat, locale: Locale) {
    var doc := job.document;
    if !PrintsPrices(job, locale) then forall line <- doc.lines :: NameWhole(line.name, line.quantity + "x", 8, width)
    else if NameColumns(doc.lines, doc.currency, width, IsCourierSlip(job), locale) < 6
    then forall line <- doc.lines :: NameWhole(line.name, line.quantity + "x", 6, width)
    else forall line <- doc.lines :: QuantityWhole(line.quantity)
  }

  lemma {:induction false} LinesSay(job: Claim, width: nat, locale: Locale)
    ensures BodyInk(job, width, locale) == LinesText(job, width, locale)
  {
    var doc, courier := job.document, IsCourierSlip(job);
    KindIs(job, locale);
    if PrintsPrices(job, locale) {
      var t := TableFor(ItemsOf(doc.lines, doc.currency, locale), width, courier);
      NameColumnsAre(doc.lines, doc.currency, width, courier, locale);
      if t.name < 6 {
        CompactSays(doc.lines, doc.currency, width, courier, locale);
      } else {
        WideSays(doc.lines, doc.currency, t, locale);
      }
    }
  }

  lemma {:induction false} LinesKeptExactly(job: Claim, width: nat, locale: Locale)
    ensures BodyWhole(job, width, locale) <==> LinesKept(job, width, locale)
  {
    var doc, courier := job.document, IsCourierSlip(job);
    KindIs(job, locale);
    if PrintsPrices(job, locale) {
      var items := ItemsOf(doc.lines, doc.currency, locale);
      NameColumnsAre(doc.lines, doc.currency, width, courier, locale);
      assert forall i :: 0 <= i < |items| ==> items[i].quantity == doc.lines[i].quantity && items[i].line == doc.lines[i];
      ItemsMatch(items, doc.lines, width);
    }
  }

  lemma {:induction false} ItemsMatch(items: seq<Item>, lines: seq<Line>, width: nat)
    requires |items| == |lines|
    requires forall i :: 0 <= i < |items| ==> items[i].quantity == lines[i].quantity && items[i].line == lines[i]
    ensures CompactWhole(items, width) <==> forall line <- lines :: NameWhole(line.name, line.quantity + "x", 6, width)
    ensures WideWhole(items) <==> forall line <- lines :: QuantityWhole(line.quantity)
  {
    forall line <- lines ensures exists i :: 0 <= i < |items| && lines[i] == line && items[i] in items {
      var i :| 0 <= i < |lines| && lines[i] == line;
      assert items[i] in items;
    }
    forall item <- items ensures exists i :: 0 <= i < |lines| && items[i] == item && lines[i] in lines {
      var i :| 0 <= i < |items| && items[i] == item;
      assert lines[i] in lines;
    }
  }

  // ----- the totals -----

  /** The totals, in order, and when each is shown. */
  function TotalFacts(t: Totals, locale: Locale): seq<Field> {
    [ Field(t.subtotal.Some?, "Ara toplam", Or(t.subtotal, "")),
      Field(locale.positive(Or(t.discount, "0")), "İndirim", "-" + Or(t.discount, "")),
      Field(locale.positive(Or(t.tax, "0")), "Vergi", Or(t.tax, "")),
      Field(locale.positive(Or(t.serviceCharge, "0")), "Servis ücreti", Or(t.serviceCharge, "")),
      Field(locale.positive(Or(t.coverCharge, "0")), "Kuver ücreti", Or(t.coverCharge, "")),
      Field(true, "GENEL TOPLAM", t.total),
      Field(t.paid.Some? && locale.positive(t.paid.value), "Ödenen", Or(t.paid, "")),
      Field(t.remaining.Some?, "Kalan", Or(t.remaining, "")) ]
  }

  lemma {:induction false} TotalsSay(t: Totals, locale: Locale)
    ensures TotalFields(t, locale) == TotalFacts(t, locale)
  {
  }

  /** No amount crowds out its label. */
  predicate TotalsKept(t: Totals, currency: Option<string>, width: nat, locale: Locale) {
    forall f <- TotalFacts(t, locale) :: f.shown ==> Blank(Lost(locale.upper(f.name), locale.amount(f.value, currency), width))
  }

  function TotalsText(doc: Document, width: nat, locale: Locale): string {
    if doc.totals.None? then "" else Ink(Rule('-', width)) + AmountLinesInk(TotalFacts(doc.totals.value, locale), doc.currency, locale)
  }

  // ----- the footer -----

  lemma {:induction false} FirstColon(line: string, i: nat)
    requires i < |line| && line[i] == ':' && ':' !in line[..i]
    ensures IndexOf(line, ':') == i
  {
    if i > 0 {
      assert line[0] == line[..i][0];
      assert line[1..][..i - 1] == line[..i][1..];
      FirstColon(line[1..], i - 1);
    }
  }

  lemma {:induction false} NoColon(line: string)
    requires ':' !in line
    ensures IndexOf(line, ':') == -1
  {
  }

  predicate AllWhite(s: string) {
    forall c <- s :: IsWhite(c)
  }

  /** Trimming takes white space off both ends and nothing else, until none is left. */
  lemma {:induction false} TrimmedIs(s: string) returns (before: string, after: string)
    ensures s == before + Trimmed(s) + after && AllWhite(before) && AllWhite(after)
    ensures var t := Trimmed(s); t != "" ==> !IsWhite(t[0]) && !IsWhite(t[|t| - 1])
    decreases |s|
  {
    before, after := "", "";
    if s != "" && IsWhite(s[0]) {
      before, after := TrimmedIs(s[1..]);
      before := [s[0]] + before;
      assert s == [s[0]] + s[1..];
    } else if s != "" && IsWhite(s[|s| - 1]) {
      before, after := TrimmedIs(s[..|s| - 1]);
      after := after + [s[|s| - 1]];
      assert s == s[..|s| - 1] + [s[|s| - 1]];
    }
  }

  /** A footer line is split at its first colon: what is before is the label, in upper
      case, what is after the value; without a colon or a value it stands as it is. */
  lemma {:induction false} FooterLineSays(line: string, locale: Locale, i: nat)
    requires i <= |line| && ':' !in line[..i] && (i < |line| ==> line[i] == ':')
    ensures FooterLineInk(line, locale) ==
            if i == |line| || Trimmed(line[i + 1..]) == "" then Ink(line)
            else Ink(locale.upper(Trimmed(line[..i]))) + Ink(Trimmed(line[i + 1..]))
  {
    if i == |line| {
      assert line[..i] == line;
      NoColon(line);
    } else {
      FirstColon(line, i);
    }
  }

  // ----- the whole document -----

  function DocumentText(job: Claim, width: nat, locale: Locale): string {
    var heavy, rule := Ink(Rule('=', width)), Ink(Rule('-', width));
    (heavy + HeadText(job, locale) + heavy + FieldInk(Facts(job, locale)) + rule)
    + LinesText(job, width, locale) + TotalsText(job.document, width, locale)
    + EndInk(job.document, width, locale)
  }

  /** A receipt prints the document's text, in order and with nothing added, if and only
      if no quantity crowds out its dish, no quantity of the wide table goes on past five
      characters, and no total crowds out its label. */
  lemma {:induction false} ReceiptSaysEverything(job: Claim, width: nat, locale: Locale)
    requires width >= 9
    ensures InkOf(Receipt.Receipt(job, width, locale)) == DocumentText(job, width, locale) <==>
            && LinesKept(job, width, locale)
            && (job.document.totals.Some? ==> TotalsKept(job.document.totals.value, job.document.currency, width, locale))
  {
    var doc := job.document;
    HeadSays(job, locale);
    FieldsSay(job, locale);
    LinesSay(job, width, locale);
    LinesKeptExactly(job, width, locale);
    if doc.totals.Some? {
      TotalsSay(doc.totals.value, locale);
    }
    ReceiptPrintsEverything(job, width, locale);
  }

  // ----- single rows -----

  predicate EndsIn(row: string, text: string) {
    |text| <= |row| && row[|row| - |text|..] == text
  }

  lemma {:induction false} EndsInRight(left: string, right: string, width: nat)
    ensures |TwoColumns(left, right, width)| == width
    ensures EndsIn(TwoColumns(left, right, width), right) <==> |right| <= width
  {
    if |right| == width {
      assert right[..width] == right;
    }
  }

  /** The row of a total, ending in the whole amount exactly when it is not wider than
      the paper. */
  ghost predicate HasTotal(job: Claim, width: nat, locale: Locale, name: string, value: string)
    requires width >= 1
  {
    var amount := locale.amount(value, job.document.currency);
    var row := TwoColumns(locale.upper(name), amount, width);
    row in Receipt.Receipt(job, width, locale) && |row| == width && (EndsIn(row, amount) <==> |amount| <= width)
  }

  lemma {:induction false} ShownTotalHasRow(job: Claim, width: nat, locale: Locale, i: nat)
    requires width >= 1 && job.document.totals.Some? && i < 8 && TotalFields(job.document.totals.value, locale)[i].shown
    ensures var f := TotalFields(job.document.totals.value, locale)[i];
            HasTotal(job, width, locale, f.name, f.value)
  {
    var doc := job.document;
    var fields := TotalFields(doc.totals.value, locale);
    var row := TotalLine(fields[i], doc.currency, width, locale);
    ShownAmountIsPrinted(fields, i, doc.currency, width, locale);
    assert row in TotalRows(doc, width, locale);
    InReceipt(row, job, width, locale);
    EndsInRight(locale.upper(fields[i].name), locale.amount(fields[i].value, doc.currency), width);
  }

  /** Every total that is shown has its row, under its label. */
  lemma {:induction false} TotalsHaveRows(job: Claim, width: nat, locale: Locale)
    requires width >= 1 && job.document.totals.Some?
    ensures var t := job.document.totals.value;
            && (t.subtotal.Some? ==> HasTotal(job, width, locale, "Ara toplam", t.subtotal.value))
            && (locale.positive(Or(t.discount, "0")) ==> HasTotal(job, width, locale, "İndirim", "-" + Or(t.discount, "")))
            && (locale.positive(Or(t.tax, "0")) ==> HasTotal(job, width, locale, "Vergi", Or(t.tax, "")))
            && (locale.positive(Or(t.serviceCharge, "0")) ==> HasTotal(job, width, locale, "Servis ücreti", Or(t.serviceCharge, "")))
            && (locale.positive(Or(t.coverCharge, "0")) ==> HasTotal(job, width, locale, "Kuver ücreti", Or(t.coverCharge, "")))
            && HasTotal(job, width, locale, "GENEL TOPLAM", t.total)
            && (t.paid.Some? && locale.positive(t.paid.value) ==> HasTotal(job, width, locale, "Ödenen", t.paid.value))
            && (t.remaining.Some? ==> HasTotal(job, width, locale, "Kalan", t.remaining.value))
  {
    var t := job.document.totals.value;
    TotalsSay(t, locale);
    forall i: nat | i < 8 && TotalFields(t, locale)[i].shown
      ensures HasTotal(job, width, locale, TotalFields(t, locale)[i].name, TotalFields(t, locale)[i].value)
    {
      ShownTotalHasRow(job, width, locale, i);
    }
    var fields := TotalFields(t, locale);
    assert fields[0].name == "Ara toplam" && fields[1].name == "İndirim" && fields[2].name == "Vergi" && fields[3].name == "Servis ücreti";
    assert fields[4].name == "Kuver ücreti" && fields[5].name == "GENEL TOPLAM" && fields[6].name == "Ödenen" && fields[7].name == "Kalan";
  }

  /** In the wide table the first row of a line ends in what the customer pays for it,
      and prints its name's first words, its quantity if that is short enough, and on
      courier slips its unit price before that. */
  lemma {:induction false} LinesHaveRows(job: Claim, width: nat, locale: Locale, k: nat) returns (row: string)
    requires PrintsPrices(job, locale) && k < |job.document.lines|
    requires NameColumns(job.document.lines, job.document.currency, width, IsCourierSlip(job), locale) >= 6
    ensures width >= 1 && row in Receipt.Receipt(job, width, locale) && |row| == width
    ensures var doc, line := job.document, job.document.lines[k];
            var columns := NameColumns(doc.lines, doc.currency, width, IsCourierSlip(job), locale);
            && EndsIn(row, LineTotal(line, doc.currency, locale))
            && (|line.quantity| <= 5 ==>
                  Ink(row) == Ink(Wrapped(line.name, columns)[0]) + Ink(line.quantity)
                            + (if IsCourierSlip(job) then Ink(UnitPrice(line, doc.currency, locale)) else "")
                            + Ink(LineTotal(line, doc.currency, locale)))
  {
    var doc, courier := job.document, IsCourierSlip(job);
    var items := ItemsOf(doc.lines, doc.currency, locale);
    NameColumnsAre(doc.lines, doc.currency, width, courier, locale);
    ItemSays(doc.lines[k], doc.currency, locale);
    KindIs(job, locale);
    var t := TableFor(items, width, courier);
    row := FirstRow(items[k], t);
    FirstRowSays(items, k, t, width);
    FirstRowIsPrinted(items, k, t, width, locale);
    InBody(row, job, width, locale);
  }

  /** The row that carries an item's amounts. */
  function FirstRow(item: Item, t: Table): string
    requires t.name >= 1
  {
    Row(t, Wrapped(item.line.name, t.name)[0], item.quantity, item.unit, item.total)
  }

  lemma {:induction false} FirstRowSays(items: seq<Item>, k: nat, t: Table, width: nat)
    requires k < |items| && t == TableFor(items, width, t.units) && t.name >= 1
    ensures var item, row := items[k], FirstRow(items[k], t);
            && |row| == width && EndsIn(row, item.total)
            && (|item.quantity| <= 5 ==>
                  Ink(row) == Ink(Wrapped(item.line.name, t.name)[0]) + Ink(item.quantity)
                            + (if t.units then Ink(item.unit) else "") + Ink(item.total))
  {
    var item, name := items[k], Wrapped(items[k].line.name, t.name)[0];
    TableRowsAreExact(items, width, t.units, name, item.quantity, item.unit, item.total);
    RowEndsInTotal(t, name, item.quantity, item.unit, item.total);
    FirstRowInk(items, k, t, width);
  }

  lemma {:induction false} FirstRowInk(items: seq<Item>, k: nat, t: Table, width: nat)
    requires k < |items| && t == TableFor(items, width, t.units) && t.name >= 1
    ensures var item := items[k];
            |item.quantity| <= 5 ==>
              Ink(FirstRow(item, t)) == Ink(Wrapped(item.line.name, t.name)[0]) + Ink(item.quantity)
                                      + (if t.units then Ink(item.unit) else "") + Ink(item.total)
  {
    var item, name := items[k], Wrapped(items[k].line.name, t.name)[0];
    if |item.quantity| <= 5 {
      WrapFits(item.line.name, t.name);
      WideRowPrints(items, width, t.units, k, name);
      InkOfOne(FirstRow(item, t));
      ThreeAmounts(item, t.units);
      Associate(Ink(name), Ink(item.quantity) + (if t.units then Ink(item.unit) else ""), Ink(item.total));
      Associate(Ink(name), Ink(item.quantity), if t.units then Ink(item.unit) else "");
    }
  }

  lemma {:induction false} RowEndsInTotal(t: Table, name: string, quantity: string, unit: string, total: string)
    requires t.name >= 0 && |total| <= t.total
    ensures EndsIn(Row(t, name, quantity, unit, total), total)
  {
    var cells := [Cell(quantity, t.quantity)] + (if t.units then [Cell(unit, t.unit)] else []) + [Cell(total, t.total)];
    RightmostCell(cells[..|cells| - 1], Cell(total, t.total));
    assert cells == cells[..|cells| - 1] + [Cell(total, t.total)];
  }

  lemma {:induction false} RightmostCell(cells: seq<Cell>, last: Cell)
    requires |last.value| <= last.width
    ensures EndsIn(RightCells(cells + [last]), last.value)
    decreases cells
  {
    if cells == [] {
      assert [] + [last] == [last] && [last][1..] == [];
      assert RightCells([last]) == " " + PadStart(last) + "";
    } else {
      assert (cells + [last])[1..] == cells[1..] + [last];
      RightmostCell(cells[1..], last);
    }
  }

  lemma {:induction false} FirstRowIsItsOwn(item: Item, t: Table, width: nat, locale: Locale)
    requires t.name >= 1 && width >= 1
    ensures FirstRow(item, t) in WideRows(item, t, width, locale)
  {
    assert FirstRow(item, t) == WideNameRows(item, t)[0];
    assert FirstRow(item, t) in AdjustmentRows(item.line, width, locale) + WideNameRows(item, t);
  }

  lemma {:induction false} FirstRowIsPrinted(items: seq<Item>, k: nat, t: Table, width: nat, locale: Locale)
    requires k < |items| && t.name >= 1 && width >= 1
    ensures FirstRow(items[k], t) in AllWideRows(items, t, width, locale)
    decreases items
  {
    if k == 0 {
      FirstRowIsItsOwn(items[0], t, width, locale);
    } else {
      FirstRowIsPrinted(items[1..], k - 1, t, width, locale);
    }
  }

  lemma {:induction false} InBody(row: string, job: Claim, width: nat, locale: Locale)
    requires width >= 1 && KindOf(job, locale) in {Bill, Courier}
    requires var items := ItemsOf(job.document.lines, job.document.currency, locale);
             var t := TableFor(items, width, KindOf(job, locale) == Courier);
             t.name >= 6 && row in AllWideRows(items, t, width, locale)
    ensures row in Receipt.Receipt(job, width, locale)
  {
    assert row in TableRows(job.document.lines, job.document.currency, width, KindOf(job, locale) == Courier, locale);
    assert row in BodyRows(job, width, locale);
    assert row in TopRows(job, width, locale) + BodyRows(job, width, locale);
  }
}

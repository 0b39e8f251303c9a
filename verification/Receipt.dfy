/** The receipt layout for the text spooler, and how wide its rows are; what they
    print is in ReceiptPrint.dfy. Turkish upper-casing, amounts, dates and the
    reading of numbers are parameters. */
module Receipt {
  import opened Wrappers
  import opened TextWrap
  import opened ReceiptDocument

  datatype Locale = Locale(
    upper: string -> string, amount: (string, Option<string>) -> string, date: string -> string,
    time: string -> string, number: real -> string, positive: string -> bool)

  datatype Claim = Claim(
    document: Document, preparationStationId: Option<string>, copies: nat, isReprint: bool, isTestPrint: bool)

  /** An absent string and an empty one are treated alike where truth is tested. */
  function Given(s: Option<string>): string {
    if s.Some? then s.value else ""
  }

  function KindOf(job: Claim, locale: Locale): Kind {
    var doc := job.document;
    if doc.kind.Some? then doc.kind.value
    else if doc.totals.Some? || (job.preparationStationId == None && locale.upper(doc.stationName) == "KASA") then Bill
    else if job.isTestPrint then Test
    else Preparation
  }

  // ----- one order line -----

  function AdjustmentRows(line: Line, width: nat, locale: Locale): seq<string>
    requires width >= 1
  {
    if Given(line.adjustmentLabel) == "" then []
    else Center("*** " + locale.upper(line.adjustmentLabel.value) + " ***", width)
  }

  function ModifierRows(modifiers: seq<string>, width: nat): seq<string>
    requires width >= 1
  {
    if modifiers == [] then [] else Wrapped("  + " + modifiers[0], width) + ModifierRows(modifiers[1..], width)
  }

  function Modifiers(line: Line): seq<string> {
    if line.modifiers.Some? then line.modifiers.value else []
  }

  function NoteRows(line: Line, width: nat): seq<string>
    requires width >= 1
  {
    if Given(line.note) == "" then [] else Wrapped("  Açıklama: " + line.note.value, width)
  }

  function Extras(line: Line, width: nat): seq<string>
    requires width >= 1
  {
    ModifierRows(Modifiers(line), width) + NoteRows(line, width)
  }

  function AtLeast(low: nat, n: int): nat {
    if n < low then low else n
  }

  /** The adjustment banner above a line's rows, modifiers and note below them. */
  function Framed(line: Line, rows: seq<string>, width: nat, locale: Locale): seq<string>
    requires width >= 1
  {
    AdjustmentRows(line, width, locale) + rows + Extras(line, width)
  }

  /** The wrapped name, its first row carrying the quantity. */
  function NameRows(name: string, quantity: string, low: nat, width: nat): seq<string>
    requires width >= 1 && low >= 1
  {
    var names := Wrapped(name, AtLeast(low, width - |quantity| - 1));
    [TwoColumns(names[0], quantity, width)] + names[1..]
  }

  function PreparationRows(line: Line, width: nat, locale: Locale): seq<string>
    requires width >= 1
  {
    Framed(line, NameRows(line.name, line.quantity + "x", 8, width), width, locale)
  }

  /** Extends rows by a block in front of what is still to come. */
  lemma {:induction false} Push(out: seq<string>, rows: seq<string>, rest: seq<string>)
    ensures (out + rows) + rest == out + (rows + rest)
  {
  }

  /** The two loops that every layout ends a line with. */
  method ExtraLines(line: Line, width: nat) returns (out: seq<string>)
    requires width >= 1
    ensures out == Extras(line, width)
  {
    var modifiers := Modifiers(line);
    out := [];
    for i := 0 to |modifiers|
      invariant out + ModifierRows(modifiers[i..], width) == ModifierRows(modifiers, width)
    {
      var rows := Wrap("  + " + modifiers[i], width);
      assert modifiers[i..][1..] == modifiers[i + 1..];
      Push(out, rows, ModifierRows(modifiers[i + 1..], width));
      out := out + rows;
    }
    assert out + [] == ModifierRows(modifiers, width);
    if Given(line.note) != "" {
      var rows := Wrap("  Açıklama: " + line.note.value, width);
      out := out + rows;
    }
  }

  method NameLines(name: string, quantity: string, low: nat, width: nat) returns (out: seq<string>)
    requires width >= 1 && low >= 1
    ensures out == NameRows(name, quantity, low, width)
  {
    var names := Wrap(name, AtLeast(low, width - |quantity| - 1));
    out := [TwoColumns(names[0], quantity, width)];
    for j := 1 to |names|
      invariant out == [TwoColumns(names[0], quantity, width)] + names[1..j]
    {
      out := out + [names[j]];
    }
  }

  /** `preparationLine` */
  method PreparationLine(line: Line, width: nat, locale: Locale) returns (out: seq<string>)
    requires width >= 1
    ensures out == PreparationRows(line, width, locale)
  {
    var names := NameLines(line.name, line.quantity + "x", 8, width);
    var extras := ExtraLines(line, width);
    out := AdjustmentRows(line, width, locale) + names + extras;
  }

  function AllPreparationRows(lines: seq<Line>, width: nat, locale: Locale): seq<string>
    requires width >= 1
  {
    if lines == [] then [] else PreparationRows(lines[0], width, locale) + AllPreparationRows(lines[1..], width, locale)
  }

  method PreparationLines(lines: seq<Line>, width: nat, locale: Locale) returns (out: seq<string>)
    requires width >= 1
    ensures out == AllPreparationRows(lines, width, locale)
  {
    out := [];
    for i := 0 to |lines|
      invariant out + AllPreparationRows(lines[i..], width, locale) == AllPreparationRows(lines, width, locale)
    {
      var rows := PreparationLine(lines[i], width, locale);
      assert lines[i..][1..] == lines[i + 1..];
      Push(out, rows, AllPreparationRows(lines[i + 1..], width, locale));
      out := out + rows;
    }
    assert out + [] == AllPreparationRows(lines, width, locale);
  }

  // ----- the priced tables -----

  datatype Item = Item(line: Line, quantity: string, unit: string, total: string)

  function ItemOf(line: Line, currency: Option<string>, locale: Locale): Item {
    var unitPrice := if line.unitPrice.Some? then line.unitPrice.value else "0";
    var lineTotal := if line.lineTotal.Some? then line.lineTotal.value else unitPrice;
    Item(line, line.quantity, locale.amount(unitPrice, currency),
         if line.complimentary then "İKRAM" else locale.amount(lineTotal, currency))
  }

  function ItemsOf(lines: seq<Line>, currency: Option<string>, locale: Locale): (items: seq<Item>)
    ensures |items| == |lines| && forall i :: 0 <= i < |lines| ==> items[i] == ItemOf(lines[i], currency, locale)
  {
    seq(|lines|, i requires 0 <= i < |lines| => ItemOf(lines[i], currency, locale))
  }

  /** The longest of some texts, or the floor. */
  function Widest(low: nat, items: seq<Item>, text: Item -> string): (n: nat)
    ensures n >= low && forall i :: 0 <= i < |items| ==> |text(items[i])| <= n
    ensures n == low || exists i :: 0 <= i < |items| && |text(items[i])| == n
  {
    if items == [] then low
    else
      var rest := Widest(low, items[1..], text);
      assert forall i :: 1 <= i < |items| ==> items[i] == items[1..][i - 1];
      assert forall i :: 0 <= i < |items[1..]| ==> items[1..][i] == items[i + 1];
      AtLeast(rest, |text(items[0])|)
  }

  datatype Table = Table(name: int, quantity: nat, unit: nat, total: nat, units: bool)

  function TableFor(items: seq<Item>, width: nat, units: bool): (t: Table)
    ensures t.units == units && t.quantity <= 5
    ensures t.name + t.quantity + t.total + 2 + (if units then t.unit + 1 else 0) == width
    ensures forall i :: 0 <= i < |items| ==> |items[i].total| <= t.total && (units ==> |items[i].unit| <= t.unit)
    ensures forall i :: 0 <= i < |items| ==> (|items[i].quantity| <= t.quantity <==> |items[i].quantity| <= 5)
  {
    var longest := Widest(4, items, (item: Item) => item.quantity);
    var quantity := if longest < 5 then longest else 5;
    var total := Widest(6, items, (item: Item) => item.total);
    var unit := if units then Widest(5, items, (item: Item) => item.unit) else 0;
    Table(width - quantity - total - 2 - (if units then unit + 1 else 0), quantity, unit, total, units)
  }

  function Row(t: Table, name: string, quantity: string, unit: string, total: string): string
    requires t.name >= 0
  {
    Columns(Cell(name, t.name),
            [Cell(quantity, t.quantity)] + (if t.units then [Cell(unit, t.unit)] else []) + [Cell(total, t.total)])
  }

  function WideNameRows(item: Item, t: Table): seq<string>
    requires t.name >= 1
  {
    var names := Wrapped(item.line.name, t.name);
    [Row(t, names[0], item.quantity, item.unit, item.total)] + names[1..]
  }

  function WideRows(item: Item, t: Table, width: nat, locale: Locale): seq<string>
    requires width >= 1 && t.name >= 1
  {
    Framed(item.line, WideNameRows(item, t), width, locale)
  }

  function AmountRows(item: Item, width: nat, units: bool): seq<string>
    requires width >= 1
  {
    (if units then Meta("Birim", item.unit, width) else []) + Meta("Toplam", item.total, width)
  }

  function CompactRows(item: Item, width: nat, units: bool, locale: Locale): seq<string>
    requires width >= 1
  {
    var names := NameRows(item.line.name, item.quantity + "x", 6, width);
    Framed(item.line, names + AmountRows(item, width, units), width, locale)
  }

  function AllWideRows(items: seq<Item>, t: Table, width: nat, locale: Locale): seq<string>
    requires width >= 1 && t.name >= 1
  {
    if items == [] then [] else WideRows(items[0], t, width, locale) + AllWideRows(items[1..], t, width, locale)
  }

  function AllCompactRows(items: seq<Item>, width: nat, units: bool, locale: Locale): seq<string>
    requires width >= 1
  {
    if items == [] then []
    else CompactRows(items[0], width, units, locale) + AllCompactRows(items[1..], width, units, locale)
  }

  function TableRows(lines: seq<Line>, currency: Option<string>, width: nat, units: bool, locale: Locale): seq<string>
    requires width >= 1
  {
    var items := ItemsOf(lines, currency, locale);
    var t := TableFor(items, width, units);
    if t.name < 6 then [TwoColumns("Ürün", "Adet", width)] + AllCompactRows(items, width, units, locale)
    else [Row(t, "Ürün", "Adet", "Birim", "Toplam")] + AllWideRows(items, t, width, locale)
  }

  method CompactItem(item: Item, width: nat, units: bool, locale: Locale) returns (out: seq<string>)
    requires width >= 1
    ensures out == CompactRows(item, width, units, locale)
  {
    var names := NameLines(item.line.name, item.quantity + "x", 6, width);
    var rows := names + AmountRows(item, width, units);
    var extras := ExtraLines(item.line, width);
    out := AdjustmentRows(item.line, width, locale) + rows + extras;
  }

  /** `compactPricedTable` */
  method CompactPricedTable(items: seq<Item>, width: nat, units: bool, locale: Locale) returns (out: seq<string>)
    requires width >= 1
    ensures out == [TwoColumns("Ürün", "Adet", width)] + AllCompactRows(items, width, units, locale)
  {
    var header := [TwoColumns("Ürün", "Adet", width)];
    out := header;
    for i := 0 to |items|
      invariant out + AllCompactRows(items[i..], width, units, locale) ==
                header + AllCompactRows(items, width, units, locale)
    {
      var rows := CompactItem(items[i], width, units, locale);
      assert items[i..][1..] == items[i + 1..];
      Push(out, rows, AllCompactRows(items[i + 1..], width, units, locale));
      out := out + rows;
    }
    assert out + [] == out;
  }

  method WideNames(item: Item, t: Table) returns (rows: seq<string>)
    requires t.name >= 1
    ensures rows == WideNameRows(item, t)
  {
    var names := Wrap(item.line.name, t.name);
    var row := Row(t, names[0], item.quantity, item.unit, item.total);
    rows := [row];
    for j := 1 to |names|
      invariant rows == [row] + names[1..j]
    {
      rows := rows + [names[j]];
    }
  }

  method WideItem(item: Item, t: Table, width: nat, locale: Locale) returns (out: seq<string>)
    requires width >= 1 && t.name >= 1
    ensures out == WideRows(item, t, width, locale)
  {
    var names := WideNames(item, t);
    var extras := ExtraLines(item.line, width);
    out := AdjustmentRows(item.line, width, locale) + names + extras;
  }

  /** `pricedTable` */
  method PricedTable(lines: seq<Line>, currency: Option<string>, width: nat, units: bool, locale: Locale)
    returns (out: seq<string>)
    requires width >= 1
    ensures out == TableRows(lines, currency, width, units, locale)
  {
    var items := ItemsOf(lines, currency, locale);
    var t := TableFor(items, width, units);
    if t.name < 6 {
      out := CompactPricedTable(items, width, units, locale);
      return;
    }
    var header := [Row(t, "Ürün", "Adet", "Birim", "Toplam")];
    out := header;
    for i := 0 to |items|
      invariant out + AllWideRows(items[i..], t, width, locale) == header + AllWideRows(items, t, width, locale)
    {
      var rows := WideItem(items[i], t, width, locale);
      assert items[i..][1..] == items[i + 1..];
      Push(out, rows, AllWideRows(items[i + 1..], t, width, locale));
      out := out + rows;
    }
    assert out + [] == out;
  }

  // ----- the whole receipt -----

  function Rule(c: char, width: nat): (s: string)
    ensures |s| == width
  {
    seq(width, _ => c)
  }

  /** The centred texts at the top. */
  function Headings(job: Claim, locale: Locale): seq<string> {
    var doc := job.document;
    var named := KindOf(job, locale) != Preparation;
    (if named && Given(doc.businessName) != "" then [locale.upper(doc.businessName.value)] else []) +
    (if named then [locale.upper(doc.branchName)] else []) +
    [locale.upper(doc.title)] +
    (if job.isReprint then [if job.copies > 1 then "KOPYA" else "TEKRAR YAZDIRILDI"] else []) +
    (if job.isTestPrint then ["TEST ÇIKTISI"] else [])
  }

  function CentredRows(texts: seq<string>, width: nat): seq<string>
    requires width >= 1
  {
    if texts == [] then [] else Center(texts[0], width) + CentredRows(texts[1..], width)
  }

  /** A labelled value, where it is shown. */
  datatype Field = Field(shown: bool, name: string, value: string)

  function StaffLabel(doc: Document): string {
    if doc.staffLabel.Some? then doc.staffLabel.value else "Garson"
  }

  function Fields(job: Claim, locale: Locale): seq<Field> {
    var doc := job.document;
    var courier := KindOf(job, locale) == Courier;
    var numbered := KindOf(job, locale) != Preparation && doc.receiptNumber.Some?;
    var table, source, waiter := Given(doc.tableName), Given(doc.sourceLabel), Given(doc.waiterName);
    [ Field(numbered, "FİŞ NO", if numbered then locale.number(doc.receiptNumber.value) else ""),
      Field(true, "Sipariş No", doc.orderNumber),
      Field(table != "", "Masa", table),
      Field(table == "" && Given(doc.orderLabel) != "", "Sipariş", Given(doc.orderLabel)),
      Field(source != "" && (waiter == "" || source !in {"GARSON", "KASA"}), "Kaynak", source),
      Field(waiter != "", StaffLabel(doc), waiter),
      Field(courier && Given(doc.customerName) != "", "Müşteri", Given(doc.customerName)),
      Field(courier && Given(doc.customerPhone) != "", "Telefon", Given(doc.customerPhone)),
      Field(courier && Given(doc.deliveryAddress) != "", "Adres", Given(doc.deliveryAddress)),
      Field(courier && Given(doc.paymentLabel) != "", "Ödeme", Given(doc.paymentLabel)),
      Field(true, "Tarih", locale.date(doc.submittedAt)),
      Field(true, "Saat", locale.time(doc.submittedAt)) ]
  }

  function FieldRows(fields: seq<Field>, width: nat): seq<string>
    requires width >= 1
  {
    if fields == [] then []
    else
      (if fields[0].shown then Meta(fields[0].name, fields[0].value, width) else []) + FieldRows(fields[1..], width)
  }

  function BodyRows(job: Claim, width: nat, locale: Locale): seq<string>
    requires width >= 1
  {
    var doc, kind := job.document, KindOf(job, locale);
    if kind in {Bill, Courier}
    then TableRows(doc.lines, doc.currency, width, kind == Courier, locale) + [Rule('-', width)]
    else AllPreparationRows(doc.lines, width, locale)
  }

  predicate Charged(s: Option<string>, locale: Locale) {
    locale.positive(if s.Some? then s.value else "0")
  }

  function TotalFields(t: Totals, locale: Locale): seq<Field> {
    [ Field(t.subtotal.Some?, "Ara toplam", Given(t.subtotal)),
      Field(Charged(t.discount, locale), "İndirim", "-" + Given(t.discount)),
      Field(Charged(t.tax, locale), "Vergi", Given(t.tax)),
      Field(Charged(t.serviceCharge, locale), "Servis ücreti", Given(t.serviceCharge)),
      Field(Charged(t.coverCharge, locale), "Kuver ücreti", Given(t.coverCharge)),
      Field(true, "GENEL TOPLAM", t.total),
      Field(t.paid.Some? && locale.positive(Given(t.paid)), "Ödenen", Given(t.paid)),
      Field(t.remaining.Some?, "Kalan", Given(t.remaining)) ]
  }

  /** `totalLine` */
  function TotalLine(field: Field, currency: Option<string>, width: nat, locale: Locale): string {
    TwoColumns(locale.upper(field.name), locale.amount(field.value, currency), width)
  }

  function AmountLines(fields: seq<Field>, currency: Option<string>, width: nat, locale: Locale): seq<string> {
    if fields == [] then []
    else
      (if fields[0].shown then [TotalLine(fields[0], currency, width, locale)] else []) +
      AmountLines(fields[1..], currency, width, locale)
  }

  function TotalRows(doc: Document, width: nat, locale: Locale): seq<string> {
    if doc.totals == None then []
    else [Rule('-', width)] + AmountLines(TotalFields(doc.totals.value, locale), doc.currency, width, locale)
  }

  predicate IsWhite(c: char) {
    || c in {' ', '\t', '\n', '\r', '\U{0B}', '\U{0C}', '\U{A0}', '\U{1680}', '\U{2028}', '\U{2029}', '\U{202F}'}
    || c in {'\U{205F}', '\U{3000}', '\U{FEFF}'} || '\U{2000}' <= c <= '\U{200A}'
  }

  function Trimmed(s: string): string {
    if s != "" && IsWhite(s[0]) then Trimmed(s[1..])
    else if s != "" && IsWhite(s[|s| - 1]) then Trimmed(s[..|s| - 1])
    else s
  }

  function IndexOf(s: string, c: char): (i: int)
    ensures -1 <= i < |s| && (i >= 0 ==> s[i] == c)
  {
    if s == "" then -1 else if s[0] == c then 0
    else
      var rest := IndexOf(s[1..], c);
      if rest == -1 then -1 else rest + 1
  }

  datatype FooterLine = Plain(text: string) | Unvalued(text: string) | Labelled(heading: string, value: string)

  function FooterLineOf(line: string, locale: Locale): FooterLine {
    var separator := IndexOf(line, ':');
    if separator == -1 then Plain(line)
    else
      var value := Trimmed(line[separator + 1..]);
      if value == "" then Unvalued(line) else Labelled(locale.upper(Trimmed(line[..separator])), value)
  }

  /** `renderFooterLine` */
  function FooterLineRows(line: string, width: nat, locale: Locale): seq<string>
    requires width >= 1
  {
    match FooterLineOf(line, locale)
    case Plain(text) => Center(text, width)
    case Unvalued(text) => Wrapped(text, width)
    case Labelled(heading, value) =>
      if |heading| + |value| + 1 <= width then [TwoColumns(heading, value, width)]
      else [heading] + Wrapped(value, width)
  }

  function AllFooterRows(footer: seq<string>, width: nat, locale: Locale): seq<string>
    requires width >= 1
  {
    if footer == [] then [] else FooterLineRows(footer[0], width, locale) + AllFooterRows(footer[1..], width, locale)
  }

  function Footer(doc: Document): seq<string> {
    if doc.footer.Some? then doc.footer.value else []
  }

  function FooterRows(doc: Document, width: nat, locale: Locale): seq<string>
    requires width >= 1
  {
    if Footer(doc) == [] then [] else [Rule('-', width)] + AllFooterRows(Footer(doc), width, locale)
  }

  method FooterLines(doc: Document, width: nat, locale: Locale) returns (out: seq<string>)
    requires width >= 1
    ensures out == FooterRows(doc, width, locale)
  {
    var footer := Footer(doc);
    if footer == [] {
      return [];
    }
    var header := [Rule('-', width)];
    out := header;
    for i := 0 to |footer|
      invariant out + AllFooterRows(footer[i..], width, locale) == header + AllFooterRows(footer, width, locale)
    {
      assert footer[i..][1..] == footer[i + 1..];
      Push(out, FooterLineRows(footer[i], width, locale), AllFooterRows(footer[i + 1..], width, locale));
      out := out + FooterLineRows(footer[i], width, locale);
    }
    assert out + [] == out;
  }

  function TopRows(job: Claim, width: nat, locale: Locale): seq<string>
    requires width >= 1
  {
    [Rule('=', width)] + CentredRows(Headings(job, locale), width) + [Rule('=', width)] +
    FieldRows(Fields(job, locale), width) + [Rule('-', width)]
  }

  function Receipt(job: Claim, width: nat, locale: Locale): seq<string>
    requires width >= 1
  {
    TopRows(job, width, locale) + BodyRows(job, width, locale) + TotalRows(job.document, width, locale) +
    FooterRows(job.document, width, locale) + [Rule('=', width), "", "", ""]
  }

  /** `renderReceiptText`, up to joining the rows with line feeds. */
  method RenderReceipt(job: Claim, width: nat, locale: Locale) returns (out: seq<string>)
    requires width >= 1
    ensures out == Receipt(job, width, locale)
  {
    var doc := job.document;
    var kind := KindOf(job, locale);
    out := TopRows(job, width, locale);
    if kind in {Bill, Courier} {
      var rows := PricedTable(doc.lines, doc.currency, width, kind == Courier, locale);
      out := out + (rows + [Rule('-', width)]);
    } else {
      var rows := PreparationLines(doc.lines, width, locale);
      out := out + rows;
    }
    out := out + TotalRows(doc, width, locale);
    var rows := FooterLines(doc, width, locale);
    out := out + rows;
    out := out + [Rule('=', width), "", "", ""];
  }

  // ----- the width of the paper -----

  lemma {:induction false} FitsJoins(a: seq<string>, b: seq<string>, width: nat)
    ensures Fits(a + b, width) <==> Fits(a, width) && Fits(b, width)
  {
    assert forall i :: 0 <= i < |a| ==> (a + b)[i] == a[i];
    assert forall i :: 0 <= i < |b| ==> (a + b)[|a| + i] == b[i];
  }

  lemma {:induction false} CentredRowsFit(texts: seq<string>, width: nat)
    requires width >= 1
    ensures Fits(CentredRows(texts, width), width)
    decreases texts
  {
    if texts != [] {
      CenterFits(texts[0], width);
      CentredRowsFit(texts[1..], width);
      FitsJoins(Center(texts[0], width), CentredRows(texts[1..], width), width);
    }
  }

  predicate NamesFit(fields: seq<Field>, width: nat) {
    forall i :: 0 <= i < |fields| && fields[i].shown ==> |fields[i].name| + 1 <= width
  }

  lemma {:induction false} FieldRowsFit(fields: seq<Field>, width: nat)
    requires width >= 1
    ensures Fits(FieldRows(fields, width), width) <==> NamesFit(fields, width)
    decreases fields
  {
    if fields != [] {
      var rows := if fields[0].shown then Meta(fields[0].name, fields[0].value, width) else [];
      MetaFits(fields[0].name, fields[0].value, width);
      FieldRowsFit(fields[1..], width);
      FitsJoins(rows, FieldRows(fields[1..], width), width);
      assert forall i :: 1 <= i < |fields| ==> fields[i] == fields[1..][i - 1];
      assert forall i :: 0 <= i < |fields| - 1 ==> fields[1..][i] == fields[i + 1];
    }
  }

  lemma {:induction false} AmountLinesFit(fields: seq<Field>, currency: Option<string>, width: nat, locale: Locale)
    ensures Fits(AmountLines(fields, currency, width, locale), width)
    decreases fields
  {
    if fields != [] {
      AmountLinesFit(fields[1..], currency, width, locale);
    }
  }

  lemma {:induction false} ModifierRowsFit(modifiers: seq<string>, width: nat)
    requires width >= 1
    ensures Fits(ModifierRows(modifiers, width), width)
  {
    if modifiers != [] {
      WrapFits("  + " + modifiers[0], width);
      ModifierRowsFit(modifiers[1..], width);
    }
  }

  lemma {:induction false} AdjustmentFits(line: Line, width: nat, locale: Locale)
    requires width >= 1
    ensures Fits(AdjustmentRows(line, width, locale), width)
  {
    if Given(line.adjustmentLabel) != "" {
      CenterFits("*** " + locale.upper(line.adjustmentLabel.value) + " ***", width);
    }
  }

  lemma {:induction false} ExtrasFit(line: Line, width: nat)
    requires width >= 1
    ensures Fits(Extras(line, width), width)
  {
    ModifierRowsFit(Modifiers(line), width);
    if Given(line.note) != "" {
      WrapFits("  Açıklama: " + line.note.value, width);
    }
    FitsJoins(ModifierRows(Modifiers(line), width), NoteRows(line, width), width);
  }

  lemma {:induction false} FramedFits(line: Line, rows: seq<string>, width: nat, locale: Locale)
    requires width >= 1 && Fits(rows, width)
    ensures Fits(Framed(line, rows, width, locale), width)
  {
    AdjustmentFits(line, width, locale);
    ExtrasFit(line, width);
    FitsJoins(AdjustmentRows(line, width, locale), rows, width);
    FitsJoins(AdjustmentRows(line, width, locale) + rows, Extras(line, width), width);
  }

  lemma {:induction false} NameRowsFit(name: string, quantity: string, low: nat, width: nat)
    requires 1 <= low <= width
    ensures Fits(NameRows(name, quantity, low, width), width)
  {
    WrapFits(name, AtLeast(low, width - |quantity| - 1));
  }

  /** Every row of the wide table, the header with it, is exactly as wide as the paper. */
  lemma {:induction false} TableRowsAreExact(items: seq<Item>, width: nat, units: bool, name: string, quantity: string, unit: string, total: string)
    requires TableFor(items, width, units).name >= 0
    ensures |Row(TableFor(items, width, units), name, quantity, unit, total)| == width
  {
    var t := TableFor(items, width, units);
    var first, last := Cell(name, t.name), Cell(total, t.total);
    var others := [Cell(quantity, t.quantity)] + (if units then [Cell(unit, t.unit)] else []) + [last];
    WidthOf([first] + others);
    if units {
      assert ([first] + others)[1..] == others && others[1..] == [Cell(unit, t.unit), last];
      assert others[1..][1..] == [last];
    } else {
      assert ([first] + others)[1..] == others && others[1..] == [last];
    }
    assert TotalWidth([last]) == last.width + TotalWidth([last][1..]);
  }

  lemma {:induction false} WidthOf(cells: seq<Cell>)
    ensures TotalWidth(cells) == if cells == [] then 0 else cells[0].width + TotalWidth(cells[1..])
  {
  }

  lemma {:induction false} WideNameRowsFit(all: seq<Item>, item: Item, width: nat, units: bool)
    requires TableFor(all, width, units).name >= 1
    ensures Fits(WideNameRows(item, TableFor(all, width, units)), width)
  {
    var t := TableFor(all, width, units);
    var names := Wrapped(item.line.name, t.name);
    TableRowsAreExact(all, width, units, names[0], item.quantity, item.unit, item.total);
    WrapFits(item.line.name, t.name);
  }

  lemma {:induction false} WideRowsFit(all: seq<Item>, items: seq<Item>, width: nat, units: bool, locale: Locale)
    requires TableFor(all, width, units).name >= 1
    ensures width >= 1 && Fits(AllWideRows(items, TableFor(all, width, units), width, locale), width)
    decreases items
  {
    var t := TableFor(all, width, units);
    if items != [] {
      WideNameRowsFit(all, items[0], width, units);
      FramedFits(items[0].line, WideNameRows(items[0], t), width, locale);
      WideRowsFit(all, items[1..], width, units, locale);
      FitsJoins(WideRows(items[0], t, width, locale), AllWideRows(items[1..], t, width, locale), width);
    }
  }

  lemma {:induction false} AmountRowsFit(item: Item, width: nat, units: bool)
    requires width >= 7
    ensures Fits(AmountRows(item, width, units), width)
  {
    MetaFits("Birim", item.unit, width);
    MetaFits("Toplam", item.total, width);
    FitsJoins(if units then Meta("Birim", item.unit, width) else [], Meta("Toplam", item.total, width), width);
  }

  lemma {:induction false} CompactRowsFit(items: seq<Item>, width: nat, units: bool, locale: Locale)
    requires width >= 7
    ensures Fits(AllCompactRows(items, width, units, locale), width)
    decreases items
  {
    if items != [] {
      var item := items[0];
      var names, amounts := NameRows(item.line.name, item.quantity + "x", 6, width), AmountRows(item, width, units);
      NameRowsFit(item.line.name, item.quantity + "x", 6, width);
      AmountRowsFit(item, width, units);
      FitsJoins(names, amounts, width);
      FramedFits(item.line, names + amounts, width, locale);
      CompactRowsFit(items[1..], width, units, locale);
      FitsJoins(CompactRows(item, width, units, locale), AllCompactRows(items[1..], width, units, locale), width);
    }
  }

  lemma {:induction false} PreparationFits(lines: seq<Line>, width: nat, locale: Locale)
    requires width >= 8
    ensures Fits(AllPreparationRows(lines, width, locale), width)
    decreases lines
  {
    if lines != [] {
      var names := NameRows(lines[0].name, lines[0].quantity + "x", 8, width);
      NameRowsFit(lines[0].name, lines[0].quantity + "x", 8, width);
      FramedFits(lines[0], names, width, locale);
      PreparationFits(lines[1..], width, locale);
      FitsJoins(PreparationRows(lines[0], width, locale), AllPreparationRows(lines[1..], width, locale), width);
    }
  }

  lemma {:induction false} OneRowFits(row: string, width: nat)
    requires |row| <= width
    ensures Fits([row], width)
  {
  }

  /** Both layouts of the priced table stay on the paper. */
  lemma {:induction false} TableFits(lines: seq<Line>, currency: Option<string>, width: nat, units: bool, locale: Locale)
    requires width >= 7
    ensures Fits(TableRows(lines, currency, width, units, locale), width)
  {
    var items := ItemsOf(lines, currency, locale);
    var t := TableFor(items, width, units);
    if t.name >= 6 {
      WideRowsFit(items, items, width, units, locale);
      TableRowsAreExact(items, width, units, "Ürün", "Adet", "Birim", "Toplam");
      OneRowFits(Row(t, "Ürün", "Adet", "Birim", "Toplam"), width);
      FitsJoins([Row(t, "Ürün", "Adet", "Birim", "Toplam")], AllWideRows(items, t, width, locale), width);
    } else {
      CompactRowsFit(items, width, units, locale);
      OneRowFits(TwoColumns("Ürün", "Adet", width), width);
      FitsJoins([TwoColumns("Ürün", "Adet", width)], AllCompactRows(items, width, units, locale), width);
    }
  }

  lemma {:induction false} BodyFits(job: Claim, width: nat, locale: Locale)
    requires width >= 8
    ensures Fits(BodyRows(job, width, locale), width)
  {
    var doc, kind := job.document, KindOf(job, locale);
    if kind in {Bill, Courier} {
      TableFits(doc.lines, doc.currency, width, kind == Courier, locale);
      OneRowFits(Rule('-', width), width);
      FitsJoins(TableRows(doc.lines, doc.currency, width, kind == Courier, locale), [Rule('-', width)], width);
    } else {
      PreparationFits(doc.lines, width, locale);
    }
  }

  predicate StaffLabelFits(doc: Document, width: nat) {
    Given(doc.waiterName) == "" || |StaffLabel(doc)| + 1 <= width
  }

  predicate FooterLineFits(line: string, width: nat, locale: Locale) {
    var f := FooterLineOf(line, locale);
    f.Labelled? ==> |f.heading| <= width
  }

  predicate FooterFits(doc: Document, width: nat, locale: Locale) {
    forall i :: 0 <= i < |Footer(doc)| ==> FooterLineFits(Footer(doc)[i], width, locale)
  }

  lemma {:induction false} FooterLineRowsFit(line: string, width: nat, locale: Locale)
    requires width >= 1
    ensures Fits(FooterLineRows(line, width, locale), width) <==> FooterLineFits(line, width, locale)
  {
    match FooterLineOf(line, locale)
    case Plain(text) => CenterFits(text, width);
    case Unvalued(text) => WrapFits(text, width);
    case Labelled(heading, value) =>
      WrapFits(value, width);
      if |heading| + |value| + 1 > width {
        FitsJoins([heading], Wrapped(value, width), width);
        assert Fits([heading], width) <==> |[heading][0]| <= width;
      }
  }

  lemma {:induction false} AllFooterRowsFit(footer: seq<string>, width: nat, locale: Locale)
    requires width >= 1
    ensures Fits(AllFooterRows(footer, width, locale), width) <==>
            forall i :: 0 <= i < |footer| ==> FooterLineFits(footer[i], width, locale)
    decreases footer
  {
    if footer != [] {
      FooterLineRowsFit(footer[0], width, locale);
      AllFooterRowsFit(footer[1..], width, locale);
      FitsJoins(FooterLineRows(footer[0], width, locale), AllFooterRows(footer[1..], width, locale), width);
      assert forall i :: 1 <= i < |footer| ==> footer[i] == footer[1..][i - 1];
      assert forall i :: 0 <= i < |footer| - 1 ==> footer[1..][i] == footer[i + 1];
    }
  }

  lemma {:induction false} FooterRowsFit(doc: Document, width: nat, locale: Locale)
    requires width >= 1
    ensures Fits(FooterRows(doc, width, locale), width) <==> FooterFits(doc, width, locale)
  {
    AllFooterRowsFit(Footer(doc), width, locale);
    FitsJoins([Rule('-', width)], AllFooterRows(Footer(doc), width, locale), width);
  }

  /** Eleven columns take every fixed heading; the staff heading is the shop's own. */
  lemma {:induction false} FieldsFit(job: Claim, width: nat, locale: Locale)
    requires width >= 11
    ensures NamesFit(Fields(job, locale), width) <==> StaffLabelFits(job.document, width)
  {
    var fields := Fields(job, locale);
    assert fields[5].name == StaffLabel(job.document);
  }

  lemma {:induction false} FiveFit(a: seq<string>, b: seq<string>, c: seq<string>, d: seq<string>, e: seq<string>, width: nat)
    ensures Fits(a + b + c + d + e, width) <==>
            Fits(a, width) && Fits(b, width) && Fits(c, width) && Fits(d, width) && Fits(e, width)
  {
    FitsJoins(a, b, width);
    FitsJoins(a + b, c, width);
    FitsJoins(a + b + c, d, width);
    FitsJoins(a + b + c + d, e, width);
  }

  lemma {:induction false} TopFits(job: Claim, width: nat, locale: Locale)
    requires width >= 11
    ensures Fits(TopRows(job, width, locale), width) <==> StaffLabelFits(job.document, width)
  {
    var heavy, rule := Rule('=', width), Rule('-', width);
    CentredRowsFit(Headings(job, locale), width);
    FieldRowsFit(Fields(job, locale), width);
    FieldsFit(job, width, locale);
    OneRowFits(heavy, width);
    OneRowFits(rule, width);
    FiveFit([heavy], CentredRows(Headings(job, locale), width), [heavy], FieldRows(Fields(job, locale), width), [rule], width);
  }

  lemma {:induction false} TotalsFit(doc: Document, width: nat, locale: Locale)
    ensures Fits(TotalRows(doc, width, locale), width)
  {
    if doc.totals.Some? {
      var fields := TotalFields(doc.totals.value, locale);
      AmountLinesFit(fields, doc.currency, width, locale);
      OneRowFits(Rule('-', width), width);
      FitsJoins([Rule('-', width)], AmountLines(fields, doc.currency, width, locale), width);
    }
  }

  lemma {:induction false} EndFits(width: nat)
    ensures Fits([Rule('=', width), "", "", ""], width)
  {
  }

  /** On paper of eleven columns or more, no row is too wide exactly when the staff
      heading and the upper-cased labels of the valued footer lines fit. */
  lemma {:induction false} ReceiptFits(job: Claim, width: nat, locale: Locale)
    requires width >= 11
    ensures Fits(Receipt(job, width, locale), width) <==>
            StaffLabelFits(job.document, width) && FooterFits(job.document, width, locale)
  {
    TopFits(job, width, locale);
    BodyFits(job, width, locale);
    TotalsFit(job.document, width, locale);
    FooterRowsFit(job.document, width, locale);
    EndFits(width);
    FiveFit(TopRows(job, width, locale), BodyRows(job, width, locale), TotalRows(job.document, width, locale),
            FooterRows(job.document, width, locale), [Rule('=', width), "", "", ""], width);
  }
}

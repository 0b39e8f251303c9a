/** What a receipt prints. The renderer promises not to truncate text; here is the
    exact condition under which it keeps the promise, for the whole ticket. */
module ReceiptPrint {
  import opened Wrappers
  import opened TextWrap
  import opened ReceiptDocument
  import opened Receipt

  // ----- rows and the text they are meant to print -----

  /** The rows print no more than the text, and all of it exactly when nothing is lost. */
  ghost predicate Prints(rows: seq<string>, text: string, whole: bool) {
    |InkOf(rows)| <= |text| && (InkOf(rows) == text <==> whole)
  }

  lemma {:induction false} Spliced(x: string, y: string, a: string, b: string)
    requires |x| <= |a| && |y| <= |b|
    ensures |x + y| <= |a + b|
    ensures x + y == a + b <==> x == a && y == b
  {
    if x + y == a + b {
      assert |x| == |a|;
      assert x == (x + y)[..|x|] == (a + b)[..|a|] == a;
      assert y == (x + y)[|x|..] == (a + b)[|a|..] == b;
    }
  }

  lemma {:induction false} PrintsJoin(upper: seq<string>, a: string, p: bool, lower: seq<string>, b: string, q: bool)
    requires Prints(upper, a, p) && Prints(lower, b, q)
    ensures Prints(upper + lower, a + b, p && q)
  {
    InkOfJoins(upper, lower);
    Spliced(InkOf(upper), InkOf(lower), a, b);
  }

  lemma {:induction false} InkOfOne(row: string)
    ensures InkOf([row]) == Ink(row)
  {
    assert [row][1..] == [];
  }

  predicate Blank(s: string) {
    Ink(s) == ""
  }

  /** What `twoColumns` leaves out: the end of the left text, or all of it and the
      end of the right one. */
  function Lost(left: string, right: string, width: nat): string {
    if |right| >= width then left + right[width..]
    else if |left| + |right| + 1 > width then left[width - |right| - 1..]
    else ""
  }

  lemma {:induction false} TwoColumnsPrint(left: string, right: string, width: nat)
    ensures Prints([TwoColumns(left, right, width)], Ink(left) + Ink(right), Blank(Lost(left, right, width)))
  {
    var row := TwoColumns(left, right, width);
    InkOfOne(row);
    if |right| >= width {
      RightColumnPrints(left, right, width);
    } else if |left| + |right| + 1 > width {
      LeftColumnPrints(left, right, width);
    } else {
      TwoColumnsKeepInk(left, right, width);
    }
  }

  lemma {:induction false} RightColumnPrints(left: string, right: string, width: nat)
    requires |right| >= width
    ensures var row := Ink(TwoColumns(left, right, width));
            && |row| <= |Ink(left) + Ink(right)|
            && (row == Ink(left) + Ink(right) <==> Blank(Lost(left, right, width)))
  {
    assert right[..width] + right[width..] == right;
    InkJoins(right[..width], right[width..]);
    InkJoins(left, right[width..]);
  }

  lemma {:induction false} LeftColumnPrints(left: string, right: string, width: nat)
    requires |right| < width && |left| + |right| + 1 > width
    ensures var row := Ink(TwoColumns(left, right, width));
            && |row| <= |Ink(left) + Ink(right)|
            && (row == Ink(left) + Ink(right) <==> Blank(Lost(left, right, width)))
  {
    var n := width - |right| - 1;
    assert left[..n] + left[n..] == left;
    InkJoins(left[..n], left[n..]);
    InkJoins(left[..n] + " ", right);
    InkJoins(left[..n], " ");
    Spliced(Ink(left[..n]), Ink(right), Ink(left), Ink(right));
  }

  // ----- one order line -----

  function ModifierInk(modifiers: seq<string>): string {
    if modifiers == [] then "" else Ink("  + " + modifiers[0]) + ModifierInk(modifiers[1..])
  }

  lemma {:induction false} ModifiersArePrinted(modifiers: seq<string>, width: nat)
    requires width >= 1
    ensures InkOf(ModifierRows(modifiers, width)) == ModifierInk(modifiers)
    decreases modifiers
  {
    if modifiers != [] {
      WrapIsTidy("  + " + modifiers[0], width);
      ModifiersArePrinted(modifiers[1..], width);
      InkOfJoins(Wrapped("  + " + modifiers[0], width), ModifierRows(modifiers[1..], width));
    }
  }

  function BannerInk(line: Line, locale: Locale): string {
    if Given(line.adjustmentLabel) == "" then "" else Ink("*** " + locale.upper(line.adjustmentLabel.value) + " ***")
  }

  function ExtrasInk(line: Line): string {
    (if line.modifiers.Some? then ModifierInk(line.modifiers.value) else "")
    + if Given(line.note) == "" then "" else Ink("  Açıklama: " + line.note.value)
  }

  lemma {:induction false} ExtrasArePrinted(line: Line, width: nat)
    requires width >= 1
    ensures InkOf(Extras(line, width)) == ExtrasInk(line)
  {
    ModifiersArePrinted(Modifiers(line), width);
    if Given(line.note) != "" {
      WrapIsTidy("  Açıklama: " + line.note.value, width);
    }
    InkOfJoins(ModifierRows(Modifiers(line), width), NoteRows(line, width));
  }

  lemma {:induction false} BannerIsPrinted(line: Line, width: nat, locale: Locale)
    requires width >= 1
    ensures InkOf(AdjustmentRows(line, width, locale)) == BannerInk(line, locale)
  {
    if Given(line.adjustmentLabel) != "" {
      CenterIsCentred("*** " + locale.upper(line.adjustmentLabel.value) + " ***", width);
    }
  }

  /** Banner, modifiers and note of a line are printed in full around its rows. */
  lemma {:induction false} FramesArePrinted(line: Line, rows: seq<string>, text: string, whole: bool, width: nat, locale: Locale)
    requires width >= 1 && Prints(rows, text, whole)
    ensures Prints(Framed(line, rows, width, locale), BannerInk(line, locale) + text + ExtrasInk(line), whole)
  {
    var banner := AdjustmentRows(line, width, locale);
    BannerIsPrinted(line, width, locale);
    ExtrasArePrinted(line, width);
    PrintsJoin(banner, BannerInk(line, locale), true, rows, text, whole);
    PrintsJoin(banner + rows, BannerInk(line, locale) + text, whole, Extras(line, width), ExtrasInk(line), true);
  }

  /** A wrapped name with a quantity beside its first row. */
  function NameInk(names: seq<string>, beside: string): string
    requires names != []
  {
    Ink(names[0]) + beside + InkOf(names[1..])
  }

  function NamesFor(name: string, quantity: string, low: nat, width: nat): seq<string>
    requires low >= 1
  {
    Wrapped(name, AtLeast(low, width - |quantity| - 1))
  }

  /** The first row has room for what stands on it. */
  predicate NameWhole(name: string, quantity: string, low: nat, width: nat)
    requires low >= 1
  {
    Blank(Lost(NamesFor(name, quantity, low, width)[0], quantity, width))
  }

  lemma {:induction false} NameRowsPrint(name: string, quantity: string, low: nat, width: nat)
    requires width >= 1 && low >= 1
    ensures Prints(NameRows(name, quantity, low, width),
                   NameInk(NamesFor(name, quantity, low, width), Ink(quantity)),
                   NameWhole(name, quantity, low, width))
    ensures var names := NamesFor(name, quantity, low, width); Ink(names[0]) + InkOf(names[1..]) == Ink(name)
  {
    var names := NamesFor(name, quantity, low, width);
    WrapIsTidy(name, AtLeast(low, width - |quantity| - 1));
    TwoColumnsPrint(names[0], quantity, width);
    PrintsJoin([TwoColumns(names[0], quantity, width)], Ink(names[0]) + Ink(quantity), NameWhole(name, quantity, low, width),
               names[1..], InkOf(names[1..]), true);
  }

  /** A quantity that leaves the name its least width loses nothing. */
  lemma {:induction false} ShortQuantityIsEnough(name: string, quantity: string, low: nat, width: nat)
    requires low >= 1 && |quantity| + 1 + low <= width
    ensures NameWhole(name, quantity, low, width)
  {
    WrapFits(name, width - |quantity| - 1);
  }

  // ----- preparation tickets -----

  function LineInk(line: Line, width: nat, locale: Locale): string {
    BannerInk(line, locale)
    + NameInk(NamesFor(line.name, line.quantity + "x", 8, width), Ink(line.quantity + "x"))
    + ExtrasInk(line)
  }

  function LinesInk(lines: seq<Line>, width: nat, locale: Locale): string {
    if lines == [] then "" else LineInk(lines[0], width, locale) + LinesInk(lines[1..], width, locale)
  }

  predicate LinesWhole(lines: seq<Line>, width: nat) {
    forall line <- lines :: NameWhole(line.name, line.quantity + "x", 8, width)
  }

  lemma {:induction false} LinesWholeStep(lines: seq<Line>, width: nat)
    requires lines != []
    ensures LinesWhole(lines, width) <==>
            NameWhole(lines[0].name, lines[0].quantity + "x", 8, width) && LinesWhole(lines[1..], width)
  {
    var line, rest := lines[0], lines[1..];
    assert forall x :: x in lines <==> x == line || x in rest by {
      assert lines == [line] + rest;
    }
  }

  lemma {:induction false} PreparationLinePrints(line: Line, width: nat, locale: Locale)
    requires width >= 1
    ensures Prints(PreparationRows(line, width, locale), LineInk(line, width, locale),
                   NameWhole(line.name, line.quantity + "x", 8, width))
  {
    var quantity := line.quantity + "x";
    NameRowsPrint(line.name, quantity, 8, width);
    FramesArePrinted(line, NameRows(line.name, quantity, 8, width),
                     NameInk(NamesFor(line.name, quantity, 8, width), Ink(quantity)),
                     NameWhole(line.name, quantity, 8, width), width, locale);
  }

  lemma {:induction false} PreparationPrints(lines: seq<Line>, width: nat, locale: Locale)
    requires width >= 1
    ensures Prints(AllPreparationRows(lines, width, locale), LinesInk(lines, width, locale), LinesWhole(lines, width))
    decreases lines
  {
    if lines != [] {
      var line, rest := lines[0], lines[1..];
      PreparationLinePrints(line, width, locale);
      PreparationPrints(rest, width, locale);
      PrintsJoin(PreparationRows(line, width, locale), LineInk(line, width, locale),
                 NameWhole(line.name, line.quantity + "x", 8, width),
                 AllPreparationRows(rest, width, locale), LinesInk(rest, width, locale), LinesWhole(rest, width));
      LinesWholeStep(lines, width);
    }
  }

  // ----- the compact table -----

  function AmountInk(item: Item, units: bool): string {
    (if units then Ink("Birim" + ":") + Ink(item.unit) else "") + (Ink("Toplam" + ":") + Ink(item.total))
  }

  /** The compact layout prints both amounts in full, however long they are. */
  lemma {:induction false} CompactAmountsPrintAll(item: Item, width: nat, units: bool)
    requires width >= 1
    ensures InkOf(AmountRows(item, width, units)) == AmountInk(item, units)
  {
    MetaKeepsInk("Birim", item.unit, width);
    MetaKeepsInk("Toplam", item.total, width);
    InkOfJoins(if units then Meta("Birim", item.unit, width) else [], Meta("Toplam", item.total, width));
  }

  function CompactInk(item: Item, width: nat, units: bool): string {
    NameInk(NamesFor(item.line.name, item.quantity + "x", 6, width), Ink(item.quantity + "x")) + AmountInk(item, units)
  }

  function CompactItemsInk(items: seq<Item>, width: nat, units: bool, locale: Locale): string {
    if items == [] then ""
    else
      BannerInk(items[0].line, locale) + CompactInk(items[0], width, units) + ExtrasInk(items[0].line)
      + CompactItemsInk(items[1..], width, units, locale)
  }

  predicate CompactWhole(items: seq<Item>, width: nat) {
    forall item <- items :: NameWhole(item.line.name, item.quantity + "x", 6, width)
  }

  lemma {:induction false} CompactWholeStep(items: seq<Item>, width: nat)
    requires items != []
    ensures CompactWhole(items, width) <==>
            NameWhole(items[0].line.name, items[0].quantity + "x", 6, width) && CompactWhole(items[1..], width)
  {
    var item, rest := items[0], items[1..];
    assert forall x :: x in items <==> x == item || x in rest by {
      assert items == [item] + rest;
    }
  }

  lemma {:induction false} CompactItemPrints(item: Item, width: nat, units: bool, locale: Locale)
    requires width >= 1
    ensures Prints(CompactRows(item, width, units, locale),
                   BannerInk(item.line, locale) + CompactInk(item, width, units) + ExtrasInk(item.line),
                   NameWhole(item.line.name, item.quantity + "x", 6, width))
  {
    var quantity := item.quantity + "x";
    var names, amounts := NameRows(item.line.name, quantity, 6, width), AmountRows(item, width, units);
    NameRowsPrint(item.line.name, quantity, 6, width);
    CompactAmountsPrintAll(item, width, units);
    PrintsJoin(names, NameInk(NamesFor(item.line.name, quantity, 6, width), Ink(quantity)),
               NameWhole(item.line.name, quantity, 6, width), amounts, AmountInk(item, units), true);
    FramesArePrinted(item.line, names + amounts, CompactInk(item, width, units),
                     NameWhole(item.line.name, quantity, 6, width), width, locale);
  }

  lemma {:induction false} CompactTablePrints(items: seq<Item>, width: nat, units: bool, locale: Locale)
    requires width >= 1
    ensures Prints(AllCompactRows(items, width, units, locale), CompactItemsInk(items, width, units, locale),
                   CompactWhole(items, width))
    decreases items
  {
    if items != [] {
      var item, rest := items[0], items[1..];
      CompactItemPrints(item, width, units, locale);
      CompactTablePrints(rest, width, units, locale);
      PrintsJoin(CompactRows(item, width, units, locale),
                 BannerInk(item.line, locale) + CompactInk(item, width, units) + ExtrasInk(item.line),
                 NameWhole(item.line.name, item.quantity + "x", 6, width),
                 AllCompactRows(rest, width, units, locale), CompactItemsInk(rest, width, units, locale),
                 CompactWhole(rest, width));
      CompactWholeStep(items, width);
    }
  }

  // ----- the wide table -----

  /** In the wide table a quantity is left whole exactly when it is five characters
      or fewer; unit price and total always are. */
  lemma {:induction false} WideCells(items: seq<Item>, width: nat, units: bool, i: nat)
    requires i < |items|
    ensures var t, item := TableFor(items, width, units), items[i];
            && (Cut(Cell(item.quantity, t.quantity)) == item.quantity <==> |item.quantity| <= 5)
            && (|item.quantity| > 5 ==> t.quantity == 5)
            && Cut(Cell(item.total, t.total)) == item.total
            && (units ==> Cut(Cell(item.unit, t.unit)) == item.unit)
  {
    var t, item := TableFor(items, width, units), items[i];
    assert |item.quantity| <= t.quantity <==> |item.quantity| <= 5;
    var longest := Widest(4, items, (x: Item) => x.quantity);
  }

  function Amounts(quantity: string, item: Item, units: bool): seq<string> {
    [quantity] + (if units then [item.unit] else []) + [item.total]
  }

  function AmountCells(t: Table, quantity: string, item: Item): seq<Cell> {
    [Cell(quantity, t.quantity)] + (if t.units then [Cell(item.unit, t.unit)] else []) + [Cell(item.total, t.total)]
  }

  lemma {:induction false} ValuesOf(t: Table, quantity: string, item: Item)
    ensures Values(AmountCells(t, quantity, item)) == Amounts(quantity, item, t.units)
  {
    var last := [Cell(item.total, t.total)];
    assert last[1..] == [] && Values(last) == [item.total] + Values([]);
    if t.units {
      var two := [Cell(item.unit, t.unit)] + last;
      assert two[1..] == last;
      assert AmountCells(t, quantity, item)[1..] == two;
    } else {
      assert AmountCells(t, quantity, item)[1..] == last;
    }
  }

  lemma {:induction false} AmountsInk(quantity: string, item: Item, units: bool)
    ensures InkOf(Amounts(quantity, item, units)) == Ink(quantity) + InkOf(Amounts(quantity, item, units)[1..])
    ensures Amounts(quantity, item, units)[1..] == (if units then [item.unit] else []) + [item.total]
  {
  }

  predicate QuantityWhole(quantity: string) {
    |quantity| <= 5 || Blank(quantity[5..])
  }

  lemma {:induction false} CutCell(cell: Cell)
    ensures PadStart(cell) == PadStart(Cell(Cut(cell), cell.width))
  {
  }

  /** The row of an item is the row of the item with its quantity cut. */
  lemma {:induction false} RowIsCut(t: Table, name: string, item: Item)
    requires t.name >= 0
    ensures Row(t, name, item.quantity, item.unit, item.total) ==
            Row(t, name, Cut(Cell(item.quantity, t.quantity)), item.unit, item.total)
  {
    var cut := Cut(Cell(item.quantity, t.quantity));
    CutCell(Cell(item.quantity, t.quantity));
    var cells, cells' := AmountCells(t, item.quantity, item), AmountCells(t, cut, item);
    assert cells[1..] == cells'[1..];
    assert RightCells(cells) == RightCells(cells');
  }

  /** A row whose quantity has been cut to its column prints all that is left. */
  lemma {:induction false} CutRowInk(t: Table, name: string, quantity: string, item: Item)
    requires |name| <= t.name && |quantity| <= t.quantity && |item.total| <= t.total && (t.units ==> |item.unit| <= t.unit)
    ensures InkOf([Row(t, name, quantity, item.unit, item.total)]) == Ink(name) + InkOf(Amounts(quantity, item, t.units))
  {
    AmountCellsFit(t, quantity, item);
    FirstFits(Cell(name, t.name), AmountCells(t, quantity, item));
    ColumnsKeepInk(Cell(name, t.name), AmountCells(t, quantity, item));
    ValuesOf(t, quantity, item);
    InkOfOne(Row(t, name, quantity, item.unit, item.total));
  }

  lemma {:induction false} FirstFits(first: Cell, others: seq<Cell>)
    requires |first.value| <= first.width && CellsFit(others)
    ensures CellsFit([first] + others)
  {
  }

  lemma {:induction false} AmountCellsFit(t: Table, quantity: string, item: Item)
    requires |quantity| <= t.quantity && |item.total| <= t.total && (t.units ==> |item.unit| <= t.unit)
    ensures CellsFit(AmountCells(t, quantity, item))
  {
    var q, u, total := Cell(quantity, t.quantity), Cell(item.unit, t.unit), Cell(item.total, t.total);
    if t.units {
      assert AmountCells(t, quantity, item) == [q, u, total];
    } else {
      assert AmountCells(t, quantity, item) == [q, total];
    }
  }

  /** The row prints the first line of the name, the quantity as far as it is not
      cut, and the amounts. */
  lemma {:induction false} WideRowPrints(items: seq<Item>, width: nat, units: bool, i: nat, name: string)
    requires i < |items| && TableFor(items, width, units).name >= |name|
    ensures var t, item := TableFor(items, width, units), items[i];
            Prints([Row(t, name, item.quantity, item.unit, item.total)],
                   Ink(name) + InkOf(Amounts(item.quantity, item, units)), QuantityWhole(item.quantity))
  {
    var t, item := TableFor(items, width, units), items[i];
    var cut := Cut(Cell(item.quantity, t.quantity));
    WideCells(items, width, units, i);
    RowIsCut(t, name, item);
    CutRowInk(t, name, cut, item);
    QuantityPrints(cut, item, units);
    Spliced(Ink(name), InkOf(Amounts(cut, item, units)), Ink(name), InkOf(Amounts(item.quantity, item, units)));
  }

  lemma {:induction false} QuantityPrints(cut: string, item: Item, units: bool)
    requires if |item.quantity| <= 5 then cut == item.quantity else cut == item.quantity[..5]
    ensures |InkOf(Amounts(cut, item, units))| <= |InkOf(Amounts(item.quantity, item, units))|
    ensures InkOf(Amounts(cut, item, units)) == InkOf(Amounts(item.quantity, item, units)) <==> QuantityWhole(item.quantity)
  {
    var quantity := item.quantity;
    AmountsInk(cut, item, units);
    AmountsInk(quantity, item, units);
    var rest := InkOf((if units then [item.unit] else []) + [item.total]);
    if |quantity| > 5 {
      assert quantity[..5] + quantity[5..] == quantity;
      InkJoins(quantity[..5], quantity[5..]);
      Spliced(Ink(cut), rest, Ink(quantity), rest);
    }
  }

  function WideInk(item: Item, t: Table): string
    requires t.name >= 1
  {
    NameInk(Wrapped(item.line.name, t.name), InkOf(Amounts(item.quantity, item, t.units)))
  }

  /** The rows of an item print its name, quantity, unit price and total, and nothing
      else: the first line of the name, the amounts, the rest. */
  lemma {:induction false} WideNamePrints(items: seq<Item>, width: nat, units: bool, i: nat)
    requires i < |items| && TableFor(items, width, units).name >= 1
    ensures var t, item := TableFor(items, width, units), items[i];
            && Prints(WideNameRows(item, t), WideInk(item, t), QuantityWhole(item.quantity))
            && var names := Wrapped(item.line.name, t.name); Ink(names[0]) + InkOf(names[1..]) == Ink(item.line.name)
  {
    var t, item := TableFor(items, width, units), items[i];
    var names := Wrapped(item.line.name, t.name);
    WrapFits(item.line.name, t.name);
    WrapIsTidy(item.line.name, t.name);
    WideRowPrints(items, width, units, i, names[0]);
    PrintsJoin([Row(t, names[0], item.quantity, item.unit, item.total)],
               Ink(names[0]) + InkOf(Amounts(item.quantity, item, units)), QuantityWhole(item.quantity),
               names[1..], InkOf(names[1..]), true);
  }

  function WideItemsInk(items: seq<Item>, t: Table, locale: Locale): string
    requires t.name >= 1
  {
    if items == [] then ""
    else
      BannerInk(items[0].line, locale) + WideInk(items[0], t) + ExtrasInk(items[0].line)
      + WideItemsInk(items[1..], t, locale)
  }

  predicate WideWhole(items: seq<Item>) {
    forall item <- items :: QuantityWhole(item.quantity)
  }

  lemma {:induction false} WideWholeStep(items: seq<Item>, from: nat)
    requires from < |items|
    ensures items[from..][0] == items[from] && items[from..][1..] == items[from + 1..]
    ensures WideWhole(items[from..]) <==> QuantityWhole(items[from].quantity) && WideWhole(items[from + 1..])
  {
    var these, item, rest := items[from..], items[from], items[from + 1..];
    assert forall x :: x in these <==> x == item || x in rest by {
      assert these == [item] + rest;
    }
  }

  lemma {:induction false} WideTablePrints(items: seq<Item>, from: nat, t: Table, width: nat, units: bool, locale: Locale)
    requires from <= |items| && t == TableFor(items, width, units) && t.name >= 1
    ensures width >= 1
    ensures Prints(AllWideRows(items[from..], t, width, locale), WideItemsInk(items[from..], t, locale), WideWhole(items[from..]))
    decreases |items| - from
  {
    if from < |items| {
      var item, rest := items[from], items[from + 1..];
      WideItemPrints(items, from, width, units, locale);
      WideTablePrints(items, from + 1, t, width, units, locale);
      WideWholeStep(items, from);
      PrintsJoin(WideRows(item, t, width, locale),
                 BannerInk(item.line, locale) + WideInk(item, t) + ExtrasInk(item.line), QuantityWhole(item.quantity),
                 AllWideRows(rest, t, width, locale), WideItemsInk(rest, t, locale), WideWhole(rest));
    }
  }

  lemma {:induction false} WideItemPrints(items: seq<Item>, i: nat, width: nat, units: bool, locale: Locale)
    requires i < |items| && TableFor(items, width, units).name >= 1
    ensures var t, item := TableFor(items, width, units), items[i];
            width >= 1 && Prints(WideRows(item, t, width, locale),
                   BannerInk(item.line, locale) + WideInk(item, t) + ExtrasInk(item.line), QuantityWhole(item.quantity))
  {
    var t, item := TableFor(items, width, units), items[i];
    WideNamePrints(items, width, units, i);
    FramesArePrinted(item.line, WideNameRows(item, t), WideInk(item, t), QuantityWhole(item.quantity), width, locale);
  }

  /** So a wide table with a quantity that goes on past five characters is never
      printed whole. */
  lemma {:induction false} LongQuantityIsCut(items: seq<Item>, i: nat, t: Table, width: nat, units: bool, locale: Locale)
    requires i < |items| && t == TableFor(items, width, units) && t.name >= 1
    requires |items[i].quantity| > 5 && items[i].quantity[5] != ' '
    ensures width >= 1 && InkOf(AllWideRows(items, t, width, locale)) != WideItemsInk(items, t, locale)
  {
    WideTablePrints(items, 0, t, width, units, locale);
    assert items[0..] == items;
    LongIsNotWhole(items[i].quantity);
    assert items[i] in items && !WideWhole(items);
  }

  lemma {:induction false} LongIsNotWhole(quantity: string)
    requires |quantity| > 5 && quantity[5] != ' '
    ensures !QuantityWhole(quantity)
  {
    assert quantity[5..] == [quantity[5]] + quantity[6..];
  }

  // ----- the body -----

  function TableInk(lines: seq<Line>, currency: Option<string>, width: nat, units: bool, locale: Locale): string {
    var items := ItemsOf(lines, currency, locale);
    var t := TableFor(items, width, units);
    if t.name < 6 then Ink("Ürün") + Ink("Adet") + CompactItemsInk(items, width, units, locale)
    else InkOf(Titles(units)) + WideItemsInk(items, t, locale)
  }

  function Titles(units: bool): seq<string> {
    ["Ürün", "Adet"] + (if units then ["Birim"] else []) + ["Toplam"]
  }

  predicate TableWhole(lines: seq<Line>, currency: Option<string>, width: nat, units: bool, locale: Locale) {
    var items := ItemsOf(lines, currency, locale);
    if TableFor(items, width, units).name < 6 then CompactWhole(items, width) else WideWhole(items)
  }

  lemma {:induction false} TitlesArePrinted(items: seq<Item>, width: nat, units: bool)
    requires TableFor(items, width, units).name >= 6
    ensures InkOf([Row(TableFor(items, width, units), "Ürün", "Adet", "Birim", "Toplam")]) == InkOf(Titles(units))
  {
    var t := TableFor(items, width, units);
    var titles := Titles(units);
    TitlesFit(items, width, units);
    TitlesInk(t, titles[0], titles[1], "Birim", titles[|titles| - 1]);
    assert titles == [titles[0]] + ([titles[1]] + (if units then ["Birim"] else []) + [titles[|titles| - 1]]);
  }

  lemma {:induction false} TitlesFit(items: seq<Item>, width: nat, units: bool)
    ensures var t := TableFor(items, width, units); t.quantity >= 4 && t.total >= 6 && (units ==> t.unit >= 5)
  {
  }

  lemma {:induction false} TitlesInk(t: Table, name: string, quantity: string, unit: string, total: string)
    requires |name| <= t.name && |quantity| <= t.quantity && |total| <= t.total && (t.units ==> |unit| <= t.unit)
    ensures InkOf([Row(t, name, quantity, unit, total)]) ==
            InkOf([name] + ([quantity] + (if t.units then [unit] else []) + [total]))
  {
    var item := Item(Line("", "", None, None, None, None, false, None), quantity, unit, total);
    CutRowInk(t, name, quantity, item);
    InkOfJoins([name], Amounts(quantity, item, t.units));
    InkOfOne(name);
  }

  lemma {:induction false} CompactBodyPrints(items: seq<Item>, width: nat, units: bool, locale: Locale)
    requires width >= 9
    ensures Prints([TwoColumns("Ürün", "Adet", width)] + AllCompactRows(items, width, units, locale),
                   Ink("Ürün") + Ink("Adet") + CompactItemsInk(items, width, units, locale), CompactWhole(items, width))
  {
    var titles := Ink("Ürün") + Ink("Adet");
    TwoColumnsPrint("Ürün", "Adet", width);
    CompactTablePrints(items, width, units, locale);
    PrintsJoin([TwoColumns("Ürün", "Adet", width)], titles, true,
               AllCompactRows(items, width, units, locale), CompactItemsInk(items, width, units, locale),
               CompactWhole(items, width));
  }

  lemma {:induction false} WideBodyPrints(items: seq<Item>, t: Table, width: nat, units: bool, locale: Locale)
    requires t == TableFor(items, width, units) && t.name >= 6
    ensures Prints([Row(t, "Ürün", "Adet", "Birim", "Toplam")] + AllWideRows(items, t, width, locale),
                   InkOf(Titles(units)) + WideItemsInk(items, t, locale), WideWhole(items))
  {
    TitlesArePrinted(items, width, units);
    WideTablePrints(items, 0, t, width, units, locale);
    assert items[0..] == items;
    PrintsJoin([Row(t, "Ürün", "Adet", "Birim", "Toplam")], InkOf(Titles(units)), true,
               AllWideRows(items, t, width, locale), WideItemsInk(items, t, locale), WideWhole(items));
  }

  lemma {:induction false} TablePrints(lines: seq<Line>, currency: Option<string>, width: nat, units: bool, locale: Locale)
    requires width >= 9
    ensures Prints(TableRows(lines, currency, width, units, locale), TableInk(lines, currency, width, units, locale),
                   TableWhole(lines, currency, width, units, locale))
  {
    var items := ItemsOf(lines, currency, locale);
    var t := TableFor(items, width, units);
    if t.name < 6 {
      CompactBodyPrints(items, width, units, locale);
    } else {
      WideBodyPrints(items, t, width, units, locale);
    }
  }

  function BodyInk(job: Claim, width: nat, locale: Locale): string {
    var doc, kind := job.document, KindOf(job, locale);
    if kind in {Bill, Courier} then TableInk(doc.lines, doc.currency, width, kind == Courier, locale) + Ink(Rule('-', width))
    else LinesInk(doc.lines, width, locale)
  }

  predicate BodyWhole(job: Claim, width: nat, locale: Locale) {
    var doc, kind := job.document, KindOf(job, locale);
    if kind in {Bill, Courier} then TableWhole(doc.lines, doc.currency, width, kind == Courier, locale)
    else LinesWhole(doc.lines, width)
  }

  lemma {:induction false} BodyPrints(job: Claim, width: nat, locale: Locale)
    requires width >= 9
    ensures Prints(BodyRows(job, width, locale), BodyInk(job, width, locale), BodyWhole(job, width, locale))
  {
    var doc, kind := job.document, KindOf(job, locale);
    if kind in {Bill, Courier} {
      var units := kind == Courier;
      TablePrints(doc.lines, doc.currency, width, units, locale);
      RulePrints('-', width);
      PrintsJoin(TableRows(doc.lines, doc.currency, width, units, locale), TableInk(doc.lines, doc.currency, width, units, locale),
                 TableWhole(doc.lines, doc.currency, width, units, locale), [Rule('-', width)], Ink(Rule('-', width)), true);
    } else {
      PreparationPrints(doc.lines, width, locale);
    }
  }

  // ----- head, totals and footer -----

  lemma {:induction false} RulePrints(c: char, width: nat)
    ensures Prints([Rule(c, width)], Ink(Rule(c, width)), true)
  {
    InkOfOne(Rule(c, width));
  }

  lemma {:induction false} HeadingsArePrinted(texts: seq<string>, width: nat)
    requires width >= 1
    ensures InkOf(CentredRows(texts, width)) == InkOf(texts)
    decreases texts
  {
    if texts != [] {
      CenterIsCentred(texts[0], width);
      HeadingsArePrinted(texts[1..], width);
      InkOfJoins(Center(texts[0], width), CentredRows(texts[1..], width));
    }
  }

  /** The print of the fields that are shown, in order. */
  function FieldInk(fields: seq<Field>): string {
    if fields == [] then ""
    else (if fields[0].shown then Ink(fields[0].name + ":") + Ink(fields[0].value) else "") + FieldInk(fields[1..])
  }

  /** Every shown field is printed in full, label and value, in order. */
  lemma {:induction false} FieldsArePrinted(fields: seq<Field>, width: nat)
    requires width >= 1
    ensures InkOf(FieldRows(fields, width)) == FieldInk(fields)
    decreases fields
  {
    if fields != [] {
      MetaKeepsInk(fields[0].name, fields[0].value, width);
      FieldsArePrinted(fields[1..], width);
      InkOfJoins(if fields[0].shown then Meta(fields[0].name, fields[0].value, width) else [], FieldRows(fields[1..], width));
    }
  }

  function TopInk(job: Claim, width: nat, locale: Locale): string {
    Ink(Rule('=', width)) + InkOf(Headings(job, locale)) + Ink(Rule('=', width)) +
    FieldInk(Fields(job, locale)) + Ink(Rule('-', width))
  }

  lemma {:induction false} TopIsPrinted(job: Claim, width: nat, locale: Locale)
    requires width >= 1
    ensures InkOf(TopRows(job, width, locale)) == TopInk(job, width, locale)
  {
    var heavy, rule := Rule('=', width), Rule('-', width);
    var headings, fields := CentredRows(Headings(job, locale), width), FieldRows(Fields(job, locale), width);
    HeadingsArePrinted(Headings(job, locale), width);
    FieldsArePrinted(Fields(job, locale), width);
    InkOfOne(heavy);
    InkOfOne(rule);
    InkOfJoins([heavy], headings);
    InkOfJoins([heavy] + headings, [heavy]);
    InkOfJoins([heavy] + headings + [heavy], fields);
    InkOfJoins([heavy] + headings + [heavy] + fields, [rule]);
  }

  predicate AmountWhole(field: Field, currency: Option<string>, width: nat, locale: Locale) {
    Blank(Lost(locale.upper(field.name), locale.amount(field.value, currency), width))
  }

  function AmountLinesInk(fields: seq<Field>, currency: Option<string>, locale: Locale): string {
    if fields == [] then ""
    else
      (if fields[0].shown then Ink(locale.upper(fields[0].name)) + Ink(locale.amount(fields[0].value, currency)) else "")
      + AmountLinesInk(fields[1..], currency, locale)
  }

  predicate AmountsWhole(fields: seq<Field>, currency: Option<string>, width: nat, locale: Locale) {
    forall field <- fields :: field.shown ==> AmountWhole(field, currency, width, locale)
  }

  lemma {:induction false} AmountLinesPrint(fields: seq<Field>, currency: Option<string>, width: nat, locale: Locale)
    ensures Prints(AmountLines(fields, currency, width, locale), AmountLinesInk(fields, currency, locale),
                   AmountsWhole(fields, currency, width, locale))
    decreases fields
  {
    if fields != [] {
      var field, rest := fields[0], fields[1..];
      AmountLinesPrint(rest, currency, width, locale);
      assert fields == [field] + rest;
      if field.shown {
        TwoColumnsPrint(locale.upper(field.name), locale.amount(field.value, currency), width);
        PrintsJoin([TotalLine(field, currency, width, locale)],
                   Ink(locale.upper(field.name)) + Ink(locale.amount(field.value, currency)),
                   AmountWhole(field, currency, width, locale),
                   AmountLines(rest, currency, width, locale), AmountLinesInk(rest, currency, locale),
                   AmountsWhole(rest, currency, width, locale));
      } else {
        assert AmountLines(fields, currency, width, locale) == AmountLines(rest, currency, width, locale);
        assert AmountLinesInk(fields, currency, locale) == AmountLinesInk(rest, currency, locale);
      }
    }
  }

  function TotalsInk(doc: Document, width: nat, locale: Locale): string {
    if doc.totals == None then ""
    else Ink(Rule('-', width)) + AmountLinesInk(TotalFields(doc.totals.value, locale), doc.currency, locale)
  }

  predicate TotalsWhole(doc: Document, width: nat, locale: Locale) {
    doc.totals.Some? ==> AmountsWhole(TotalFields(doc.totals.value, locale), doc.currency, width, locale)
  }

  lemma {:induction false} TotalsPrint(doc: Document, width: nat, locale: Locale)
    ensures Prints(TotalRows(doc, width, locale), TotalsInk(doc, width, locale), TotalsWhole(doc, width, locale))
  {
    if doc.totals.Some? {
      var fields := TotalFields(doc.totals.value, locale);
      RulePrints('-', width);
      AmountLinesPrint(fields, doc.currency, width, locale);
      PrintsJoin([Rule('-', width)], Ink(Rule('-', width)), true,
                 AmountLines(fields, doc.currency, width, locale), AmountLinesInk(fields, doc.currency, locale),
                 AmountsWhole(fields, doc.currency, width, locale));
    }
  }

  /** A footer line loses nothing but the colon of a labelled value. */
  function FooterLineInk(line: string, locale: Locale): string {
    match FooterLineOf(line, locale)
    case Plain(text) => Ink(text)
    case Unvalued(text) => Ink(text)
    case Labelled(heading, value) => Ink(heading) + Ink(value)
  }

  lemma {:induction false} FooterLineIsPrinted(line: string, width: nat, locale: Locale)
    requires width >= 1
    ensures InkOf(FooterLineRows(line, width, locale)) == FooterLineInk(line, locale)
  {
    match FooterLineOf(line, locale)
    case Plain(text) => CenterIsCentred(text, width);
    case Unvalued(text) => WrapIsTidy(text, width);
    case Labelled(heading, value) =>
      if |heading| + |value| + 1 <= width {
        TwoColumnsKeepInk(heading, value, width);
        InkOfOne(TwoColumns(heading, value, width));
      } else {
        WrapIsTidy(value, width);
        InkOfJoins([heading], Wrapped(value, width));
        InkOfOne(heading);
      }
  }

  function FooterInk(footer: seq<string>, locale: Locale): string {
    if footer == [] then "" else FooterLineInk(footer[0], locale) + FooterInk(footer[1..], locale)
  }

  lemma {:induction false} FootersArePrinted(footer: seq<string>, width: nat, locale: Locale)
    requires width >= 1
    ensures InkOf(AllFooterRows(footer, width, locale)) == FooterInk(footer, locale)
    decreases footer
  {
    if footer != [] {
      FooterLineIsPrinted(footer[0], width, locale);
      FootersArePrinted(footer[1..], width, locale);
      InkOfJoins(FooterLineRows(footer[0], width, locale), AllFooterRows(footer[1..], width, locale));
    }
  }

  function EndInk(doc: Document, width: nat, locale: Locale): string {
    (if doc.footer.Some? && doc.footer.value != [] then Ink(Rule('-', width)) + FooterInk(doc.footer.value, locale) else "")
    + Ink(Rule('=', width))
  }

  lemma {:induction false} EndIsPrinted(doc: Document, width: nat, locale: Locale)
    requires width >= 1
    ensures InkOf(FooterRows(doc, width, locale) + [Rule('=', width), "", "", ""]) == EndInk(doc, width, locale)
  {
    var last, blank := Rule('=', width), "";
    FootersArePrinted(Footer(doc), width, locale);
    InkOfOne(Rule('-', width));
    InkOfJoins([Rule('-', width)], AllFooterRows(Footer(doc), width, locale));
    InkOfOne(last);
    InkOfOne(blank);
    InkOfJoins([blank], [blank]);
    InkOfJoins([blank, blank], [blank]);
    InkOfJoins([last], [blank] + [blank] + [blank]);
    assert [last] + ([blank] + [blank] + [blank]) == [last, blank, blank, blank];
    InkOfJoins(FooterRows(doc, width, locale), [last, blank, blank, blank]);
  }

  // ----- the whole receipt -----

  /** Everything the document says, in the order of the receipt. */
  function ReceiptInk(job: Claim, width: nat, locale: Locale): string {
    TopInk(job, width, locale) + BodyInk(job, width, locale) + TotalsInk(job.document, width, locale)
    + EndInk(job.document, width, locale)
  }

  /** The receipt prints the whole document, in order and with nothing added, exactly
      when no quantity crowds out its dish, no quantity of the wide table goes on
      past five characters, and no total crowds out its label. */
  lemma {:induction false} ReceiptPrintsEverything(job: Claim, width: nat, locale: Locale)
    requires width >= 9
    ensures InkOf(Receipt.Receipt(job, width, locale)) == ReceiptInk(job, width, locale) <==>
            BodyWhole(job, width, locale) && TotalsWhole(job.document, width, locale)
  {
    var doc := job.document;
    var top, body, totals := TopRows(job, width, locale), BodyRows(job, width, locale), TotalRows(doc, width, locale);
    var footer, end := FooterRows(doc, width, locale), [Rule('=', width), "", "", ""];
    TopIsPrinted(job, width, locale);
    BodyPrints(job, width, locale);
    TotalsPrint(doc, width, locale);
    EndIsPrinted(doc, width, locale);
    PrintsJoin(top, TopInk(job, width, locale), true, body, BodyInk(job, width, locale), BodyWhole(job, width, locale));
    PrintsJoin(top + body, TopInk(job, width, locale) + BodyInk(job, width, locale), BodyWhole(job, width, locale),
               totals, TotalsInk(doc, width, locale), TotalsWhole(doc, width, locale));
    PrintsJoin(top + body + totals,
               TopInk(job, width, locale) + BodyInk(job, width, locale) + TotalsInk(doc, width, locale),
               BodyWhole(job, width, locale) && TotalsWhole(doc, width, locale),
               footer + end, EndInk(doc, width, locale), true);
    Associate(top + body + totals, footer, end);
  }

  lemma {:induction false} ShortLinesAreWhole(lines: seq<Line>, width: nat)
    requires width >= 15 && forall line <- lines :: |line.quantity| <= 5
    ensures LinesWhole(lines, width)
  {
    forall line <- lines
      ensures NameWhole(line.name, line.quantity + "x", 8, width)
    {
      ShortQuantityIsEnough(line.name, line.quantity + "x", 8, width);
    }
  }

  lemma {:induction false} ShortItemsAreWhole(items: seq<Item>, width: nat)
    requires width >= 13 && forall item <- items :: |item.quantity| <= 5
    ensures CompactWhole(items, width) && WideWhole(items)
  {
    forall item <- items
      ensures NameWhole(item.line.name, item.quantity + "x", 6, width)
    {
      ShortQuantityIsEnough(item.line.name, item.quantity + "x", 6, width);
    }
  }

  lemma {:induction false} ShortBodyIsWhole(job: Claim, width: nat, locale: Locale)
    requires width >= 15 && forall line <- job.document.lines :: |line.quantity| <= 5
    ensures BodyWhole(job, width, locale)
  {
    var doc := job.document;
    ShortLinesAreWhole(doc.lines, width);
    ShortItemsAreWhole(ItemsOf(doc.lines, doc.currency, locale), width);
  }

  predicate LabelFits(field: Field, currency: Option<string>, width: nat, locale: Locale) {
    |locale.upper(field.name)| + |locale.amount(field.value, currency)| < width
  }

  lemma {:induction false} ShortAmountsAreWhole(fields: seq<Field>, currency: Option<string>, width: nat, locale: Locale)
    requires forall field <- fields :: LabelFits(field, currency, width, locale)
    ensures AmountsWhole(fields, currency, width, locale)
  {
    forall field <- fields
      ensures AmountWhole(field, currency, width, locale)
    {
      assert LabelFits(field, currency, width, locale);
    }
  }

  /** Short texts are enough: five characters a quantity, and labels that leave the
      amounts room, on paper of fifteen columns or more. */
  lemma {:induction false} ShortTextsArePrinted(job: Claim, width: nat, locale: Locale)
    requires width >= 15
    requires forall line <- job.document.lines :: |line.quantity| <= 5
    requires var doc := job.document;
             doc.totals.Some? ==>
               forall field <- TotalFields(doc.totals.value, locale) :: LabelFits(field, doc.currency, width, locale)
    ensures InkOf(Receipt.Receipt(job, width, locale)) == ReceiptInk(job, width, locale)
  {
    var doc := job.document;
    ShortBodyIsWhole(job, width, locale);
    if doc.totals.Some? {
      ShortAmountsAreWhole(TotalFields(doc.totals.value, locale), doc.currency, width, locale);
    }
    ReceiptPrintsEverything(job, width, locale);
  }

  lemma {:induction false} ShownAmountIsPrinted(fields: seq<Field>, i: nat, currency: Option<string>, width: nat, locale: Locale)
    requires i < |fields| && fields[i].shown
    ensures TotalLine(fields[i], currency, width, locale) in AmountLines(fields, currency, width, locale)
    decreases fields
  {
    if i > 0 {
      ShownAmountIsPrinted(fields[1..], i - 1, currency, width, locale);
    }
  }

  /** A receipt with totals has the row of the grand total, and it ends with the whole
      amount exactly when the amount is not wider than the paper. */
  lemma {:induction false} GrandTotalIsPrinted(job: Claim, width: nat, locale: Locale)
    requires width >= 1 && job.document.totals.Some?
    ensures var amount := locale.amount(job.document.totals.value.total, job.document.currency);
            var row := TwoColumns(locale.upper("GENEL TOPLAM"), amount, width);
            && row in Receipt.Receipt(job, width, locale) && |row| == width
            && ((|amount| <= |row| && row[|row| - |amount|..] == amount) <==> |amount| <= width)
  {
    var doc := job.document;
    var fields := TotalFields(doc.totals.value, locale);
    var row := TotalLine(fields[5], doc.currency, width, locale);
    ShownAmountIsPrinted(fields, 5, doc.currency, width, locale);
    assert row in TotalRows(doc, width, locale);
    InReceipt(row, job, width, locale);
  }

  lemma {:induction false} InReceipt(row: string, job: Claim, width: nat, locale: Locale)
    requires width >= 1 && row in TotalRows(job.document, width, locale)
    ensures row in Receipt.Receipt(job, width, locale)
  {
    var above := TopRows(job, width, locale) + BodyRows(job, width, locale);
    InMiddle(row, above, TotalRows(job.document, width, locale), FooterRows(job.document, width, locale),
             [Rule('=', width), "", "", ""]);
  }

  lemma {:induction false} InMiddle(row: string, a: seq<string>, b: seq<string>, c: seq<string>, d: seq<string>)
    requires row in b
    ensures row in a + b + c + d
  {
  }
}

/** The text primitives of the receipt layout: word wrap, centring and columns.
    A string is a sequence of UTF-16 code units, as JavaScript measures it. */
module TextWrap {
  import opened Wrappers

  // ----- splitting and joining -----

  /** The pieces between single spaces. */
  function Words(text: string): (ws: seq<string>)
    ensures ws != []
  {
    if text == "" then [""]
    else
      var rest := Words(text[1..]);
      if text[0] == ' ' then [""] + rest else [[text[0]] + rest[0]] + rest[1..]
  }

  function Join(parts: seq<string>, separator: string): string {
    if parts == [] then ""
    else if |parts| == 1 then parts[0]
    else parts[0] + separator + Join(parts[1..], separator)
  }

  function Spaces(n: nat): (s: string)
    ensures |s| == n && Ink(s) == ""
  {
    if n == 0 then "" else " " + Spaces(n - 1)
  }

  /** What is printed: everything but the spaces. */
  function Ink(text: string): string {
    if text == "" then "" else (if text[0] == ' ' then "" else [text[0]]) + Ink(text[1..])
  }

  function InkOf(lines: seq<string>): string {
    if lines == [] then "" else Ink(lines[0]) + InkOf(lines[1..])
  }

  function FirstWord(line: string): (word: string)
    ensures |word| <= |line|
  {
    if line == "" || line[0] == ' ' then "" else [line[0]] + FirstWord(line[1..])
  }

  predicate Spaceless(word: string) {
    ' ' !in word
  }

  lemma {:induction false} InkJoins(a: string, b: string)
    ensures Ink(a + b) == Ink(a) + Ink(b)
  {
    if a == "" {
      assert a + b == b;
    } else {
      assert (a + b)[1..] == a[1..] + b;
      InkJoins(a[1..], b);
    }
  }

  lemma {:induction false} InkOfJoins(a: seq<string>, b: seq<string>)
    ensures InkOf(a + b) == InkOf(a) + InkOf(b)
  {
    if a == [] {
      assert a + b == b;
    } else {
      assert (a + b)[1..] == a[1..] + b;
      InkOfJoins(a[1..], b);
    }
  }

  lemma {:induction false} WordsAreSpaceless(text: string)
    ensures forall i :: 0 <= i < |Words(text)| ==> Spaceless(Words(text)[i])
  {
    if text != "" {
      WordsAreSpaceless(text[1..]);
    }
  }

  lemma {:induction false} WordsJoinBack(text: string)
    ensures Join(Words(text), " ") == text
  {
    if text != "" {
      WordsJoinBack(text[1..]);
      var rest := Words(text[1..]);
      assert Words(text)[1..] == if text[0] == ' ' then rest else rest[1..];
    }
  }

  lemma {:induction false} WordsKeepInk(text: string)
    ensures InkOf(Words(text)) == Ink(text)
  {
    if text != "" {
      WordsKeepInk(text[1..]);
      var rest := Words(text[1..]);
      if text[0] == ' ' {
        assert Words(text)[1..] == rest;
      } else {
        assert Words(text)[1..] == rest[1..];
        assert ([text[0]] + rest[0])[1..] == rest[0];
      }
    }
  }

  lemma {:induction false} FirstWordStops(word: string, rest: string)
    ensures FirstWord(word + " " + rest) == FirstWord(word)
  {
    var all := word + " " + rest;
    if word != "" && word[0] != ' ' {
      assert all[1..] == word[1..] + " " + rest;
      FirstWordStops(word[1..], rest);
    }
  }

  lemma {:induction false} FirstWordOfAWord(word: string)
    requires Spaceless(word)
    ensures FirstWord(word) == word
  {
    if word != "" {
      FirstWordOfAWord(word[1..]);
    }
  }

  /** Joining cares only about the parts, not about which of them came joined. */
  lemma {:induction false} JoinMerges(a: seq<string>, x: string, y: string, b: seq<string>)
    ensures Join(a + [x + " " + y] + b, " ") == Join(a + [x, y] + b, " ")
  {
    if a == [] {
      var merged := a + [x + " " + y] + b;
      var apart := a + [x, y] + b;
      assert merged[1..] == b && apart[1..] == [y] + b && ([y] + b)[1..] == b;
      if b != [] {
        assert (x + " " + y) + " " + Join(b, " ") == x + " " + (y + " " + Join(b, " "));
      }
    } else {
      assert (a + [x + " " + y] + b)[1..] == a[1..] + [x + " " + y] + b;
      assert (a + [x, y] + b)[1..] == a[1..] + [x, y] + b;
      JoinMerges(a[1..], x, y, b);
    }
  }

  // ----- word wrap -----

  /** The finished lines and the line being filled. */
  datatype Layout = Layout(lines: seq<string>, current: string) {
    function Flushed(): seq<string> {
      if current != "" then lines + [current] else lines
    }

    function Finished(): seq<string> {
      if Flushed() == [] then [""] else Flushed()
    }
  }

  /** Cuts an overlong word into full lines and a rest. */
  function Chop(word: string, width: nat): (cut: Layout)
    requires width >= 1
  {
    if |word| <= width then Layout([], word)
    else
      var rest := Chop(word[width..], width);
      Layout([word[..width]] + rest.lines, rest.current)
  }

  function Place(page: Layout, word: string, width: nat): Layout
    requires width >= 1
  {
    if |word| > width then
      var cut := Chop(word, width);
      Layout(page.Flushed() + cut.lines, cut.current)
    else
      var candidate := if page.current != "" then page.current + " " + word else word;
      if |candidate| > width then Layout(page.Flushed(), word) else Layout(page.lines, candidate)
  }

  function PlaceAll(page: Layout, words: seq<string>, width: nat): Layout
    requires width >= 1
    decreases words
  {
    if words == [] then page else PlaceAll(Place(page, words[0], width), words[1..], width)
  }

  function Wrapped(text: string, width: nat): (lines: seq<string>)
    requires width >= 1
    ensures lines != []
  {
    PlaceAll(Layout([], ""), Words(text), width).Finished()
  }

  /** The inner loop of `wrap`, over a word longer than a line. */
  method ChopInto(lines: seq<string>, word: string, width: nat) returns (page: Layout)
    requires width >= 1
    ensures page == Layout(lines + Chop(word, width).lines, Chop(word, width).current)
  {
    var out, remaining := lines, word;
    while |remaining| > width
      invariant out + Chop(remaining, width).lines == lines + Chop(word, width).lines
      invariant Chop(remaining, width).current == Chop(word, width).current
      decreases |remaining|
    {
      var rest := remaining[width..];
      assert out + Chop(remaining, width).lines == (out + [remaining[..width]]) + Chop(rest, width).lines;
      out := out + [remaining[..width]];
      remaining := rest;
    }
    page := Layout(out, remaining);
  }

  /** `wrap` */
  method Wrap(text: string, width: nat) returns (wrapped: seq<string>)
    requires width >= 1
    ensures wrapped == Wrapped(text, width)
  {
    var words := Words(text);
    var page := Layout([], "");
    for i := 0 to |words|
      invariant PlaceAll(page, words[i..], width) == PlaceAll(Layout([], ""), words, width)
    {
      var word := words[i];
      ghost var before := page;
      if |word| > width {
        page := ChopInto(page.Flushed(), word, width);
      } else {
        var candidate := if page.current != "" then page.current + " " + word else word;
        if |candidate| > width {
          page := Layout(page.Flushed(), word);
        } else {
          page := Layout(page.lines, candidate);
        }
      }
      assert page == Place(before, word, width);
      assert words[i..][1..] == words[i + 1..];
    }
    wrapped := page.Flushed();
    if wrapped == [] {
      wrapped := [""];
    }
  }

  predicate GoodLine(line: string, width: nat) {
    line != "" && |line| <= width && line[0] != ' '
  }

  /** The next line's first word would not have fitted on this one. */
  predicate Full(line: string, next: string, width: nat) {
    |line| + 1 + |FirstWord(next)| > width
  }

  /** Lines as wrapping leaves them. */
  predicate Ragged(lines: seq<string>, width: nat) {
    && (forall i :: 0 <= i < |lines| ==> GoodLine(lines[i], width))
    && (forall i :: 0 < i < |lines| ==> Full(lines[i - 1], lines[i], width))
  }

  lemma {:induction false} RaggedJoins(a: seq<string>, b: seq<string>, width: nat)
    requires Ragged(a, width) && Ragged(b, width)
    requires a != [] && b != [] ==> Full(a[|a| - 1], b[0], width)
    ensures Ragged(a + b, width)
  {
  }

  /** What holds between two words. */
  predicate Tidy(page: Layout, width: nat) {
    && Ragged(page.Flushed(), width)
    && (page.current == "" && page.lines != [] ==> |page.lines[|page.lines| - 1]| == width)
  }

  lemma {:induction false} ChopIsRagged(word: string, width: nat)
    requires width >= 1 && Spaceless(word) && word != ""
    ensures Ragged(Chop(word, width).Flushed(), width) && Chop(word, width).current != ""
    ensures |word| > width ==> |FirstWord(Chop(word, width).Flushed()[0])| == width
    decreases |word|
  {
    var cut := Chop(word, width);
    if |word| > width {
      var rest := Chop(word[width..], width);
      ChopIsRagged(word[width..], width);
      FirstWordOfAWord(word[..width]);
      RaggedJoins([word[..width]], rest.Flushed(), width);
      assert cut.Flushed() == [word[..width]] + rest.Flushed();
    } else {
      assert cut.Flushed() == [word];
    }
  }

  lemma {:induction false} ChopKeepsInk(word: string, width: nat)
    requires width >= 1
    ensures InkOf(Chop(word, width).Flushed()) == Ink(word)
    decreases |word|
  {
    var cut := Chop(word, width);
    InkOfFlushed(cut);
    if |word| > width {
      var rest := Chop(word[width..], width);
      ChopKeepsInk(word[width..], width);
      InkOfFlushed(rest);
      assert word == word[..width] + word[width..];
      InkJoins(word[..width], word[width..]);
      assert cut.lines[1..] == rest.lines;
    }
  }

  lemma {:induction false} PlaceIsTidy(page: Layout, word: string, width: nat)
    requires width >= 1 && Tidy(page, width) && Spaceless(word)
    ensures Tidy(Place(page, word, width), width)
  {
    var after := Place(page, word, width);
    if |word| > width {
      var cut := Chop(word, width);
      ChopIsRagged(word, width);
      RaggedJoins(page.Flushed(), cut.Flushed(), width);
      assert after.Flushed() == page.Flushed() + cut.Flushed();
    } else if page.current != "" && after.lines == page.lines {
      GrowsTidily(page, word, width);
    } else {
      var tail := Layout([], word).Flushed();
      FirstWordOfAWord(word);
      RaggedJoins(page.Flushed(), tail, width);
      assert after.Flushed() == page.Flushed() + tail;
    }
  }

  lemma {:induction false} GrowsTidily(page: Layout, word: string, width: nat)
    requires Tidy(page, width) && page.current != "" && |page.current + " " + word| <= width
    ensures Tidy(Layout(page.lines, page.current + " " + word), width)
  {
    var flushed := page.Flushed();
    var longer := page.current + " " + word;
    FirstWordStops(page.current, word);
    assert Layout(page.lines, longer).Flushed() == flushed[|flushed| - 1 := longer];
  }

  lemma {:induction false} InkOfTwo(left: string, right: string)
    ensures Ink(left + " " + right) == Ink(left) + Ink(right)
  {
    InkJoins(left, " " + right);
    assert left + " " + right == left + (" " + right);
    assert (" " + right)[1..] == right;
  }

  lemma {:induction false} GrowthKeepsInk(lines: seq<string>, current: string, longer: string, word: string)
    requires Ink(longer) == Ink(current) + Ink(word)
    ensures InkOf(Layout(lines, longer).Flushed()) == InkOf(Layout(lines, current).Flushed()) + Ink(word)
  {
    InkOfFlushed(Layout(lines, current));
    InkOfFlushed(Layout(lines, longer));
    Associate(InkOf(lines), Ink(current), Ink(word));
  }

  lemma {:induction false} AppendingKeepsInk(page: Layout, word: string, width: nat)
    requires width >= 1
    ensures InkOf(page.Flushed() + Chop(word, width).Flushed()) == InkOf(page.Flushed()) + Ink(word)
  {
    ChopKeepsInk(word, width);
    InkOfJoins(page.Flushed(), Chop(word, width).Flushed());
  }

  lemma {:induction false} PlaceKeepsInk(page: Layout, word: string, width: nat)
    requires width >= 1
    ensures InkOf(Place(page, word, width).Flushed()) == InkOf(page.Flushed()) + Ink(word)
  {
    var after := Place(page, word, width);
    if after == Layout(page.lines, page.current + " " + word) {
      InkOfTwo(page.current, word);
      GrowthKeepsInk(page.lines, page.current, after.current, word);
    } else {
      AppendingKeepsInk(page, word, width);
      assert after.Flushed() == page.Flushed() + Chop(word, width).Flushed();
    }
  }

  lemma {:induction false} InkOfFlushed(page: Layout)
    ensures InkOf(page.Flushed()) == InkOf(page.lines) + Ink(page.current)
  {
    InkOfJoins(page.lines, [page.current]);
    assert InkOf([page.current]) == Ink(page.current) + InkOf([page.current][1..]);
  }

  lemma {:induction false} PlaceAllIsTidy(page: Layout, words: seq<string>, width: nat)
    requires width >= 1 && Tidy(page, width) && forall i :: 0 <= i < |words| ==> Spaceless(words[i])
    ensures Tidy(PlaceAll(page, words, width), width)
    ensures InkOf(PlaceAll(page, words, width).Flushed()) == InkOf(page.Flushed()) + InkOf(words)
    decreases words
  {
    if words != [] {
      PlaceIsTidy(page, words[0], width);
      PlaceKeepsInk(page, words[0], width);
      PlaceAllIsTidy(Place(page, words[0], width), words[1..], width);
    }
  }

  /** Every line fits and starts with print, the break after it was forced, and all
      the print comes through in order. */
  lemma {:induction false} WrapIsTidy(text: string, width: nat)
    requires width >= 1
    ensures Wrapped(text, width) == [""] || Ragged(Wrapped(text, width), width)
    ensures InkOf(Wrapped(text, width)) == Ink(text)
  {
    WordsAreSpaceless(text);
    WordsKeepInk(text);
    PlaceAllIsTidy(Layout([], ""), Words(text), width);
    assert InkOf([""]) == Ink("") + InkOf([""][1..]);
  }

  lemma {:induction false} WrapFits(text: string, width: nat)
    requires width >= 1
    ensures forall i :: 0 <= i < |Wrapped(text, width)| ==> |Wrapped(text, width)[i]| <= width
  {
    WrapIsTidy(text, width);
  }

  /** A line being filled only grows while it fits. */
  lemma {:induction false} FillsOneLine(line: string, words: seq<string>, width: nat)
    requires width >= 1 && line != "" && |Join([line] + words, " ")| <= width
    ensures PlaceAll(Layout([], line), words, width) == Layout([], Join([line] + words, " "))
    decreases words
  {
    if words == [] {
      assert [line] + words == [line];
    } else {
      var longer := line + " " + words[0];
      JoinMerges([], line, words[0], words[1..]);
      assert [] + [line, words[0]] + words[1..] == [line] + words;
      assert [] + [longer] + words[1..] == [longer] + words[1..];
      JoinIsLonger(longer, words[1..]);
      FillsOneLine(longer, words[1..], width);
    }
  }

  lemma {:induction false} JoinIsLonger(line: string, words: seq<string>)
    ensures |Join([line] + words, " ")| >= |line|
  {
    assert ([line] + words)[1..] == words;
  }

  /** Exactly the lines that fit and do not start with a space are left alone. */
  lemma {:induction false} FixedPoints(line: string, width: nat)
    requires width >= 1
    ensures Wrapped(line, width) == [line] <==> |line| <= width && (line == "" || line[0] != ' ')
  {
    WrapIsTidy(line, width);
    if |line| <= width && line != "" && line[0] != ' ' {
      var words := Words(line);
      WordsJoinBack(line);
      assert words == [words[0]] + words[1..];
      JoinIsLonger(words[0], words[1..]);
      FillsOneLine(words[0], words[1..], width);
    }
  }

  /** Wrapping a wrapped line again changes nothing. */
  lemma {:induction false} WrapIsIdempotent(text: string, width: nat, i: nat)
    requires width >= 1 && i < |Wrapped(text, width)|
    ensures Wrapped(Wrapped(text, width)[i], width) == [Wrapped(text, width)[i]]
  {
    WrapIsTidy(text, width);
    FixedPoints(Wrapped(text, width)[i], width);
  }

  lemma {:induction false} PlaceAllJoins(page: Layout, words: seq<string>, width: nat)
    requires width >= 1 && (page.current == "" ==> page.lines == [])
    requires forall i :: 0 <= i < |words| ==> 0 < |words[i]| <= width
    ensures Join(PlaceAll(page, words, width).Flushed(), " ") == Join(page.Flushed() + words, " ")
    decreases words
  {
    if words == [] {
      assert page.Flushed() + words == page.Flushed();
    } else {
      var after := Place(page, words[0], width);
      PlaceAllJoins(after, words[1..], width);
      if page.current != "" && after.lines == page.lines {
        JoinMerges(page.lines, page.current, words[0], words[1..]);
        assert page.Flushed() + words == page.lines + [page.current, words[0]] + words[1..];
      } else {
        assert page.Flushed() + words == after.Flushed() + words[1..];
      }
    }
  }

  /** Single-spaced text whose words fit is its lines joined by spaces. */
  lemma {:induction false} WrapJoinsBack(text: string, width: nat)
    requires width >= 1
    requires text == "" || forall i :: 0 <= i < |Words(text)| ==> 0 < |Words(text)[i]| <= width
    ensures Join(Wrapped(text, width), " ") == text
  {
    WordsJoinBack(text);
    if text == "" {
      FixedPoints(text, width);
    } else {
      var page := Layout([], "");
      PlaceAllJoins(page, Words(text), width);
      assert page.Flushed() + Words(text) == Words(text);
    }
  }

  // ----- centring and columns -----

  function Centred(line: string, width: nat): string
    requires |line| <= width
  {
    Spaces((width - |line|) / 2) + line
  }

  /** `center` */
  function Center(text: string, width: nat): (lines: seq<string>)
    requires width >= 1
  {
    WrapFits(text, width);
    var wrapped := Wrapped(text, width);
    seq(|wrapped|, i requires 0 <= i < |wrapped| && |wrapped[i]| <= width => Centred(wrapped[i], width))
  }

  /** Cuts the left text where the two do not fit side by side, never the right one
      unless it alone fills the line. */
  function TwoColumns(left: string, right: string, width: nat): (row: string)
    ensures |row| == width
    ensures |right| < width ==> row[width - |right|..] == right && row[width - |right| - 1] == ' '
    ensures |left| + |right| < width ==> left <= row
  {
    if |right| >= width then right[..width]
    else if |left| + |right| + 1 > width then left[..width - |right| - 1] + " " + right
    else
      var gap := Spaces(width - |left| - |right|);
      SpacesAreSpaces(width - |left| - |right|);
      left + gap + right
  }

  /** Two texts that fit side by side are both printed in full. */
  lemma {:induction false} TwoColumnsKeepInk(left: string, right: string, width: nat)
    requires |left| + |right| < width
    ensures Ink(TwoColumns(left, right, width)) == Ink(left) + Ink(right)
  {
    var gap := Spaces(width - |left| - |right|);
    InkJoins(left + gap, right);
    InkJoins(left, gap);
  }

  lemma {:induction false} SpacesAreSpaces(n: nat)
    ensures forall i :: 0 <= i < n ==> Spaces(n)[i] == ' '
  {
    if n > 0 {
      SpacesAreSpaces(n - 1);
    }
  }

  datatype Cell = Cell(value: string, width: nat)

  function Cut(cell: Cell): (s: string)
    ensures |s| <= cell.width && s <= cell.value
  {
    if |cell.value| > cell.width then cell.value[..cell.width] else cell.value
  }

  function PadEnd(cell: Cell): (s: string)
    ensures |s| == cell.width
  {
    Cut(cell) + Spaces(cell.width - |Cut(cell)|)
  }

  function PadStart(cell: Cell): (s: string)
    ensures |s| == cell.width
  {
    Spaces(cell.width - |Cut(cell)|) + Cut(cell)
  }

  /** The cells after the first, each behind a space. */
  function RightCells(cells: seq<Cell>): (s: string)
    ensures |s| == TotalWidth(cells) + |cells|
  {
    if cells == [] then "" else " " + PadStart(cells[0]) + RightCells(cells[1..])
  }

  function TotalWidth(cells: seq<Cell>): nat {
    if cells == [] then 0 else cells[0].width + TotalWidth(cells[1..])
  }

  /** `columns`: the first cell flush left, the others flush right. */
  function Columns(first: Cell, others: seq<Cell>): (row: string)
    ensures |row| == TotalWidth([first] + others) + |others|
  {
    assert ([first] + others)[1..] == others;
    PadEnd(first) + RightCells(others)
  }

  function Values(cells: seq<Cell>): seq<string> {
    if cells == [] then [] else [cells[0].value] + Values(cells[1..])
  }

  predicate CellsFit(cells: seq<Cell>) {
    forall i :: 0 <= i < |cells| ==> |cells[i].value| <= cells[i].width
  }

  lemma {:induction false} SpaceBefore(s: string)
    ensures Ink(" " + s) == Ink(s)
  {
    assert (" " + s)[1..] == s;
  }

  lemma {:induction false} RightCellsKeepInk(cells: seq<Cell>)
    requires CellsFit(cells)
    ensures Ink(RightCells(cells)) == InkOf(Values(cells))
  {
    if cells != [] {
      var cell, rest := PadStart(cells[0]), RightCells(cells[1..]);
      RightCellsKeepInk(cells[1..]);
      PaddedInk(cells[0]);
      InkJoins(cell, rest);
      SpaceBefore(cell + rest);
      assert RightCells(cells) == " " + (cell + rest);
      assert Values(cells)[1..] == Values(cells[1..]);
    }
  }

  lemma {:induction false} PaddedInk(cell: Cell)
    requires |cell.value| <= cell.width
    ensures Ink(PadStart(cell)) == Ink(cell.value) && Ink(PadEnd(cell)) == Ink(cell.value)
  {
    var gap := Spaces(cell.width - |cell.value|);
    InkJoins(gap, cell.value);
    InkJoins(cell.value, gap);
  }

  /** A row whose cells fit prints all of them in order. */
  lemma {:induction false} ColumnsKeepInk(first: Cell, others: seq<Cell>)
    requires CellsFit([first] + others)
    ensures Ink(Columns(first, others)) == Ink(first.value) + InkOf(Values(others))
  {
    assert forall i :: 0 <= i < |others| ==> others[i] == ([first] + others)[i + 1];
    assert first == ([first] + others)[0];
    PaddedInk(first);
    RightCellsKeepInk(others);
    InkJoins(PadEnd(first), RightCells(others));
  }

  /** `meta`: label and value on one line, or the value wrapped below its heading. */
  function Meta(name: string, value: string, width: nat): (lines: seq<string>)
    requires width >= 1
  {
    var heading := name + ":";
    if |heading| + |value| + 1 <= width then [TwoColumns(heading, value, width)]
    else [heading] + Wrapped(value, width)
  }

  predicate Fits(lines: seq<string>, width: nat) {
    forall i :: 0 <= i < |lines| ==> |lines[i]| <= width
  }

  lemma {:induction false} SameInk(a: seq<string>, b: seq<string>)
    requires |a| == |b| && forall i :: 0 <= i < |a| ==> Ink(a[i]) == Ink(b[i])
    ensures InkOf(a) == InkOf(b)
  {
    if a != [] {
      SameInk(a[1..], b[1..]);
    }
  }

  /** The line in the middle, the margins differing by one space at most. */
  predicate IsCentred(centred: string, line: string, width: nat) {
    exists margin: nat :: centred == Spaces(margin) + line && 0 <= width - |centred| - margin <= 1
  }

  lemma {:induction false} CentredLine(line: string, width: nat)
    requires |line| <= width
    ensures IsCentred(Centred(line, width), line, width) && Ink(Centred(line, width)) == Ink(line)
  {
    var margin := (width - |line|) / 2;
    assert Centred(line, width) == Spaces(margin) + line;
    InkJoins(Spaces(margin), line);
  }

  /** Centring keeps the print and the line breaks of wrapping. */
  lemma {:induction false} CenterIsCentred(text: string, width: nat)
    requires width >= 1
    ensures |Center(text, width)| == |Wrapped(text, width)|
    ensures forall i :: 0 <= i < |Center(text, width)| ==> IsCentred(Center(text, width)[i], Wrapped(text, width)[i], width)
    ensures Fits(Center(text, width), width) && InkOf(Center(text, width)) == Ink(text)
  {
    var lines, wrapped := Center(text, width), Wrapped(text, width);
    WrapFits(text, width);
    WrapIsTidy(text, width);
    forall i | 0 <= i < |lines|
      ensures IsCentred(lines[i], wrapped[i], width) && Ink(lines[i]) == Ink(wrapped[i])
    {
      CentredLine(wrapped[i], width);
    }
    SameInk(lines, wrapped);
  }

  lemma {:induction false} CenterFits(text: string, width: nat)
    requires width >= 1
    ensures Fits(Center(text, width), width)
  {
    CenterIsCentred(text, width);
  }

  /** A labelled value stays within the width exactly when its heading does. */
  lemma {:induction false} MetaFits(name: string, value: string, width: nat)
    requires width >= 1
    ensures Fits(Meta(name, value, width), width) <==> |name| + 1 <= width
  {
    var heading := name + ":";
    if |heading| + |value| + 1 > width {
      WrapFits(value, width);
      assert ([heading] + Wrapped(value, width))[0] == heading;
    }
  }

  /** Label and value are printed in full, on one line or two. */
  lemma {:induction false} MetaKeepsInk(name: string, value: string, width: nat)
    requires width >= 1
    ensures InkOf(Meta(name, value, width)) == Ink(name + ":") + Ink(value)
  {
    var heading := name + ":";
    if |heading| + |value| + 1 <= width {
      var row := TwoColumns(heading, value, width);
      TwoColumnsKeepInk(heading, value, width);
      assert InkOf([row]) == Ink(row) + InkOf([row][1..]);
    } else {
      WrapIsTidy(value, width);
      InkOfJoins([heading], Wrapped(value, width));
      assert InkOf([heading]) == Ink(heading) + InkOf([heading][1..]);
    }
  }
}

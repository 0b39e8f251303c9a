/** Product import: which rows of a file are valid, and what a real run makes of the
    branch's products. Name normalisation and case folding are parameters. */
module Catalog {
  import opened Wrappers

  type Id = nat

  datatype Text = Text(normalize: string -> string, fold: string -> string, strip: string -> string)

  /** The values that a row carries and an update overwrites. */
  datatype Details = Details(
    internalName: Option<string>, description: Option<string>, sellingPrice: real, costPrice: Option<real>, taxRate: real,
    isActive: bool, isAvailable: bool, qrVisible: bool, waiterVisible: bool, preparationMinutes: Option<nat>,
    trackInventory: bool)

  /** The values that only the catalogue has. */
  datatype Extras = Extras(sortOrder: int, allergens: seq<string>, tags: seq<string>, images: seq<string>)

  /** An empty stock code is none. */
  datatype Product = Product(sku: string, name: string, category: Id, station: Option<Id>, details: Details, extras: Extras)

  datatype Row = Row(number: nat, category: string, station: string, sku: string, name: string, details: Details)

  /** A row with the category and station it names. */
  datatype Match = Match(row: Row, category: Id, station: Option<Id>)

  datatype Named = Named(id: Id, name: string)

  datatype Field = CategoryField | StationField | SkuField

  datatype Problem = NotFound | Ambiguous | InUse | Repeated

  datatype RowError = RowError(number: nat, field: Field, problem: Problem)

  // ----- validation -----

  function Candidates(named: seq<Named>, name: string, text: Text): seq<Id> {
    if named == [] then []
    else
      (if text.normalize(named[0].name) == text.normalize(name) then [named[0].id] else []) +
      Candidates(named[1..], name, text)
  }

  function SkusOf(products: seq<Product>, text: Text): set<string> {
    set i | 0 <= i < |products| && products[i].sku != "" :: text.fold(products[i].sku)
  }

  datatype Branch = Branch(categories: seq<Named>, stations: seq<Named>, products: seq<Product>)

  /** An earlier row of the file has the same stock code, valid or not. */
  predicate RepeatsSku(rows: seq<Row>, i: nat, text: Text)
    requires i < |rows|
  {
    exists j :: 0 <= j < i && rows[j].sku != "" && text.fold(rows[j].sku) == text.fold(rows[i].sku)
  }

  predicate SkuIsFree(b: Branch, rows: seq<Row>, i: nat, update: bool, text: Text)
    requires i < |rows|
  {
    rows[i].sku == "" ||
    ((update || text.fold(rows[i].sku) !in SkusOf(b.products, text)) && !RepeatsSku(rows, i, text))
  }

  predicate PlaceIsKnown(b: Branch, row: Row, text: Text) {
    && |Candidates(b.categories, row.category, text)| == 1
    && (row.station == "" || |Candidates(b.stations, row.station, text)| == 1)
  }

  /** What makes a row valid. */
  predicate IsValid(b: Branch, rows: seq<Row>, i: nat, update: bool, text: Text)
    requires i < |rows|
  {
    PlaceIsKnown(b, rows[i], text) && SkuIsFree(b, rows, i, update, text)
  }

  function MatchOf(b: Branch, row: Row, text: Text): Match
    requires PlaceIsKnown(b, row, text)
  {
    Match(row, Candidates(b.categories, row.category, text)[0],
          if row.station == "" then None else Some(Candidates(b.stations, row.station, text)[0]))
  }

  /** The valid ones among the first n rows, in order. */
  function ValidRows(b: Branch, rows: seq<Row>, n: nat, update: bool, text: Text): seq<Match>
    requires n <= |rows|
  {
    if n == 0 then []
    else
      ValidRows(b, rows, n - 1, update, text) +
      (if IsValid(b, rows, n - 1, update, text) then [MatchOf(b, rows[n - 1], text)] else [])
  }

  /** The errors of a name that should match once. */
  function NameErrors(number: nat, field: Field, found: seq<Id>): seq<RowError> {
    if |found| == 0 then [RowError(number, field, NotFound)]
    else if |found| > 1 then [RowError(number, field, Ambiguous)]
    else []
  }

  function PlaceErrors(b: Branch, row: Row, text: Text): (errors: seq<RowError>)
    ensures errors == [] <==> PlaceIsKnown(b, row, text)
  {
    NameErrors(row.number, CategoryField, Candidates(b.categories, row.category, text)) +
    (if row.station == "" then [] else NameErrors(row.number, StationField, Candidates(b.stations, row.station, text)))
  }

  function SkuErrors(b: Branch, rows: seq<Row>, i: nat, update: bool, text: Text): (errors: seq<RowError>)
    requires i < |rows|
    ensures errors == [] <==> SkuIsFree(b, rows, i, update, text)
  {
    if rows[i].sku == "" then []
    else if text.fold(rows[i].sku) in SkusOf(b.products, text) && !update then [RowError(rows[i].number, SkuField, InUse)]
    else if RepeatsSku(rows, i, text) then [RowError(rows[i].number, SkuField, Repeated)]
    else []
  }

  function RowErrors(b: Branch, rows: seq<Row>, i: nat, update: bool, text: Text): (errors: seq<RowError>)
    requires i < |rows|
    ensures errors == [] <==> IsValid(b, rows, i, update, text)
  {
    PlaceErrors(b, rows[i], text) + SkuErrors(b, rows, i, update, text)
  }

  /** What is wrong with the first n rows, in order: which row, which field, and how. */
  function ErrorsOf(b: Branch, rows: seq<Row>, n: nat, update: bool, text: Text): seq<RowError>
    requires n <= |rows|
  {
    if n == 0 then [] else ErrorsOf(b, rows, n - 1, update, text) + RowErrors(b, rows, n - 1, update, text)
  }

  lemma {:induction false} OneMoreRow(b: Branch, rows: seq<Row>, i: nat, update: bool, text: Text)
    requires i < |rows|
    ensures RowErrors(b, rows, i, update, text) == [] ==> PlaceIsKnown(b, rows[i], text)
    ensures ValidRows(b, rows, i + 1, update, text) == ValidRows(b, rows, i, update, text) +
            if RowErrors(b, rows, i, update, text) == [] then [MatchOf(b, rows[i], text)] else []
    ensures ErrorsOf(b, rows, i + 1, update, text) == ErrorsOf(b, rows, i, update, text) + RowErrors(b, rows, i, update, text)
  {
  }

  /** The stock codes of the first n rows. */
  function SeenSkus(rows: seq<Row>, n: nat, text: Text): set<string>
    requires n <= |rows|
  {
    set j | 0 <= j < n && rows[j].sku != "" :: text.fold(rows[j].sku)
  }

  lemma {:induction false} SeenGrows(rows: seq<Row>, i: nat, text: Text)
    requires i < |rows|
    ensures SeenSkus(rows, i + 1, text) == SeenSkus(rows, i, text) + if rows[i].sku != "" then {text.fold(rows[i].sku)} else {}
    ensures RepeatsSku(rows, i, text) <==> text.fold(rows[i].sku) in SeenSkus(rows, i, text)
  {
  }

  /** One turn of the loop. */
  method CheckRow(b: Branch, rows: seq<Row>, i: nat, existing: set<string>, seen: set<string>, update: bool, text: Text)
    returns (errors: seq<RowError>, seenNow: set<string>)
    requires i < |rows| && existing == SkusOf(b.products, text) && seen == SeenSkus(rows, i, text)
    ensures errors == RowErrors(b, rows, i, update, text)
    ensures seenNow == SeenSkus(rows, i + 1, text)
  {
    seenNow := seen;
    errors := PlaceErrors(b, rows[i], text);
    SeenGrows(rows, i, text);
    if rows[i].sku != "" {
      var folded := text.fold(rows[i].sku);
      if folded in existing && !update {
        errors := errors + [RowError(rows[i].number, SkuField, InUse)];
      } else if folded in seen {
        errors := errors + [RowError(rows[i].number, SkuField, Repeated)];
      }
      seenNow := seenNow + {folded};
    }
  }

  /** The first loop of `import_products_csv`. */
  method ValidateRows(b: Branch, rows: seq<Row>, update: bool, text: Text) returns (valid: seq<Match>, errors: seq<RowError>)
    ensures valid == ValidRows(b, rows, |rows|, update, text)
    ensures errors == ErrorsOf(b, rows, |rows|, update, text)
  {
    var existing, seen: set<string> := SkusOf(b.products, text), {};
    valid, errors := [], [];
    for i := 0 to |rows|
      invariant valid == ValidRows(b, rows, i, update, text)
      invariant seen == SeenSkus(rows, i, text)
      invariant errors == ErrorsOf(b, rows, i, update, text)
    {
      var rowErrors;
      rowErrors, seen := CheckRow(b, rows, i, existing, seen, update, text);
      errors := errors + rowErrors;
      OneMoreRow(b, rows, i, update, text);
      if rowErrors == [] {
        valid := valid + [MatchOf(b, rows[i], text)];
      }
    }
  }

  // ----- what validation says -----

  predicate MatchesAt(named: seq<Named>, k: nat, name: string, text: Text)
    requires k < |named|
  {
    text.normalize(named[k].name) == text.normalize(name)
  }

  predicate MatchesNone(named: seq<Named>, name: string, text: Text) {
    forall k :: 0 <= k < |named| ==> !MatchesAt(named, k, name, text)
  }

  predicate MatchesTwice(named: seq<Named>, name: string, text: Text) {
    exists j, k :: 0 <= j < k < |named| && MatchesAt(named, j, name, text) && MatchesAt(named, k, name, text)
  }

  /** Just this one has the name. */
  predicate MatchesOnly(named: seq<Named>, k: nat, name: string, text: Text)
    requires k < |named|
  {
    forall j :: 0 <= j < |named| ==> (MatchesAt(named, j, name, text) <==> j == k)
  }

  lemma {:induction false} CandidatesAre(named: seq<Named>, name: string, text: Text)
    ensures Candidates(named, name, text) == [] <==> MatchesNone(named, name, text)
    ensures |Candidates(named, name, text)| > 1 <==> MatchesTwice(named, name, text)
    ensures forall k :: 0 <= k < |named| && MatchesOnly(named, k, name, text) ==> Candidates(named, name, text) == [named[k].id]
    decreases named
  {
    if named != [] {
      var rest := named[1..];
      CandidatesAre(rest, name, text);
      forall k | 0 <= k < |rest| ensures MatchesAt(rest, k, name, text) == MatchesAt(named, k + 1, name, text) {
      }
      FirstCandidate(named, name, text);
      if MatchesTwice(rest, name, text) {
        var j, k :| 0 <= j < k < |rest| && MatchesAt(rest, j, name, text) && MatchesAt(rest, k, name, text);
        assert MatchesAt(named, j + 1, name, text) && MatchesAt(named, k + 1, name, text);
      }
      forall k | 0 <= k < |named| && MatchesOnly(named, k, name, text)
        ensures Candidates(named, name, text) == [named[k].id]
      {
        if k == 0 {
          assert MatchesNone(rest, name, text);
        } else {
          assert !MatchesAt(named, 0, name, text);
          assert MatchesOnly(rest, k - 1, name, text);
        }
      }
    }
  }

  lemma {:induction false} FirstCandidate(named: seq<Named>, name: string, text: Text)
    requires named != []
    ensures MatchesNone(named, name, text) <==> !MatchesAt(named, 0, name, text) && MatchesNone(named[1..], name, text)
    ensures MatchesTwice(named, name, text) <==>
            MatchesTwice(named[1..], name, text) || (MatchesAt(named, 0, name, text) && !MatchesNone(named[1..], name, text))
  {
    var rest := named[1..];
    forall k | 0 <= k < |rest| ensures MatchesAt(rest, k, name, text) == MatchesAt(named, k + 1, name, text) {
    }
    forall k | 0 < k < |named| ensures MatchesAt(named, k, name, text) == MatchesAt(rest, k - 1, name, text) {
    }
    if MatchesTwice(named, name, text) {
      var j, k :| 0 <= j < k < |named| && MatchesAt(named, j, name, text) && MatchesAt(named, k, name, text);
      assert MatchesAt(rest, k - 1, name, text);
      assert j > 0 ==> MatchesAt(rest, j - 1, name, text);
    }
    if !MatchesNone(rest, name, text) {
      var k :| 0 <= k < |rest| && MatchesAt(rest, k, name, text);
      assert MatchesAt(named, k + 1, name, text);
    }
    if MatchesTwice(rest, name, text) {
      var j, k :| 0 <= j < k < |rest| && MatchesAt(rest, j, name, text) && MatchesAt(rest, k, name, text);
      assert MatchesAt(named, j + 1, name, text) && MatchesAt(named, k + 1, name, text);
    }
  }

  /** Some product of the branch, or some earlier row of the file, has the row's code. */
  predicate CodeInBranch(b: Branch, row: Row, text: Text) {
    exists k :: 0 <= k < |b.products| && b.products[k].sku != "" && text.fold(b.products[k].sku) == text.fold(row.sku)
  }

  predicate CodeInFile(rows: seq<Row>, i: nat, text: Text)
    requires i < |rows|
  {
    exists j :: 0 <= j < i && rows[j].sku != "" && text.fold(rows[j].sku) == text.fold(rows[i].sku)
  }

  /** A row's errors, one by one: a category or a named station that matches nothing or
      more than one, and a stock code that the branch has, unless updating, or that an
      earlier row has. */
  lemma {:induction false} ErrorsExactly(b: Branch, rows: seq<Row>, i: nat, update: bool, text: Text, e: RowError)
    requires i < |rows|
    ensures var row := rows[i];
            var taken := !update && CodeInBranch(b, row, text);
            e in RowErrors(b, rows, i, update, text) <==>
              && e.number == row.number
              && match e.field
                 case CategoryField =>
                   if MatchesNone(b.categories, row.category, text) then e.problem == NotFound
                   else MatchesTwice(b.categories, row.category, text) && e.problem == Ambiguous
                 case StationField =>
                   row.station != "" &&
                   if MatchesNone(b.stations, row.station, text) then e.problem == NotFound
                   else MatchesTwice(b.stations, row.station, text) && e.problem == Ambiguous
                 case SkuField =>
                   row.sku != "" &&
                   if taken then e.problem == InUse else CodeInFile(rows, i, text) && e.problem == Repeated
  {
    NameErrorsExactly(b.categories, rows[i].category, rows[i].number, CategoryField, text, e);
    NameErrorsExactly(b.stations, rows[i].station, rows[i].number, StationField, text, e);
    SkuErrorsExactly(b, rows, i, update, text, e);
  }

  lemma {:induction false} NameErrorsExactly(named: seq<Named>, name: string, number: nat, field: Field, text: Text, e: RowError)
    ensures e in NameErrors(number, field, Candidates(named, name, text)) <==>
              && e.number == number && e.field == field
              && if MatchesNone(named, name, text) then e.problem == NotFound
                 else MatchesTwice(named, name, text) && e.problem == Ambiguous
  {
    CandidatesAre(named, name, text);
  }

  lemma {:induction false} SkuErrorsExactly(b: Branch, rows: seq<Row>, i: nat, update: bool, text: Text, e: RowError)
    requires i < |rows|
    ensures var taken := !update && CodeInBranch(b, rows[i], text);
            e in SkuErrors(b, rows, i, update, text) <==>
              && e.number == rows[i].number && e.field == SkuField && rows[i].sku != ""
              && if taken then e.problem == InUse else CodeInFile(rows, i, text) && e.problem == Repeated
  {
    assert text.fold(rows[i].sku) in SkusOf(b.products, text) <==> CodeInBranch(b, rows[i], text);
    assert RepeatsSku(rows, i, text) <==> CodeInFile(rows, i, text);
  }

  /** A row is kept under the one category and the one station that it names. */
  lemma {:induction false} KeptUnderItsNames(b: Branch, row: Row, text: Text, category: nat, station: nat)
    requires category < |b.categories| && MatchesOnly(b.categories, category, row.category, text)
    requires row.station != "" ==> station < |b.stations| && MatchesOnly(b.stations, station, row.station, text)
    ensures PlaceIsKnown(b, row, text)
    ensures MatchOf(b, row, text) ==
            Match(row, b.categories[category].id, if row.station == "" then None else Some(b.stations[station].id))
  {
    CandidatesAre(b.categories, row.category, text);
    CandidatesAre(b.stations, row.station, text);
  }

  // ----- applying -----

  function LastWithSku(products: seq<Product>, folded: string, text: Text): (at: Option<nat>)
    ensures at.Some? ==> at.value < |products| && products[at.value].sku != "" && text.fold(products[at.value].sku) == folded
    ensures at.None? ==> folded !in SkusOf(products, text)
  {
    if products == [] then None
    else if products[|products| - 1].sku != "" && text.fold(products[|products| - 1].sku) == folded then Some(|products| - 1)
    else
      var rest := products[..|products| - 1];
      assert forall i :: 0 <= i < |products| && text.fold(products[i].sku) == folded && products[i].sku != "" ==> rest[i] == products[i];
      LastWithSku(rest, folded, text)
  }

  /** What names are compared by. */
  function NameKey(name: string, text: Text): string {
    text.fold(text.strip(name))
  }

  function LastWithName(products: seq<Product>, key: string, text: Text): (at: Option<nat>)
    ensures at.Some? ==> at.value < |products|
  {
    if products == [] then None
    else if NameKey(products[|products| - 1].name, text) == key then Some(|products| - 1)
    else LastWithName(products[..|products| - 1], key, text)
  }

  /** The product that a row updates, among those from before the import: by stock
      code, or by name if the row has none. */
  function Target(original: seq<Product>, row: Row, update: bool, text: Text): (at: Option<nat>)
    ensures at.Some? ==> at.value < |original|
  {
    if !update then None
    else if row.sku != "" then LastWithSku(original, text.fold(row.sku), text)
    else LastWithName(original, NameKey(row.name, text), text)
  }

  function Rewritten(p: Product, m: Match): Product {
    Product(p.sku, m.row.name, m.category, m.station, m.row.details, p.extras)
  }

  function Created(m: Match): Product {
    Product(m.row.sku, m.row.name, m.category, m.station, m.row.details, Extras(0, [], [], []))
  }

  function Applied(products: seq<Product>, original: seq<Product>, m: Match, update: bool, text: Text): seq<Product>
    requires |products| >= |original|
  {
    var at := Target(original, m.row, update, text);
    if at.Some? then products[at.value := Rewritten(products[at.value], m)] else products + [Created(m)]
  }

  function AllApplied(original: seq<Product>, ms: seq<Match>, update: bool, text: Text): (after: seq<Product>)
    ensures |after| >= |original|
  {
    if ms == [] then original
    else Applied(AllApplied(original, ms[..|ms| - 1], update, text), original, ms[|ms| - 1], update, text)
  }

  datatype Status = StatusReady | Success | Partial | Failed

  datatype Result = Result(status: Status, totalRows: nat, validRows: nat, importedRows: nat, failedRows: nat)

  class ProductCatalog {
    var products: seq<Product>

    constructor (products: seq<Product>)
      ensures this.products == products
    {
      this.products := products;
    }

    /** The second loop: each valid row makes one update or one creation. */
    method ApplyRows(ms: seq<Match>, update: bool, text: Text) returns (imported: nat)
      modifies this
      ensures products == AllApplied(old(products), ms, update, text)
      ensures imported == |ms|
    {
      var original := products;
      imported := 0;
      for i := 0 to |ms|
        invariant products == AllApplied(original, ms[..i], update, text) && imported == i
      {
        assert ms[..i + 1][..i] == ms[..i];
        var m := ms[i];
        var at := Target(original, m.row, update, text);
        if at.Some? {
          products := products[at.value := Rewritten(products[at.value], m)];
        } else {
          products := products + [Created(m)];
        }
        imported := imported + 1;
      }
      assert ms[..|ms|] == ms;
    }

    /** `import_products_csv`, after parsing. A dry run changes nothing, and counts as
        valid what a real run imports. */
    method Import(
      categories: seq<Named>, stations: seq<Named>, rows: seq<Row>, parseErrors: nat, totalRows: nat,
      update: bool, dryRun: bool, text: Text)
      returns (result: Result)
      modifies this
      ensures var valid := ValidRows(Branch(categories, stations, old(products)), rows, |rows|, update, text);
              && result.validRows == |valid|
              && products == (if dryRun then old(products) else AllApplied(old(products), valid, update, text))
              && result.importedRows == (if dryRun then 0 else |valid|)
      ensures result.failedRows == if totalRows > result.validRows then totalRows - result.validRows else 0
      ensures result.status == Status.Failed <==> result.validRows == 0
      ensures var faulty := parseErrors > 0 || ErrorsOf(Branch(categories, stations, old(products)), rows, |rows|, update, text) != [];
              result.status == Partial <==> result.validRows > 0 && faulty
      ensures result.status in {StatusReady, Success} ==> (result.status == StatusReady <==> dryRun)
    {
      var valid, errors := ValidateRows(Branch(categories, stations, products), rows, update, text);
      var imported := 0;
      if !dryRun {
        imported := ApplyRows(valid, update, text);
      }
      var failed := if totalRows > |valid| then totalRows - |valid| else 0;
      var complete := if dryRun then StatusReady else Success;
      var status := if |valid| == 0 then Status.Failed else if errors != [] || parseErrors > 0 then Partial else complete;
      result := Result(status, totalRows, |valid|, imported, failed);
    }
  }

  // ----- what an import keeps -----

  predicate DistinctSkus(products: seq<Product>, text: Text) {
    forall i, j :: 0 <= i < j < |products| && products[i].sku != "" && products[j].sku != "" ==>
      text.fold(products[i].sku) != text.fold(products[j].sku)
  }

  /** No two of the rows have one stock code, and none has one that it may not have. */
  predicate Admissible(original: seq<Product>, ms: seq<Match>, update: bool, text: Text) {
    && (forall i, j :: 0 <= i < j < |ms| && ms[i].row.sku != "" && ms[j].row.sku != "" ==>
          text.fold(ms[i].row.sku) != text.fold(ms[j].row.sku))
    && (!update ==> forall i :: 0 <= i < |ms| && ms[i].row.sku != "" ==>
          text.fold(ms[i].row.sku) !in SkusOf(original, text))
  }

  lemma {:induction false} ValidRowsComeFromRows(b: Branch, rows: seq<Row>, n: nat, update: bool, text: Text, k: nat) returns (i: nat)
    requires n <= |rows| && k < |ValidRows(b, rows, n, update, text)|
    ensures i < n && ValidRows(b, rows, n, update, text)[k].row == rows[i] && IsValid(b, rows, i, update, text)
  {
    var earlier := ValidRows(b, rows, n - 1, update, text);
    if k < |earlier| {
      i := ValidRowsComeFromRows(b, rows, n - 1, update, text, k);
    } else {
      i := n - 1;
    }
  }

  lemma {:induction false} LaterRowIsNew(b: Branch, rows: seq<Row>, n: nat, update: bool, text: Text, k: nat)
    requires n < |rows| && IsValid(b, rows, n, update, text) && rows[n].sku != ""
    requires k < |ValidRows(b, rows, n, update, text)| && ValidRows(b, rows, n, update, text)[k].row.sku != ""
    ensures text.fold(ValidRows(b, rows, n, update, text)[k].row.sku) != text.fold(rows[n].sku)
  {
    var i := ValidRowsComeFromRows(b, rows, n, update, text, k);
    assert !RepeatsSku(rows, n, text);
  }

  lemma {:induction false} AdmissibleSnoc(original: seq<Product>, ms: seq<Match>, m: Match, update: bool, text: Text)
    requires Admissible(original, ms, update, text)
    requires m.row.sku != "" ==> forall k :: 0 <= k < |ms| && ms[k].row.sku != "" ==> text.fold(ms[k].row.sku) != text.fold(m.row.sku)
    requires m.row.sku != "" && !update ==> text.fold(m.row.sku) !in SkusOf(original, text)
    ensures Admissible(original, ms + [m], update, text)
  {
  }

  lemma {:induction false} ValidRowsAreAdmissible(b: Branch, rows: seq<Row>, n: nat, update: bool, text: Text)
    requires n <= |rows|
    ensures Admissible(b.products, ValidRows(b, rows, n, update, text), update, text)
  {
    if n > 0 {
      ValidRowsAreAdmissible(b, rows, n - 1, update, text);
      var earlier := ValidRows(b, rows, n - 1, update, text);
      if IsValid(b, rows, n - 1, update, text) {
        if rows[n - 1].sku != "" {
          forall k | 0 <= k < |earlier| && earlier[k].row.sku != ""
            ensures text.fold(earlier[k].row.sku) != text.fold(rows[n - 1].sku)
          {
            LaterRowIsNew(b, rows, n - 1, update, text, k);
          }
        }
        AdmissibleSnoc(b.products, earlier, MatchOf(b, rows[n - 1], text), update, text);
      }
    }
  }

  /** The last of the rows that update the i-th product. */
  function LastAt(original: seq<Product>, ms: seq<Match>, i: nat, update: bool, text: Text): (at: Option<nat>)
    ensures at.Some? ==> at.value < |ms| && Target(original, ms[at.value].row, update, text) == Some(i)
  {
    if ms == [] then None
    else if Target(original, ms[|ms| - 1].row, update, text) == Some(i) then Some(|ms| - 1)
    else LastAt(original, ms[..|ms| - 1], i, update, text)
  }

  /** A product with the values of the last row that updates it. */
  function Rewrite(original: seq<Product>, ms: seq<Match>, i: nat, update: bool, text: Text): Product
    requires i < |original|
  {
    var at := LastAt(original, ms, i, update, text);
    if at.None? then original[i] else Rewritten(original[i], ms[at.value])
  }

  /** The products that the rows without a target create, in order. */
  function NewProducts(original: seq<Product>, ms: seq<Match>, update: bool, text: Text): seq<Product> {
    if ms == [] then []
    else
      NewProducts(original, ms[..|ms| - 1], update, text) +
      if Target(original, ms[|ms| - 1].row, update, text).None? then [Created(ms[|ms| - 1])] else []
  }

  /** Exactly what an import does: a product that no row targets is untouched, one that
      rows target has the last one's values and keeps its stock code and extras, and
      the other rows make new products, one each, behind the old ones. */
  lemma {:induction false} WhatAnImportDoes(original: seq<Product>, ms: seq<Match>, update: bool, text: Text)
    ensures var after := AllApplied(original, ms, update, text);
            && after[|original|..] == NewProducts(original, ms, update, text)
            && forall i :: 0 <= i < |original| ==> after[i] == Rewrite(original, ms, i, update, text)
    decreases |ms|
  {
    if ms == [] {
      assert original[|original|..] == [];
    } else {
      var init, m := ms[..|ms| - 1], ms[|ms| - 1];
      WhatAnImportDoes(original, init, update, text);
      var before := AllApplied(original, init, update, text);
      if Target(original, m.row, update, text).None? {
        AppendedTail(before, |original|, Created(m));
      } else {
        var at := Target(original, m.row, update, text).value;
        assert before[at := Rewritten(before[at], m)][|original|..] == before[|original|..];
      }
    }
  }

  lemma {:induction false} LastAtIs(original: seq<Product>, ms: seq<Match>, k: nat, i: nat, update: bool, text: Text)
    requires k < |ms| && Target(original, ms[k].row, update, text) == Some(i)
    requires forall n :: k < n < |ms| ==> Target(original, ms[n].row, update, text) != Some(i)
    ensures LastAt(original, ms, i, update, text) == Some(k)
    decreases |ms|
  {
    if k < |ms| - 1 {
      LastAtIs(original, ms[..|ms| - 1], k, i, update, text);
    }
  }

  lemma {:induction false} CreatedIsAmongTheNew(original: seq<Product>, ms: seq<Match>, k: nat, update: bool, text: Text)
    requires k < |ms| && Target(original, ms[k].row, update, text).None?
    ensures Created(ms[k]) in NewProducts(original, ms, update, text)
    decreases |ms|
  {
    if k < |ms| - 1 {
      CreatedIsAmongTheNew(original, ms[..|ms| - 1], k, update, text);
    }
  }

  /** The last row about a product gives it its name, category, station and details,
      and leaves its stock code and extras. */
  lemma {:induction false} LastRowGivesItsValues(original: seq<Product>, ms: seq<Match>, k: nat, i: nat, update: bool, text: Text)
    requires k < |ms| && Target(original, ms[k].row, update, text) == Some(i)
    requires forall n :: k < n < |ms| ==> Target(original, ms[n].row, update, text) != Some(i)
    ensures var p, m := original[i], ms[k];
            AllApplied(original, ms, update, text)[i] == Product(p.sku, m.row.name, m.category, m.station, m.row.details, p.extras)
  {
    WhatAnImportDoes(original, ms, update, text);
    LastAtIs(original, ms, k, i, update, text);
    assert AllApplied(original, ms, update, text)[i] == Rewrite(original, ms, i, update, text);
  }

  /** A row about no product makes one of its values and stock code, without extras. */
  lemma {:induction false} OtherRowsMakeProducts(original: seq<Product>, ms: seq<Match>, k: nat, update: bool, text: Text)
    requires k < |ms| && Target(original, ms[k].row, update, text).None?
    ensures var after, m := AllApplied(original, ms, update, text), ms[k];
            exists j :: |original| <= j < |after| &&
              after[j] == Product(m.row.sku, m.row.name, m.category, m.station, m.row.details, Extras(0, [], [], []))
  {
    var after := AllApplied(original, ms, update, text);
    WhatAnImportDoes(original, ms, update, text);
    CreatedIsAmongTheNew(original, ms, k, update, text);
    var added := after[|original|..];
    var j :| 0 <= j < |added| && added[j] == Created(ms[k]);
    assert after[|original| + j] == Created(ms[k]);
  }

  predicate HasCode(p: Product, code: string, text: Text) {
    p.sku != "" && text.fold(p.sku) == text.fold(code)
  }

  predicate HasName(p: Product, name: string, text: Text) {
    text.fold(text.strip(p.name)) == text.fold(text.strip(name))
  }

  /** Which product a row is about: none unless updating; with a stock code the last one
      that has it, whatever the names; without one the last that has its name. */
  lemma {:induction false} TargetIs(original: seq<Product>, row: Row, update: bool, text: Text)
    ensures match Target(original, row, update, text)
            case None =>
              update ==> forall i :: 0 <= i < |original| ==>
                if row.sku != "" then !HasCode(original[i], row.sku, text) else !HasName(original[i], row.name, text)
            case Some(at) =>
              && update && at < |original|
              && (if row.sku != "" then HasCode(original[at], row.sku, text) else HasName(original[at], row.name, text))
              && forall i :: at < i < |original| ==>
                   if row.sku != "" then !HasCode(original[i], row.sku, text) else !HasName(original[i], row.name, text)
    decreases |original|
  {
    if original != [] {
      var init := original[..|original| - 1];
      TargetIs(init, row, update, text);
      assert forall i :: 0 <= i < |init| ==> init[i] == original[i];
    }
  }

  lemma {:induction false} AppendedTail(products: seq<Product>, n: nat, p: Product)
    requires n <= |products|
    ensures (products + [p])[n..] == products[n..] + [p]
  {
  }

  lemma {:induction false} NewProductsAreRows(original: seq<Product>, ms: seq<Match>, update: bool, text: Text)
    ensures forall p :: p in NewProducts(original, ms, update, text) ==>
              exists k :: 0 <= k < |ms| && p == Created(ms[k]) && Target(original, ms[k].row, update, text).None?
    decreases |ms|
  {
    if ms != [] {
      var init := ms[..|ms| - 1];
      NewProductsAreRows(original, init, update, text);
      forall p | p in NewProducts(original, ms, update, text)
        ensures exists k :: 0 <= k < |ms| && p == Created(ms[k]) && Target(original, ms[k].row, update, text).None?
      {
        if p in NewProducts(original, init, update, text) {
          var k :| 0 <= k < |init| && p == Created(init[k]) && Target(original, init[k].row, update, text).None?;
          assert ms[k] == init[k];
        }
      }
    }
  }

  lemma {:induction false} AppendKeepsDistinct(products: seq<Product>, p: Product, text: Text)
    requires DistinctSkus(products, text)
    requires p.sku == "" || forall i :: 0 <= i < |products| && products[i].sku != "" ==> text.fold(products[i].sku) != text.fold(p.sku)
    ensures DistinctSkus(products + [p], text)
  {
  }

  /** A stock code is new to the products before a row if it was new to the original
      ones and no earlier row had it. */
  lemma {:induction false} NewToAll(original: seq<Product>, ms: seq<Match>, update: bool, text: Text, sku: string, i: nat)
    requires text.fold(sku) !in SkusOf(original, text)
    requires forall k :: 0 <= k < |ms| && ms[k].row.sku != "" ==> text.fold(ms[k].row.sku) != text.fold(sku)
    requires i < |AllApplied(original, ms, update, text)| && AllApplied(original, ms, update, text)[i].sku != ""
    ensures text.fold(AllApplied(original, ms, update, text)[i].sku) != text.fold(sku)
  {
    var after := AllApplied(original, ms, update, text);
    WhatAnImportDoes(original, ms, update, text);
    if i < |original| {
      assert after[i].sku == original[i].sku;
      assert text.fold(original[i].sku) in SkusOf(original, text);
    } else {
      NewProductsAreRows(original, ms, update, text);
      assert after[i] == after[|original|..][i - |original|];
      assert after[i] in NewProducts(original, ms, update, text);
    }
  }

  lemma {:induction false} ApplyingKeepsSkus(original: seq<Product>, ms: seq<Match>, update: bool, text: Text)
    requires DistinctSkus(original, text) && Admissible(original, ms, update, text)
    ensures DistinctSkus(AllApplied(original, ms, update, text), text)
    ensures forall i :: 0 <= i < |original| ==> AllApplied(original, ms, update, text)[i].sku == original[i].sku
    decreases |ms|
  {
    if ms != [] {
      var init, m := ms[..|ms| - 1], ms[|ms| - 1];
      assert forall k :: 0 <= k < |init| ==> init[k] == ms[k];
      ApplyingKeepsSkus(original, init, update, text);
      var before := AllApplied(original, init, update, text);
      if Target(original, m.row, update, text).None? {
        if m.row.sku != "" {
          forall i | 0 <= i < |before| && before[i].sku != "" ensures text.fold(before[i].sku) != text.fold(m.row.sku) {
            NewToAll(original, init, update, text, m.row.sku, i);
          }
        }
        AppendKeepsDistinct(before, Created(m), text);
      }
    }
  }

  /** In both modes, stock codes that were distinct up to case stay so. */
  lemma {:induction false} ImportKeepsSkusDistinct(b: Branch, rows: seq<Row>, update: bool, text: Text)
    requires DistinctSkus(b.products, text)
    ensures DistinctSkus(AllApplied(b.products, ValidRows(b, rows, |rows|, update, text), update, text), text)
  {
    ValidRowsAreAdmissible(b, rows, |rows|, update, text);
    ApplyingKeepsSkus(b.products, ValidRows(b, rows, |rows|, update, text), update, text);
  }

  /** In update mode validity does not depend on what the branch already has. */
  lemma {:induction false} ValidityIgnoresProducts(b: Branch, products: seq<Product>, rows: seq<Row>, n: nat, text: Text)
    requires n <= |rows|
    ensures ValidRows(b.(products := products), rows, n, true, text) == ValidRows(b, rows, n, true, text)
  {
    if n > 0 {
      ValidityIgnoresProducts(b, products, rows, n - 1, text);
    }
  }
}

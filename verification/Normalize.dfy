/** Validating and normalising the print document of a claimed job. A key is named by
    its field and its spelling, camel case or snake case; fields of one word have one
    spelling. */
module Normalize {
  import opened Wrappers
  import opened ReceiptDocument

  datatype Name =
    | DocumentType | Title | BusinessName | BranchName | StationName | OrderNumber | ReceiptNumber | BusinessDate
    | TableName | WaiterName | StaffLabel | SourceLabel | OrderLabel | CustomerName | CustomerPhone
    | DeliveryAddress | PaymentLabel | SubmittedAt | Currency | Lines | TotalsKey | FooterKey
    | ItemName | Quantity | UnitPrice | LineTotal | Modifiers | Note | Complimentary | AdjustmentLabel
    | Subtotal | Discount | Tax | ServiceCharge | CoverCharge | Total | Paid | Remaining

  datatype Key = Camel(camel: Name) | Snake(snake: Name) | Other(string)

  datatype Json =
    | Null
    | Bool(b: bool)
    | Number(n: real)
    | String(s: string)
    | Array(items: seq<Json>)
    | Object(fields: Fields)

  type Fields = map<Key, Json>

  predicate Present(o: Fields, k: Key) {
    k in o && o[k] != Null
  }

  function At(o: Fields, k: Key): Option<Json> {
    if k in o then Some(o[k]) else None
  }

  /** `readAliasedValue` takes the spelling of the preferred key first; null counts as
      absent. */
  function Either(o: Fields, preferred: Key, other: Key): Option<Json> {
    if Present(o, preferred) then At(o, preferred) else if Present(o, other) then At(o, other) else None
  }

  /** How each field is read: the structured ones as they are, null included; those of
      one word by their one spelling; two in camel case first; the rest in snake case
      first. */
  function Read(o: Fields, n: Name): Option<Json> {
    match n
    case Lines | TotalsKey | FooterKey | Modifiers => At(o, Camel(n))
    case Title | Currency | ItemName | Quantity | Note | Complimentary => Either(o, Camel(n), Camel(n))
    case Subtotal | Discount | Tax | Total | Paid | Remaining => Either(o, Camel(n), Camel(n))
    case ReceiptNumber | BusinessDate => Either(o, Camel(n), Snake(n))
    case _ => Either(o, Snake(n), Camel(n))
  }

  /** What a normalisation sees of an object. */
  type View = Name -> Option<Json>

  function ViewOf(o: Fields): View {
    n => Read(o, n)
  }

  /** `readOptionalString` does not throw. */
  predicate IsOptional(v: Option<Json>) {
    v.None? || v.value.String?
  }

  /** `requireString` does not throw. */
  predicate IsRequired(v: Option<Json>) {
    v.Some? && v.value.String? && v.value.s != ""
  }

  function TextOf(v: Option<Json>): Option<string> {
    if v.Some? && v.value.String? then Some(v.value.s) else None
  }

  function Given(v: Option<Json>): string
    requires IsRequired(v)
  {
    v.value.s
  }

  function NumberOf(v: Option<Json>): Option<real> {
    if v.Some? && v.value.Number? then Some(v.value.n) else None
  }

  predicate AllStrings(items: seq<Json>) {
    forall i :: 0 <= i < |items| ==> items[i].String?
  }

  function Strings(items: seq<Json>): seq<string>
    requires AllStrings(items)
  {
    seq(|items|, i requires 0 <= i < |items| => items[i].s)
  }

  function KindNamed(s: string): Option<Kind> {
    if s == "PREPARATION" then Some(Preparation) else if s == "BILL" then Some(Bill)
    else if s == "COURIER" then Some(Courier) else if s == "TEST" then Some(Test) else None
  }

  function NameOfKind(k: Kind): string {
    match k
    case Preparation => "PREPARATION"
    case Bill => "BILL"
    case Courier => "COURIER"
    case Test => "TEST"
  }

  predicate KindIsValid(v: Option<Json>) {
    IsOptional(v) && (v.Some? ==> KindNamed(v.value.s).Some?)
  }

  function KindOf(v: Option<Json>): Option<Kind>
    requires KindIsValid(v)
  {
    if v.Some? then KindNamed(v.value.s) else None
  }

  predicate TotalsAreValid(f: View) {
    && IsOptional(f(Subtotal)) && IsOptional(f(Discount)) && IsOptional(f(Tax)) && IsOptional(f(ServiceCharge))
    && IsOptional(f(CoverCharge)) && IsOptional(f(Paid)) && IsOptional(f(Remaining)) && IsRequired(f(Total))
  }

  function TotalsOf(f: View): Totals
    requires TotalsAreValid(f)
  {
    Totals(TextOf(f(Subtotal)), TextOf(f(Discount)), TextOf(f(Tax)), TextOf(f(ServiceCharge)), TextOf(f(CoverCharge)),
           Given(f(Total)), TextOf(f(Paid)), TextOf(f(Remaining)))
  }

  /** Totals that are not an object are dropped without complaint. */
  function OptionalTotals(v: Option<Json>): Option<Fields> {
    if v.Some? && v.value.Object? then Some(v.value.fields) else None
  }

  /** A footer that is not made of strings is dropped without complaint. */
  function OptionalStrings(v: Option<Json>): Option<seq<string>> {
    if v.Some? && v.value.Array? && AllStrings(v.value.items) then Some(Strings(v.value.items)) else None
  }

  /** Modifiers that are there must be strings. */
  predicate LineIsValid(f: View) {
    && (f(Modifiers).Some? ==> OptionalStrings(f(Modifiers)).Some?)
    && IsOptional(f(UnitPrice)) && IsOptional(f(LineTotal)) && IsOptional(f(Note)) && IsOptional(f(AdjustmentLabel))
    && IsRequired(f(ItemName)) && IsRequired(f(Quantity))
  }

  function LineOf(f: View): Line
    requires LineIsValid(f)
  {
    Line(Given(f(ItemName)), Given(f(Quantity)), TextOf(f(UnitPrice)), TextOf(f(LineTotal)), OptionalStrings(f(Modifiers)),
         TextOf(f(Note)), f(Complimentary) == Some(Bool(true)), TextOf(f(AdjustmentLabel)))
  }

  predicate LinesAreValid(items: seq<Json>) {
    forall i :: 0 <= i < |items| ==> items[i].Object? && LineIsValid(ViewOf(items[i].fields))
  }

  function LinesOf(items: seq<Json>): seq<Line>
    requires LinesAreValid(items)
  {
    seq(|items|, i requires 0 <= i < |items| => LineOf(ViewOf(items[i].fields)))
  }

  predicate OptionalsAreValid(f: View) {
    && IsOptional(f(TableName)) && IsOptional(f(BusinessName)) && IsOptional(f(WaiterName)) && IsOptional(f(StaffLabel))
    && IsOptional(f(SourceLabel)) && IsOptional(f(OrderLabel)) && IsOptional(f(CustomerName))
    && IsOptional(f(CustomerPhone)) && IsOptional(f(DeliveryAddress)) && IsOptional(f(PaymentLabel))
    && IsOptional(f(Currency))
  }

  predicate RequiredsAreValid(f: View) {
    && IsRequired(f(Title)) && IsRequired(f(BranchName)) && IsRequired(f(StationName)) && IsRequired(f(OrderNumber))
    && IsRequired(f(SubmittedAt))
  }

  function TotalsPart(v: Option<Json>): Option<Totals>
    requires OptionalTotals(v).Some? ==> TotalsAreValid(ViewOf(OptionalTotals(v).value))
  {
    var totals := OptionalTotals(v);
    if totals.Some? then Some(TotalsOf(ViewOf(totals.value))) else None
  }

  predicate PartsAreValid(f: View) {
    && f(Lines).Some? && f(Lines).value.Array? && LinesAreValid(f(Lines).value.items)
    && (OptionalTotals(f(TotalsKey)).Some? ==> TotalsAreValid(ViewOf(OptionalTotals(f(TotalsKey)).value)))
    && KindIsValid(f(DocumentType))
  }

  /** Nothing in the document makes `normalizeDocument` throw. */
  predicate IsAccepted(f: View) {
    PartsAreValid(f) && OptionalsAreValid(f) && RequiredsAreValid(f)
  }

  function DocumentOf(f: View): Document
    requires IsAccepted(f)
  {
    Document(
      KindOf(f(DocumentType)), Given(f(Title)), TextOf(f(BusinessName)), Given(f(BranchName)), Given(f(StationName)),
      Given(f(OrderNumber)), NumberOf(f(ReceiptNumber)), TextOf(f(BusinessDate)), TextOf(f(TableName)),
      TextOf(f(WaiterName)), TextOf(f(StaffLabel)), TextOf(f(SourceLabel)), TextOf(f(OrderLabel)), TextOf(f(CustomerName)),
      TextOf(f(CustomerPhone)), TextOf(f(DeliveryAddress)), TextOf(f(PaymentLabel)), Given(f(SubmittedAt)),
      TextOf(f(Currency)), LinesOf(f(Lines).value.items),
      TotalsPart(f(TotalsKey)), OptionalStrings(f(FooterKey)))
  }

  /** `normalizeDocument` */
  function NormalizeDocument(o: Fields): Option<Document> {
    if IsAccepted(ViewOf(o)) then Some(DocumentOf(ViewOf(o))) else None
  }

  // ----- what is accepted -----

  /** The fields named are non-empty strings. */
  predicate HasTexts(f: View, names: set<Name>) {
    forall n <- names :: f(n).Some? && f(n).value.String? && f(n).value.s != ""
  }

  /** The fields named are strings where they are there. */
  predicate MayHaveTexts(f: View, names: set<Name>) {
    forall n <- names :: f(n).Some? ==> f(n).value.String?
  }

  predicate IsLine(v: Json) {
    v.Object? &&
    var f := ViewOf(v.fields);
    && HasTexts(f, {ItemName, Quantity}) && MayHaveTexts(f, {UnitPrice, LineTotal, Note, AdjustmentLabel})
    && (f(Modifiers).Some? ==> f(Modifiers).value.Array? && forall m <- f(Modifiers).value.items :: m.String?)
  }

  predicate AreTotals(v: Json) {
    v.Object? ==>
    var f := ViewOf(v.fields);
    HasTexts(f, {Total}) && MayHaveTexts(f, {Subtotal, Discount, Tax, ServiceCharge, CoverCharge, Paid, Remaining})
  }

  lemma {:induction false} LinesExactly(items: seq<Json>)
    ensures LinesAreValid(items) <==> forall v <- items :: IsLine(v)
  {
    forall v <- items ensures IsLine(v) <==> v.Object? && LineIsValid(ViewOf(v.fields)) {
      if v.Object? {
        LineExactly(v);
      }
    }
    if forall v <- items :: IsLine(v) {
      forall i | 0 <= i < |items| ensures items[i].Object? && LineIsValid(ViewOf(items[i].fields)) {
        assert items[i] in items;
      }
    }
  }

  lemma {:induction false} LineExactly(v: Json)
    requires v.Object?
    ensures IsLine(v) <==> LineIsValid(ViewOf(v.fields))
  {
    var f := ViewOf(v.fields);
    if f(Modifiers).Some? && f(Modifiers).value.Array? {
      var ms := f(Modifiers).value.items;
      assert AllStrings(ms) <==> forall m <- ms :: m.String?;
    }
  }

  lemma {:induction false} TotalsExactly(v: Json)
    requires v.Object?
    ensures AreTotals(v) <==> TotalsAreValid(ViewOf(v.fields))
  {
  }

  lemma {:induction false} KindExactly(v: Option<Json>)
    ensures KindIsValid(v) <==>
            (v.Some? ==> v.value in {String("PREPARATION"), String("BILL"), String("COURIER"), String("TEST")})
  {
  }

  /** A document is accepted if and only if what is required is there and not empty, and
      what is there is of its type; the totals count only if they are an object. */
  lemma {:induction false} AcceptedExactly(o: Fields)
    ensures var f := ViewOf(o);
            NormalizeDocument(o).Some? <==>
              && HasTexts(f, {Title, BranchName, StationName, OrderNumber, SubmittedAt})
              && MayHaveTexts(f, {TableName, BusinessName, WaiterName, StaffLabel, SourceLabel, OrderLabel, CustomerName,
                                  CustomerPhone, DeliveryAddress, PaymentLabel, Currency})
              && (f(DocumentType).Some? ==>
                    f(DocumentType).value in {String("PREPARATION"), String("BILL"), String("COURIER"), String("TEST")})
              && f(Lines).Some? && f(Lines).value.Array? && (forall v <- f(Lines).value.items :: IsLine(v))
              && (f(TotalsKey).Some? ==> AreTotals(f(TotalsKey).value))
  {
    var f := ViewOf(o);
    RequiredsExactly(f);
    OptionalsExactly(f);
    PartsExactly(f);
  }

  lemma {:induction false} RequiredsExactly(f: View)
    ensures RequiredsAreValid(f) <==> HasTexts(f, {Title, BranchName, StationName, OrderNumber, SubmittedAt})
  {
  }

  lemma {:induction false} OptionalsExactly(f: View)
    ensures OptionalsAreValid(f) <==>
            MayHaveTexts(f, {TableName, BusinessName, WaiterName, StaffLabel, SourceLabel, OrderLabel, CustomerName,
                             CustomerPhone, DeliveryAddress, PaymentLabel, Currency})
  {
  }

  lemma {:induction false} PartsExactly(f: View)
    ensures PartsAreValid(f) <==>
              && (f(DocumentType).Some? ==>
                    f(DocumentType).value in {String("PREPARATION"), String("BILL"), String("COURIER"), String("TEST")})
              && f(Lines).Some? && f(Lines).value.Array? && (forall v <- f(Lines).value.items :: IsLine(v))
              && (f(TotalsKey).Some? ==> AreTotals(f(TotalsKey).value))
  {
    KindExactly(f(DocumentType));
    if f(Lines).Some? && f(Lines).value.Array? {
      LinesExactly(f(Lines).value.items);
    }
    if f(TotalsKey).Some? && f(TotalsKey).value.Object? {
      TotalsExactly(f(TotalsKey).value);
    }
  }

  /** What is of another type where none is asked for is dropped without complaint:
      totals that are not an object, a footer that is not all strings, a receipt number
      that is not a number, a business date that is not a string; and only a literal true
      puts a line on the house. */
  lemma {:induction false} DroppedExactly(o: Fields)
    requires NormalizeDocument(o).Some?
    ensures var f, d := ViewOf(o), NormalizeDocument(o).value;
            && (d.totals.Some? <==> f(TotalsKey).Some? && f(TotalsKey).value.Object?)
            && (d.footer.Some? <==>
                  f(FooterKey).Some? && f(FooterKey).value.Array? && forall i :: 0 <= i < |f(FooterKey).value.items| ==> f(FooterKey).value.items[i].String?)
            && (d.receiptNumber.Some? <==> f(ReceiptNumber).Some? && f(ReceiptNumber).value.Number?)
            && (d.businessDate.Some? <==> f(BusinessDate).Some? && f(BusinessDate).value.String?)
            && |d.lines| == |f(Lines).value.items|
            && (forall i :: 0 <= i < |d.lines| ==>
                  (d.lines[i].complimentary <==> ViewOf(f(Lines).value.items[i].fields)(Complimentary) == Some(Bool(true))))
  {
  }

  // ----- a normalised document as JSON -----

  /** For each field, whether it is spelt in snake case. */
  type Spelling = Name -> bool

  function Spelt(n: Name, snake: Spelling): Key {
    match n
    case Lines | TotalsKey | FooterKey | Modifiers => Camel(n)
    case Title | Currency | ItemName | Quantity | Note | Complimentary => Camel(n)
    case Subtotal | Discount | Tax | Total | Paid | Remaining => Camel(n)
    case _ => if snake(n) then Snake(n) else Camel(n)
  }

  function Text(s: Option<string>): Option<Json> {
    if s.Some? then Some(String(s.value)) else None
  }

  function Texts(ss: seq<string>): (items: seq<Json>)
    ensures |items| == |ss| && forall i :: 0 <= i < |ss| ==> items[i] == String(ss[i])
  {
    seq(|ss|, i requires 0 <= i < |ss| => String(ss[i]))
  }

  function TextArray(ss: Option<seq<string>>): Option<Json> {
    if ss.Some? then Some(Array(Texts(ss.value))) else None
  }

  function TotalsField(t: Totals, n: Name): Option<Json> {
    match n
    case Subtotal => Text(t.subtotal)
    case Discount => Text(t.discount)
    case Tax => Text(t.tax)
    case ServiceCharge => Text(t.serviceCharge)
    case CoverCharge => Text(t.coverCharge)
    case Total => Some(String(t.total))
    case Paid => Text(t.paid)
    case Remaining => Text(t.remaining)
    case _ => None
  }

  function LineField(line: Line, n: Name): Option<Json> {
    match n
    case ItemName => Some(String(line.name))
    case Quantity => Some(String(line.quantity))
    case UnitPrice => Text(line.unitPrice)
    case LineTotal => Text(line.lineTotal)
    case Modifiers => TextArray(line.modifiers)
    case Note => Text(line.note)
    case Complimentary => if line.complimentary then Some(Bool(true)) else None
    case AdjustmentLabel => Text(line.adjustmentLabel)
    case _ => None
  }

  /** An object with the given fields, spelt as chosen. */
  function Assembled(field: Name -> Option<Json>, snake: Spelling): Fields {
    map k | k in KeysOf(field, snake) :: field(NameOf(k)).value
  }

  function NameOf(k: Key): Name
    requires !k.Other?
  {
    if k.Camel? then k.camel else k.snake
  }

  function KeysOf(field: Name -> Option<Json>, snake: Spelling): (ks: set<Key>)
    ensures forall k :: k in ks <==> !k.Other? && k == Spelt(NameOf(k), snake) && field(NameOf(k)).Some?
  {
    var ns := set n: Name | field(n).Some?;
    var ks := set n | n in ns :: Spelt(n, snake);
    assert forall k :: k in ks ==> exists n :: n in ns && k == Spelt(n, snake) && n == NameOf(k);
    ks
  }

  function TotalsFields(t: Totals): Name -> Option<Json> {
    n => TotalsField(t, n)
  }

  function LineFields(line: Line): Name -> Option<Json> {
    n => LineField(line, n)
  }

  function TotalsJson(t: Totals, snake: Spelling): Json {
    Object(Assembled(TotalsFields(t), snake))
  }

  function LineJson(line: Line, snake: Spelling): Json {
    Object(Assembled(LineFields(line), snake))
  }

  function LinesJson(lines: seq<Line>, snake: Spelling): seq<Json> {
    seq(|lines|, i requires 0 <= i < |lines| => LineJson(lines[i], snake))
  }

  function DocumentField(d: Document, n: Name, snake: Spelling): Option<Json> {
    match n
    case DocumentType => if d.kind.Some? then Some(String(NameOfKind(d.kind.value))) else None
    case Title => Some(String(d.title))
    case BusinessName => Text(d.businessName)
    case BranchName => Some(String(d.branchName))
    case StationName => Some(String(d.stationName))
    case OrderNumber => Some(String(d.orderNumber))
    case ReceiptNumber => if d.receiptNumber.Some? then Some(Number(d.receiptNumber.value)) else None
    case BusinessDate => Text(d.businessDate)
    case TableName => Text(d.tableName)
    case WaiterName => Text(d.waiterName)
    case StaffLabel => Text(d.staffLabel)
    case SourceLabel => Text(d.sourceLabel)
    case OrderLabel => Text(d.orderLabel)
    case CustomerName => Text(d.customerName)
    case CustomerPhone => Text(d.customerPhone)
    case DeliveryAddress => Text(d.deliveryAddress)
    case PaymentLabel => Text(d.paymentLabel)
    case SubmittedAt => Some(String(d.submittedAt))
    case Currency => Text(d.currency)
    case Lines => Some(Array(LinesJson(d.lines, snake)))
    case TotalsKey => if d.totals.Some? then Some(TotalsJson(d.totals.value, snake)) else None
    case FooterKey => TextArray(d.footer)
    case _ => None
  }

  function DocumentFields(d: Document, snake: Spelling): Name -> Option<Json> {
    n => DocumentField(d, n, snake)
  }

  function DocumentJson(d: Document, snake: Spelling): Fields {
    Assembled(DocumentFields(d, snake), snake)
  }

  // ----- normalising what was normalised -----

  predicate LineIsSound(line: Line) {
    line.name != "" && line.quantity != ""
  }

  /** The documents that normalisation produces. */
  predicate IsSound(d: Document) {
    && d.title != "" && d.branchName != "" && d.stationName != "" && d.orderNumber != "" && d.submittedAt != ""
    && (forall i :: 0 <= i < |d.lines| ==> LineIsSound(d.lines[i]))
    && (d.totals.Some? ==> d.totals.value.total != "")
  }

  /** The view gives these fields and no others. */
  ghost predicate Shows(f: View, field: View) {
    forall n {:trigger f(n)} :: f(n) == field(n)
  }

  /** Whatever the spelling, every field is read back as it was written. */
  lemma {:induction false} ReadsBack(field: View, snake: Spelling)
    requires forall n :: field(n) != Some(Null)
    ensures Shows(ViewOf(Assembled(field, snake)), field)
  {
    forall n ensures Read(Assembled(field, snake), n) == field(n) {
    }
  }

  lemma {:induction false} StringsOfTexts(ss: seq<string>)
    ensures OptionalStrings(Some(Array(Texts(ss)))) == Some(ss)
  {
    assert Strings(Texts(ss)) == ss;
  }

  predicate IsText(v: Option<Json>, s: Option<string>) {
    IsOptional(v) && TextOf(v) == s
  }

  predicate IsGiven(v: Option<Json>, s: string) {
    IsRequired(v) && Given(v) == s
  }

  lemma {:induction false} SumsAreShown(f: View, t: Totals)
    requires t.total != "" && Shows(f, TotalsFields(t))
    ensures IsText(f(Subtotal), t.subtotal) && IsText(f(Discount), t.discount) && IsGiven(f(Total), t.total)
  {
  }

  lemma {:induction false} ChargesAreShown(f: View, t: Totals)
    requires Shows(f, TotalsFields(t))
    ensures IsText(f(Tax), t.tax) && IsText(f(ServiceCharge), t.serviceCharge) && IsText(f(CoverCharge), t.coverCharge)
  {
  }

  lemma {:induction false} PaymentsAreShown(f: View, t: Totals)
    requires Shows(f, TotalsFields(t))
    ensures IsText(f(Paid), t.paid) && IsText(f(Remaining), t.remaining)
  {
  }

  lemma {:induction false} TotalsReadBack(f: View, t: Totals)
    requires t.total != "" && Shows(f, TotalsFields(t))
    ensures TotalsAreValid(f) && TotalsOf(f) == t
  {
    SumsAreShown(f, t);
    ChargesAreShown(f, t);
    PaymentsAreShown(f, t);
  }

  lemma {:induction false} PricesAreShown(f: View, line: Line)
    requires LineIsSound(line) && Shows(f, LineFields(line))
    ensures IsGiven(f(ItemName), line.name) && IsGiven(f(Quantity), line.quantity)
    ensures IsText(f(UnitPrice), line.unitPrice) && IsText(f(LineTotal), line.lineTotal)
  {
  }

  lemma {:induction false} RemarksAreShown(f: View, line: Line)
    requires Shows(f, LineFields(line))
    ensures f(Modifiers) == TextArray(line.modifiers) && OptionalStrings(f(Modifiers)) == line.modifiers
    ensures IsText(f(Note), line.note) && IsText(f(AdjustmentLabel), line.adjustmentLabel)
    ensures f(Complimentary) == if line.complimentary then Some(Bool(true)) else None
  {
    if line.modifiers.Some? {
      StringsOfTexts(line.modifiers.value);
    }
  }

  lemma {:induction false} LineReadsBack(f: View, line: Line)
    requires LineIsSound(line) && Shows(f, LineFields(line))
    ensures LineIsValid(f) && LineOf(f) == line
  {
    PricesAreShown(f, line);
    RemarksAreShown(f, line);
  }

  lemma {:induction false} LinesReadBack(lines: seq<Line>, snake: Spelling)
    requires forall i :: 0 <= i < |lines| ==> LineIsSound(lines[i])
    ensures LinesAreValid(LinesJson(lines, snake)) && LinesOf(LinesJson(lines, snake)) == lines
  {
    forall i | 0 <= i < |lines|
      ensures var f := ViewOf(Assembled(LineFields(lines[i]), snake)); LineIsValid(f) && LineOf(f) == lines[i]
    {
      ReadsBack(LineFields(lines[i]), snake);
      LineReadsBack(ViewOf(Assembled(LineFields(lines[i]), snake)), lines[i]);
    }
  }

  lemma {:induction false} TotalsPartReadsBack(t: Totals, snake: Spelling)
    requires t.total != ""
    ensures var f := ViewOf(Assembled(TotalsFields(t), snake)); TotalsAreValid(f) && TotalsOf(f) == t
  {
    ReadsBack(TotalsFields(t), snake);
    TotalsReadBack(ViewOf(Assembled(TotalsFields(t), snake)), t);
  }

  lemma {:induction false} KindIsShown(f: View, d: Document, snake: Spelling)
    requires Shows(f, DocumentFields(d, snake))
    ensures KindIsValid(f(DocumentType)) && KindOf(f(DocumentType)) == d.kind
  {
    assert f(DocumentType) == DocumentField(d, DocumentType, snake);
  }

  lemma {:induction false} PartsAreShown(f: View, d: Document, snake: Spelling)
    requires Shows(f, DocumentFields(d, snake))
    ensures f(Lines) == Some(Array(LinesJson(d.lines, snake))) && f(FooterKey) == TextArray(d.footer)
    ensures f(TotalsKey) == if d.totals.Some? then Some(TotalsJson(d.totals.value, snake)) else None
  {
  }

  lemma {:induction false} TotalsPartIsShown(v: Option<Json>, totals: Option<Totals>, snake: Spelling)
    requires totals.Some? ==> totals.value.total != ""
    requires v == if totals.Some? then Some(TotalsJson(totals.value, snake)) else None
    ensures OptionalTotals(v).Some? ==> TotalsAreValid(ViewOf(OptionalTotals(v).value))
    ensures TotalsPart(v) == totals
  {
    if totals.Some? {
      TotalsPartReadsBack(totals.value, snake);
    }
  }

  lemma {:induction false} PartsReadBack(f: View, d: Document, snake: Spelling)
    requires IsSound(d) && Shows(f, DocumentFields(d, snake))
    ensures PartsAreValid(f) && KindOf(f(DocumentType)) == d.kind && LinesOf(f(Lines).value.items) == d.lines
    ensures TotalsPart(f(TotalsKey)) == d.totals && OptionalStrings(f(FooterKey)) == d.footer
  {
    KindIsShown(f, d, snake);
    PartsAreShown(f, d, snake);
    LinesReadBack(d.lines, snake);
    TotalsPartIsShown(f(TotalsKey), d.totals, snake);
    if d.footer.Some? {
      StringsOfTexts(d.footer.value);
    }
  }

  lemma {:induction false} RequiredsAreShown(f: View, d: Document, snake: Spelling)
    requires IsSound(d) && Shows(f, DocumentFields(d, snake))
    ensures IsGiven(f(Title), d.title) && IsGiven(f(BranchName), d.branchName) && IsGiven(f(StationName), d.stationName)
    ensures IsGiven(f(OrderNumber), d.orderNumber) && IsGiven(f(SubmittedAt), d.submittedAt)
  {
  }

  lemma {:induction false} LabelsAreShown(f: View, d: Document, snake: Spelling)
    requires Shows(f, DocumentFields(d, snake))
    ensures IsText(f(BusinessName), d.businessName) && IsText(f(TableName), d.tableName)
    ensures IsText(f(StaffLabel), d.staffLabel) && IsText(f(SourceLabel), d.sourceLabel)
    ensures IsText(f(OrderLabel), d.orderLabel)
  {
  }

  lemma {:induction false} PeopleAreShown(f: View, d: Document, snake: Spelling)
    requires Shows(f, DocumentFields(d, snake))
    ensures IsText(f(WaiterName), d.waiterName) && IsText(f(CustomerName), d.customerName)
    ensures IsText(f(CustomerPhone), d.customerPhone) && IsText(f(DeliveryAddress), d.deliveryAddress)
  {
  }

  lemma {:induction false} PaymentIsShown(f: View, d: Document, snake: Spelling)
    requires Shows(f, DocumentFields(d, snake))
    ensures IsText(f(PaymentLabel), d.paymentLabel) && IsText(f(Currency), d.currency)
    ensures TextOf(f(BusinessDate)) == d.businessDate && NumberOf(f(ReceiptNumber)) == d.receiptNumber
  {
  }

  lemma {:induction false} DocumentReadsBack(f: View, d: Document, snake: Spelling)
    requires IsSound(d) && Shows(f, DocumentFields(d, snake))
    ensures IsAccepted(f) && DocumentOf(f) == d
  {
    PartsReadBack(f, d, snake);
    RequiredsAreShown(f, d, snake);
    LabelsAreShown(f, d, snake);
    PeopleAreShown(f, d, snake);
    PaymentIsShown(f, d, snake);
  }

  /** A sound document, written with any mixture of spellings, normalises to itself. */
  lemma {:induction false} SpellingDoesNotMatter(d: Document, snake: Spelling)
    requires IsSound(d)
    ensures NormalizeDocument(DocumentJson(d, snake)) == Some(d)
  {
    ReadsBack(DocumentFields(d, snake), snake);
    DocumentReadsBack(ViewOf(DocumentJson(d, snake)), d, snake);
  }

  lemma {:induction false} NormalizedIsSound(f: View)
    requires IsAccepted(f)
    ensures IsSound(DocumentOf(f))
  {
  }

  /** Every document that normalisation accepts comes out as one that it accepts and
      leaves as it is, so the hash taken of it is the hash of its own normal form. */
  lemma {:induction false} NormalizeIsIdempotent(o: Fields, snake: Spelling)
    ensures NormalizeDocument(o).Some? ==>
              NormalizeDocument(DocumentJson(NormalizeDocument(o).value, snake)) == NormalizeDocument(o)
  {
    if NormalizeDocument(o).Some? {
      NormalizedIsSound(ViewOf(o));
      SpellingDoesNotMatter(NormalizeDocument(o).value, snake);
    }
  }

  /** The sound documents are exactly what normalisation produces. */
  lemma {:induction false} NormalFormsAreTheSoundDocuments(d: Document)
    ensures IsSound(d) <==> exists o :: NormalizeDocument(o) == Some(d)
  {
    if IsSound(d) {
      SpellingDoesNotMatter(d, n => false);
    } else if o :| NormalizeDocument(o) == Some(d) {
      NormalizedIsSound(ViewOf(o));
      assert false;
    }
  }

  lemma {:induction false} SameViewSameDocument(f: View, g: View)
    requires Shows(f, g)
    ensures IsAccepted(f) <==> IsAccepted(g)
    ensures IsAccepted(f) ==> DocumentOf(f) == DocumentOf(g)
  {
  }

  predicate HasTwoSpellings(n: Name) {
    Spelt(n, _ => true) == Snake(n)
  }

  /** A field is read from its own two spellings alone. */
  lemma {:induction false} ReadsItsSpellings(o: Fields, o': Fields, n: Name)
    requires At(o, Camel(n)) == At(o', Camel(n)) && At(o, Snake(n)) == At(o', Snake(n))
    ensures Read(o, n) == Read(o', n)
  {
    assert Present(o, Camel(n)) == Present(o', Camel(n));
    assert Present(o, Snake(n)) == Present(o', Snake(n));
  }

  /** The spelling that is read first, and the other one. */
  function Spellings(n: Name): (Key, Key) {
    if n in {ReceiptNumber, BusinessDate} then (Camel(n), Snake(n)) else (Snake(n), Camel(n))
  }

  lemma {:induction false} ReadsInTurn(o: Fields, n: Name)
    requires HasTwoSpellings(n)
    ensures Read(o, n) == Either(o, Spellings(n).0, Spellings(n).1)
  {
  }

  /** Where a field is there in the spelling that is read first, whatever stands under
      the other spelling is ignored: camel case goes first for the receipt number and
      the business date, snake case for every other field. */
  lemma {:induction false} FirstSpellingWins(o: Fields, n: Name, v: Json)
    requires HasTwoSpellings(n)
    ensures var (first, second) := if n in {ReceiptNumber, BusinessDate} then (Camel(n), Snake(n)) else (Snake(n), Camel(n));
            Present(o, first) ==> NormalizeDocument(o[second := v]) == NormalizeDocument(o)
  {
    var (first, second) := if n in {ReceiptNumber, BusinessDate} then (Camel(n), Snake(n)) else (Snake(n), Camel(n));
    if Present(o, first) {
      forall m ensures Read(o[second := v], m) == Read(o, m) {
        if m == n {
          ReadsInTurn(o, n);
          ReadsInTurn(o[second := v], n);
        } else {
          ReadsItsSpellings(o[second := v], o, m);
        }
      }
      SameViewSameDocument(ViewOf(o[second := v]), ViewOf(o));
    }
  }

  /** A null under the spelling that is read first counts as absent: the other spelling
      is read in its place. */
  lemma {:induction false} NullFallsBack(o: Fields, n: Name)
    requires HasTwoSpellings(n)
    ensures var (first, second) := if n in {ReceiptNumber, BusinessDate} then (Camel(n), Snake(n)) else (Snake(n), Camel(n));
            second in o && o[second] != Null ==>
              NormalizeDocument(o[first := Null]) == NormalizeDocument(o[first := o[second]])
  {
    var (first, second) := if n in {ReceiptNumber, BusinessDate} then (Camel(n), Snake(n)) else (Snake(n), Camel(n));
    if second in o && o[second] != Null {
      var nulled, filled := o[first := Null], o[first := o[second]];
      forall m ensures Read(nulled, m) == Read(filled, m) {
        if m == n {
          ReadsInTurn(filled, n);
          ReadsInTurn(nulled, n);
        } else {
          ReadsItsSpellings(nulled, filled, m);
        }
      }
      SameViewSameDocument(ViewOf(nulled), ViewOf(filled));
    }
  }

  /** And a null under both spellings is as good as none. */
  lemma {:induction false} NullIsAbsent(o: Fields, n: Name)
    requires HasTwoSpellings(n)
    ensures NormalizeDocument(o[Camel(n) := Null][Snake(n) := Null]) == NormalizeDocument(o - {Camel(n), Snake(n)})
  {
    var nulled, gone := o[Camel(n) := Null][Snake(n) := Null], o - {Camel(n), Snake(n)};
    forall m ensures Read(nulled, m) == Read(gone, m) {
      if m == n {
        ReadsInTurn(nulled, n);
        ReadsInTurn(gone, n);
      } else {
        ReadsItsSpellings(nulled, gone, m);
      }
    }
    SameViewSameDocument(ViewOf(nulled), ViewOf(gone));
  }
}

/**
 Parsing of billing lines: every defect of the input is reported in order, the lines that have a
 shape are collected, and a running total guards the amount. Numbers are doubles.
 */
module BillingLines {
  import opened Wrappers
  import opened Doubles
  import opened BillingAmounts
  import opened LineOutcomes

  /** A decoded JSON value, as far as the parsers tell values apart. */
  datatype Raw =
    | Undefined
    | Null
    | Number(n: real)
    | NotFinite
    | Text(s: string)
    | Record(fields: seq<Member>)
    | List(items: seq<Raw>)
    | Flag

  datatype Member = Member(key: string, value: Raw)

  datatype Discount = Percent(value: real) | Amount(cents: int)

  datatype Line = Line(
    caption: string,
    category: string,
    qty: real,
    unit: Option<string>,
    unitPriceHT: int,
    vatRate: real,
    discount: Option<Discount>)

  /** Where an issue is reported: on the list, on a line, on a field of a line. */
  datatype Place = Lines | LineAt(index: nat) | FieldAt(index: nat, name: string)

  datatype Defect =
    | NotAnObject | UnknownField(name: string) | BadLabel | BadCategory | BadQty | BadUnit | BadPrice | BadVatRate
    | BadDiscount | BadLines | TotalTooHigh

  datatype Issue = Issue(place: Place, defect: Defect)

  const MaxLines: nat := 100
  const MaxHtCents: int := 1_500_000_000
  const MaxSafeInteger: int := 9_007_199_254_740_991
  const LineFields: set<string> := {"label", "category", "qty", "unit", "unitPriceHT", "vatRate", "discount"}
  const DiscountFields: set<string> := {"type", "value", "cents"}
  const Categories: set<string> := {"labor", "supply", "travel", "disbursement", "subscription"}

  function Field(fields: seq<Member>, name: string): Raw {
    if fields == [] then Undefined
    else if fields[0].key == name then fields[0].value
    else Field(fields[1..], name)
  }

  predicate HasField(fields: seq<Member>, name: string) {
    exists i :: 0 <= i < |fields| && fields[i].key == name
  }

  predicate OnlyFields(fields: seq<Member>, known: set<string>) {
    forall i :: 0 <= i < |fields| ==> fields[i].key in known
  }

  predicate IsBlank(c: char) {
    || '\t' <= c <= '\r' || c == ' ' || c == '\U{a0}' || c == '\U{1680}' || '\U{2000}' <= c <= '\U{200a}'
    || c == '\U{2028}' || c == '\U{2029}' || c == '\U{202f}' || c == '\U{205f}' || c == '\U{3000}' || c == '\U{feff}'
  }

  predicate IsControl(c: char) {
    c <= '\U{1f}' || c == '\U{7f}'
  }

  /** Something to read, no longer than `limit`, on one line. */
  predicate IsShortText(raw: Raw, limit: nat) {
    && raw.Text?
    && (exists i :: 0 <= i < |raw.s| && !IsBlank(raw.s[i]))
    && |raw.s| <= limit
    && forall i :: 0 <= i < |raw.s| ==> !IsControl(raw.s[i])
  }

  predicate IsSafeInteger(raw: Raw) {
    raw.Number? && IsInteger(raw.n) && -(MaxSafeInteger as real) <= raw.n <= MaxSafeInteger as real
  }

  predicate IsQuantity(raw: Raw) {
    raw.Number? && AcceptsQuantity(raw.n)
  }

  predicate IsUnit(raw: Raw) {
    raw == Undefined || IsShortText(raw, 80)
  }

  predicate IsPrice(raw: Raw) {
    IsSafeInteger(raw) && 0.0 <= raw.n <= MaxHtCents as real
  }

  predicate IsCategory(raw: Raw) {
    raw.Text? && raw.s in Categories
  }

  /** The rates as doubles; 2.1 is the only one that is not exact. */
  predicate IsVatRate(raw: Raw) {
    raw.Number? && (raw.n == 0.0 || raw.n == Double(2.1) || raw.n == 5.5 || raw.n == 10.0 || raw.n == 20.0)
  }

  predicate IsDiscount(raw: Raw) {
    && raw.Record?
    && OnlyFields(raw.fields, DiscountFields)
    && ((Field(raw.fields, "type") == Text("percent") && Field(raw.fields, "value").Number? && !HasField(raw.fields, "cents"))
        || (Field(raw.fields, "type") == Text("amount") && IsSafeInteger(Field(raw.fields, "cents")) && !HasField(raw.fields, "value")))
  }

  predicate IsDiscountField(raw: Raw) {
    raw == Undefined || raw == Null || IsDiscount(raw)
  }

  // ----- What a caller may send -----

  predicate ValidLine(raw: Raw) {
    && raw.Record?
    && var f := raw.fields;
    && OnlyFields(f, LineFields)
    && IsShortText(Field(f, "label"), 500)
    && IsCategory(Field(f, "category"))
    && IsQuantity(Field(f, "qty"))
    && IsUnit(Field(f, "unit"))
    && IsPrice(Field(f, "unitPriceHT"))
    && IsVatRate(Field(f, "vatRate"))
    && IsDiscountField(Field(f, "discount"))
  }

  /** The product a line adds to the total, if it has the two numbers. */
  function CentsOf(raw: Raw): Option<int> {
    if raw.Record? && Field(raw.fields, "qty").Number? && IsSafeInteger(Field(raw.fields, "unitPriceHT"))
       && Field(raw.fields, "unitPriceHT").n >= 0.0
    then Some(LineCents(Field(raw.fields, "qty").n, Field(raw.fields, "unitPriceHT").n))
    else None
  }

  function DiscountOf(raw: Raw): Option<Discount> {
    if !IsDiscount(raw) then None
    else if Field(raw.fields, "type") == Text("percent") then Some(Percent(Field(raw.fields, "value").n))
    else Some(Amount(Field(raw.fields, "cents").n.Floor))
  }

  predicate HasShape(raw: Raw) {
    && raw.Record?
    && var f := raw.fields;
    && Field(f, "label").Text? && IsCategory(Field(f, "category")) && Field(f, "qty").Number?
    && IsSafeInteger(Field(f, "unitPriceHT")) && IsVatRate(Field(f, "vatRate"))
  }

  /** The line that stands for a raw one. */
  function LineOf(raw: Raw): Line
    requires HasShape(raw)
  {
    var f := raw.fields;
    var unit := Field(f, "unit");
    Line(Field(f, "label").s, Field(f, "category").s, Field(f, "qty").n, if unit.Text? then Some(unit.s) else None,
         Field(f, "unitPriceHT").n.Floor, Field(f, "vatRate").n, DiscountOf(Field(f, "discount")))
  }

  // ----- What is reported -----

  function ReportIf(bad: bool, issue: Issue): seq<Issue> {
    if bad then [issue] else []
  }

  function UnknownIssues(fields: seq<Member>, index: nat): seq<Issue> {
    if fields == [] then []
    else
      var last := fields[|fields| - 1];
      UnknownIssues(fields[..|fields| - 1], index)
      + ReportIf(last.key !in LineFields, Issue(LineAt(index), UnknownField(last.key)))
  }

  function HeadIssues(f: seq<Member>, index: nat): seq<Issue> {
    ReportIf(!IsShortText(Field(f, "label"), 500), Issue(FieldAt(index, "label"), BadLabel))
    + ReportIf(!IsCategory(Field(f, "category")), Issue(FieldAt(index, "category"), BadCategory))
    + ReportIf(!IsQuantity(Field(f, "qty")), Issue(FieldAt(index, "qty"), BadQty))
  }

  function TailIssues(f: seq<Member>, index: nat): seq<Issue> {
    ReportIf(!IsUnit(Field(f, "unit")), Issue(FieldAt(index, "unit"), BadUnit))
    + ReportIf(!IsPrice(Field(f, "unitPriceHT")), Issue(FieldAt(index, "unitPriceHT"), BadPrice))
    + ReportIf(!IsVatRate(Field(f, "vatRate")), Issue(FieldAt(index, "vatRate"), BadVatRate))
    + ReportIf(!IsDiscountField(Field(f, "discount")), Issue(FieldAt(index, "discount"), BadDiscount))
  }

  function LineIssues(raw: Raw, index: nat): seq<Issue> {
    if !raw.Record? then [Issue(LineAt(index), NotAnObject)]
    else UnknownIssues(raw.fields, index) + HeadIssues(raw.fields, index) + TailIssues(raw.fields, index)
  }

  function OutcomeOf(raw: Raw, index: nat): Outcome<Issue, Line> {
    Outcome(LineIssues(raw, index), if HasShape(raw) then Some(LineOf(raw)) else None, CentsOf(raw))
  }

  function Outcomes(raws: seq<Raw>): (os: seq<Outcome<Issue, Line>>)
    ensures |os| == |raws|
    ensures forall i :: 0 <= i < |raws| ==> os[i] == OutcomeOf(raws[i], i)
  {
    seq(|raws|, i requires 0 <= i < |raws| => OutcomeOf(raws[i], i))
  }

  function ListIssues(raws: seq<Raw>): seq<Issue> {
    AllIssues(Outcomes(raws))
    + ReportIf(RunningTotal(AllCents(Outcomes(raws))) > MaxHtCents as real, Issue(Lines, TotalTooHigh))
  }

  /** Invoices ask for one line at least, quotes for none. */
  function ReportedIssues(raw: Raw, atLeast: nat): seq<Issue> {
    if raw.List? && atLeast <= |raw.items| <= MaxLines then ListIssues(raw.items) else [Issue(Lines, BadLines)]
  }

  function ReportedLines(raw: Raw, atLeast: nat): seq<Line> {
    if raw.List? && atLeast <= |raw.items| <= MaxLines then AllLines(Outcomes(raw.items)) else []
  }

  /** Enough valid lines, not too many, and their exact total within the ceiling. */
  predicate ValidLines(raw: Raw, atLeast: nat) {
    && raw.List?
    && atLeast <= |raw.items| <= MaxLines
    && (forall i :: 0 <= i < |raw.items| ==> ValidLine(raw.items[i]))
    && Sum(AllCents(Outcomes(raw.items))) <= MaxHtCents
  }

  // ----- Nothing reported, nothing wrong -----

  lemma {:induction false} NoUnknownIffKnown(fields: seq<Member>, index: nat)
    ensures UnknownIssues(fields, index) == [] <==> OnlyFields(fields, LineFields)
  {
    if fields != [] {
      var n := |fields| - 1;
      NoUnknownIffKnown(fields[..n], index);
      assert OnlyFields(fields, LineFields) <==> OnlyFields(fields[..n], LineFields) && fields[n].key in LineFields;
    }
  }

  /** A line is reported exactly when it is invalid. */
  lemma NoIssueIffValidLine(raw: Raw, index: nat)
    ensures LineIssues(raw, index) == [] <==> ValidLine(raw)
  {
    if raw.Record? {
      NoUnknownIffKnown(raw.fields, index);
    }
  }

  lemma ValidCents(raw: Raw)
    requires ValidLine(raw)
    ensures CentsOf(raw).Some? && CentsOf(raw).value >= 0
  {
    CentsArePositive(Field(raw.fields, "qty").n, Field(raw.fields, "unitPriceHT").n);
  }

  lemma CentsArePositive(qty: real, price: real)
    requires qty >= 0.0 && price >= 0.0
    ensures LineCents(qty, price) >= 0
  {
    RoundingAt(qty * price, 0.0, 0);
  }

  /** A valid line has no issue, a shape, and an amount that is not negative. */
  lemma ValidOutcome(raw: Raw, index: nat)
    ensures var o := OutcomeOf(raw, index);
            && (o.issues == [] <==> ValidLine(raw))
            && (o.issues == [] ==> HasShape(raw) && o.line == Some(LineOf(raw)) && o.cents.Some? && o.cents.value >= 0)
  {
    NoIssueIffValidLine(raw, index);
    if ValidLine(raw) { ValidCents(raw); }
  }

  ghost predicate Clean(os: seq<Outcome<Issue, Line>>) {
    forall i :: 0 <= i < |os| ==> os[i].issues == []
  }

  lemma CleanIffValid(raws: seq<Raw>)
    ensures Clean(Outcomes(raws)) <==> forall i :: 0 <= i < |raws| ==> ValidLine(raws[i])
  {
    var os := Outcomes(raws);
    forall i: nat | i < |raws| ensures os[i].issues == [] <==> ValidLine(raws[i]) { ValidOutcome(raws[i], i); }
  }

  /** Valid lines all get through in order, and each adds its cents. */
  lemma ValidLinesKeepShape(raws: seq<Raw>)
    requires Clean(Outcomes(raws))
    ensures |AllLines(Outcomes(raws))| == |raws| == |AllCents(Outcomes(raws))|
    ensures forall i :: 0 <= i < |raws| ==> HasShape(raws[i]) && AllLines(Outcomes(raws))[i] == LineOf(raws[i])
    ensures forall i :: 0 <= i < |raws| ==> Some(AllCents(Outcomes(raws))[i]) == CentsOf(raws[i])
    ensures forall i :: 0 <= i < |raws| ==> AllCents(Outcomes(raws))[i] >= 0
  {
    var os := Outcomes(raws);
    forall i: nat | i < |raws|
      ensures HasShape(raws[i]) && os[i].line == Some(LineOf(raws[i]))
      ensures os[i].cents == CentsOf(raws[i]) && os[i].cents.Some? && os[i].cents.value >= 0
    {
      ValidOutcome(raws[i], i);
    }
    CompleteOutcomes(os);
  }

  /**
   Nothing is reported exactly for valid input, its exact total included although the loop keeps a
   rounded one; and then the lines are the input's, one for one.
   */
  lemma NothingReportedIffValid(raw: Raw, atLeast: nat)
    ensures ReportedIssues(raw, atLeast) == [] <==> ValidLines(raw, atLeast)
    ensures ReportedIssues(raw, atLeast) == [] ==>
              && |ReportedLines(raw, atLeast)| == |raw.items|
              && forall i :: 0 <= i < |raw.items| ==>
                               HasShape(raw.items[i]) && ReportedLines(raw, atLeast)[i] == LineOf(raw.items[i])
  {
    if raw.List? && atLeast <= |raw.items| <= MaxLines {
      NoIssueIffNone(Outcomes(raw.items));
      CleanIffValid(raw.items);
      if Clean(Outcomes(raw.items)) {
        ValidLinesKeepShape(raw.items);
        RoundedTotalKeepsTheGuard(AllCents(Outcomes(raw.items)), MaxHtCents);
      }
    }
  }

  // ----- Invoices -----

  method ParseDiscountField(raw: Raw) returns (discount: Option<Discount>, bad: bool)
    ensures bad <==> raw != Null && !IsDiscount(raw)
    ensures discount == DiscountOf(raw)
  {
    if raw == Null { return None, false; }
    if !raw.Record? { return None, true; }
    var f := raw.fields;
    if !OnlyFields(f, DiscountFields) { return None, true; }
    if Field(f, "type") == Text("percent") {
      if !Field(f, "value").Number? || HasField(f, "cents") { return None, true; }
      return Some(Percent(Field(f, "value").n)), false;
    }
    if Field(f, "type") == Text("amount") {
      if !IsSafeInteger(Field(f, "cents")) || HasField(f, "value") { return None, true; }
      return Some(Amount(Field(f, "cents").n.Floor)), false;
    }
    return None, true;
  }

  lemma NextUnknown(fields: seq<Member>, n: nat, index: nat)
    requires n < |fields|
    ensures UnknownIssues(fields[..n + 1], index) ==
            UnknownIssues(fields[..n], index) + ReportIf(fields[n].key !in LineFields, Issue(LineAt(index), UnknownField(fields[n].key)))
  {
    assert fields[..n + 1][..n] == fields[..n];
  }

  method FindUnknownFields(fields: seq<Member>, index: nat) returns (issues: seq<Issue>)
    ensures issues == UnknownIssues(fields, index)
  {
    issues := [];
    for n := 0 to |fields|
      invariant issues == UnknownIssues(fields[..n], index)
    {
      NextUnknown(fields, n, index);
      if fields[n].key !in LineFields { issues := issues + [Issue(LineAt(index), UnknownField(fields[n].key))]; }
    }
    assert fields[..|fields|] == fields;
  }

  method AddIssue(issues: seq<Issue>, bad: bool, issue: Issue) returns (r: seq<Issue>)
    ensures r == issues + ReportIf(bad, issue)
  {
    r := if bad then issues + [issue] else issues;
  }

  method CheckHead(f: seq<Member>, index: nat) returns (issues: seq<Issue>)
    ensures issues == HeadIssues(f, index)
  {
    issues := AddIssue([], !IsShortText(Field(f, "label"), 500), Issue(FieldAt(index, "label"), BadLabel));
    issues := AddIssue(issues, !IsCategory(Field(f, "category")), Issue(FieldAt(index, "category"), BadCategory));
    issues := AddIssue(issues, !IsQuantity(Field(f, "qty")), Issue(FieldAt(index, "qty"), BadQty));
  }

  method CheckTail(f: seq<Member>, index: nat) returns (issues: seq<Issue>, discount: Option<Discount>)
    ensures issues == TailIssues(f, index)
    ensures discount == DiscountOf(Field(f, "discount"))
  {
    issues := AddIssue([], !IsUnit(Field(f, "unit")), Issue(FieldAt(index, "unit"), BadUnit));
    issues := AddIssue(issues, !IsPrice(Field(f, "unitPriceHT")), Issue(FieldAt(index, "unitPriceHT"), BadPrice));
    issues := AddIssue(issues, !IsVatRate(Field(f, "vatRate")), Issue(FieldAt(index, "vatRate"), BadVatRate));
    var bad := false;
    discount := None;
    if Field(f, "discount") != Undefined {
      discount, bad := ParseDiscountField(Field(f, "discount"));
    }
    issues := AddIssue(issues, bad, Issue(FieldAt(index, "discount"), BadDiscount));
  }

  /** Each defect of a line is reported, in order, at its place. */
  method ParseLine(raw: Raw, index: nat) returns (r: Outcome<Issue, Line>)
    ensures r == OutcomeOf(raw, index)
    ensures r.issues == [] <==> ValidLine(raw)
  {
    NoIssueIffValidLine(raw, index);
    if !raw.Record? { return Outcome([Issue(LineAt(index), NotAnObject)], None, None); }
    var f := raw.fields;
    var unknown := FindUnknownFields(f, index);
    var head := CheckHead(f, index);
    var tail, discount := CheckTail(f, index);
    var line: Option<Line> := None;
    if HasShape(raw) {
      var unit := Field(f, "unit");
      line := Some(Line(Field(f, "label").s, Field(f, "category").s, Field(f, "qty").n,
                        if unit.Text? then Some(unit.s) else None,
                        Field(f, "unitPriceHT").n.Floor, Field(f, "vatRate").n, discount));
    }
    r := Outcome(unknown + head + tail, line, CentsOf(raw));
  }

  method ParseLines(items: seq<Raw>) returns (lines: seq<Line>, issues: seq<Issue>)
    ensures lines == AllLines(Outcomes(items)) && issues == ListIssues(items)
  {
    lines, issues := [], [];
    var totalHtCents := 0.0;
    ghost var os := Outcomes(items);
    for index := 0 to |items|
      invariant lines == AllLines(os[..index]) && issues == AllIssues(os[..index])
      invariant totalHtCents == RunningTotal(AllCents(os[..index]))
    {
      var o := ParseLine(items[index], index);
      assert o == os[index];
      NextOutcome(os, index);
      issues := issues + o.issues;
      totalHtCents := AddToTotal(totalHtCents, o.cents, AllCents(os[..index]), AllCents(os[..index + 1]));
      if o.line.Some? { lines := lines + [o.line.value]; }
    }
    assert os[..|items|] == os;
    if totalHtCents > MaxHtCents as real { issues := issues + [Issue(Lines, TotalTooHigh)]; }
  }

  /** Reports the defects of an invoice's lines behind those reported before. */
  method ParseBillingLineInputs(raw: Raw, before: seq<Issue>) returns (lines: seq<Line>, issues: seq<Issue>)
    ensures lines == ReportedLines(raw, 1)
    ensures issues == before + ReportedIssues(raw, 1)
    ensures issues == before <==> ValidLines(raw, 1)
  {
    NothingReportedIffValid(raw, 1);
    if !raw.List? || |raw.items| == 0 || |raw.items| > MaxLines {
      lines, issues := [], before + [Issue(Lines, BadLines)];
    } else {
      lines, issues := ParseLines(raw.items);
      issues := before + issues;
    }
  }

  // ----- How far the total is from the exact products -----

  function ExactAmount(raw: Raw): real {
    if raw.Record? && Field(raw.fields, "qty").Number? && Field(raw.fields, "unitPriceHT").Number?
    then Field(raw.fields, "qty").n * Field(raw.fields, "unitPriceHT").n
    else 0.0
  }

  function ExactAmounts(raws: seq<Raw>): (amounts: seq<real>)
    ensures |amounts| == |raws| && forall i :: 0 <= i < |raws| ==> amounts[i] == ExactAmount(raws[i])
  {
    seq(|raws|, i requires 0 <= i < |raws| => ExactAmount(raws[i]))
  }

  lemma LargestAmount(a: real, b: real)
    requires 0.0 <= a <= 1_000_000.0 && 0.0 <= b <= 1_500_000_000.0
    ensures 0.0 <= a * b <= 1_500_000_000_000_000.0
  {
    if b > 0.0 { Scale(a, 1_000_000.0, b); }
  }

  /** The numbers of a valid line. */
  predicate HasAmount(raw: Raw) {
    && raw.Record? && Field(raw.fields, "qty").Number? && IsSafeInteger(Field(raw.fields, "unitPriceHT"))
    && 0.0 <= Field(raw.fields, "qty").n <= 1_000_000.0
    && 0.0 <= Field(raw.fields, "unitPriceHT").n <= 1_500_000_000.0
  }

  /** Rounding the product and then the cents moves a line by 5/8 of a cent at most. */
  lemma LineCentsAreNear(raw: Raw)
    requires HasAmount(raw)
    ensures CentsOf(raw).Some? && -0.625 <= CentsOf(raw).value as real - ExactAmount(raw) <= 0.625
  {
    var qty, price := Field(raw.fields, "qty").n, Field(raw.fields, "unitPriceHT").n;
    AmountIsNear(qty, price, CentsOf(raw).value, ExactAmount(raw));
  }

  lemma AmountIsNear(qty: real, price: real, cents: int, exact: real)
    requires 0.0 <= qty <= 1_000_000.0 && 0.0 <= price <= 1_500_000_000.0
    requires cents == LineCents(qty, price) && exact == qty * price
    ensures -0.625 <= cents as real - exact <= 0.625
  {
    LargestAmount(qty, price);
    CentsNear(exact, cents);
  }

  lemma CentsNear(x: real, cents: int)
    requires 0.0 <= x <= 1_500_000_000_000_000.0 && cents == Round(Double(x))
    ensures -0.625 <= cents as real - x <= 0.625
  {
    SmallUnit(x);
    RoundingError(x);
  }

  lemma SmallUnit(x: real)
    requires 0.0 <= x <= 1_500_000_000_000_000.0
    ensures Ulp(x) <= 0.25
  {
    Pow2At52(52);
    Pow2Next(51);
    UlpAtMost(x, 51);
    assert Pow2(-2) == 0.25;
  }

  lemma CentsAreNear(raws: seq<Raw>)
    requires Clean(Outcomes(raws))
    ensures NearBy(AllCents(Outcomes(raws)), ExactAmounts(raws))
  {
    var cents, amounts := AllCents(Outcomes(raws)), ExactAmounts(raws);
    CleanIffValid(raws);
    ValidLinesKeepShape(raws);
    forall i | 0 <= i < |raws| ensures -0.625 <= cents[i] as real - amounts[i] <= 0.625 {
      LineCentsAreNear(raws[i]);
      assert Some(cents[i]) == CentsOf(raws[i]);
    }
  }

  /** The total that is guarded, against the sum of the exact products. */
  lemma TotalIsNear(raws: seq<Raw>)
    requires Clean(Outcomes(raws))
    ensures var total := Sum(AllCents(Outcomes(raws))) as real;
            -0.625 * |raws| as real <= total - SumOf(ExactAmounts(raws)) <= 0.625 * |raws| as real
  {
    CentsAreNear(raws);
    SumIsNear(AllCents(Outcomes(raws)), ExactAmounts(raws));
  }
}

/** The quote endpoint's own copy of the line loop, and what it shares with the invoice parser. */
module QuoteLines {
  import opened Wrappers
  import opened Doubles
  import opened BillingAmounts
  import opened LineOutcomes
  import opened BillingLines

  /** `typeof raw === 'object'`, which also holds of null and of arrays. */
  predicate IsObjectType(raw: Raw) {
    raw.Null? || raw.Record? || raw.List?
  }

  /** One turn of the quote loop. */
  method ParseQuoteLine(raw: Raw, index: nat) returns (r: Outcome<Issue, Line>)
    ensures r == OutcomeOf(raw, index)
  {
    if raw.Null? || !IsObjectType(raw) || raw.List? {
      return Outcome([Issue(LineAt(index), NotAnObject)], None, None);
    }
    var fields := raw.fields;
    var unknown: seq<Issue> := [];
    for n := 0 to |fields|
      invariant unknown == UnknownIssues(fields[..n], index)
    {
      NextUnknown(fields, n, index);
      var key := fields[n].key;
      if key !in LineFields { unknown := unknown + [Issue(LineAt(index), UnknownField(key))]; }
    }
    assert fields[..|fields|] == fields;
    var caption, category, qty := Field(fields, "label"), Field(fields, "category"), Field(fields, "qty");
    var head := CheckQuoteHead(caption, category, qty, index);
    assert head == HeadIssues(fields, index);
    var tail, discount := CheckQuoteTail(fields, index);
    var unit, unitPriceHT, vatRate := Field(fields, "unit"), Field(fields, "unitPriceHT"), Field(fields, "vatRate");
    var cents: Option<int> := None;
    if qty.Number? && IsSafeInteger(unitPriceHT) && unitPriceHT.n >= 0.0 {
      cents := Some(Round(Double(qty.n * unitPriceHT.n)));
    }
    var line: Option<Line> := None;
    if caption.Text? && category.Text? && category.s in Categories && qty.Number? && IsSafeInteger(unitPriceHT) && IsVatRate(vatRate) {
      line := Some(Line(caption.s, category.s, qty.n, if unit.Text? then Some(unit.s) else None,
                        unitPriceHT.n.Floor, vatRate.n, discount));
    }
    r := Outcome(unknown + head + tail, line, cents);
  }

  method CheckQuoteHead(caption: Raw, category: Raw, qty: Raw, index: nat) returns (issues: seq<Issue>)
    ensures issues ==
            ReportIf(!IsShortText(caption, 500), Issue(FieldAt(index, "label"), BadLabel))
            + ReportIf(!IsCategory(category), Issue(FieldAt(index, "category"), BadCategory))
            + ReportIf(!IsQuantity(qty), Issue(FieldAt(index, "qty"), BadQty))
  {
    issues := [];
    if !IsShortText(caption, 500) { issues := issues + [Issue(FieldAt(index, "label"), BadLabel)]; }
    if !category.Text? || category.s !in Categories {
      issues := issues + [Issue(FieldAt(index, "category"), BadCategory)];
    }
    if !qty.Number? || qty.n <= 0.0 || qty.n > 1_000_000.0 || Round(Double(qty.n * 1000.0)) as real != Double(qty.n * 1000.0) {
      issues := issues + [Issue(FieldAt(index, "qty"), BadQty)];
    }
  }

  method CheckQuoteTail(f: seq<Member>, index: nat) returns (issues: seq<Issue>, discount: Option<Discount>)
    ensures issues == TailIssues(f, index)
    ensures discount == DiscountOf(Field(f, "discount"))
  {
    var unit, unitPriceHT, vatRate := Field(f, "unit"), Field(f, "unitPriceHT"), Field(f, "vatRate");
    issues := [];
    if unit != Undefined && !IsShortText(unit, 80) { issues := issues + [Issue(FieldAt(index, "unit"), BadUnit)]; }
    if !IsSafeInteger(unitPriceHT) || unitPriceHT.n < 0.0 || unitPriceHT.n > MaxHtCents as real {
      issues := issues + [Issue(FieldAt(index, "unitPriceHT"), BadPrice)];
    }
    if !IsVatRate(vatRate) { issues := issues + [Issue(FieldAt(index, "vatRate"), BadVatRate)]; }
    discount := None;
    var raw := Field(f, "discount");
    if raw != Undefined {
      var bad: bool;
      discount, bad := ParseDiscountField(raw);
      if bad { issues := issues + [Issue(FieldAt(index, "discount"), BadDiscount)]; }
    }
  }

  method ParseQuoteItems(items: seq<Raw>) returns (lines: seq<Line>, issues: seq<Issue>)
    ensures lines == AllLines(Outcomes(items)) && issues == ListIssues(items)
  {
    lines, issues := [], [];
    var totalHtCents := 0.0;
    ghost var os := Outcomes(items);
    for index := 0 to |items|
      invariant lines == AllLines(os[..index]) && issues == AllIssues(os[..index])
      invariant totalHtCents == RunningTotal(AllCents(os[..index]))
    {
      var o := ParseQuoteLine(items[index], index);
      assert o == os[index];
      NextOutcome(os, index);
      issues := issues + o.issues;
      totalHtCents := AddToTotal(totalHtCents, o.cents, AllCents(os[..index]), AllCents(os[..index + 1]));
      if o.line.Some? { lines := lines + [o.line.value]; }
    }
    assert os[..|items|] == os;
    if totalHtCents > MaxHtCents as real { issues := issues + [Issue(Lines, TotalTooHigh)]; }
  }

  /** Reports the defects of a quote's lines behind those reported before. */
  method ParseQuoteLines(raw: Raw, before: seq<Issue>) returns (lines: seq<Line>, issues: seq<Issue>)
    ensures lines == ReportedLines(raw, 0)
    ensures issues == before + ReportedIssues(raw, 0)
    ensures issues == before <==> ValidLines(raw, 0)
  {
    NothingReportedIffValid(raw, 0);
    if !raw.List? || |raw.items| > MaxLines {
      lines, issues := [], before + [Issue(Lines, BadLines)];
    } else {
      lines, issues := ParseQuoteItems(raw.items);
      issues := before + issues;
    }
  }

  /** The two entry points report and collect the same on every input but one: the empty array. */
  method ParseAsInvoiceAndQuote(raw: Raw, before: seq<Issue>)
    returns (invoice: (seq<Line>, seq<Issue>), quote: (seq<Line>, seq<Issue>))
    ensures invoice == quote <==> raw != List([])
    ensures raw == List([]) ==> quote.1 == before && invoice.1 == before + [Issue(Lines, BadLines)]
  {
    var lines, issues := ParseBillingLineInputs(raw, before);
    invoice := (lines, issues);
    lines, issues := ParseQuoteLines(raw, before);
    quote := (lines, issues);
    if raw == List([]) {
      assert quote.1 == before && |invoice.1| == |before| + 1;
    }
  }
}

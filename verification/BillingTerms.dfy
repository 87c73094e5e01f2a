/**
 The terms of billing lines on the members of the objects sent: which lines are valid, what a
 parsed line holds, which discounts are read and what a line adds to the total.
 */
module BillingTerms {
  import opened Wrappers
  import opened Doubles
  import opened BillingAmounts
  import opened LineOutcomes
  import opened BillingLines

  /** An object has one member for each key. */
  ghost predicate IsObject(fields: seq<Member>) {
    forall i, j :: 0 <= i < j < |fields| ==> fields[i].key != fields[j].key
  }

  /** No member of that key, or an undefined one. */
  ghost predicate Lacks(fields: seq<Member>, key: string) {
    forall m :: m in fields && m.key == key ==> m.value == Undefined
  }

  ghost predicate OnlyKeys(fields: seq<Member>, keys: set<string>) {
    forall m :: m in fields ==> m.key in keys
  }

  function TrimStart(s: string): string {
    if s != "" && IsBlank(s[0]) then TrimStart(s[1..]) else s
  }

  function TrimEnd(s: string): string {
    if s != "" && IsBlank(s[|s| - 1]) then TrimEnd(s[..|s| - 1]) else s
  }

  function Trim(s: string): string {
    TrimEnd(TrimStart(s))
  }

  /** Not blank, not longer than the limit, without control characters. */
  ghost predicate Readable(s: string, limit: nat) {
    Trim(s) != "" && |s| <= limit && forall c :: c in s ==> '\U{20}' <= c && c != '\U{7f}'
  }

  // ----- Members -----

  /** The value of a field is that of the member with its key, and undefined without one. */
  lemma {:induction false} FieldIsTheMember(fields: seq<Member>, key: string)
    requires IsObject(fields)
    ensures forall v :: Field(fields, key) == v <==> Member(key, v) in fields || (v == Undefined && Lacks(fields, key))
  {
    if fields != [] {
      var rest := fields[1..];
      FieldIsTheMember(rest, key);
      assert forall m :: m in fields <==> m == fields[0] || m in rest;
      if fields[0].key == key {
        forall m | m in rest ensures m.key != key { var i :| 0 <= i < |rest| && rest[i] == m; assert fields[i + 1] == m; }
      }
    }
  }

  lemma KeysAreKnown(fields: seq<Member>, known: set<string>)
    ensures OnlyFields(fields, known) <==> OnlyKeys(fields, known)
  {
    if OnlyKeys(fields, known) {
      forall i | 0 <= i < |fields| ensures fields[i].key in known { assert fields[i] in fields; }
    }
  }

  lemma {:induction false} TrimEndIsEmpty(s: string)
    ensures TrimEnd(s) == "" <==> forall i :: 0 <= i < |s| ==> IsBlank(s[i])
  {
    if s != "" {
      var n := |s| - 1;
      TrimEndIsEmpty(s[..n]);
      assert forall i :: 0 <= i < n ==> s[..n][i] == s[i];
    }
  }

  lemma {:induction false} TrimIsEmpty(s: string)
    ensures Trim(s) == "" <==> forall i :: 0 <= i < |s| ==> IsBlank(s[i])
  {
    if s != "" && IsBlank(s[0]) {
      TrimIsEmpty(s[1..]);
      assert forall i :: 1 <= i < |s| ==> s[1..][i - 1] == s[i];
    } else {
      TrimEndIsEmpty(s);
    }
  }

  lemma ShortTextIsReadable(raw: Raw, limit: nat)
    ensures IsShortText(raw, limit) <==> raw.Text? && Readable(raw.s, limit)
  {
    if raw.Text? {
      TrimIsEmpty(raw.s);
      assert (forall i :: 0 <= i < |raw.s| ==> !IsControl(raw.s[i])) <==> forall c :: c in raw.s ==> !IsControl(c);
    }
  }

  // ----- Discounts -----

  /** A percentage is read exactly from its type and a number, and nothing else in the object. */
  lemma PercentMeans(raw: Raw, value: real)
    requires raw.Record? ==> IsObject(raw.fields)
    ensures DiscountOf(raw) == Some(Percent(value)) <==>
            && raw.Record?
            && OnlyKeys(raw.fields, {"type", "value"})
            && Member("type", Text("percent")) in raw.fields
            && Member("value", Number(value)) in raw.fields
  {
    if raw.Record? {
      DiscountFieldsAre(raw.fields);
    }
  }

  /** An amount exactly from its type and a safe integer. */
  lemma AmountMeans(raw: Raw, cents: int)
    requires raw.Record? ==> IsObject(raw.fields)
    ensures DiscountOf(raw) == Some(Amount(cents)) <==>
            && raw.Record?
            && OnlyKeys(raw.fields, {"type", "cents"})
            && Member("type", Text("amount")) in raw.fields
            && Member("cents", Number(cents as real)) in raw.fields
            && -9_007_199_254_740_991 <= cents <= 9_007_199_254_740_991
  {
    if raw.Record? {
      DiscountFieldsAre(raw.fields);
    }
  }

  lemma DiscountFieldsAre(fields: seq<Member>)
    requires IsObject(fields)
    ensures forall v :: v != Undefined ==>
              && (Field(fields, "type") == v <==> Member("type", v) in fields)
              && (Field(fields, "value") == v <==> Member("value", v) in fields)
              && (Field(fields, "cents") == v <==> Member("cents", v) in fields)
    ensures OnlyFields(fields, DiscountFields) && !HasField(fields, "cents") <==> OnlyKeys(fields, {"type", "value"})
    ensures OnlyFields(fields, DiscountFields) && !HasField(fields, "value") <==> OnlyKeys(fields, {"type", "cents"})
  {
    FieldIsTheMember(fields, "type");
    FieldIsTheMember(fields, "value");
    FieldIsTheMember(fields, "cents");
    KeysAreKnown(fields, DiscountFields);
    KeysAreKnown(fields, {"type", "value"});
    KeysAreKnown(fields, {"type", "cents"});
  }

  // ----- Fields of a line -----

  function Whole(n: int): Raw {
    Number(n as real)
  }

  ghost predicate GoodLabel(f: seq<Member>) {
    exists s :: Member("label", Text(s)) in f && Readable(s, 500)
  }

  ghost predicate GoodCategory(f: seq<Member>) {
    || Member("category", Text("labor")) in f || Member("category", Text("supply")) in f
    || Member("category", Text("travel")) in f || Member("category", Text("disbursement")) in f
    || Member("category", Text("subscription")) in f
  }

  /** At most three decimals, as doubles tell: a thousand times the quantity is its own rounding. */
  ghost predicate GoodQuantity(f: seq<Member>) {
    exists qty :: Member("qty", Number(qty)) in f && 0.0 < qty <= 1_000_000.0
                  && Double(qty * 1000.0) == (Double(qty * 1000.0) + 0.5).Floor as real
  }

  ghost predicate GoodUnit(f: seq<Member>) {
    Lacks(f, "unit") || exists s :: Member("unit", Text(s)) in f && Readable(s, 80)
  }

  ghost predicate GoodPrice(f: seq<Member>) {
    exists cents: int :: Member("unitPriceHT", Whole(cents)) in f && 0 <= cents <= 1_500_000_000
  }

  ghost predicate GoodRate(f: seq<Member>) {
    || Member("vatRate", Number(0.0)) in f || Member("vatRate", Number(Double(2.1))) in f
    || Member("vatRate", Number(5.5)) in f || Member("vatRate", Number(10.0)) in f || Member("vatRate", Number(20.0)) in f
  }

  ghost predicate GoodDiscount(f: seq<Member>) {
    Lacks(f, "discount") || exists d :: Member("discount", d) in f && (d == Null || DiscountOf(d) != None)
  }

  lemma TextsAreMembers(f: seq<Member>)
    requires IsObject(f)
    ensures IsShortText(Field(f, "label"), 500) <==> GoodLabel(f)
    ensures IsUnit(Field(f, "unit")) <==> GoodUnit(f)
  {
    FieldIsTheMember(f, "label");
    FieldIsTheMember(f, "unit");
    ShortTextIsReadable(Field(f, "label"), 500);
    ShortTextIsReadable(Field(f, "unit"), 80);
  }

  lemma ChoicesAreMembers(f: seq<Member>)
    requires IsObject(f)
    ensures IsCategory(Field(f, "category")) <==> GoodCategory(f)
    ensures IsVatRate(Field(f, "vatRate")) <==> GoodRate(f)
  {
    FieldIsTheMember(f, "category");
    FieldIsTheMember(f, "vatRate");
  }

  lemma QuantityIsMember(f: seq<Member>)
    requires IsObject(f)
    ensures IsQuantity(Field(f, "qty")) <==> GoodQuantity(f)
  {
    FieldIsTheMember(f, "qty");
  }

  lemma PriceIsMember(f: seq<Member>)
    requires IsObject(f)
    ensures IsPrice(Field(f, "unitPriceHT")) <==> GoodPrice(f)
  {
    FieldIsTheMember(f, "unitPriceHT");
    var price := Field(f, "unitPriceHT");
    if IsPrice(price) { assert price == Whole(price.n.Floor); }
  }

  lemma DiscountsAreMembers(f: seq<Member>)
    requires IsObject(f)
    ensures IsDiscountField(Field(f, "discount")) <==> GoodDiscount(f)
  {
    FieldIsTheMember(f, "discount");
  }

  /** What a caller may send, member by member. */
  lemma ValidLineMeans(raw: Raw)
    requires raw.Record? ==> IsObject(raw.fields)
    ensures ValidLine(raw) <==>
            && raw.Record?
            && OnlyKeys(raw.fields, {"label", "category", "qty", "unit", "unitPriceHT", "vatRate", "discount"})
            && GoodLabel(raw.fields) && GoodCategory(raw.fields) && GoodQuantity(raw.fields) && GoodUnit(raw.fields)
            && GoodPrice(raw.fields) && GoodRate(raw.fields) && GoodDiscount(raw.fields)
  {
    if raw.Record? {
      KeysAreKnown(raw.fields, LineFields);
      TextsAreMembers(raw.fields);
      ChoicesAreMembers(raw.fields);
      QuantityIsMember(raw.fields);
      PriceIsMember(raw.fields);
      DiscountsAreMembers(raw.fields);
    }
  }

  lemma {:induction false} UnknownTold(fields: seq<Member>, index: nat)
    ensures forall issue :: issue in UnknownIssues(fields, index) <==>
              && issue.place == LineAt(index) && issue.defect.UnknownField?
              && issue.defect.name !in {"label", "category", "qty", "unit", "unitPriceHT", "vatRate", "discount"}
              && exists m :: m in fields && m.key == issue.defect.name
  {
    if fields != [] {
      var n := |fields| - 1;
      UnknownTold(fields[..n], index);
      assert forall m :: m in fields <==> m in fields[..n] || m == fields[n];
    }
  }

  lemma HeadTold(f: seq<Member>, index: nat)
    requires IsObject(f)
    ensures forall issue :: issue in HeadIssues(f, index) <==>
              || (issue == Issue(FieldAt(index, "label"), BadLabel) && !GoodLabel(f))
              || (issue == Issue(FieldAt(index, "category"), BadCategory) && !GoodCategory(f))
              || (issue == Issue(FieldAt(index, "qty"), BadQty) && !GoodQuantity(f))
  {
    TextsAreMembers(f);
    ChoicesAreMembers(f);
    QuantityIsMember(f);
  }

  lemma TailTold(f: seq<Member>, index: nat)
    requires IsObject(f)
    ensures forall issue :: issue in TailIssues(f, index) <==>
              || (issue == Issue(FieldAt(index, "unit"), BadUnit) && !GoodUnit(f))
              || (issue == Issue(FieldAt(index, "unitPriceHT"), BadPrice) && !GoodPrice(f))
              || (issue == Issue(FieldAt(index, "vatRate"), BadVatRate) && !GoodRate(f))
              || (issue == Issue(FieldAt(index, "discount"), BadDiscount) && !GoodDiscount(f))
  {
    TextsAreMembers(f);
    ChoicesAreMembers(f);
    PriceIsMember(f);
    DiscountsAreMembers(f);
  }

  /** Which defect is reported where. */
  lemma IssuesTell(raw: Raw, index: nat)
    requires raw.Record? && IsObject(raw.fields)
    ensures var f := raw.fields; forall issue :: issue in LineIssues(raw, index) <==>
              || issue in UnknownIssues(f, index)
              || (issue == Issue(FieldAt(index, "label"), BadLabel) && !GoodLabel(f))
              || (issue == Issue(FieldAt(index, "category"), BadCategory) && !GoodCategory(f))
              || (issue == Issue(FieldAt(index, "qty"), BadQty) && !GoodQuantity(f))
              || (issue == Issue(FieldAt(index, "unit"), BadUnit) && !GoodUnit(f))
              || (issue == Issue(FieldAt(index, "unitPriceHT"), BadPrice) && !GoodPrice(f))
              || (issue == Issue(FieldAt(index, "vatRate"), BadVatRate) && !GoodRate(f))
              || (issue == Issue(FieldAt(index, "discount"), BadDiscount) && !GoodDiscount(f))
  {
    HeadTold(raw.fields, index);
    TailTold(raw.fields, index);
  }

  /** The fields of a line are the members of the object it was read from. */
  lemma LineMeans(raw: Raw)
    requires HasShape(raw) && IsObject(raw.fields)
    ensures var f, line := raw.fields, LineOf(raw);
            && Member("label", Text(line.caption)) in f
            && Member("category", Text(line.category)) in f
            && Member("qty", Number(line.qty)) in f
            && (forall s :: line.unit == Some(s) <==> Member("unit", Text(s)) in f)
            && Member("unitPriceHT", Number(line.unitPriceHT as real)) in f
            && Member("vatRate", Number(line.vatRate)) in f
            && (forall d :: line.discount == Some(d) <==> exists v :: Member("discount", v) in f && DiscountOf(v) == Some(d))
  {
    var f := raw.fields;
    FieldIsTheMember(f, "label");
    FieldIsTheMember(f, "category");
    FieldIsTheMember(f, "qty");
    FieldIsTheMember(f, "unit");
    FieldIsTheMember(f, "unitPriceHT");
    FieldIsTheMember(f, "vatRate");
    FieldIsTheMember(f, "discount");
  }

  /** A line has a shape as soon as it has its five members of the right kinds, valid or not. */
  lemma ShapeMeans(raw: Raw)
    requires raw.Record? ==> IsObject(raw.fields)
    ensures HasShape(raw) <==>
            && raw.Record?
            && (exists s :: Member("label", Text(s)) in raw.fields)
            && GoodCategory(raw.fields)
            && (exists qty :: Member("qty", Number(qty)) in raw.fields)
            && (exists cents: int ::
                  && Member("unitPriceHT", Whole(cents)) in raw.fields
                  && -9_007_199_254_740_991 <= cents <= 9_007_199_254_740_991)
            && GoodRate(raw.fields)
  {
    if raw.Record? {
      ChoicesAreMembers(raw.fields);
      FieldIsTheMember(raw.fields, "label");
      FieldIsTheMember(raw.fields, "qty");
      FieldIsTheMember(raw.fields, "unitPriceHT");
      var price := Field(raw.fields, "unitPriceHT");
      if IsSafeInteger(price) { assert price == Whole(price.n.Floor); }
    }
  }

  /** The two numbers whose rounded product a line adds. */
  ghost predicate Adds(f: seq<Member>, qty: real, price: int) {
    && Member("qty", Number(qty)) in f
    && Member("unitPriceHT", Whole(price)) in f
    && 0 <= price <= 9_007_199_254_740_991
  }

  lemma FactorsAreFields(f: seq<Member>, qty: real, price: int)
    requires IsObject(f)
    ensures Adds(f, qty, price) <==>
            && Field(f, "qty") == Number(qty) && Field(f, "unitPriceHT") == Whole(price)
            && 0 <= price <= MaxSafeInteger
  {
    FieldIsTheMember(f, "qty");
    FieldIsTheMember(f, "unitPriceHT");
  }

  lemma SafeIsWhole(raw: Raw) returns (n: int)
    requires IsSafeInteger(raw) && raw.n >= 0.0
    ensures raw == Whole(n) && 0 <= n <= MaxSafeInteger
  {
    n := raw.n.Floor;
  }

  lemma AddedCents(raw: Raw, qty: real, price: int)
    requires raw.Record? && IsObject(raw.fields) && Adds(raw.fields, qty, price)
    ensures BillingLines.CentsOf(raw) == Some(Product(qty, price))
  {
    FactorsAreFields(raw.fields, qty, price);
  }

  lemma CentsAreAdded(raw: Raw) returns (qty: real, price: int)
    requires raw.Record? && IsObject(raw.fields) && BillingLines.CentsOf(raw).Some?
    ensures Adds(raw.fields, qty, price)
  {
    qty := Field(raw.fields, "qty").n;
    price := SafeIsWhole(Field(raw.fields, "unitPriceHT"));
    FactorsAreFields(raw.fields, qty, price);
  }

  /** The product in doubles, half a cent going up. */
  function Product(qty: real, price: int): int {
    (Double(qty * price as real) + 0.5).Floor
  }

  /** A line adds its rounded product once both numbers are there and the price is not negative. */
  lemma CentsMean(raw: Raw, cents: int)
    requires raw.Record? ==> IsObject(raw.fields)
    ensures BillingLines.CentsOf(raw) == Some(cents) <==>
            raw.Record? && exists qty, price :: Adds(raw.fields, qty, price) && cents == Product(qty, price)
  {
    if raw.Record? {
      if BillingLines.CentsOf(raw) == Some(cents) {
        var qty, price := CentsAreAdded(raw);
        AddedCents(raw, qty, price);
      }
      forall qty, price | Adds(raw.fields, qty, price)
        ensures BillingLines.CentsOf(raw) == Some(Product(qty, price))
      {
        AddedCents(raw, qty, price);
      }
    }
  }

  /** The cents of all lines; what a line cannot add it does not. */
  function TotalOf(items: seq<Raw>): int {
    if items == [] then 0
    else TotalOf(items[..|items| - 1]) + match BillingLines.CentsOf(items[|items| - 1]) case Some(cents) => cents case None => 0
  }

  lemma SumOfNext(cents: seq<int>, more: Option<int>)
    ensures Sum(cents + AsSeq(more)) == Sum(cents) + if more.Some? then more.value else 0
  {
    if more.Some? {
      assert (cents + AsSeq(more))[..|cents|] == cents;
    } else {
      assert cents + AsSeq(more) == cents;
    }
  }

  lemma {:induction false} TotalIsSum(items: seq<Raw>)
    ensures Sum(AllCents(Outcomes(items))) == TotalOf(items)
  {
    if items != [] {
      var n := |items| - 1;
      TotalIsSum(items[..n]);
      LastOutcome(items);
      SumOfNext(AllCents(Outcomes(items[..n])), BillingLines.CentsOf(items[n]));
    }
  }

  lemma LastOutcome(items: seq<Raw>)
    requires items != []
    ensures AllCents(Outcomes(items)) ==
            AllCents(Outcomes(items[..|items| - 1])) + AsSeq(BillingLines.CentsOf(items[|items| - 1]))
  {
    var n, os := |items| - 1, Outcomes(items);
    assert os[..n] == Outcomes(items[..n]);
    assert os[n].cents == OutcomeOf(items[n], n).cents;
  }

  /** Valid lists, the bounds spelled out: up to a hundred lines, and fifteen million euros in all. */
  lemma ValidLinesMean(raw: Raw, atLeast: nat)
    ensures ValidLines(raw, atLeast) <==>
            && raw.List? && atLeast <= |raw.items| <= 100
            && (forall i :: 0 <= i < |raw.items| ==> ValidLine(raw.items[i]))
            && TotalOf(raw.items) <= 1_500_000_000
  {
    if raw.List? { TotalIsSum(raw.items); }
  }
}

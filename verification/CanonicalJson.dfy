/**
 Comparison of JSON values by the printed text of their canonical form, against equality of the
 values up to the order of object members (section 4 of RFC 8259) at every depth.
 */
module CanonicalJson {
  import opened Ordering

  /** `Number` carries the text its value prints as; equal numbers print alike. */
  datatype Json =
    | Null
    | Bool(b: bool)
    | Number(text: string)
    | Str(s: string)
    | Arr(items: seq<Json>)
    | Obj(members: seq<Member>)

  datatype Member = Member(key: string, value: Json)

  // ----- Values -----

  predicate IsNumberChar(c: char) {
    '0' <= c <= '9' || c == '-' || c == '+' || c == '.' || c == 'e'
  }

  predicate DistinctMembers(ms: seq<Member>) {
    forall i, j :: 0 <= i < j < |ms| ==> ms[i].key != ms[j].key
  }

  predicate WellFormed(v: Json) {
    match v
    case Number(text) => text != [] && forall i :: 0 <= i < |text| ==> IsNumberChar(text[i])
    case Arr(items) => forall i :: 0 <= i < |items| ==> WellFormed(items[i])
    case Obj(ms) => DistinctMembers(ms) && forall i :: 0 <= i < |ms| ==> WellFormed(ms[i].value)
    case _ => true
  }

  function Keys(ms: seq<Member>): (keys: set<string>)
    ensures forall k :: k in keys <==> exists i :: 0 <= i < |ms| && ms[i].key == k
  {
    set i | 0 <= i < |ms| :: ms[i].key
  }

  /** The same value: at every depth, the same keys in any order and the same value under each. */
  predicate Same(v: Json, w: Json)
    decreases v
  {
    match (v, w)
    case (Arr(xs), Arr(ys)) => |xs| == |ys| && forall i :: 0 <= i < |xs| ==> Same(xs[i], ys[i])
    case (Obj(ms), Obj(ns)) => Keys(ms) == Keys(ns) && forall i :: 0 <= i < |ms| ==> HasMatch(ms[i], ns)
    case _ => v == w
  }

  predicate HasMatch(m: Member, ns: seq<Member>)
    decreases m
  {
    exists j :: 0 <= j < |ns| && m.key == ns[j].key && Same(m.value, ns[j].value)
  }

  // ----- Canonical form -----

  predicate KeyBefore(m: Member, n: Member) {
    Before(m.key, n.key)
  }

  /** Keys such as "0" or "17", which JavaScript objects enumerate first, in numeric order. */
  predicate IsArrayIndex(key: string) {
    && key != []
    && (forall i :: 0 <= i < |key| ==> '0' <= key[i] <= '9')
    && (|key| > 1 ==> key[0] != '0')
    && (|key| < 10 || (|key| == 10 && !Before("4294967294", key)))
  }

  predicate IndexBefore(m: Member, n: Member) {
    |m.key| < |n.key| || (|m.key| == |n.key| && Before(m.key, n.key))
  }

  function Select(ms: seq<Member>, index: bool): seq<Member> {
    if ms == [] then []
    else (if IsArrayIndex(ms[0].key) == index then [ms[0]] else []) + Select(ms[1..], index)
  }

  /** The enumeration order of an object built member by member. */
  function FromEntries(ms: seq<Member>): seq<Member> {
    Sort(Select(ms, true), IndexBefore) + Select(ms, false)
  }

  function Canonical(v: Json): Json
    decreases v, 1
  {
    match v
    case Arr(items) => Arr(CanonicalItems(items))
    case Obj(ms) => Obj(FromEntries(Sort(CanonicalMembers(ms), KeyBefore)))
    case _ => v
  }

  function CanonicalItems(items: seq<Json>): (r: seq<Json>)
    ensures |r| == |items|
    ensures forall i :: 0 <= i < |items| ==> r[i] == Canonical(items[i])
    decreases items, 0
  {
    if items == [] then [] else [Canonical(items[0])] + CanonicalItems(items[1..])
  }

  function CanonicalMembers(ms: seq<Member>): (r: seq<Member>)
    ensures |r| == |ms|
    ensures forall i :: 0 <= i < |ms| ==> r[i] == Member(ms[i].key, Canonical(ms[i].value))
    decreases ms, 0
  {
    if ms == [] then []
    else [Member(ms[0].key, Canonical(ms[0].value))] + CanonicalMembers(ms[1..])
  }

  // ----- Sorting members -----

  lemma KeyBeforeIsWeakOrder()
    ensures WeakOrder(KeyBefore)
  {
    BeforeIsWeakOrder();
    assert forall x: Member, y: Member, z: Member ::
        !Before(y.key, x.key) && !Before(z.key, y.key) ==> !Before(z.key, x.key);
  }

  lemma {:induction false} SelectSplits(ms: seq<Member>)
    ensures multiset(Select(ms, true)) + multiset(Select(ms, false)) == multiset(ms)
  {
    if ms != [] {
      SelectSplits(ms[1..]);
      assert ms == [ms[0]] + ms[1..];
    }
  }

  lemma FromEntriesKeepsElements(ms: seq<Member>)
    ensures multiset(FromEntries(ms)) == multiset(ms)
  {
    SelectSplits(ms);
    SortKeepsElements(Select(ms, true), IndexBefore);
  }

  /** With distinct keys, sorting by key depends on the members only, not on their order. */
  lemma SortMembersIsUnique(ms: seq<Member>, ns: seq<Member>)
    requires DistinctMembers(ms) && multiset(ms) == multiset(ns)
    ensures Sort(ms, KeyBefore) == Sort(ns, KeyBefore)
  {
    KeyBeforeIsWeakOrder();
    SortKeepsElements(ms, KeyBefore);
    SortKeepsElements(ns, KeyBefore);
    SortSorts(ms, KeyBefore);
    SortSorts(ns, KeyBefore);
    SameElements(Sort(ms, KeyBefore), ms);
    forall x, y | x in ms && y in ms && !KeyBefore(x, y) && !KeyBefore(y, x) ensures x == y {
      BeforeIsTotal(x.key, y.key);
    }
    SortedIsUnique(Sort(ms, KeyBefore), Sort(ns, KeyBefore), KeyBefore);
  }

  lemma {:induction false} DistinctCounts(ms: seq<Member>, x: Member)
    requires DistinctMembers(ms)
    ensures multiset(ms)[x] == if x in ms then 1 else 0
  {
    if ms != [] {
      assert ms == [ms[0]] + ms[1..];
      DistinctCounts(ms[1..], x);
      assert forall j :: 0 <= j < |ms[1..]| ==> ms[1..][j].key == ms[j + 1].key && ms[j + 1].key != ms[0].key;
    }
  }

  lemma SameMembersSameMultiset(ms: seq<Member>, ns: seq<Member>)
    requires DistinctMembers(ms) && DistinctMembers(ns)
    ensures multiset(ms) == multiset(ns) <==> forall x :: x in ms <==> x in ns
  {
    if forall x :: x in ms <==> x in ns {
      forall x ensures multiset(ms)[x] == multiset(ns)[x] {
        DistinctCounts(ms, x);
        DistinctCounts(ns, x);
      }
    }
    if multiset(ms) == multiset(ns) { SameElements(ms, ns); }
  }

  function CanonicalObject(ms: seq<Member>): seq<Member> {
    FromEntries(Sort(CanonicalMembers(ms), KeyBefore))
  }

  lemma CanonicalObjectElements(ms: seq<Member>)
    ensures multiset(CanonicalObject(ms)) == multiset(CanonicalMembers(ms))
  {
    SortKeepsElements(CanonicalMembers(ms), KeyBefore);
    FromEntriesKeepsElements(Sort(CanonicalMembers(ms), KeyBefore));
  }

  /** Canonical objects are equal exactly when they have the same canonical members. */
  lemma CanonicalObjectsAgree(ms: seq<Member>, ns: seq<Member>)
    requires DistinctMembers(ms) && DistinctMembers(ns)
    ensures CanonicalObject(ms) == CanonicalObject(ns) <==>
            forall x :: x in CanonicalMembers(ms) <==> x in CanonicalMembers(ns)
  {
    CanonicalObjectElements(ms);
    CanonicalObjectElements(ns);
    SameMembersSameMultiset(CanonicalMembers(ms), CanonicalMembers(ns));
    if multiset(CanonicalMembers(ms)) == multiset(CanonicalMembers(ns)) {
      SortMembersIsUnique(CanonicalMembers(ms), CanonicalMembers(ns));
    }
  }

  // ----- The canonical form decides sameness -----

  ghost predicate Decided(v: Json, w: Json) {
    Canonical(v) == Canonical(w) <==> Same(v, w)
  }

  lemma {:induction false} CanonicalDecides(v: Json, w: Json)
    requires WellFormed(v) && WellFormed(w)
    ensures Decided(v, w)
    decreases v
  {
    match (v, w)
    case (Arr(xs), Arr(ys)) =>
      forall i | 0 <= i < |xs| && |xs| == |ys| ensures Decided(xs[i], ys[i]) { CanonicalDecides(xs[i], ys[i]); }
    case (Obj(ms), Obj(ns)) =>
      forall i, j | 0 <= i < |ms| && 0 <= j < |ns| ensures Decided(ms[i].value, ns[j].value) {
        CanonicalDecides(ms[i].value, ns[j].value);
      }
      ObjectsDecided(ms, ns);
    case _ =>
  }

  lemma ObjectsDecided(ms: seq<Member>, ns: seq<Member>)
    requires DistinctMembers(ms) && DistinctMembers(ns)
    requires forall i, j :: 0 <= i < |ms| && 0 <= j < |ns| ==> Decided(ms[i].value, ns[j].value)
    ensures Decided(Obj(ms), Obj(ns))
  {
    CanonicalObjectsAgree(ms, ns);
    if Canonical(Obj(ms)) == Canonical(Obj(ns)) { EqualMembersAreSame(ms, ns); }
    if Same(Obj(ms), Obj(ns)) { SameMembersAreEqual(ms, ns); }
  }

  lemma EqualMembersAreSame(ms: seq<Member>, ns: seq<Member>)
    requires forall i, j :: 0 <= i < |ms| && 0 <= j < |ns| ==> Decided(ms[i].value, ns[j].value)
    requires forall x :: x in CanonicalMembers(ms) <==> x in CanonicalMembers(ns)
    ensures Same(Obj(ms), Obj(ns))
  {
    var cs, ds := CanonicalMembers(ms), CanonicalMembers(ns);
    forall i | 0 <= i < |ms| ensures HasMatch(ms[i], ns) && ms[i].key in Keys(ns) {
      assert cs[i] in ds;
      var j :| 0 <= j < |ds| && ds[j] == cs[i];
      assert Decided(ms[i].value, ns[j].value);
    }
    forall j | 0 <= j < |ns| ensures ns[j].key in Keys(ms) {
      assert ds[j] in cs;
      var i :| 0 <= i < |cs| && cs[i] == ds[j];
      assert ms[i].key == ns[j].key;
    }
  }

  lemma MatchIsEqual(ms: seq<Member>, ns: seq<Member>, i: nat) returns (j: nat)
    requires i < |ms| && HasMatch(ms[i], ns)
    requires forall k :: 0 <= k < |ns| ==> Decided(ms[i].value, ns[k].value)
    ensures j < |ns| && ns[j].key == ms[i].key && CanonicalMembers(ns)[j] == CanonicalMembers(ms)[i]
  {
    j :| j < |ns| && ms[i].key == ns[j].key && Same(ms[i].value, ns[j].value);
    assert Decided(ms[i].value, ns[j].value);
  }

  lemma SameMembersAreEqual(ms: seq<Member>, ns: seq<Member>)
    requires DistinctMembers(ns) && Same(Obj(ms), Obj(ns))
    requires forall i, j :: 0 <= i < |ms| && 0 <= j < |ns| ==> Decided(ms[i].value, ns[j].value)
    ensures forall x :: x in CanonicalMembers(ms) <==> x in CanonicalMembers(ns)
  {
    var cs, ds := CanonicalMembers(ms), CanonicalMembers(ns);
    forall x | x in cs ensures x in ds {
      var i: nat :| i < |cs| && cs[i] == x;
      var j := MatchIsEqual(ms, ns, i);
      assert ds[j] in ds;
    }
    forall x | x in ds ensures x in cs {
      var j: nat :| j < |ds| && ds[j] == x;
      assert ns[j].key in Keys(ms);
      var i: nat :| i < |ms| && ms[i].key == ns[j].key;
      var k := MatchIsEqual(ms, ns, i);
      assert k == j;
      assert cs[i] in cs;
    }
  }

  lemma {:induction false} CanonicalIsWellFormed(v: Json)
    requires WellFormed(v)
    ensures WellFormed(Canonical(v))
    decreases v
  {
    match v
    case Arr(items) =>
      forall i | 0 <= i < |items| ensures WellFormed(Canonical(items[i])) { CanonicalIsWellFormed(items[i]); }
    case Obj(ms) =>
      forall i | 0 <= i < |ms| ensures WellFormed(Canonical(ms[i].value)) { CanonicalIsWellFormed(ms[i].value); }
      CanonicalObjectElements(ms);
      PermutationStaysDistinct(CanonicalMembers(ms), CanonicalObject(ms));
      SameElements(CanonicalMembers(ms), CanonicalObject(ms));
      forall i | 0 <= i < |CanonicalObject(ms)| ensures WellFormed(CanonicalObject(ms)[i].value) {
        assert CanonicalObject(ms)[i] in CanonicalMembers(ms);
      }
    case _ =>
  }

  lemma PermutationStaysDistinct(ms: seq<Member>, ns: seq<Member>)
    requires DistinctMembers(ms) && multiset(ms) == multiset(ns)
    ensures DistinctMembers(ns)
  {
    SameElements(ms, ns);
    forall i, j | 0 <= i < j < |ns| ensures ns[i].key != ns[j].key {
      if ns[i].key == ns[j].key {
        assert ns[i] in ms && ns[j] in ms;
        var x := ns[i];
        assert ns[j] == x;
        assert ns == ns[..i] + [x] + ns[i + 1..j] + [x] + ns[j + 1..];
        assert multiset(ns)[x] >= 2;
        DistinctCounts(ms, x);
        assert false;
      }
    }
  }

  /** Canonicalising twice changes nothing. */
  lemma CanonicalIsIdempotent(v: Json)
    requires WellFormed(v)
    ensures Canonical(Canonical(v)) == Canonical(v)
  {
    CanonicalIsWellFormed(v);
    CanonicalIsSame(v);
    CanonicalDecides(Canonical(v), v);
  }

  lemma {:induction false} CanonicalIsSame(v: Json)
    requires WellFormed(v)
    ensures Same(Canonical(v), v)
    decreases v
  {
    match v
    case Arr(items) =>
      forall i | 0 <= i < |items| ensures Same(Canonical(items[i]), items[i]) { CanonicalIsSame(items[i]); }
    case Obj(ms) =>
      forall i | 0 <= i < |ms| ensures Same(Canonical(ms[i].value), ms[i].value) { CanonicalIsSame(ms[i].value); }
      CanonicalObjectIsSame(ms);
    case _ =>
  }

  lemma CanonicalObjectMatches(ms: seq<Member>, i: nat)
    requires i < |CanonicalObject(ms)|
    requires forall k :: 0 <= k < |ms| ==> Same(Canonical(ms[k].value), ms[k].value)
    ensures HasMatch(CanonicalObject(ms)[i], ms) && CanonicalObject(ms)[i].key in Keys(ms)
  {
    var os, cs := CanonicalObject(ms), CanonicalMembers(ms);
    CanonicalObjectElements(ms);
    SameElements(os, cs);
    assert os[i] in cs;
    var j :| 0 <= j < |cs| && cs[j] == os[i];
    assert Same(os[i].value, ms[j].value);
  }

  lemma CanonicalObjectKeys(ms: seq<Member>, j: nat)
    requires j < |ms|
    ensures ms[j].key in Keys(CanonicalObject(ms))
  {
    var os, cs := CanonicalObject(ms), CanonicalMembers(ms);
    CanonicalObjectElements(ms);
    SameElements(os, cs);
    assert cs[j] in cs && cs[j] in os;
    var i :| 0 <= i < |os| && os[i] == cs[j];
    assert os[i].key == ms[j].key;
  }

  lemma CanonicalObjectIsSame(ms: seq<Member>)
    requires forall i :: 0 <= i < |ms| ==> Same(Canonical(ms[i].value), ms[i].value)
    ensures Same(Obj(CanonicalObject(ms)), Obj(ms))
  {
    var os := CanonicalObject(ms);
    forall i | 0 <= i < |os| ensures HasMatch(os[i], ms) && os[i].key in Keys(ms) { CanonicalObjectMatches(ms, i); }
    forall j | 0 <= j < |ms| ensures ms[j].key in Keys(os) { CanonicalObjectKeys(ms, j); }
  }

  // ----- Printing -----

  function HexDigit(n: nat): char
    requires n < 16
  {
    "0123456789abcdef"[n]
  }

  function Escape(c: char): (text: string)
    ensures text != [] && text[0] != '"'
  {
    if c == '"' then "\\\""
    else if c == '\\' then "\\\\"
    else if c == '\U{8}' then "\\b"
    else if c == '\U{c}' then "\\f"
    else if c == '\n' then "\\n"
    else if c == '\r' then "\\r"
    else if c == '\t' then "\\t"
    else if c < ' ' then "\\u00" + [HexDigit(c as int / 16), HexDigit(c as int % 16)]
    else [c]
  }

  function EscapeAll(s: string): string {
    if s == [] then [] else Escape(s[0]) + EscapeAll(s[1..])
  }

  /** Everything after the opening quote. */
  function QuoteTail(s: string): string {
    EscapeAll(s) + ['"']
  }

  function Quote(s: string): string {
    ['"'] + QuoteTail(s)
  }

  function Print(v: Json): string
    decreases v, 1
  {
    match v
    case Null => "null"
    case Bool(b) => if b then "true" else "false"
    case Number(text) => text
    case Str(s) => Quote(s)
    case Arr(items) => if items == [] then "[]" else "[" + Print(items[0]) + PrintItems(items[1..])
    case Obj(ms) =>
      if ms == [] then "{}" else "{" + Quote(ms[0].key) + ":" + Print(ms[0].value) + PrintMembers(ms[1..])
  }

  /** The items after the first one, up to and including the closing bracket. */
  function PrintItems(items: seq<Json>): string
    decreases items, 0
  {
    if items == [] then "]" else "," + Print(items[0]) + PrintItems(items[1..])
  }

  function PrintMembers(ms: seq<Member>): string
    decreases ms, 0
  {
    if ms == [] then "}" else "," + Quote(ms[0].key) + ":" + Print(ms[0].value) + PrintMembers(ms[1..])
  }

  predicate SameJson(v: Json, w: Json) {
    Print(Canonical(v)) == Print(Canonical(w))
  }

  /** What may follow a printed value inside a larger text. */
  predicate Stops(rest: string) {
    rest == [] || rest[0] == ',' || rest[0] == ']' || rest[0] == '}'
  }

  lemma SplitAt(s: string, t: string, x: string, y: string)
    requires s + x == t + y && |s| == |t|
    ensures s == t && x == y
  {
    assert (s + x)[..|s|] == s && (t + y)[..|t|] == t;
    assert (s + x)[|s|..] == x && (t + y)[|t|..] == y;
  }

  lemma EscapeShape(c: char)
    ensures (Escape(c) == [c] && c != '\\') || (|Escape(c)| >= 2 && Escape(c)[0] == '\\')
    ensures |Escape(c)| >= 2 ==> |Escape(c)| == if Escape(c)[1] == 'u' then 6 else 2
  {
  }

  lemma EscapeIsInjective(c: char, d: char)
    requires Escape(c) == Escape(d)
    ensures c == d
  {
    if |Escape(c)| == 6 {
      assert Escape(c)[4] == Escape(d)[4] && Escape(c)[5] == Escape(d)[5];
    } else if |Escape(c)| == 2 {
      assert Escape(c)[1] == Escape(d)[1];
    } else {
      assert Escape(c)[0] == Escape(d)[0];
    }
  }

  lemma EscapePrefix(c: char, d: char, x: string, y: string)
    requires Escape(c) + x == Escape(d) + y
    ensures c == d && x == y
  {
    EscapeShape(c);
    EscapeShape(d);
    var e, f := Escape(c), Escape(d);
    assert e[0] == (e + x)[0] && f[0] == (f + y)[0];
    assert (|e| > 1 ==> e[1] == (e + x)[1]) && (|f| > 1 ==> f[1] == (f + y)[1]);
    SplitAt(e, f, x, y);
    EscapeIsInjective(c, d);
  }

  lemma QuoteTailText(s: string, x: string)
    ensures s == [] ==> QuoteTail(s) + x == ['"'] + x
    ensures s != [] ==> QuoteTail(s) + x == Escape(s[0]) + (QuoteTail(s[1..]) + x)
    ensures (QuoteTail(s) + x)[0] == '"' <==> s == []
  {
  }

  lemma {:induction false} QuoteTailPrefix(s: string, t: string, x: string, y: string)
    requires QuoteTail(s) + x == QuoteTail(t) + y
    ensures s == t && x == y
  {
    QuoteTailText(s, x);
    QuoteTailText(t, y);
    if s == [] {
      SplitAt(['"'], ['"'], x, y);
    } else {
      EscapePrefix(s[0], t[0], QuoteTail(s[1..]) + x, QuoteTail(t[1..]) + y);
      QuoteTailPrefix(s[1..], t[1..], x, y);
      assert s == [s[0]] + s[1..] && t == [t[0]] + t[1..];
    }
  }

  lemma QuotePrefix(s: string, t: string, x: string, y: string)
    requires Quote(s) + x == Quote(t) + y
    ensures s == t && x == y
  {
    assert (Quote(s) + x)[1..] == QuoteTail(s) + x;
    assert (Quote(t) + y)[1..] == QuoteTail(t) + y;
    QuoteTailPrefix(s, t, x, y);
  }

  lemma ShorterNumber(s: string, t: string, x: string, y: string)
    requires WellFormed(Number(t)) && Stops(x) && s + x == t + y
    ensures |s| >= |t|
  {
    assert x != [] ==> (s + x)[|s|] == x[0];
    assert forall i :: 0 <= i < |t| ==> (t + y)[i] == t[i];
  }

  lemma NumberPrefix(s: string, t: string, x: string, y: string)
    requires WellFormed(Number(s)) && WellFormed(Number(t)) && Stops(x) && Stops(y) && s + x == t + y
    ensures s == t && x == y
  {
    ShorterNumber(s, t, x, y);
    ShorterNumber(t, s, y, x);
    SplitAt(s, t, x, y);
  }

  /** The first character of a printed value tells its kind. */
  function Kind(c: char): nat {
    if c == 'n' then 0 else if c == 't' || c == 'f' then 1 else if IsNumberChar(c) then 2
    else if c == '"' then 3 else if c == '[' then 4 else 5
  }

  function KindOf(v: Json): nat {
    match v case Null => 0 case Bool(_) => 1 case Number(_) => 2 case Str(_) => 3 case Arr(_) => 4 case Obj(_) => 5
  }

  /** A printed value can be read back from the front of any text that continues as JSON does. */
  lemma {:induction false} PrintPrefix(v: Json, w: Json, x: string, y: string)
    requires WellFormed(v) && WellFormed(w) && Stops(x) && Stops(y) && Print(v) + x == Print(w) + y
    ensures v == w && x == y
    decreases v, 1
  {
    var a, b := Print(v) + x, Print(w) + y;
    assert a[0] == Print(v)[0] && b[0] == Print(w)[0];
    match (v, w)
    case (Null, Null) => assert a[4..] == x && b[4..] == y;
    case (Bool(p), Bool(q)) => assert a[|Print(v)|..] == x && b[|Print(w)|..] == y;
    case (Number(s), Number(t)) => NumberPrefix(s, t, x, y);
    case (Str(s), Str(t)) => QuotePrefix(s, t, x, y);
    case (Arr(items), Arr(others)) => ArrayPrefix(items, others, x, y);
    case (Obj(ms), Obj(ns)) => ObjectPrefix(ms, ns, x, y);
    case _ => assert false;
  }

  lemma ArrayText(items: seq<Json>, x: string)
    requires forall i :: 0 <= i < |items| ==> WellFormed(items[i])
    ensures items == [] ==> Print(Arr(items)) + x == "[" + ("]" + x)
    ensures items != [] ==> Print(Arr(items)) + x == "[" + (Print(items[0]) + (PrintItems(items[1..]) + x))
    ensures |Print(Arr(items)) + x| > 1
    ensures (Print(Arr(items)) + x)[1] == ']' <==> items == []
  {
  }

  lemma ItemsText(items: seq<Json>, x: string)
    ensures items == [] ==> PrintItems(items) + x == "]" + x
    ensures items != [] ==> PrintItems(items) + x == "," + (Print(items[0]) + (PrintItems(items[1..]) + x))
    ensures Stops(PrintItems(items) + x)
  {
  }

  lemma {:induction false} ArrayPrefix(items: seq<Json>, others: seq<Json>, x: string, y: string)
    requires WellFormed(Arr(items)) && WellFormed(Arr(others)) && Print(Arr(items)) + x == Print(Arr(others)) + y
    ensures items == others && x == y
    decreases items, 2
  {
    ArrayText(items, x);
    ArrayText(others, y);
    if items == [] || others == [] {
      SplitAt("[]", "[]", x, y);
    } else {
      var p, q := PrintItems(items[1..]) + x, PrintItems(others[1..]) + y;
      SplitAt("[", "[", Print(items[0]) + p, Print(others[0]) + q);
      FirstItemPrefix(items, others, x, y);
    }
  }

  /** The first items agree, and so do the rest. */
  lemma {:induction false} FirstItemPrefix(items: seq<Json>, others: seq<Json>, x: string, y: string)
    requires WellFormed(Arr(items)) && WellFormed(Arr(others)) && items != [] && others != []
    requires Print(items[0]) + (PrintItems(items[1..]) + x) == Print(others[0]) + (PrintItems(others[1..]) + y)
    ensures items == others && x == y
    decreases items, 1
  {
    ItemsText(items[1..], x);
    ItemsText(others[1..], y);
    PrintPrefix(items[0], others[0], PrintItems(items[1..]) + x, PrintItems(others[1..]) + y);
    ItemsPrefix(items[1..], others[1..], x, y);
    assert items == [items[0]] + items[1..] && others == [others[0]] + others[1..];
  }

  lemma {:induction false} ItemsPrefix(items: seq<Json>, others: seq<Json>, x: string, y: string)
    requires WellFormed(Arr(items)) && WellFormed(Arr(others)) && PrintItems(items) + x == PrintItems(others) + y
    ensures items == others && x == y
    decreases items, 2
  {
    ItemsText(items, x);
    ItemsText(others, y);
    assert (PrintItems(items) + x)[0] == (PrintItems(others) + y)[0];
    if items == [] {
      SplitAt("]", "]", x, y);
    } else {
      SplitAt(",", ",", Print(items[0]) + (PrintItems(items[1..]) + x), Print(others[0]) + (PrintItems(others[1..]) + y));
      FirstItemPrefix(items, others, x, y);
    }
  }

  /** One member and what follows it. */
  function PrintMember(m: Member, rest: string): string {
    Quote(m.key) + (":" + (Print(m.value) + rest))
  }

  lemma {:induction false} MemberPrefix(m: Member, n: Member, x: string, y: string)
    requires WellFormed(m.value) && WellFormed(n.value) && Stops(x) && Stops(y)
    requires PrintMember(m, x) == PrintMember(n, y)
    ensures m == n && x == y
    decreases m, 2
  {
    var p, q := Print(m.value) + x, Print(n.value) + y;
    QuotePrefix(m.key, n.key, ":" + p, ":" + q);
    SplitAt(":", ":", p, q);
    PrintPrefix(m.value, n.value, x, y);
  }

  lemma ObjectText(ms: seq<Member>, x: string)
    ensures ms == [] ==> Print(Obj(ms)) + x == "{" + ("}" + x)
    ensures ms != [] ==> Print(Obj(ms)) + x == "{" + PrintMember(ms[0], PrintMembers(ms[1..]) + x)
    ensures |Print(Obj(ms)) + x| > 1
    ensures (Print(Obj(ms)) + x)[1] == '}' <==> ms == []
  {
    if ms != [] {
      var k, p, r := Quote(ms[0].key), Print(ms[0].value), PrintMembers(ms[1..]);
      assert k + ":" + p + r + x == k + (":" + (p + (r + x)));
      assert "{" + k + ":" + p + r == "{" + (k + ":" + p + r);
      assert ("{" + (k + ":" + p + r)) + x == "{" + ((k + ":" + p + r) + x);
    }
  }

  lemma MembersText(ms: seq<Member>, x: string)
    ensures ms == [] ==> PrintMembers(ms) + x == "}" + x
    ensures ms != [] ==> PrintMembers(ms) + x == "," + PrintMember(ms[0], PrintMembers(ms[1..]) + x)
    ensures Stops(PrintMembers(ms) + x)
  {
    if ms != [] {
      var k, p, r := Quote(ms[0].key), Print(ms[0].value), PrintMembers(ms[1..]);
      assert k + ":" + p + r + x == k + (":" + (p + (r + x)));
      assert "," + k + ":" + p + r == "," + (k + ":" + p + r);
      assert ("," + (k + ":" + p + r)) + x == "," + ((k + ":" + p + r) + x);
    }
  }

  predicate WellFormedMembers(ms: seq<Member>) {
    forall i :: 0 <= i < |ms| ==> WellFormed(ms[i].value)
  }

  lemma {:induction false} ObjectPrefix(ms: seq<Member>, ns: seq<Member>, x: string, y: string)
    requires WellFormedMembers(ms) && WellFormedMembers(ns) && Print(Obj(ms)) + x == Print(Obj(ns)) + y
    ensures ms == ns && x == y
    decreases ms, 2
  {
    ObjectText(ms, x);
    ObjectText(ns, y);
    if ms == [] || ns == [] {
      SplitAt("{}", "{}", x, y);
    } else {
      SplitAt("{", "{", PrintMember(ms[0], PrintMembers(ms[1..]) + x), PrintMember(ns[0], PrintMembers(ns[1..]) + y));
      FirstMemberPrefix(ms, ns, x, y);
    }
  }

  lemma {:induction false} FirstMemberPrefix(ms: seq<Member>, ns: seq<Member>, x: string, y: string)
    requires WellFormedMembers(ms) && WellFormedMembers(ns) && ms != [] && ns != []
    requires PrintMember(ms[0], PrintMembers(ms[1..]) + x) == PrintMember(ns[0], PrintMembers(ns[1..]) + y)
    ensures ms == ns && x == y
    decreases ms, 1
  {
    MembersText(ms[1..], x);
    MembersText(ns[1..], y);
    MemberPrefix(ms[0], ns[0], PrintMembers(ms[1..]) + x, PrintMembers(ns[1..]) + y);
    MembersPrefix(ms[1..], ns[1..], x, y);
    assert ms == [ms[0]] + ms[1..] && ns == [ns[0]] + ns[1..];
  }

  lemma {:induction false} MembersPrefix(ms: seq<Member>, ns: seq<Member>, x: string, y: string)
    requires WellFormedMembers(ms) && WellFormedMembers(ns) && PrintMembers(ms) + x == PrintMembers(ns) + y
    ensures ms == ns && x == y
    decreases ms, 2
  {
    MembersText(ms, x);
    MembersText(ns, y);
    assert (PrintMembers(ms) + x)[0] == (PrintMembers(ns) + y)[0];
    if ms == [] {
      SplitAt("}", "}", x, y);
    } else {
      SplitAt(",", ",", PrintMember(ms[0], PrintMembers(ms[1..]) + x), PrintMember(ns[0], PrintMembers(ns[1..]) + y));
      FirstMemberPrefix(ms, ns, x, y);
    }
  }

  /** The printed comparison is exactly equality of JSON values up to member order. */
  lemma SameJsonDecides(v: Json, w: Json)
    requires WellFormed(v) && WellFormed(w)
    ensures SameJson(v, w) <==> Same(v, w)
  {
    CanonicalDecides(v, w);
    CanonicalIsWellFormed(v);
    CanonicalIsWellFormed(w);
    if SameJson(v, w) {
      PrintPrefix(Canonical(v), Canonical(w), [], []);
    }
  }
}

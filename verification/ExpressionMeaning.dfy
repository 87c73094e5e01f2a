/**
 The expression language the evaluator implements: its trees, their printed form with any
 spacing, and their value. Evaluating a printed tree gives the value of the tree.
 */
module ExpressionMeaning {
  import opened Wrappers
  import opened Expression

  datatype Expr =
    | UndefinedWord
    | NullWord
    | BoolWord(b: bool)
    | NumberText(text: string)
    | Quoted(quote: char, s: string)
    | Path(head: string, steps: seq<Step>)
    | Not(pad: string, e: Expr)
    | Equal(l: Expr, before: string, op: Equality, after: string, r: Expr)
    | Paren(before: string, e: Expr, after: string)

  datatype Step = Name(name: string) | Index(before: string, e: Expr, after: string)

  function Print(e: Expr): string {
    match e
    case UndefinedWord => "undefined"
    case NullWord => "null"
    case BoolWord(b) => if b then "true" else "false"
    case NumberText(text) => text
    case Quoted(quote, s) => [quote] + s + [quote]
    case Path(head, steps) => head + PrintSteps(steps)
    case Not(pad, e) => "!" + pad + Print(e)
    case Equal(l, before, op, after, r) => Print(l) + before + Symbol(op) + (after + Print(r))
    case Paren(before, e, after) => "(" + (before + Print(e) + after) + ")"
  }

  function PrintStep(s: Step): string {
    match s
    case Name(name) => "." + name
    case Index(before, e, after) => "[" + (before + Print(e) + after) + "]"
  }

  function PrintSteps(steps: seq<Step>): string {
    if steps == [] then "" else PrintStep(steps[0]) + PrintSteps(steps[1..])
  }

  /** Reading from nothing gives nothing; anything else is asked for the key. */
  function Member(h: Host, target: Value, key: Value): Value {
    match target
    case Undefined => Undefined
    case Null => Undefined
    case Bool(_) => h.get(target, key)
    case Str(_) => h.get(target, key)
    case Other(_) => h.get(target, key)
  }

  /** The four operators in terms of the two equalities. */
  function Test(h: Host, op: Equality, l: Value, r: Value): Value {
    var equal := if op == Strict || op == NotStrict then h.strictlyEqual(l, r) else h.looselyEqual(l, r);
    Bool(if op == NotStrict || op == NotLoose then !equal else equal)
  }

  function Eval(h: Host, vals: Value, e: Expr): Value
    decreases e
  {
    match e
    case UndefinedWord => Undefined
    case NullWord => Null
    case BoolWord(b) => Bool(b)
    case NumberText(text) => h.number(text)
    case Quoted(_, s) => Str(s)
    case Path(head, steps) => EvalSteps(h, vals, Member(h, vals, Str(head)), steps)
    case Not(_, e) => Bool(!h.truthy(Eval(h, vals, e)))
    case Equal(l, _, op, _, r) => Test(h, op, Eval(h, vals, l), Eval(h, vals, r))
    case Paren(_, e, _) => Eval(h, vals, e)
  }

  function EvalSteps(h: Host, vals: Value, target: Value, steps: seq<Step>): Value
    decreases steps
  {
    if steps == [] then target
    else EvalSteps(h, vals, Member(h, target, EvalKey(h, vals, steps[0])), steps[1..])
  }

  function EvalKey(h: Host, vals: Value, s: Step): Value
    decreases s
  {
    match s
    case Name(name) => Str(name)
    case Index(_, e, _) => Eval(h, vals, e)
  }

  /** The value of a path whose intermediate values are all there: one read after the other. */
  function Fold(h: Host, target: Value, keys: seq<Value>): Value
    decreases |keys|
  {
    if keys == [] then target else h.get(Fold(h, target, keys[..|keys| - 1]), keys[|keys| - 1])
  }

  predicate Nothing(v: Value) {
    v == Undefined || v == Null
  }

  function KeysOf(h: Host, vals: Value, steps: seq<Step>): (keys: seq<Value>)
    ensures |keys| == |steps|
  {
    seq(|steps|, i requires 0 <= i < |steps| => EvalKey(h, vals, steps[i]))
  }

  predicate IsIdent(s: string) {
    s != [] && IsIdentStart(s[0]) && forall i :: 0 <= i < |s| ==> IsIdentPart(s[i])
  }

  predicate IsWord(s: string) {
    s == "true" || s == "false" || s == "null" || s == "undefined"
  }

  /**
   An equality takes everything to its right, so its left operand, and what a negation negates,
   are not themselves equalities unless parenthesised.
   */
  predicate WellFormed(e: Expr) {
    match e
    case NumberText(text) => IsNumber(text)
    case Quoted(quote, s) => (quote == '"' || quote == '\'') && Balanced(s) && Quiet(s)
    case Path(head, steps) => IsIdent(head) && (steps == [] ==> !IsWord(head)) && WellFormedSteps(steps)
    case Not(pad, e) => Blank(pad) && WellFormed(e) && !e.Equal?
    case Equal(l, before, _, after, r) =>
      Blank(before) && Blank(after) && WellFormed(l) && WellFormed(r) && !l.Equal?
    case Paren(before, e, after) => Blank(before) && Blank(after) && WellFormed(e)
    case _ => true
  }

  predicate WellFormedSteps(steps: seq<Step>) {
    forall i :: 0 <= i < |steps| ==> WellFormedStep(steps[i])
  }

  predicate WellFormedStep(s: Step) {
    match s
    case Name(name) => IsIdent(name) || IsDigits(name)
    case Index(before, e, after) => Blank(before) && Blank(after) && WellFormed(e)
  }

  // ----- Balanced and quiet text -----

  predicate BalancedFor(k: Count, s: string) {
    Depth(k, s) == 0 && forall i :: 0 <= i <= |s| ==> Depth(k, s[..i]) >= 0
  }

  predicate Balanced(s: string) {
    BalancedFor(Round, s) && BalancedFor(Square, s) && BalancedFor(Both, s)
  }

  /** No equality sign outside every bracket. */
  predicate Quiet(s: string) {
    forall i :: 0 <= i < |s| && PairAt(s, i) ==> Depth(Both, s[..i]) != 0
  }

  predicate Plain(s: string) {
    forall i :: 0 <= i < |s| ==> s[i] !in "()[]"
  }

  lemma {:induction false} DepthConcat(k: Count, a: string, b: string)
    ensures Depth(k, a + b) == Depth(k, a) + Depth(k, b)
    decreases |b|
  {
    if b == [] {
      assert a + b == a;
    } else {
      assert (a + b)[..|a + b| - 1] == a + b[..|b| - 1];
      DepthConcat(k, a, b[..|b| - 1]);
    }
  }

  lemma PrefixOfConcat(a: string, b: string, i: nat)
    requires i <= |a| + |b|
    ensures (a + b)[..i] == if i <= |a| then a[..i] else a + b[..i - |a|]
  {
  }

  lemma BalancedForConcat(k: Count, a: string, b: string)
    requires BalancedFor(k, a) && BalancedFor(k, b)
    ensures BalancedFor(k, a + b)
  {
    DepthConcat(k, a, b);
    forall i | 0 <= i <= |a + b| ensures Depth(k, (a + b)[..i]) >= 0 {
      PrefixOfConcat(a, b, i);
      if i > |a| { DepthConcat(k, a, b[..i - |a|]); }
    }
  }

  lemma BalancedConcat(a: string, b: string)
    requires Balanced(a) && Balanced(b)
    ensures Balanced(a + b)
  {
    BalancedForConcat(Round, a, b);
    BalancedForConcat(Square, a, b);
    BalancedForConcat(Both, a, b);
  }

  lemma {:induction false} PlainDepth(k: Count, s: string)
    requires Plain(s)
    ensures Depth(k, s) == 0
  {
    if s != [] {
      PlainDepth(k, s[..|s| - 1]);
      assert s[|s| - 1] !in "()[]";
    }
  }

  lemma PlainIsBalanced(s: string)
    requires Plain(s)
    ensures Balanced(s)
  {
    forall k, i | 0 <= i <= |s| ensures Depth(k, s[..i]) == 0 { PlainDepth(k, s[..i]); }
    assert s[..|s|] == s;
  }

  /** Text inside brackets: closed only by its own closing bracket. */
  lemma EnclosedDepth(k: Count, s: string, open: char, close: char, i: nat)
    requires (open == '(' && close == ')') || (open == '[' && close == ']')
    requires BalancedFor(k, s) && i <= |s| + 2
    ensures 0 < i < |s| + 2 ==> Depth(k, ([open] + s + [close])[..i]) == Change(k, open) + Depth(k, s[..i - 1])
    ensures i == 0 || i == |s| + 2 ==> Depth(k, ([open] + s + [close])[..i]) == 0
  {
    var t := [open] + s + [close];
    if i == |s| + 2 {
      assert t[..i] == [open] + s + [close];
      DepthConcat(k, [open] + s, [close]);
      DepthConcat(k, [open], s);
    } else if i > 0 {
      assert t[..i] == [open] + s[..i - 1];
      DepthConcat(k, [open], s[..i - 1]);
    }
  }

  lemma EnclosedIsBalanced(s: string, open: char, close: char)
    requires (open == '(' && close == ')') || (open == '[' && close == ']')
    requires Balanced(s)
    ensures Balanced([open] + s + [close])
  {
    var t := [open] + s + [close];
    forall k, i | BalancedFor(k, s) && 0 <= i <= |t| ensures Depth(k, t[..i]) >= 0 && (i == |t| ==> Depth(k, t[..i]) == 0) {
      EnclosedDepth(k, s, open, close, i);
    }
    assert t[..|t|] == t;
  }

  lemma EnclosedIsQuiet(s: string, open: char, close: char)
    requires (open == '(' && close == ')') || (open == '[' && close == ']')
    requires Balanced(s)
    ensures Quiet([open] + s + [close])
  {
    var t := [open] + s + [close];
    forall i | 0 <= i < |t| && PairAt(t, i) ensures Depth(Both, t[..i]) != 0 {
      EnclosedDepth(Both, s, open, close, i);
      assert i > 0;
    }
  }

  lemma QuietConcat(a: string, b: string)
    requires Balanced(a) && Quiet(a) && Quiet(b)
    requires a == [] || b == [] || !IsMark(a[|a| - 1]) || b[0] != '='
    ensures Quiet(a + b)
  {
    forall i | 0 <= i < |a + b| && PairAt(a + b, i) ensures Depth(Both, (a + b)[..i]) != 0 {
      PrefixOfConcat(a, b, i);
      if i < |a| {
        assert i + 1 < |a|;
        assert PairAt(a, i);
      } else {
        assert PairAt(b, i - |a|);
        DepthConcat(Both, a, b[..i - |a|]);
        assert (a + b)[..i] == a + b[..i - |a|];
      }
    }
  }

  // ----- Printed trees are balanced, and quiet unless they are equalities -----

  /** Starts and ends like a printed expression. */
  predicate Solid(t: string) {
    && t != []
    && !IsBlank(t[0]) && t[0] != '='
    && !IsBlank(t[|t| - 1]) && !IsMark(t[|t| - 1])
  }

  lemma IdentIsTame(s: string)
    requires IsIdent(s) || IsDigits(s)
    ensures Solid(s) && Balanced(s) && Quiet(s) && s[0] != '(' && s[0] != '!'
  {
    PlainIsBalanced(s);
  }

  lemma UnsignedNumberChars(s: string)
    requires IsUnsignedNumber(s)
    ensures s != [] && IsDigit(s[0]) && IsDigit(s[|s| - 1])
    ensures forall i :: 0 <= i < |s| ==> IsDigit(s[i]) || s[i] == '.'
  {
    var n := Span(s, IsDigit);
    if n < |s| {
      var fraction := s[n + 1..];
      assert forall i :: n < i < |s| ==> s[i] == fraction[i - n - 1];
    }
  }

  lemma NumberChars(s: string)
    requires IsNumber(s)
    ensures s != [] && (IsDigit(s[0]) || s[0] == '-') && IsDigit(s[|s| - 1])
    ensures forall i :: 0 <= i < |s| ==> IsDigit(s[i]) || s[i] == '.' || s[i] == '-'
  {
    if s != [] && s[0] == '-' {
      UnsignedNumberChars(s[1..]);
      assert forall i :: 0 < i < |s| ==> s[i] == s[1..][i - 1];
    } else {
      UnsignedNumberChars(s);
    }
  }

  lemma NumberIsTame(s: string)
    requires IsNumber(s)
    ensures Solid(s) && Balanced(s) && Quiet(s) && (IsDigit(s[0]) || s[0] == '-')
  {
    NumberChars(s);
    PlainIsBalanced(s);
  }

  lemma BlankIsTame(s: string)
    requires Blank(s)
    ensures Balanced(s) && Quiet(s) && forall i :: 0 <= i < |s| ==> !IsMark(s[i])
  {
    PlainIsBalanced(s);
  }

  ghost predicate Tame(t: string, quiet: bool) {
    Solid(t) && Balanced(t) && (quiet ==> Quiet(t))
  }

  lemma {:induction false} PrintIsTame(e: Expr)
    requires WellFormed(e)
    ensures Tame(Print(e), !e.Equal?)
    decreases e
  {
    match e
    case UndefinedWord | NullWord | BoolWord(_) => IdentIsTame(Print(e));
    case NumberText(text) => NumberIsTame(text);
    case Quoted(quote, s) => QuotedIsTame(quote, s);
    case Path(head, steps) =>
      IdentIsTame(head);
      StepsAreTame(steps);
      BalancedConcat(head, PrintSteps(steps));
      QuietConcat(head, PrintSteps(steps));
    case Not(pad, e1) =>
      PrintIsTame(e1);
      NotIsTame(pad, Print(e1));
    case Equal(l, before, op, after, r) =>
      PrintIsTame(l);
      PrintIsTame(r);
      EqualIsTame(Print(l), before, op, after, Print(r));
    case Paren(before, e1, after) =>
      PrintIsTame(e1);
      EnclosedIsTame(before, Print(e1), after, '(', ')');
  }

  lemma QuotedIsTame(quote: char, s: string)
    requires (quote == '"' || quote == '\'') && Balanced(s) && Quiet(s)
    ensures Tame([quote] + s + [quote], true)
  {
    PlainIsBalanced([quote]);
    BalancedConcat([quote], s);
    BalancedConcat([quote] + s, [quote]);
    QuietConcat([quote], s);
    QuietConcat([quote] + s, [quote]);
  }

  lemma NotIsTame(pad: string, t: string)
    requires Blank(pad) && Tame(t, true)
    ensures Tame("!" + pad + t, true)
  {
    BlankIsTame(pad);
    PlainIsBalanced("!");
    BalancedConcat("!", pad);
    BalancedConcat("!" + pad, t);
    QuietConcat("!", pad);
    QuietConcat("!" + pad, t);
  }

  lemma EqualIsTame(l: string, before: string, op: Equality, after: string, r: string)
    requires Blank(before) && Blank(after) && Tame(l, false) && Tame(r, false)
    ensures Tame(l + before + Symbol(op) + (after + r), false)
  {
    BlankIsTame(before);
    BlankIsTame(after);
    PlainIsBalanced(Symbol(op));
    BalancedConcat(l, before);
    BalancedConcat(l + before, Symbol(op));
    BalancedConcat(after, r);
    BalancedConcat(l + before + Symbol(op), after + r);
  }

  lemma PaddedIsBalanced(before: string, t: string, after: string)
    requires Blank(before) && Blank(after) && Balanced(t)
    ensures Balanced(before + t + after)
  {
    BlankIsTame(before);
    BlankIsTame(after);
    BalancedConcat(before, t);
    BalancedConcat(before + t, after);
  }

  lemma EnclosedIsTame(before: string, t: string, after: string, open: char, close: char)
    requires (open == '(' && close == ')') || (open == '[' && close == ']')
    requires Blank(before) && Blank(after) && Balanced(t)
    ensures Tame([open] + (before + t + after) + [close], true)
  {
    PaddedIsBalanced(before, t, after);
    EnclosedIsBalanced(before + t + after, open, close);
    EnclosedIsQuiet(before + t + after, open, close);
  }

  lemma {:induction false} StepsAreTame(steps: seq<Step>)
    requires WellFormedSteps(steps)
    ensures Balanced(PrintSteps(steps)) && Quiet(PrintSteps(steps))
    ensures steps != [] ==> Solid(PrintSteps(steps)) && PrintSteps(steps)[0] in ".["
    decreases steps
  {
    if steps == [] {
      PlainIsBalanced("");
    } else {
      assert WellFormedStep(steps[0]);
      StepIsTame(steps[0]);
      StepsAreTame(steps[1..]);
      BalancedConcat(PrintStep(steps[0]), PrintSteps(steps[1..]));
      QuietConcat(PrintStep(steps[0]), PrintSteps(steps[1..]));
    }
  }

  lemma {:induction false} StepIsTame(s: Step)
    requires WellFormedStep(s)
    ensures Tame(PrintStep(s), true) && PrintStep(s)[0] in ".["
    decreases s
  {
    match s
    case Name(name) =>
      IdentIsTame(name);
      PlainIsBalanced(".");
      BalancedConcat(".", name);
      QuietConcat(".", name);
    case Index(before, e, after) =>
      PrintIsTame(e);
      EnclosedIsTame(before, Print(e), after, '[', ']');
  }

  // ----- Trimming -----

  lemma {:induction false} TrimLeftPad(x: string, t: string)
    requires Blank(x) && t != [] && !IsBlank(t[0])
    ensures TrimLeft(x + t) == t
  {
    if x == [] {
      assert x + t == t;
    } else {
      assert (x + t)[1..] == x[1..] + t;
      TrimLeftPad(x[1..], t);
    }
  }

  lemma {:induction false} TrimRightPad(t: string, y: string)
    requires Blank(y) && t != [] && !IsBlank(t[|t| - 1])
    ensures TrimRight(t + y) == t
    decreases |y|
  {
    if y == [] {
      assert t + y == t;
    } else {
      var z := y[..|y| - 1];
      assert (t + y)[..|t + y| - 1] == t + z;
      TrimRightPad(t, z);
    }
  }

  lemma TrimPad(x: string, t: string, y: string)
    requires Blank(x) && Blank(y) && Solid(t)
    ensures Trim(x + t + y) == t
  {
    assert x + t + y == x + (t + y);
    TrimLeftPad(x, t + y);
    TrimRightPad(t, y);
  }

  // ----- Which rule applies to a printed tree -----

  lemma EnclosedIsWrapped(s: string)
    requires Balanced(s)
    ensures ShapeOf(['('] + s + [')']) == Wrapped
  {
    var t := ['('] + s + [')'];
    forall i | 0 <= i < |t| - 1 && t[i] == ')' ensures Depth(Round, t[..i + 1]) != 0 {
      EnclosedDepth(Round, s, '(', ')', i + 1);
    }
  }

  /** The first parenthesis closes inside any balanced text that starts with it. */
  lemma {:induction false} FirstReturn(s: string, i: nat) returns (j: nat)
    requires 0 < i <= |s| && Depth(Round, s[..i]) > 0 && Depth(Round, s) == 0
    ensures j < |s| && s[j] == ')' && Depth(Round, s[..j + 1]) == 0
    decreases |s| - i
  {
    assert s[..|s|] == s;
    DepthStep(Round, s, i);
    if Depth(Round, s[..i + 1]) == 0 { j := i; } else { j := FirstReturn(s, i + 1); }
  }

  lemma NotWrapped(l: string, rest: string)
    requires Balanced(l) && l != [] && rest != []
    ensures (l + rest)[0] == '(' ==> !Wraps(l + rest)
  {
    var t := l + rest;
    if t[0] == '(' {
      assert l[..1] == [l[0]];
      var j := FirstReturn(l, 1);
      PrefixOfConcat(l, rest, j + 1);
      assert t[j] == ')' && Depth(Round, t[..j + 1]) == 0;
    }
  }

  lemma TrimIsNotEmpty(t: string, y: string)
    requires Blank(y) && Solid(t)
    ensures Trim(t + y) == t
  {
    TrimPad([], t, y);
    assert [] + t + y == t + y;
  }

  lemma EqualityAfter(a: string, op: Equality, rest: string)
    requires Balanced(a) && a != [] && !IsMark(a[|a| - 1]) && Trim(a) != []
    requires rest != [] && rest[0] != '='
    ensures EqualityAt(a + Symbol(op) + rest, |a|)
    ensures EqualityOf(a + Symbol(op) + rest, |a|) == op
  {
    var t := a + Symbol(op) + rest;
    assert t[..|a|] == a;
    assert t[|a|] == Symbol(op)[0] && t[|a| + 1] == Symbol(op)[1];
    assert t[|a| + 2] == if |Symbol(op)| == 3 then Symbol(op)[2] else rest[0];
  }

  lemma NoEqualityBefore(a: string, t: string, j: nat)
    requires Quiet(a) && a != [] && !IsMark(a[|a| - 1])
    requires j < |a| <= |t| && t[..|a|] == a
    ensures !EqualityAt(t, j)
  {
    assert t[j] == a[j] && t[..j] == a[..j];
    if j + 1 < |a| { assert t[j + 1] == a[j + 1]; }
  }

  /** The equality of the tree is the leftmost one of its text. */
  lemma FirstEqualityIsTheTree(a: string, op: Equality, rest: string)
    requires Balanced(a) && Quiet(a) && a != [] && !IsMark(a[|a| - 1]) && Trim(a) != []
    requires rest != [] && rest[0] != '='
    ensures FirstEquality(a + Symbol(op) + rest, 0) == Some(|a|)
    ensures EqualityOf(a + Symbol(op) + rest, |a|) == op
  {
    var t := a + Symbol(op) + rest;
    EqualityAfter(a, op, rest);
    assert t[..|a|] == a;
    forall j: nat | j < |a| ensures !EqualityAt(t, j) { NoEqualityBefore(a, t, j); }
    FirstEqualityAt(t, 0, |a|);
  }

  lemma LeftOperand(l: string, before: string)
    requires Tame(l, true) && Blank(before)
    ensures Balanced(l + before) && Quiet(l + before) && !IsMark((l + before)[|l + before| - 1])
    ensures Trim(l + before) == l
  {
    BlankIsTame(before);
    BalancedConcat(l, before);
    QuietConcat(l, before);
    TrimIsNotEmpty(l, before);
  }

  lemma EqualIsCompared(l: string, before: string, op: Equality, after: string, r: string)
    requires Tame(l, true) && Solid(r) && Blank(before) && Blank(after)
    ensures ShapeOf(l + before + Symbol(op) + (after + r)) == Compared(|l| + |before|, op)
  {
    var t := l + before + Symbol(op) + (after + r);
    LeftOperand(l, before);
    FirstEqualityIsTheTree(l + before, op, after + r);
    assert t == l + (before + Symbol(op) + (after + r));
    NotWrapped(l, before + Symbol(op) + (after + r));
  }

  // ----- Reading paths -----

  lemma SpanOfName(name: string, rest: string, p: char -> bool)
    requires forall i :: 0 <= i < |name| ==> p(name[i])
    requires rest == [] || !p(rest[0])
    ensures Span(name + rest, p) == |name|
  {
    var t, n := name + rest, Span(name + rest, p);
    assert forall i :: 0 <= i < |name| ==> t[i] == name[i];
    assert rest != [] ==> t[|name|] == rest[0];
  }

  lemma NameIsReadBack(name: string, rest: string)
    requires IsIdent(name) || IsDigits(name)
    requires rest == [] || rest[0] in ".["
    ensures NameLength(name + rest) == |name|
    ensures IsIdent(name) ==> IdentLength(name + rest) == |name|
  {
    var t := name + rest;
    assert t[0] == name[0];
    if IsIdent(name) { SpanOfName(name, rest, IsIdentPart); } else { SpanOfName(name, rest, IsDigit); }
  }

  lemma ClosingOfBalanced(pre: string, s: string, rest: string)
    requires Balanced(s)
    ensures Closing(pre + s + "]" + rest, |pre|, |pre|) == Some(|pre| + |s|)
  {
    var t, n := pre + s + "]" + rest, |pre|;
    assert forall j :: n <= j <= n + |s| ==> t[n..j] == s[..j - n];
    assert s[..|s|] == s;
    forall j | n <= j < n + |s| ensures !ClosesAt(t, n, j) {
      assert t[n..j] == s[..j - n] && t[j] == s[j - n];
      DepthStep(Square, s, j - n);
    }
    ClosingAt(t, n, n, n + |s|);
  }

  // ----- Evaluating printed trees -----

  lemma ResolvePadded(h: Host, vals: Value, x: string, t: string, y: string)
    requires Blank(x) && Blank(y) && Solid(t)
    ensures Resolve(h, vals, x + t + y) == ResolveTrimmed(h, vals, t)
  {
    TrimPad(x, t, y);
  }

  lemma ResolvePaddedRight(h: Host, vals: Value, t: string, y: string)
    requires Blank(y) && Solid(t)
    ensures Resolve(h, vals, t + y) == ResolveTrimmed(h, vals, t)
  {
    assert [] + t + y == t + y;
    ResolvePadded(h, vals, [], t, y);
  }

  lemma ResolvePaddedLeft(h: Host, vals: Value, x: string, t: string)
    requires Blank(x) && Solid(t)
    ensures Resolve(h, vals, x + t) == ResolveTrimmed(h, vals, t)
  {
    assert x + t + [] == x + t;
    ResolvePadded(h, vals, x, t, []);
  }

  lemma WrappedValue(h: Host, vals: Value, s: string)
    requires Balanced(s)
    ensures ResolveTrimmed(h, vals, ['('] + s + [')']) == Resolve(h, vals, s)
  {
    var t := ['('] + s + [')'];
    EnclosedIsWrapped(s);
    assert t[1..|t| - 1] == s;
  }

  lemma ComparedValue(h: Host, vals: Value, a: string, op: Equality, b: string)
    requires ShapeOf(a + Symbol(op) + b) == Compared(|a|, op)
    ensures ResolveTrimmed(h, vals, a + Symbol(op) + b) == Test(h, op, Resolve(h, vals, a), Resolve(h, vals, b))
  {
    var t := a + Symbol(op) + b;
    assert t[..|a|] == a && t[|a| + |Symbol(op)|..] == b;
  }

  lemma PathIsNotLiteral(h: Host, head: string, rest: string)
    requires IsIdent(head) && (rest == [] ==> !IsWord(head)) && (rest != [] ==> rest[0] in ".[")
    ensures Literal(h, head + rest).None?
  {
    var t := head + rest;
    assert t[0] == head[0];
    if rest == [] {
      assert t == head;
    } else {
      assert t[|head|] == rest[0];
    }
  }

  lemma PathStart(h: Host, vals: Value, head: string, rest: string)
    requires IsIdent(head) && (rest == [] ==> !IsWord(head)) && (rest != [] ==> rest[0] in ".[")
    requires Quiet(head + rest)
    ensures ResolveTrimmed(h, vals, head + rest) == ResolveSteps(h, vals, Member(h, vals, Str(head)), head + rest, |head|)
  {
    var t := head + rest;
    assert t[0] == head[0];
    PathIsNotLiteral(h, head, rest);
    NameIsReadBack(head, rest);
    assert t[..|head|] == head;
  }

  lemma NameStep(h: Host, vals: Value, target: Value, pre: string, name: string, rest: string)
    requires IsIdent(name) || IsDigits(name)
    requires rest == [] || rest[0] in ".["
    ensures StepAt(h, vals, target, pre + ("." + name) + rest, |pre|) ==
            Some((Member(h, target, Str(name)), |pre + ("." + name)|))
  {
    var t, i := pre + ("." + name) + rest, |pre|;
    assert t[i + 1..] == name + rest;
    NameIsReadBack(name, rest);
    assert t[i + 1..i + 1 + |name|] == name;
  }

  lemma IndexStep(h: Host, vals: Value, target: Value, pre: string, s: string, rest: string)
    requires Balanced(s)
    ensures StepAt(h, vals, target, pre + ("[" + s + "]") + rest, |pre|) ==
            Some((Member(h, target, Resolve(h, vals, s)), |pre + ("[" + s + "]")|))
  {
    var t, i := pre + ("[" + s + "]") + rest, |pre|;
    ClosingOfBalanced(pre + "[", s, rest);
    assert t == (pre + "[") + s + "]" + rest;
    BracketStep(h, vals, target, t, i, i + 1 + |s|);
    assert t[i + 1..i + 1 + |s|] == s;
  }

  lemma BracketStep(h: Host, vals: Value, target: Value, t: string, i: nat, j: nat)
    requires i < |t| && t[i] == '[' && Closing(t, i + 1, i + 1) == Some(j) && i < j < |t|
    ensures StepAt(h, vals, target, t, i) == Some((Member(h, target, Resolve(h, vals, t[i + 1..j])), j + 1))
  {
  }

  lemma SameText(a: string, b: string, c: string)
    ensures a + (b + c) == a + b + c
  {
  }

  /** Evaluating the printed text of a tree gives the value of the tree. */
  lemma {:induction false} ResolvePrinted(h: Host, vals: Value, e: Expr)
    requires WellFormed(e)
    ensures ResolveTrimmed(h, vals, Print(e)) == Eval(h, vals, e)
    decreases e
  {
    PrintIsTame(e);
    match e
    case UndefinedWord =>
    case NullWord =>
    case BoolWord(b) =>
    case NumberText(text) => NumberValue(h, vals, text);
    case Quoted(quote, s) =>
    case Path(head, steps) =>
      StepsAreTame(steps);
      PathStart(h, vals, head, PrintSteps(steps));
      ResolvePrintedSteps(h, vals, Member(h, vals, Str(head)), head, steps);
    case Not(pad, e1) =>
      PrintIsTame(e1);
      ResolvePrinted(h, vals, e1);
      NotValue(h, vals, pad, Print(e1));
    case Equal(l, before, op, after, r) =>
      PrintIsTame(l);
      PrintIsTame(r);
      ResolvePrinted(h, vals, l);
      ResolvePrinted(h, vals, r);
      EqualValue(h, vals, Print(l), before, op, after, Print(r));
    case Paren(before, e1, after) =>
      PrintIsTame(e1);
      ResolvePrinted(h, vals, e1);
      ParenValue(h, vals, before, Print(e1), after);
  }

  lemma {:induction false} ResolvePrintedSteps(h: Host, vals: Value, target: Value, pre: string, steps: seq<Step>)
    requires WellFormedSteps(steps)
    ensures ResolveSteps(h, vals, target, pre + PrintSteps(steps), |pre|) == EvalSteps(h, vals, target, steps)
    decreases steps
  {
    if steps != [] {
      var step, rest := steps[0], PrintSteps(steps[1..]);
      StepsAreTame(steps[1..]);
      ResolvePrintedStep(h, vals, target, pre, step, rest);
      SameText(pre, PrintStep(step), rest);
      ResolvePrintedSteps(h, vals, Member(h, target, EvalKey(h, vals, step)), pre + PrintStep(step), steps[1..]);
    }
  }

  lemma {:induction false} ResolvePrintedStep(h: Host, vals: Value, target: Value, pre: string, step: Step, rest: string)
    requires WellFormedStep(step) && (rest == [] || rest[0] in ".[")
    ensures StepAt(h, vals, target, pre + PrintStep(step) + rest, |pre|) ==
            Some((Member(h, target, EvalKey(h, vals, step)), |pre + PrintStep(step)|))
    decreases step
  {
    match step
    case Name(name) => NameStep(h, vals, target, pre, name, rest);
    case Index(before, e, after) =>
      PrintIsTame(e);
      ResolvePrinted(h, vals, e);
      PaddedIsBalanced(before, Print(e), after);
      IndexStep(h, vals, target, pre, before + Print(e) + after, rest);
      ResolvePadded(h, vals, before, Print(e), after);
  }

  lemma NumberValue(h: Host, vals: Value, text: string)
    requires IsNumber(text) && Quiet(text)
    ensures ResolveTrimmed(h, vals, text) == h.number(text)
  {
  }

  lemma ParenValue(h: Host, vals: Value, before: string, t: string, after: string)
    requires Blank(before) && Blank(after) && Tame(t, false)
    ensures ResolveTrimmed(h, vals, "(" + (before + t + after) + ")") == ResolveTrimmed(h, vals, t)
  {
    PaddedIsBalanced(before, t, after);
    WrappedValue(h, vals, before + t + after);
    ResolvePadded(h, vals, before, t, after);
  }

  lemma NotValue(h: Host, vals: Value, pad: string, t: string)
    requires Blank(pad) && Tame(t, true) && Quiet("!" + pad + t)
    ensures ResolveTrimmed(h, vals, "!" + pad + t) == Bool(!h.truthy(ResolveTrimmed(h, vals, t)))
  {
    assert "!" + pad + t == "!" + (pad + t);
    ResolvePaddedLeft(h, vals, pad, t);
  }

  lemma EqualValue(h: Host, vals: Value, l: string, before: string, op: Equality, after: string, r: string)
    requires Tame(l, true) && Tame(r, false) && Blank(before) && Blank(after)
    ensures ResolveTrimmed(h, vals, l + before + Symbol(op) + (after + r)) ==
            Test(h, op, ResolveTrimmed(h, vals, l), ResolveTrimmed(h, vals, r))
  {
    EqualIsCompared(l, before, op, after, r);
    ComparedValue(h, vals, l + before, op, after + r);
    ResolvePaddedRight(h, vals, l, before);
    ResolvePaddedLeft(h, vals, after, r);
  }

  /** With any spacing around it. */
  lemma ResolveIsEval(h: Host, vals: Value, x: string, e: Expr, y: string)
    requires WellFormed(e) && Blank(x) && Blank(y)
    ensures Resolve(h, vals, x + Print(e) + y) == Eval(h, vals, e)
  {
    PrintIsTame(e);
    ResolvePadded(h, vals, x, Print(e), y);
    ResolvePrinted(h, vals, e);
  }

  // ----- Where the language differs from JavaScript -----

  lemma {:induction false} SomeEquality(s: string, from: nat, i: nat)
    requires from <= i && EqualityAt(s, i)
    ensures FirstEquality(s, from).Some?
    decreases i - from
  {
    if from < i { SomeEquality(s, from + 1, i); }
  }

  lemma ComparedIsBool(h: Host, vals: Value, t: string, i: nat)
    requires t != [] && t[0] != '(' && EqualityAt(t, i)
    ensures ResolveTrimmed(h, vals, t).Bool?
  {
    SomeEquality(t, 0, i);
  }

  predicate HasEquality(t: string) {
    exists i :: 0 <= i < |t| && EqualityAt(t, i)
  }

  /**
   A quoted text evaluates to itself exactly when no equality is found in it: the scan does not
   know about quotes. Brackets, parentheses and further quotes inside are harmless by themselves.
   */
  lemma QuotedIsExact(h: Host, vals: Value, quote: char, s: string)
    requires quote == '"' || quote == '\''
    ensures Resolve(h, vals, [quote] + s + [quote]) == Str(s) <==> !HasEquality([quote] + s + [quote])
  {
    var t := [quote] + s + [quote];
    assert t[0] == quote && t[|t| - 1] == quote && t[1..|t| - 1] == s;
    QuoteIsSolid(quote, s);
    assert [] + t == t;
    ResolvePaddedLeft(h, vals, [], t);
    if HasEquality(t) {
      var i: nat :| i < |t| && EqualityAt(t, i);
      ComparedIsBool(h, vals, t, i);
    } else {
      NoEquality(t, 0);
    }
  }

  lemma QuoteIsSolid(quote: char, s: string)
    requires quote == '"' || quote == '\''
    ensures Solid([quote] + s + [quote])
  {
  }

  lemma PrintUnspaced(l: Expr, op: Equality, r: Expr)
    ensures Print(Equal(l, "", op, "", r)) == Print(l) + Symbol(op) + Print(r)
  {
    assert Print(l) + "" == Print(l) && "" + Print(r) == Print(r);
  }

  /** Equalities group from the right: the leftmost one takes the rest of the text. */
  lemma ChainGroupsRight(h: Host, vals: Value, a: Expr, op: Equality, b: Expr, op': Equality, c: Expr)
    requires WellFormed(a) && WellFormed(b) && WellFormed(c) && !a.Equal? && !b.Equal?
    ensures ResolveTrimmed(h, vals, Print(a) + Symbol(op) + (Print(b) + Symbol(op') + Print(c))) ==
            Test(h, op, Eval(h, vals, a), Test(h, op', Eval(h, vals, b), Eval(h, vals, c)))
  {
    var rest := Equal(b, "", op', "", c);
    PrintUnspaced(b, op', c);
    PrintUnspaced(a, op, rest);
    ResolvePrinted(h, vals, Equal(a, "", op, "", rest));
  }

  /** The comparison inside these quotes is found, and what is left of the text is not. */
  lemma QuotedEquality(h: Host, vals: Value)
    ensures HasEquality("'a==b'")
    ensures Resolve(h, vals, "'a==b'") != Str("a==b")
  {
    var t := "'a==b'";
    assert t[..2] == "'a";
    assert ['\''] + "a==b" + ['\''] == t;
    PlainIsBalanced("'a");
    assert EqualityAt(t, 2);
    QuotedIsExact(h, vals, '\'', "a==b");
  }

  // ----- Paths, read by read -----

  lemma {:induction false} FoldFront(h: Host, target: Value, keys: seq<Value>)
    requires keys != []
    ensures Fold(h, target, keys) == Fold(h, h.get(target, keys[0]), keys[1..])
    decreases |keys|
  {
    var n := |keys| - 1;
    if n > 0 {
      FoldFront(h, target, keys[..n]);
      assert keys[..n][1..] == keys[1..][..n - 1] && keys[1..][n - 1] == keys[n];
    } else {
      assert keys[..0] == [] && keys[1..] == [];
    }
  }

  lemma {:induction false} NothingStays(h: Host, vals: Value, target: Value, steps: seq<Step>)
    requires Nothing(target) && steps != []
    ensures EvalSteps(h, vals, target, steps) == Undefined
    decreases |steps|
  {
    if |steps| > 1 { NothingStays(h, vals, Undefined, steps[1..]); }
  }

  /**
   The law of paths: when no value along the way is null or undefined, the value is what the reads
   give one after the other; otherwise it is undefined.
   */
  lemma {:induction false} PathIsFold(h: Host, vals: Value, target: Value, steps: seq<Step>)
    ensures var keys := KeysOf(h, vals, steps);
            EvalSteps(h, vals, target, steps) ==
            if forall i :: 0 <= i < |keys| ==> !Nothing(Fold(h, target, keys[..i])) then Fold(h, target, keys) else Undefined
    decreases |steps|
  {
    var keys := KeysOf(h, vals, steps);
    if steps != [] {
      assert keys[..0] == [];
      if Nothing(target) {
        NothingStays(h, vals, target, steps);
        assert Nothing(Fold(h, target, keys[..0]));
      } else {
        var next, rest := h.get(target, keys[0]), keys[1..];
        assert rest == KeysOf(h, vals, steps[1..]);
        PathIsFold(h, vals, next, steps[1..]);
        FoldFront(h, target, keys);
        PrefixesAlong(h, target, keys);
      }
    }
  }

  lemma PrefixesAlong(h: Host, target: Value, keys: seq<Value>)
    requires keys != [] && !Nothing(target)
    ensures var next, rest := h.get(target, keys[0]), keys[1..];
            (forall i :: 0 <= i < |keys| ==> !Nothing(Fold(h, target, keys[..i]))) <==>
            (forall i :: 0 <= i < |rest| ==> !Nothing(Fold(h, next, rest[..i])))
  {
    var next, rest := h.get(target, keys[0]), keys[1..];
    forall i | 0 < i < |keys| ensures Fold(h, target, keys[..i]) == Fold(h, next, rest[..i - 1]) {
      FoldFront(h, target, keys[..i]);
      assert keys[..i][1..] == rest[..i - 1];
    }
    assert keys[..0] == [];
    if forall i :: 0 <= i < |keys| ==> !Nothing(Fold(h, target, keys[..i])) {
      forall i | 0 <= i < |rest| ensures !Nothing(Fold(h, next, rest[..i])) {
        assert Fold(h, target, keys[..i + 1]) == Fold(h, next, rest[..i]);
      }
    }
  }

  /** An identifier read on an object that is there is what the object gives. */
  lemma IdentifierIsRead(h: Host, vals: Value, name: string)
    requires IsIdent(name) && !IsWord(name) && !Nothing(vals)
    ensures ResolveTrimmed(h, vals, name) == h.get(vals, Str(name))
  {
    var e := Path(name, []);
    assert name + "" == name;
    assert Print(e) == name;
    ResolvePrinted(h, vals, e);
  }

  // ----- Numbers and characters -----

  /** An optional sign, digits, and perhaps a point with digits after it. */
  ghost predicate IsDecimal(s: string, sign: string, whole: string, tail: string) {
    && s == sign + whole + tail
    && (sign == "" || sign == "-")
    && IsDigits(whole)
    && (tail == "" || (tail[0] == '.' && IsDigits(tail[1..])))
  }

  lemma DecimalIsNumber(s: string, sign: string, whole: string, tail: string)
    requires IsDecimal(s, sign, whole, tail)
    ensures IsNumber(s)
  {
    var u := whole + tail;
    SpanOfName(whole, tail, IsDigit);
    assert sign == "" ==> s == u && s[0] == whole[0];
    assert sign == "-" ==> s[0] == '-' && s[1..] == u;
    assert tail != "" ==> u[|whole|] == tail[0] && u[|whole| + 1..] == tail[1..];
  }

  lemma UnsignedIsDecimal(u: string) returns (whole: string, tail: string)
    requires IsUnsignedNumber(u)
    ensures IsDecimal(u, "", whole, tail)
  {
    var n := Span(u, IsDigit);
    whole, tail := u[..n], u[n..];
    assert u == "" + whole + tail;
    if n < |u| { assert tail[1..] == u[n + 1..]; }
  }

  lemma SignedIsDecimal(s: string, u: string, whole: string, tail: string)
    requires s == ['-'] + u && IsDecimal(u, "", whole, tail)
    ensures IsDecimal(s, "-", whole, tail)
  {
    assert "" + whole + tail == whole + tail;
    assert s == "-" + whole + tail;
  }

  lemma NumberIsDecimal(s: string) returns (sign: string, whole: string, tail: string)
    requires IsNumber(s)
    ensures IsDecimal(s, sign, whole, tail)
  {
    if s != [] && s[0] == '-' {
      sign := "-";
      whole, tail := UnsignedIsDecimal(s[1..]);
      SignedIsDecimal(s, s[1..], whole, tail);
    } else {
      sign := "";
      whole, tail := UnsignedIsDecimal(s);
    }
  }

  lemma NumberGrammar(s: string)
    ensures IsNumber(s) <==> exists sign, whole, tail :: IsDecimal(s, sign, whole, tail)
  {
    if IsNumber(s) {
      var sign, whole, tail := NumberIsDecimal(s);
      assert IsDecimal(s, sign, whole, tail);
    }
    if sign, whole, tail :| IsDecimal(s, sign, whole, tail) { DecimalIsNumber(s, sign, whole, tail); }
  }

  lemma CharacterClasses(c: char)
    ensures IsDigit(c) <==> c in "0123456789"
    ensures IsIdentStart(c) <==> c in "ABCDEFGHIJKLMNOPQRSTUVWXYZ" || c in "abcdefghijklmnopqrstuvwxyz" || c in "_$"
    ensures c in " \t\n\r" ==> IsBlank(c)
    ensures IsBlank(c) ==> c < '!' || c > '~'
  {
  }
}

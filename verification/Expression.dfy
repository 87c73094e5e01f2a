/**
 The template expression evaluator: scanning of the text, and evaluation by splitting it at its
 parentheses, its leftmost top-level equality, its leading negation or its path accessors. What
 JavaScript itself does with values is a parameter.
 */
module Expression {
  import opened Wrappers

  /** `Other` stands for numbers, objects and functions. */
  datatype Value = Undefined | Null | Bool(b: bool) | Str(s: string) | Other(id: int)

  datatype Equality = Strict | NotStrict | Loose | NotLoose

  datatype Host = Host(
    get: (Value, Value) -> Value,
    strictlyEqual: (Value, Value) -> bool,
    looselyEqual: (Value, Value) -> bool,
    truthy: Value -> bool,
    number: string -> Value)
  {
    /** `target == null ? undefined : target[key]` */
    function Read(target: Value, key: Value): Value {
      if target == Undefined || target == Null then Undefined else get(target, key)
    }

    function Compare(op: Equality, l: Value, r: Value): Value {
      match op
      case Strict => Bool(strictlyEqual(l, r))
      case NotStrict => Bool(!strictlyEqual(l, r))
      case Loose => Bool(looselyEqual(l, r))
      case NotLoose => Bool(!looselyEqual(l, r))
    }
  }

  // ----- Characters -----

  predicate IsBlank(c: char) {
    || '\t' <= c <= '\r' || c == ' ' || c == '\U{a0}' || c == '\U{1680}' || '\U{2000}' <= c <= '\U{200a}'
    || c == '\U{2028}' || c == '\U{2029}' || c == '\U{202f}' || c == '\U{205f}' || c == '\U{3000}' || c == '\U{feff}'
  }

  predicate IsDigit(c: char) {
    '0' <= c <= '9'
  }

  predicate IsIdentStart(c: char) {
    'A' <= c <= 'Z' || 'a' <= c <= 'z' || c == '_' || c == '$'
  }

  predicate IsIdentPart(c: char) {
    IsIdentStart(c) || IsDigit(c)
  }

  predicate Blank(s: string) {
    forall i :: 0 <= i < |s| ==> IsBlank(s[i])
  }

  function TrimLeft(s: string): (r: string)
    ensures |r| <= |s|
  {
    if s != [] && IsBlank(s[0]) then TrimLeft(s[1..]) else s
  }

  function TrimRight(s: string): (r: string)
    ensures |r| <= |s|
  {
    if s != [] && IsBlank(s[|s| - 1]) then TrimRight(s[..|s| - 1]) else s
  }

  function Trim(s: string): (r: string)
    ensures |r| <= |s|
  {
    TrimRight(TrimLeft(s))
  }

  /** The length of the longest prefix of characters that satisfy `p`. */
  function Span(s: string, p: char -> bool): (n: nat)
    ensures n <= |s|
    ensures forall i :: 0 <= i < n ==> p(s[i])
    ensures n < |s| ==> !p(s[n])
  {
    if s != [] && p(s[0]) then 1 + Span(s[1..], p) else 0
  }

  function IdentLength(s: string): (n: nat)
    ensures n <= |s|
  {
    if s != [] && IsIdentStart(s[0]) then Span(s, IsIdentPart) else 0
  }

  /** What may follow a dot: an identifier, else digits. */
  function NameLength(s: string): (n: nat)
    ensures n <= |s|
  {
    if IdentLength(s) > 0 then IdentLength(s) else Span(s, IsDigit)
  }

  predicate IsDigits(s: string) {
    s != [] && forall i :: 0 <= i < |s| ==> IsDigit(s[i])
  }

  predicate IsUnsignedNumber(s: string) {
    var n := Span(s, IsDigit);
    n > 0 && (n == |s| || (s[n] == '.' && IsDigits(s[n + 1..])))
  }

  predicate IsNumber(s: string) {
    IsUnsignedNumber(if s != [] && s[0] == '-' then s[1..] else s)
  }

  // ----- Nesting -----

  /** The scanners count parentheses only, square brackets only, or both together. */
  datatype Count = Round | Square | Both

  function Change(k: Count, c: char): int {
    if (c == '(' && k != Square) || (c == '[' && k != Round) then 1
    else if (c == ')' && k != Square) || (c == ']' && k != Round) then -1
    else 0
  }

  function Depth(k: Count, s: string): int {
    if s == [] then 0 else Depth(k, s[..|s| - 1]) + Change(k, s[|s| - 1])
  }

  predicate IsMark(c: char) {
    c == '=' || c == '!'
  }

  predicate PairAt(s: string, i: int) {
    0 <= i && i + 1 < |s| && IsMark(s[i]) && s[i + 1] == '='
  }

  predicate EqualityAt(s: string, i: int) {
    && PairAt(s, i)
    && Depth(Both, s[..i]) == 0
    && (i > 0 ==> !IsMark(s[i - 1]))
    && Trim(s[..i]) != []
  }

  /** The leftmost top-level equality at or after `from`. */
  function FirstEquality(s: string, from: nat): (r: Option<nat>)
    ensures r.Some? ==> EqualityAt(s, r.value)
    decreases |s| - from
  {
    if from >= |s| then None
    else if EqualityAt(s, from) then Some(from)
    else FirstEquality(s, from + 1)
  }

  lemma {:induction false} FirstEqualityAt(s: string, from: nat, i: nat)
    requires from <= i && EqualityAt(s, i) && forall j :: from <= j < i ==> !EqualityAt(s, j)
    ensures FirstEquality(s, from) == Some(i)
    decreases i - from
  {
    if from < i { FirstEqualityAt(s, from + 1, i); }
  }

  lemma {:induction false} NoEquality(s: string, from: nat)
    requires forall j :: from <= j < |s| ==> !EqualityAt(s, j)
    ensures FirstEquality(s, from).None?
    decreases |s| - from
  {
    if from < |s| { NoEquality(s, from + 1); }
  }

  function EqualityOf(s: string, i: nat): Equality
    requires EqualityAt(s, i)
  {
    if i + 2 < |s| && s[i + 2] == '=' then (if s[i] == '=' then Strict else NotStrict)
    else (if s[i] == '=' then Loose else NotLoose)
  }

  function Symbol(op: Equality): (text: string)
    ensures 2 <= |text| <= 3
  {
    match op case Strict => "===" case NotStrict => "!==" case Loose => "==" case NotLoose => "!="
  }

  /** The opening parenthesis at the front is still open just before the last character. */
  predicate Wraps(s: string) {
    forall i :: 0 <= i < |s| - 1 && s[i] == ')' ==> Depth(Round, s[..i + 1]) != 0
  }

  predicate ClosesAt(s: string, start: nat, j: int) {
    start <= j < |s| && s[j] == ']' && Depth(Square, s[start..j]) == 0
  }

  /** Where the bracket that was opened just before `start` closes, at or after `from`. */
  function Closing(s: string, start: nat, from: nat): (r: Option<nat>)
    ensures r.Some? ==> from <= r.value < |s|
    decreases |s| - from
  {
    if from >= |s| then None else if ClosesAt(s, start, from) then Some(from) else Closing(s, start, from + 1)
  }

  lemma {:induction false} ClosingAt(s: string, start: nat, from: nat, i: nat)
    requires from <= i && ClosesAt(s, start, i) && forall j :: from <= j < i ==> !ClosesAt(s, start, j)
    ensures Closing(s, start, from) == Some(i)
    decreases i - from
  {
    if from < i { ClosingAt(s, start, from + 1, i); }
  }

  lemma {:induction false} NoClosing(s: string, start: nat, from: nat)
    requires forall j :: from <= j < |s| ==> !ClosesAt(s, start, j)
    ensures Closing(s, start, from).None?
    decreases |s| - from
  {
    if from < |s| { NoClosing(s, start, from + 1); }
  }

  // ----- Evaluation of text -----

  datatype Shape = Nothing | Wrapped | Compared(i: nat, op: Equality) | Negated | Atom

  /** Which rule applies to a trimmed text, in the order in which they are tried. */
  function ShapeOf(expr: string): (shape: Shape)
    ensures shape.Nothing? <==> expr == []
    ensures shape.Wrapped? ==> |expr| >= 2
    ensures shape.Compared? ==> 0 < shape.i && shape.i + |Symbol(shape.op)| <= |expr|
  {
    if expr == [] then Nothing
    else if expr[0] == '(' && expr[|expr| - 1] == ')' && Wraps(expr) then Wrapped
    else
      match FirstEquality(expr, 0)
      case Some(i) => Compared(i, EqualityOf(expr, i))
      case None => if expr[0] == '!' then Negated else Atom
  }

  function Resolve(h: Host, vals: Value, src: string): Value
    decreases |src|, 3, 0
  {
    ResolveTrimmed(h, vals, Trim(src))
  }

  function ResolveTrimmed(h: Host, vals: Value, expr: string): Value
    decreases |expr|, 2, 0
  {
    match ShapeOf(expr)
    case Nothing => Undefined
    case Wrapped => Resolve(h, vals, expr[1..|expr| - 1])
    case Compared(i, op) =>
      h.Compare(op, Resolve(h, vals, expr[..i]), Resolve(h, vals, expr[i + |Symbol(op)|..]))
    case Negated => Bool(!h.truthy(Resolve(h, vals, expr[1..])))
    case Atom => match Literal(h, expr) case Some(v) => v case None => PathValue(h, vals, expr)
  }

  function Literal(h: Host, expr: string): Option<Value> {
    if expr == "true" then Some(Bool(true))
    else if expr == "false" then Some(Bool(false))
    else if expr == "null" then Some(Null)
    else if expr == "undefined" then Some(Undefined)
    else if IsNumber(expr) then Some(h.number(expr))
    else if |expr| >= 2 && (expr[0] == '"' || expr[0] == '\'') && expr[|expr| - 1] == expr[0] then
      Some(Str(expr[1..|expr| - 1]))
    else None
  }

  function PathValue(h: Host, vals: Value, expr: string): Value
    decreases |expr|, 1, 0
  {
    var n := IdentLength(expr);
    if n == 0 then Undefined else ResolveSteps(h, vals, h.Read(vals, Str(expr[..n])), expr, n)
  }

  /** Applies the accessors from position `i` on. */
  function ResolveSteps(h: Host, vals: Value, target: Value, expr: string, i: nat): Value
    requires i <= |expr|
    decreases |expr|, 0, |expr| - i, 1
  {
    if i == |expr| then target
    else
      match StepAt(h, vals, target, expr, i)
      case None => Undefined
      case Some((next, j)) => ResolveSteps(h, vals, next, expr, j)
  }

  /** One accessor: what it reads, and where the next one starts. */
  function StepAt(h: Host, vals: Value, target: Value, expr: string, i: nat): (r: Option<(Value, nat)>)
    requires i < |expr|
    ensures r.Some? ==> i < r.value.1 <= |expr|
    decreases |expr|, 0, |expr| - i, 0
  {
    if expr[i] == '.' then
      var n := NameLength(expr[i + 1..]);
      if n == 0 then None else Some((h.Read(target, Str(expr[i + 1..i + 1 + n])), i + 1 + n))
    else if expr[i] == '[' then
      match Closing(expr, i + 1, i + 1)
      case None => None
      case Some(j) => Some((h.Read(target, Resolve(h, vals, expr[i + 1..j])), j + 1))
    else None
  }

  // ----- The scanning loops -----

  lemma DepthStep(k: Count, s: string, i: nat)
    requires i < |s|
    ensures Depth(k, s[..i + 1]) == Depth(k, s[..i]) + Change(k, s[i])
  {
    assert s[..i + 1][..i] == s[..i];
  }

  method ParensWrapWhole(expr: string) returns (whole: bool)
    requires expr != [] && expr[0] == '('
    ensures whole <==> Wraps(expr)
  {
    var depth := 0;
    for i := 0 to |expr| - 1
      invariant depth == Depth(Round, expr[..i])
      invariant forall j :: 0 <= j < i && expr[j] == ')' ==> Depth(Round, expr[..j + 1]) != 0
    {
      DepthStep(Round, expr, i);
      if expr[i] == '(' {
        depth := depth + 1;
      } else if expr[i] == ')' {
        depth := depth - 1;
        if depth == 0 { return false; }
      }
    }
    return true;
  }

  method FindTopLevelEquality(expr: string) returns (found: Option<(nat, Equality)>)
    ensures found == match FirstEquality(expr, 0) case None => None case Some(i) => Some((i, EqualityOf(expr, i)))
  {
    var depth := 0;
    for i := 0 to |expr|
      invariant depth == Depth(Both, expr[..i])
      invariant forall j :: 0 <= j < i ==> !EqualityAt(expr, j)
    {
      DepthStep(Both, expr, i);
      var c := expr[i];
      if c == '[' || c == '(' {
        depth := depth + 1;
      } else if c == ']' || c == ')' {
        depth := depth - 1;
      } else if depth == 0 && (c == '=' || c == '!') && i + 1 < |expr| && expr[i + 1] == '=' {
        if i > 0 && (expr[i - 1] == '=' || expr[i - 1] == '!') { continue; }
        if Trim(expr[..i]) == [] { continue; }
        FirstEqualityAt(expr, 0, i);
        var threeLong := i + 2 < |expr| && expr[i + 2] == '=';
        return Some((i, if threeLong then (if c == '=' then Strict else NotStrict) else if c == '=' then Loose else NotLoose));
      }
    }
    NoEquality(expr, 0);
    return None;
  }

  method FindClosing(s: string, start: nat) returns (found: Option<nat>)
    requires start <= |s|
    ensures found == Closing(s, start, start)
  {
    var depth := 1;
    var j := start;
    while j < |s| && depth > 0
      invariant start <= j <= |s| && depth == 1 + Depth(Square, s[start..j]) && depth > 0
      invariant forall k :: start <= k < j ==> !ClosesAt(s, start, k)
    {
      DepthStep(Square, s[start..], j - start);
      assert s[start..][..j - start] == s[start..j] && s[start..][..j - start + 1] == s[start..j + 1];
      if s[j] == '[' {
        depth := depth + 1;
      } else if s[j] == ']' {
        depth := depth - 1;
        if depth == 0 {
          ClosingAt(s, start, start, j);
          return Some(j);
        }
      }
      j := j + 1;
    }
    NoClosing(s, start, start);
    return None;
  }

  method FindShape(expr: string) returns (shape: Shape)
    ensures shape == ShapeOf(expr)
  {
    if expr == [] { return Nothing; }
    if expr[0] == '(' && expr[|expr| - 1] == ')' {
      var whole := ParensWrapWhole(expr);
      if whole { return Wrapped; }
    }
    var eq := FindTopLevelEquality(expr);
    if eq.Some? { return Compared(eq.value.0, eq.value.1); }
    return if expr[0] == '!' then Negated else Atom;
  }

  /** Evaluates any text at all: every nested evaluation is of a strictly shorter one. */
  method ResolveText(h: Host, vals: Value, src: string) returns (r: Value)
    ensures r == Resolve(h, vals, src)
    decreases |src|, 3, 0
  {
    r := ResolveTrimmedText(h, vals, Trim(src));
  }

  method ResolveTrimmedText(h: Host, vals: Value, expr: string) returns (r: Value)
    ensures r == ResolveTrimmed(h, vals, expr)
    decreases |expr|, 2, 0
  {
    var shape := FindShape(expr);
    match shape
    case Nothing => r := Undefined;
    case Wrapped => r := ResolveText(h, vals, expr[1..|expr| - 1]);
    case Compared(i, op) => r := ResolveCompared(h, vals, expr, i, op);
    case Negated =>
      var negated := ResolveText(h, vals, expr[1..]);
      r := Bool(!h.truthy(negated));
    case Atom => r := ResolveAtom(h, vals, expr);
  }

  method ResolveCompared(h: Host, vals: Value, expr: string, i: nat, op: Equality) returns (r: Value)
    requires 0 < i && i + |Symbol(op)| <= |expr|
    ensures r == h.Compare(op, Resolve(h, vals, expr[..i]), Resolve(h, vals, expr[i + |Symbol(op)|..]))
    decreases |expr|, 1, 1
  {
    var left := ResolveText(h, vals, expr[..i]);
    var right := ResolveText(h, vals, expr[i + |Symbol(op)|..]);
    r := h.Compare(op, left, right);
  }

  method ResolveAtom(h: Host, vals: Value, expr: string) returns (r: Value)
    ensures r == match Literal(h, expr) case Some(v) => v case None => PathValue(h, vals, expr)
    decreases |expr|, 1, 1
  {
    var literal := Literal(h, expr);
    if literal.Some? { r := literal.value; } else { r := ResolvePath(h, vals, expr); }
  }

  method ResolvePath(h: Host, vals: Value, expr: string) returns (r: Value)
    ensures r == PathValue(h, vals, expr)
    decreases |expr|, 1, 0
  {
    var n := IdentLength(expr);
    if n == 0 { return Undefined; }
    r := h.Read(vals, Str(expr[..n]));
    var i := n;
    while i < |expr|
      invariant n <= i <= |expr|
      invariant PathValue(h, vals, expr) == ResolveSteps(h, vals, r, expr, i)
    {
      var step := TakeStep(h, vals, r, expr, i);
      if step.None? { return Undefined; }
      r := step.value.0;
      i := step.value.1;
    }
  }

  method TakeStep(h: Host, vals: Value, target: Value, expr: string, i: nat) returns (r: Option<(Value, nat)>)
    requires i < |expr|
    ensures r == StepAt(h, vals, target, expr, i)
    decreases |expr|, 0, |expr| - i, 0
  {
    if expr[i] == '.' {
      var n := NameLength(expr[i + 1..]);
      if n == 0 { return None; }
      r := Some((h.Read(target, Str(expr[i + 1..i + 1 + n])), i + 1 + n));
    } else if expr[i] == '[' {
      r := TakeIndex(h, vals, target, expr, i);
    } else {
      r := None;
    }
  }

  method TakeIndex(h: Host, vals: Value, target: Value, expr: string, i: nat) returns (r: Option<(Value, nat)>)
    requires i < |expr| && expr[i] == '['
    ensures r == StepAt(h, vals, target, expr, i)
    decreases |expr|, 0, 0, 0
  {
    var j := FindClosing(expr, i + 1);
    if j.None? { return None; }
    var key := ResolveText(h, vals, expr[i + 1..j.value]);
    r := Some((h.Read(target, key), j.value + 1));
  }
}

/**
 Grouping of chained equalities: the templates group them from the right, JavaScript from the
 left. Where the two agree, as conditions on the operands.
 */
module ExpressionGrouping {
  import opened Expression
  import opened ExpressionMeaning

  // ----- The value in JavaScript -----

  /** The same tree read as JavaScript: a chain of equalities is folded from its left end. */
  function JsEval(h: Host, vals: Value, e: Expr): Value
    decreases e, 1
  {
    match e
    case UndefinedWord => Undefined
    case NullWord => Null
    case BoolWord(b) => Bool(b)
    case NumberText(text) => h.number(text)
    case Quoted(_, s) => Str(s)
    case Path(head, steps) => JsEvalSteps(h, vals, Member(h, vals, Str(head)), steps)
    case Not(_, e) => Bool(!h.truthy(JsEval(h, vals, e)))
    case Equal(l, _, op, _, r) => JsFold(h, vals, JsEval(h, vals, l), op, r)
    case Paren(_, e, _) => JsEval(h, vals, e)
  }

  /** `acc op r`, where r may continue the chain. */
  function JsFold(h: Host, vals: Value, acc: Value, op: Equality, r: Expr): Value
    decreases r, 2
  {
    if r.Equal? then JsFold(h, vals, Test(h, op, acc, JsEval(h, vals, r.l)), r.op, r.r)
    else Test(h, op, acc, JsEval(h, vals, r))
  }

  function JsEvalSteps(h: Host, vals: Value, target: Value, steps: seq<Step>): Value
    decreases steps
  {
    if steps == [] then target
    else JsEvalSteps(h, vals, Member(h, target, JsEvalKey(h, vals, steps[0])), steps[1..])
  }

  function JsEvalKey(h: Host, vals: Value, s: Step): Value
    decreases s
  {
    match s
    case Name(name) => Str(name)
    case Index(_, e, _) => JsEval(h, vals, e)
  }

  // ----- Trees without chains -----

  /** No equality has a bare equality as its right operand, at any depth. */
  predicate Unchained(e: Expr) {
    match e
    case Path(_, steps) => forall i :: 0 <= i < |steps| ==> UnchainedStep(steps[i])
    case Not(_, e) => Unchained(e)
    case Equal(l, _, _, _, r) => Unchained(l) && Unchained(r) && !r.Equal?
    case Paren(_, e, _) => Unchained(e)
    case _ => true
  }

  predicate UnchainedStep(s: Step) {
    s.Index? ==> Unchained(s.e)
  }

  /** Without chains the templates compute what JavaScript does. */
  lemma {:induction false} UnchainedAgrees(h: Host, vals: Value, e: Expr)
    requires Unchained(e)
    ensures JsEval(h, vals, e) == Eval(h, vals, e)
    decreases e
  {
    match e
    case Path(head, steps) => UnchainedStepsAgree(h, vals, Member(h, vals, Str(head)), steps);
    case Not(_, e1) => UnchainedAgrees(h, vals, e1);
    case Equal(l, _, _, _, r) =>
      UnchainedAgrees(h, vals, l);
      UnchainedAgrees(h, vals, r);
    case Paren(_, e1, _) => UnchainedAgrees(h, vals, e1);
    case _ =>
  }

  lemma {:induction false} UnchainedStepsAgree(h: Host, vals: Value, target: Value, steps: seq<Step>)
    requires forall i :: 0 <= i < |steps| ==> UnchainedStep(steps[i])
    ensures JsEvalSteps(h, vals, target, steps) == EvalSteps(h, vals, target, steps)
    decreases steps
  {
    if steps != [] {
      assert UnchainedStep(steps[0]);
      if steps[0].Index? { UnchainedAgrees(h, vals, steps[0].e); }
      UnchainedStepsAgree(h, vals, Member(h, target, EvalKey(h, vals, steps[0])), steps[1..]);
    }
  }

  /** So evaluating the printed text of such a tree, with any spacing, is evaluating it as JavaScript. */
  lemma UnchainedTextIsJavaScript(h: Host, vals: Value, x: string, e: Expr, y: string)
    requires WellFormed(e) && Unchained(e) && Blank(x) && Blank(y)
    ensures Resolve(h, vals, x + Print(e) + y) == JsEval(h, vals, e)
  {
    ResolveIsEval(h, vals, x, e, y);
    UnchainedAgrees(h, vals, e);
  }

  // ----- Chains of values -----

  predicate Negates(op: Equality) {
    op == NotStrict || op == NotLoose
  }

  /** Whether the two values are equal in the operator's sense. */
  predicate Equals(h: Host, op: Equality, x: Value, y: Value) {
    if op == Strict || op == NotStrict then h.strictlyEqual(x, y) else h.looselyEqual(x, y)
  }

  /** How a value compares with `true` and `false`. */
  datatype Likeness = LikeTrue | LikeFalse | LikeNeither

  function Like(h: Host, op: Equality, x: Value): Likeness {
    if Equals(h, op, x, Bool(true)) then LikeTrue else if Equals(h, op, x, Bool(false)) then LikeFalse else LikeNeither
  }

  /** What JavaScript's equalities promise about booleans: symmetry, and no value equals both. */
  ghost predicate Booleans(h: Host) {
    forall op, x, b ::
      && (Equals(h, op, x, Bool(b)) <==> Equals(h, op, Bool(b), x))
      && !(Equals(h, op, x, Bool(true)) && Equals(h, op, x, Bool(false)))
  }

  datatype Link = Link(op: Equality, operand: Value)

  /** `v op1 v1 op2 v2 ...`, grouped as the templates do. */
  function FromRight(h: Host, v: Value, links: seq<Link>): Value
    decreases links
  {
    if links == [] then v else Test(h, links[0].op, v, FromRight(h, links[0].operand, links[1..]))
  }

  /** The same chain, grouped as JavaScript does. */
  function FromLeft(h: Host, v: Value, links: seq<Link>): Value
    decreases |links|
  {
    if links == [] then v
    else
      var last := links[|links| - 1];
      Test(h, last.op, FromLeft(h, v, links[..|links| - 1]), last.operand)
  }

  /** One end of a chain of three or more: the outermost operand against a boolean. */
  lemma AgainstBool(h: Host, op: Equality, x: Value, b: bool)
    requires Booleans(h)
    ensures Test(h, op, x, Bool(b)) == Test(h, op, Bool(b), x) ==
            Bool((Like(h, op, x) == if b then LikeTrue else LikeFalse) != Negates(op))
  {
    assert Equals(h, op, x, Bool(b)) <==> Equals(h, op, Bool(b), x);
    assert !(Equals(h, op, x, Bool(true)) && Equals(h, op, x, Bool(false)));
  }

  /**
   A chain of three operands or more has the same value either way exactly when: with neither end
   like a boolean, the end operators have the same polarity; with one end like a boolean, that end
   matches what the rest of the chain next to it demands; with both, both ends make the same of it.
   `p` and `q` are the values of the two chains that lack the first, or the last, operand.
   */
  lemma ChainAgreesIff(h: Host, v: Value, links: seq<Link>)
    requires Booleans(h) && |links| >= 2
    ensures var n := |links| - 1;
            var first, last := links[0].op, links[n].op;
            var p := FromRight(h, links[0].operand, links[1..]) == Bool(true);
            var q := FromLeft(h, v, links[..n]) == Bool(true);
            var a, c := Like(h, first, v), Like(h, last, links[n].operand);
            FromRight(h, v, links) == FromLeft(h, v, links) <==>
            if a == LikeNeither && c == LikeNeither then Negates(first) == Negates(last)
            else if c == LikeNeither then (a == LikeTrue) == (p == (Negates(first) != Negates(last)))
            else if a == LikeNeither then (c == LikeTrue) == (q == (Negates(first) != Negates(last)))
            else ((a == LikeTrue) == p) == (((c == LikeTrue) == q) == (Negates(first) == Negates(last)))
  {
    var n := |links| - 1;
    AgainstBool(h, links[0].op, v, FromRight(h, links[0].operand, links[1..]).b);
    AgainstBool(h, links[n].op, links[n].operand, FromLeft(h, v, links[..n]).b);
  }

  // ----- Chains of trees -----

  function Chain(a: Expr, op: Equality, b: Expr, op': Equality, c: Expr): Expr {
    Equal(a, "", op, "", Equal(b, "", op', "", c))
  }

  lemma JsChain(h: Host, vals: Value, a: Expr, op: Equality, b: Expr, op': Equality, c: Expr)
    requires !c.Equal?
    ensures JsEval(h, vals, Chain(a, op, b, op', c)) ==
            Test(h, op', Test(h, op, JsEval(h, vals, a), JsEval(h, vals, b)), JsEval(h, vals, c))
  {
    var rest := Equal(b, "", op', "", c);
    assert JsFold(h, vals, JsEval(h, vals, a), op, rest) ==
           JsFold(h, vals, Test(h, op, JsEval(h, vals, a), JsEval(h, vals, b)), op', c);
  }

  /** The chain `a op b op' c` in a template, and in JavaScript. */
  lemma ChainReadings(h: Host, vals: Value, a: Expr, op: Equality, b: Expr, op': Equality, c: Expr)
    requires WellFormed(a) && WellFormed(b) && WellFormed(c) && Unchained(a) && Unchained(b) && Unchained(c)
    requires !a.Equal? && !b.Equal? && !c.Equal?
    ensures ResolveTrimmed(h, vals, Print(Chain(a, op, b, op', c))) ==
            Test(h, op, Eval(h, vals, a), Test(h, op', Eval(h, vals, b), Eval(h, vals, c)))
    ensures JsEval(h, vals, Chain(a, op, b, op', c)) ==
            Test(h, op', Test(h, op, Eval(h, vals, a), Eval(h, vals, b)), Eval(h, vals, c))
  {
    ResolvePrinted(h, vals, Chain(a, op, b, op', c));
    UnchainedAgrees(h, vals, a);
    UnchainedAgrees(h, vals, b);
    UnchainedAgrees(h, vals, c);
    JsChain(h, vals, a, op, b, op', c);
  }

  /**
   When a template and JavaScript read a chain of three equalities alike: with neither outer
   operand like a boolean, when the operators have the same polarity; with one, or both, when the
   comparisons with the middle operand match it.
   */
  lemma TemplateAgreesWithJavaScript(h: Host, vals: Value, a: Expr, op: Equality, b: Expr, op': Equality, c: Expr)
    requires Booleans(h) && !a.Equal? && !b.Equal? && !c.Equal?
    requires WellFormed(a) && WellFormed(b) && WellFormed(c) && Unchained(a) && Unchained(b) && Unchained(c)
    ensures var chain := Chain(a, op, b, op', c);
            var x, y, z := Eval(h, vals, a), Eval(h, vals, b), Eval(h, vals, c);
            var left, right := Equals(h, op, x, y), Equals(h, op', y, z);
            var l, r := Like(h, op, x), Like(h, op', z);
            ResolveTrimmed(h, vals, Print(chain)) == JsEval(h, vals, chain) <==>
            if l == LikeNeither && r == LikeNeither then Negates(op) == Negates(op')
            else if r == LikeNeither then (l == LikeTrue) == (right == Negates(op))
            else if l == LikeNeither then (r == LikeTrue) == (left == Negates(op'))
            else (l == r) == (left == right)
  {
    var x, y, z := Eval(h, vals, a), Eval(h, vals, b), Eval(h, vals, c);
    ChainReadings(h, vals, a, op, b, op', c);
    AgainstBool(h, op, x, Equals(h, op', y, z) != Negates(op'));
    AgainstBool(h, op', z, Equals(h, op, x, y) != Negates(op));
  }

  /** For instance `null===null===true`, which is false in a template and true in JavaScript. */
  lemma ChainDiffersFromJavaScript(h: Host, vals: Value)
    requires forall x, y :: h.strictlyEqual(x, y) <==> x == y
    ensures var chain := Chain(NullWord, Strict, NullWord, Strict, BoolWord(true));
            && Print(chain) == "null===null===true"
            && ResolveTrimmed(h, vals, Print(chain)) == Bool(false)
            && JsEval(h, vals, chain) == Bool(true)
  {
    ChainReadings(h, vals, NullWord, Strict, NullWord, Strict, BoolWord(true));
    PrintedChain();
  }

  lemma PrintedChain()
    ensures Print(Chain(NullWord, Strict, NullWord, Strict, BoolWord(true))) == "null===null===true"
  {
    var rest := Equal(NullWord, "", Strict, "", BoolWord(true));
    PrintUnspaced(NullWord, Strict, BoolWord(true));
    PrintUnspaced(NullWord, Strict, rest);
    assert Print(rest) == "null===true";
  }
}

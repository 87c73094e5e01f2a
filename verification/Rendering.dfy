/**
 Mounting of components whose templates import one another, cyclically or not. Builders turn a
 template into elements; mounting an element under a chain of ancestors renders its component's
 template, or a leaf that reports a circular import when the chain already holds its name.
 `V` stands for the values a template is rendered against.
 */
module Rendering {

  datatype Node<!V> =
    | Leaf
    | Box(kids: seq<Node<V>>)
    | Each(items: V -> seq<V>, kids: seq<Node<V>>)  // a loop; a conditional has one item or none
    | Children                                      // where a template places what its importer passed
    | Import(name: string, props: V -> V, kids: seq<Node<V>>)

  datatype Element<V> =
    | Plain
    | Group(kids: seq<Element<V>>)
    | Component(name: string, props: V, children: seq<Element<V>>)

  datatype Entry<!V> = Entry(template: seq<Node<V>>, values: V -> V)

  /** Only names whose template has arrived. */
  type Registry<!V> = map<string, Entry<V>>

  datatype Output =
    | Text
    | Many(kids: seq<Output>)
    | Mounted(name: string, kids: seq<Output>)
    | Pending(name: string)
    | Circular(name: string, cycle: seq<string>)
    | Cut(name: string)

  // ----- Builders -----

  /** Children passed to an import are built by the importer, with its values and its own children. */
  function Build<V>(node: Node<V>, vals: V, children: seq<Element<V>>): Element<V>
    decreases node, 2
  {
    match node
    case Leaf => Plain
    case Box(kids) => Group(BuildAll(kids, vals, children))
    case Each(items, kids) => Group(BuildEach(items(vals), kids, children))
    case Children => Group(children)
    case Import(name, props, kids) => Component(name, props(vals), BuildAll(kids, vals, children))
  }

  function BuildAll<V>(nodes: seq<Node<V>>, vals: V, children: seq<Element<V>>): seq<Element<V>>
    decreases nodes, 0
  {
    if nodes == [] then [] else [Build(nodes[0], vals, children)] + BuildAll(nodes[1..], vals, children)
  }

  function BuildEach<V>(items: seq<V>, kids: seq<Node<V>>, children: seq<Element<V>>): seq<Element<V>>
    decreases kids, 1, items
  {
    if items == [] then [] else [Group(BuildAll(kids, items[0], children))] + BuildEach(items[1..], kids, children)
  }

  function Body<V>(entry: Entry<V>, props: V, children: seq<Element<V>>): seq<Element<V>> {
    BuildAll(entry.template, entry.values(props), children)
  }

  // ----- Mounting -----

  function Remaining<V>(reg: Registry<V>, chain: seq<string>): nat {
    |reg.Keys - set n | n in chain|
  }

  lemma RemainingShrinks<V>(reg: Registry<V>, chain: seq<string>, name: string)
    requires name in reg && name !in chain
    ensures Remaining(reg, chain + [name]) == Remaining(reg, chain) - 1
  {
    var before, after := set n | n in chain, set n | n in chain + [name];
    assert after == before + {name};
    assert reg.Keys - after == (reg.Keys - before) - {name};
  }

  function IndexOf(chain: seq<string>, name: string): (i: nat)
    requires name in chain
    ensures i < |chain| && chain[i] == name && name !in chain[..i]
  {
    if chain[0] == name then 0 else
      var i := 1 + IndexOf(chain[1..], name);
      assert chain[..i] == [chain[0]] + chain[1..][..i - 1];
      i
  }

  /** Total for every registry, cyclic ones included. */
  function Mount<V>(reg: Registry<V>, e: Element<V>, chain: seq<string>): Output
    decreases Remaining(reg, chain), e
  {
    match e
    case Plain => Text
    case Group(kids) => Many(MountAll(reg, kids, chain))
    case Component(name, props, children) =>
      if name in chain then Circular(name, chain[IndexOf(chain, name)..] + [name])
      else if name !in reg then Pending(name)
      else
        RemainingShrinks(reg, chain, name);
        Mounted(name, MountAll(reg, Body(reg[name], props, children), chain + [name]))
  }

  function MountAll<V>(reg: Registry<V>, es: seq<Element<V>>, chain: seq<string>): (r: seq<Output>)
    decreases Remaining(reg, chain), es
  {
    if es == [] then [] else [Mount(reg, es[0], chain)] + MountAll(reg, es[1..], chain)
  }

  predicate HasCircular(out: Output) {
    match out
    case Circular(_, _) => true
    case Many(kids) => AnyCircular(kids)
    case Mounted(_, kids) => AnyCircular(kids)
    case _ => false
  }

  predicate AnyCircular(outs: seq<Output>) {
    outs != [] && (HasCircular(outs[0]) || AnyCircular(outs[1..]))
  }

  // ----- What is built and mounted, place by place -----

  lemma {:induction false} BuildAllAt<V>(nodes: seq<Node<V>>, vals: V, children: seq<Element<V>>)
    ensures |BuildAll(nodes, vals, children)| == |nodes|
    ensures forall k :: 0 <= k < |nodes| ==> BuildAll(nodes, vals, children)[k] == Build(nodes[k], vals, children)
  {
    if nodes != [] { BuildAllAt(nodes[1..], vals, children); }
  }

  lemma {:induction false} BuildEachAt<V>(items: seq<V>, kids: seq<Node<V>>, children: seq<Element<V>>)
    ensures |BuildEach(items, kids, children)| == |items|
    ensures forall k :: 0 <= k < |items| ==> BuildEach(items, kids, children)[k] == Group(BuildAll(kids, items[k], children))
  {
    if items != [] { BuildEachAt(items[1..], kids, children); }
  }

  /** The elements are what the nodes build, one for one, against these values and children. */
  ghost predicate BuiltFrom<V>(es: seq<Element<V>>, nodes: seq<Node<V>>, vals: V, children: seq<Element<V>>) {
    |es| == |nodes| && forall k :: 0 <= k < |nodes| ==> es[k] == Build(nodes[k], vals, children)
  }

  /** A loop builds its kids once for every item, in order, against that item. */
  lemma LoopBuildsEveryItem<V>(items: V -> seq<V>, kids: seq<Node<V>>, vals: V, children: seq<Element<V>>)
    ensures var e := Build(Each(items, kids), vals, children);
            && e.Group?
            && |e.kids| == |items(vals)|
            && forall k :: 0 <= k < |items(vals)| ==>
                 e.kids[k].Group? && BuiltFrom(e.kids[k].kids, kids, items(vals)[k], children)
  {
    BuildEachAt(items(vals), kids, children);
    forall k | 0 <= k < |items(vals)| ensures BuiltFrom(BuildAll(kids, items(vals)[k], children), kids, items(vals)[k], children) {
      BuildAllAt(kids, items(vals)[k], children);
    }
  }

  /** Every other node: an element keeps its kids, an import its name, values and children, a hole gets what was passed. */
  lemma NodesAreBuilt<V>(node: Node<V>, vals: V, children: seq<Element<V>>)
    ensures var e := Build(node, vals, children);
            match node
            case Leaf => e == Plain
            case Box(kids) => e.Group? && BuiltFrom(e.kids, kids, vals, children)
            case Each(_, _) => e.Group?
            case Children => e == Group(children)
            case Import(name, props, kids) =>
              e.Component? && e.name == name && e.props == props(vals) && BuiltFrom(e.children, kids, vals, children)
  {
    match node
    case Box(kids) => BuildAllAt(kids, vals, children);
    case Import(_, _, kids) => BuildAllAt(kids, vals, children);
    case _ =>
  }

  lemma {:induction false} MountAllAt<V>(reg: Registry<V>, es: seq<Element<V>>, chain: seq<string>)
    ensures |MountAll(reg, es, chain)| == |es|
    ensures forall k :: 0 <= k < |es| ==> MountAll(reg, es, chain)[k] == Mount(reg, es[k], chain)
    decreases |es|
  {
    if es != [] { MountAllAt(reg, es[1..], chain); }
  }

  /** A mounted component shows every node of its template, in order, against the values its logic gives. */
  lemma MountedShowsTemplate<V>(reg: Registry<V>, name: string, props: V, children: seq<Element<V>>, chain: seq<string>)
    requires name in reg && name !in chain
    ensures var out := Mount(reg, Component(name, props, children), chain);
            var template := reg[name].template;
            && out.Mounted? && out.name == name
            && |out.kids| == |template|
            && forall k :: 0 <= k < |template| ==>
                 out.kids[k] == Mount(reg, Build(template[k], reg[name].values(props), children), chain + [name])
  {
    RemainingShrinks(reg, chain, name);
    BuildAllAt(reg[name].template, reg[name].values(props), children);
    MountAllAt(reg, Body(reg[name], props, children), chain + [name]);
  }

  /** A name without a template waits; a name on the chain is reported. */
  lemma OthersAreNotMounted<V>(reg: Registry<V>, name: string, props: V, children: seq<Element<V>>, chain: seq<string>)
    ensures name in chain ==> Mount(reg, Component(name, props, children), chain).Circular?
    ensures name !in chain && name !in reg ==> Mount(reg, Component(name, props, children), chain) == Pending(name)
  {
  }

  // ----- What the chain guarantees -----

  /** Mounted names are new on their path; a circular leaf names an ancestor and the way back to it. */
  predicate WellNested(out: Output, chain: seq<string>) {
    match out
    case Many(kids) => AllWellNested(kids, chain)
    case Mounted(name, kids) => name !in chain && AllWellNested(kids, chain + [name])
    case Circular(name, cycle) =>
      exists i :: 0 <= i < |chain| && chain[i] == name && cycle == chain[i..] + [name]
    case Cut(_) => false
    case _ => true
  }

  predicate AllWellNested(outs: seq<Output>, chain: seq<string>) {
    outs != [] ==> WellNested(outs[0], chain) && AllWellNested(outs[1..], chain)
  }

  function Nesting(out: Output): nat {
    match out
    case Many(kids) => AllNesting(kids)
    case Mounted(_, kids) => 1 + AllNesting(kids)
    case _ => 0
  }

  function AllNesting(outs: seq<Output>): nat {
    if outs == [] then 0
    else
      var first, rest := Nesting(outs[0]), AllNesting(outs[1..]);
      if first > rest then first else rest
  }

  /** Components nest no deeper than there are templates, and never inside themselves. */
  lemma {:induction false} MountIsWellNested<V>(reg: Registry<V>, e: Element<V>, chain: seq<string>)
    ensures WellNested(Mount(reg, e, chain), chain)
    ensures Nesting(Mount(reg, e, chain)) <= Remaining(reg, chain)
    decreases Remaining(reg, chain), e
  {
    match e
    case Plain =>
    case Group(kids) => MountAllIsWellNested(reg, kids, chain);
    case Component(name, props, children) =>
      if name !in chain && name in reg {
        RemainingShrinks(reg, chain, name);
        MountAllIsWellNested(reg, Body(reg[name], props, children), chain + [name]);
      }
  }

  lemma {:induction false} MountAllIsWellNested<V>(reg: Registry<V>, es: seq<Element<V>>, chain: seq<string>)
    ensures AllWellNested(MountAll(reg, es, chain), chain)
    ensures AllNesting(MountAll(reg, es, chain)) <= Remaining(reg, chain)
    decreases Remaining(reg, chain), es
  {
    if es != [] {
      MountIsWellNested(reg, es[0], chain);
      MountAllIsWellNested(reg, es[1..], chain);
    }
  }

  // ----- Rendering without the check -----

  /** Mounts without looking at the ancestors, `depth` components deep. */
  function Unchecked<V>(reg: Registry<V>, e: Element<V>, depth: nat): Output
    decreases depth, e
  {
    match e
    case Plain => Text
    case Group(kids) => Many(UncheckedAll(reg, kids, depth))
    case Component(name, props, children) =>
      if name !in reg then Pending(name)
      else if depth == 0 then Cut(name)
      else Mounted(name, UncheckedAll(reg, Body(reg[name], props, children), depth - 1))
  }

  function UncheckedAll<V>(reg: Registry<V>, es: seq<Element<V>>, depth: nat): seq<Output>
    decreases depth, es
  {
    if es == [] then [] else [Unchecked(reg, es[0], depth)] + UncheckedAll(reg, es[1..], depth)
  }

  /** Some path mounts a name that is already on it. */
  predicate Repeats(out: Output, chain: seq<string>) {
    match out
    case Many(kids) => AnyRepeats(kids, chain)
    case Mounted(name, kids) => name in chain || AnyRepeats(kids, chain + [name])
    case _ => false
  }

  predicate AnyRepeats(outs: seq<Output>, chain: seq<string>) {
    outs != [] && (Repeats(outs[0], chain) || AnyRepeats(outs[1..], chain))
  }

  predicate Registered<V>(reg: Registry<V>, chain: seq<string>) {
    forall n :: n in chain ==> n in reg
  }

  ghost predicate AgreeOn(checked: Output, unchecked: Output, chain: seq<string>) {
    && (HasCircular(checked) <==> Repeats(unchecked, chain))
    && (!HasCircular(checked) ==> checked == unchecked)
  }

  /**
   A circular leaf appears exactly when, without the check, some path would mount a name twice.
   When none does, the check changes nothing.
   */
  lemma {:induction false} CircularIffRepeats<V>(reg: Registry<V>, e: Element<V>, chain: seq<string>, depth: nat)
    requires Registered(reg, chain) && depth > Remaining(reg, chain)
    ensures HasCircular(Mount(reg, e, chain)) <==> Repeats(Unchecked(reg, e, depth), chain)
    ensures !HasCircular(Mount(reg, e, chain)) ==> Mount(reg, e, chain) == Unchecked(reg, e, depth)
    decreases Remaining(reg, chain), e, 1
  {
    if e.Group? {
      AnyCircularIffRepeats(reg, e.kids, chain, depth);
    } else if e.Component? && e.name in reg {
      if e.name in chain {
        AncestorAgrees(reg, e, chain, depth);
      } else {
        MountedAgrees(reg, e, chain, depth);
      }
    }
  }

  lemma AncestorAgrees<V>(reg: Registry<V>, e: Element<V>, chain: seq<string>, depth: nat)
    requires e.Component? && e.name in reg && e.name in chain && depth > 0
    ensures AgreeOn(Mount(reg, e, chain), Unchecked(reg, e, depth), chain)
  {
  }

  lemma {:induction false} MountedAgrees<V>(reg: Registry<V>, e: Element<V>, chain: seq<string>, depth: nat)
    requires Registered(reg, chain) && depth > Remaining(reg, chain)
    requires e.Component? && e.name in reg && e.name !in chain
    ensures AgreeOn(Mount(reg, e, chain), Unchecked(reg, e, depth), chain)
    decreases Remaining(reg, chain), e, 0
  {
    var body := Body(reg[e.name], e.props, e.children);
    RemainingShrinks(reg, chain, e.name);
    AnyCircularIffRepeats(reg, body, chain + [e.name], depth - 1);
  }

  lemma {:induction false} AnyCircularIffRepeats<V>(reg: Registry<V>, es: seq<Element<V>>, chain: seq<string>, depth: nat)
    requires Registered(reg, chain) && depth > Remaining(reg, chain)
    ensures AnyCircular(MountAll(reg, es, chain)) <==> AnyRepeats(UncheckedAll(reg, es, depth), chain)
    ensures !AnyCircular(MountAll(reg, es, chain)) ==> MountAll(reg, es, chain) == UncheckedAll(reg, es, depth)
    decreases Remaining(reg, chain), es, 1
  {
    if es != [] {
      CircularIffRepeats(reg, es[0], chain, depth);
      AnyCircularIffRepeats(reg, es[1..], chain, depth);
    }
  }

  // ----- Ranked templates -----

  /**
   Names by rank: what a template mounts lies below it. `room` bounds the children that importers
   pass to a name, wherever its template places them.
   */
  datatype Ranking = Ranking(rank: map<string, nat>, room: map<string, nat>)

  /** `own` is the room of the template the nodes belong to. */
  predicate Below<V>(reg: Registry<V>, r: Ranking, nodes: seq<Node<V>>, limit: nat, own: nat)
    requires r.rank.Keys == r.room.Keys == reg.Keys
    decreases nodes
  {
    nodes != [] ==> NodeBelow(reg, r, nodes[0], limit, own) && Below(reg, r, nodes[1..], limit, own)
  }

  predicate NodeBelow<V>(reg: Registry<V>, r: Ranking, node: Node<V>, limit: nat, own: nat)
    requires r.rank.Keys == r.room.Keys == reg.Keys
    decreases node
  {
    match node
    case Leaf => true
    case Box(kids) => Below(reg, r, kids, limit, own)
    case Each(_, kids) => Below(reg, r, kids, limit, own)
    case Children => own <= limit
    case Import(name, _, kids) =>
      name in reg ==> r.rank[name] < limit && Below(reg, r, kids, r.room[name], own)
  }

  /** Imports go down in rank, and children passed to an import stay below its room. */
  predicate Ranked<V>(reg: Registry<V>, r: Ranking) {
    && r.rank.Keys == r.room.Keys == reg.Keys
    && forall n :: n in reg ==> Below(reg, r, reg[n].template, r.rank[n], r.room[n])
  }

  predicate ElementBelow<V>(reg: Registry<V>, r: Ranking, e: Element<V>, limit: nat)
    requires r.rank.Keys == r.room.Keys == reg.Keys
    decreases e
  {
    match e
    case Plain => true
    case Group(kids) => ElementsBelow(reg, r, kids, limit)
    case Component(name, _, children) =>
      name in reg ==> r.rank[name] < limit && ElementsBelow(reg, r, children, r.room[name])
  }

  predicate ElementsBelow<V>(reg: Registry<V>, r: Ranking, es: seq<Element<V>>, limit: nat)
    requires r.rank.Keys == r.room.Keys == reg.Keys
    decreases es
  {
    es != [] ==> ElementBelow(reg, r, es[0], limit) && ElementsBelow(reg, r, es[1..], limit)
  }

  lemma {:induction false} BelowMore<V>(reg: Registry<V>, r: Ranking, e: Element<V>, limit: nat, more: nat)
    requires r.rank.Keys == r.room.Keys == reg.Keys && ElementBelow(reg, r, e, limit) && limit <= more
    ensures ElementBelow(reg, r, e, more)
    decreases e
  {
    if e.Group? { AllBelowMore(reg, r, e.kids, limit, more); }
  }

  lemma {:induction false} AllBelowMore<V>(reg: Registry<V>, r: Ranking, es: seq<Element<V>>, limit: nat, more: nat)
    requires r.rank.Keys == r.room.Keys == reg.Keys && ElementsBelow(reg, r, es, limit) && limit <= more
    ensures ElementsBelow(reg, r, es, more)
    decreases es
  {
    if es != [] {
      BelowMore(reg, r, es[0], limit, more);
      AllBelowMore(reg, r, es[1..], limit, more);
    }
  }

  /** What a template builds is as low as the template, when the children it gets have room. */
  lemma {:induction false} BuildStaysBelow<V>(
    reg: Registry<V>, r: Ranking, node: Node<V>, vals: V, children: seq<Element<V>>, limit: nat, own: nat)
    requires r.rank.Keys == r.room.Keys == reg.Keys
    requires NodeBelow(reg, r, node, limit, own) && ElementsBelow(reg, r, children, own)
    ensures ElementBelow(reg, r, Build(node, vals, children), limit)
    decreases node, 2
  {
    match node
    case Leaf =>
    case Box(kids) => BuildAllStaysBelow(reg, r, kids, vals, children, limit, own);
    case Each(items, kids) => BuildEachStaysBelow(reg, r, items(vals), kids, children, limit, own);
    case Children => AllBelowMore(reg, r, children, own, limit);
    case Import(name, _, kids) =>
      if name in reg { BuildAllStaysBelow(reg, r, kids, vals, children, r.room[name], own); }
  }

  lemma {:induction false} BuildAllStaysBelow<V>(
    reg: Registry<V>, r: Ranking, nodes: seq<Node<V>>, vals: V, children: seq<Element<V>>, limit: nat, own: nat)
    requires r.rank.Keys == r.room.Keys == reg.Keys
    requires Below(reg, r, nodes, limit, own) && ElementsBelow(reg, r, children, own)
    ensures ElementsBelow(reg, r, BuildAll(nodes, vals, children), limit)
    decreases nodes, 0
  {
    if nodes != [] {
      BuildStaysBelow(reg, r, nodes[0], vals, children, limit, own);
      BuildAllStaysBelow(reg, r, nodes[1..], vals, children, limit, own);
    }
  }

  lemma {:induction false} BuildEachStaysBelow<V>(
    reg: Registry<V>, r: Ranking, items: seq<V>, kids: seq<Node<V>>, children: seq<Element<V>>, limit: nat, own: nat)
    requires r.rank.Keys == r.room.Keys == reg.Keys
    requires Below(reg, r, kids, limit, own) && ElementsBelow(reg, r, children, own)
    ensures ElementsBelow(reg, r, BuildEach(items, kids, children), limit)
    decreases kids, 1, items
  {
    if items != [] {
      BuildAllStaysBelow(reg, r, kids, items[0], children, limit, own);
      BuildEachStaysBelow(reg, r, items[1..], kids, children, limit, own);
    }
  }

  predicate ChainAtLeast(chain: seq<string>, rank: map<string, nat>, limit: nat) {
    forall n :: n in chain ==> n in rank && rank[n] >= limit
  }

  /** Ranked templates never get a circular leaf, whatever children they pass and place. */
  lemma {:induction false} RankedNeverCircular<V>(reg: Registry<V>, r: Ranking, e: Element<V>, chain: seq<string>, limit: nat)
    requires Ranked(reg, r) && ElementBelow(reg, r, e, limit) && ChainAtLeast(chain, r.rank, limit)
    ensures !HasCircular(Mount(reg, e, chain))
    decreases Remaining(reg, chain), e
  {
    match e
    case Plain =>
    case Group(kids) => RankedNoneCircular(reg, r, kids, chain, limit);
    case Component(name, props, children) =>
      if name in reg {
        assert name !in chain;
        RemainingShrinks(reg, chain, name);
        BuildAllStaysBelow(reg, r, reg[name].template, reg[name].values(props), children, r.rank[name], r.room[name]);
        RankedNoneCircular(reg, r, Body(reg[name], props, children), chain + [name], r.rank[name]);
      }
  }

  lemma {:induction false} RankedNoneCircular<V>(reg: Registry<V>, r: Ranking, es: seq<Element<V>>, chain: seq<string>, limit: nat)
    requires Ranked(reg, r) && ElementsBelow(reg, r, es, limit) && ChainAtLeast(chain, r.rank, limit)
    ensures !AnyCircular(MountAll(reg, es, chain))
    decreases Remaining(reg, chain), es
  {
    if es != [] {
      RankedNeverCircular(reg, r, es[0], chain, limit);
      RankedNoneCircular(reg, r, es[1..], chain, limit);
    }
  }

  /** A page of a ranked registry, by name. */
  lemma RankedPageNeverCircular<V>(reg: Registry<V>, r: Ranking, name: string, props: V)
    requires Ranked(reg, r)
    ensures !HasCircular(Mount(reg, Component(name, props, []), []))
  {
    var limit := if name in reg then r.rank[name] + 1 else 0;
    RankedNeverCircular(reg, r, Component(name, props, []), [], limit);
  }

  // ----- Imports alone -----

  /** Every import in the template goes down in rank, wherever it stands. */
  predicate ImportsBelow<V>(nodes: seq<Node<V>>, rank: map<string, nat>, limit: nat)
    decreases nodes
  {
    nodes != [] ==> NodeImportsBelow(nodes[0], rank, limit) && ImportsBelow(nodes[1..], rank, limit)
  }

  predicate NodeImportsBelow<V>(node: Node<V>, rank: map<string, nat>, limit: nat)
    decreases node
  {
    match node
    case Box(kids) => ImportsBelow(kids, rank, limit)
    case Each(_, kids) => ImportsBelow(kids, rank, limit)
    case Import(name, _, kids) => (name in rank ==> rank[name] < limit) && ImportsBelow(kids, rank, limit)
    case _ => true
  }

  /** The graph "template of n imports m" has no cycle. */
  predicate Acyclic<V>(reg: Registry<V>, rank: map<string, nat>) {
    rank.Keys == reg.Keys && forall n :: n in reg ==> ImportsBelow(reg[n].template, rank, rank[n])
  }

  /** No import passes children. */
  predicate Childless<V>(nodes: seq<Node<V>>)
    decreases nodes
  {
    nodes != [] ==> NodeChildless(nodes[0]) && Childless(nodes[1..])
  }

  predicate NodeChildless<V>(node: Node<V>)
    decreases node
  {
    match node
    case Box(kids) => Childless(kids)
    case Each(_, kids) => Childless(kids)
    case Import(_, _, kids) => kids == []
    case _ => true
  }

  /** Without children, acyclic imports are a ranking. */
  lemma AcyclicIsRanked<V>(reg: Registry<V>, rank: map<string, nat>)
    requires Acyclic(reg, rank) && forall n :: n in reg ==> Childless(reg[n].template)
    ensures Ranked(reg, Ranking(rank, map n | n in reg :: 0))
  {
    var r := Ranking(rank, map n | n in reg :: 0);
    forall n | n in reg ensures Below(reg, r, reg[n].template, rank[n], 0) {
      ChildlessBelow(reg, r, reg[n].template, rank[n]);
    }
  }

  lemma {:induction false} ChildlessBelow<V>(reg: Registry<V>, r: Ranking, nodes: seq<Node<V>>, limit: nat)
    requires r.rank.Keys == r.room.Keys == reg.Keys
    requires ImportsBelow(nodes, r.rank, limit) && Childless(nodes)
    ensures Below(reg, r, nodes, limit, 0)
    decreases nodes
  {
    if nodes != [] {
      ChildlessNodeBelow(reg, r, nodes[0], limit);
      ChildlessBelow(reg, r, nodes[1..], limit);
    }
  }

  lemma {:induction false} ChildlessNodeBelow<V>(reg: Registry<V>, r: Ranking, node: Node<V>, limit: nat)
    requires r.rank.Keys == r.room.Keys == reg.Keys
    requires NodeImportsBelow(node, r.rank, limit) && NodeChildless(node)
    ensures NodeBelow(reg, r, node, limit, 0)
    decreases node
  {
    match node
    case Box(kids) => ChildlessBelow(reg, r, kids, limit);
    case Each(_, kids) => ChildlessBelow(reg, r, kids, limit);
    case _ =>
  }

  // ----- A page that is refused although nothing imports itself -----

  function AsGiven(v: bool): bool {
    v
  }

  function Panel(): Entry<bool> {
    Entry([Children], AsGiven)
  }

  /** `<Panel><Panel/></Panel>` */
  function Page(): Entry<bool> {
    Entry([Import("Panel", AsGiven, [EmptyPanel()])], AsGiven)
  }

  function EmptyPanel(): Node<bool> {
    Import("Panel", AsGiven, [])
  }

  function Site(): Registry<bool> {
    map["Page" := Page(), "Panel" := Panel()]
  }

  lemma PageElements(v: bool)
    ensures Body(Panel(), v, []) == [Group([])]
    ensures Body(Panel(), v, [Component("Panel", v, [])]) == [Group([Component("Panel", v, [])])]
    ensures Body(Page(), v, []) == [Component("Panel", v, [Component("Panel", v, [])])]
  {
    assert BuildAll([EmptyPanel()], v, []) == [Component("Panel", v, [])];
  }

  lemma MountOne(e: Element<bool>, chain: seq<string>)
    ensures MountAll(Site(), [e], chain) == [Mount(Site(), e, chain)]
  {
  }

  lemma UncheckedOne(e: Element<bool>, depth: nat)
    ensures UncheckedAll(Site(), [e], depth) == [Unchecked(Site(), e, depth)]
  {
  }

  lemma UncheckedPage(v: bool)
    ensures Unchecked(Site(), Component("Page", v, []), 3) ==
            Mounted("Page", [Mounted("Panel", [Many([Mounted("Panel", [Many([])])])])])
  {
    var inner: Element<bool> := Component("Panel", v, []);
    var outer: Element<bool> := Component("Panel", v, [inner]);
    PageElements(v);
    UncheckedOne(Group([]), 0);
    assert UncheckedAll(Site(), [], 0) == [];
    assert Unchecked(Site(), inner, 1) == Mounted("Panel", [Many([])]);
    UncheckedOne(inner, 1);
    UncheckedOne(Group([inner]), 1);
    UncheckedOne(outer, 2);
  }

  lemma SiteIsAcyclic()
    ensures Acyclic(Site(), map["Page" := 1, "Panel" := 0])
  {
    var rank := map["Page" := 1, "Panel" := 0];
    assert NodeImportsBelow(EmptyPanel(), rank, 1);
    assert ImportsBelow([EmptyPanel()], rank, 1);
    assert NodeImportsBelow(Page().template[0], rank, 1);
  }

  lemma MountedPage(v: bool)
    ensures HasCircular(Mount(Site(), Component("Page", v, []), []))
  {
    var inner: Element<bool> := Component("Panel", v, []);
    var outer: Element<bool> := Component("Panel", v, [inner]);
    PageElements(v);
    assert HasCircular(Mount(Site(), inner, ["Page", "Panel"]));
    MountOne(inner, ["Page", "Panel"]);
    assert HasCircular(Mount(Site(), Group([inner]), ["Page", "Panel"]));
    MountOne(Group([inner]), ["Page", "Panel"]);
    assert ["Page"] + ["Panel"] == ["Page", "Panel"];
    assert HasCircular(Mount(Site(), outer, ["Page"]));
    MountOne(outer, ["Page"]);
    assert [] + ["Page"] == ["Page"];
  }

  /**
   With children, the mount chain is not the import graph: a panel placed inside a panel is
   reported as circular although the imports are acyclic and the page, unchecked, is finite.
   */
  lemma NestedPanelsAreRefused(v: bool)
    ensures Acyclic(Site(), map["Page" := 1, "Panel" := 0])
    ensures HasCircular(Mount(Site(), Component("Page", v, []), []))
    ensures Unchecked(Site(), Component("Page", v, []), 3) ==
            Mounted("Page", [Mounted("Panel", [Many([Mounted("Panel", [Many([])])])])])
  {
    SiteIsAcyclic();
    MountedPage(v);
    UncheckedPage(v);
  }

  lemma PanelPlacesChildren(r: Ranking)
    requires Ranked(Site(), r)
    ensures r.room["Panel"] <= r.rank["Panel"]
  {
    assert Below(Site(), r, Site()["Panel"].template, r.rank["Panel"], r.room["Panel"]);
    assert NodeBelow(Site(), r, Panel().template[0], r.rank["Panel"], r.room["Panel"]);
  }

  lemma PagePassesPanel(r: Ranking)
    requires Ranked(Site(), r)
    ensures r.rank["Panel"] < r.room["Panel"]
  {
    assert Below(Site(), r, Site()["Page"].template, r.rank["Page"], r.room["Page"]);
    assert NodeBelow(Site(), r, Page().template[0], r.rank["Page"], r.room["Page"]);
    assert Below(Site(), r, [EmptyPanel()], r.room["Panel"], r.room["Page"]);
    assert NodeBelow(Site(), r, EmptyPanel(), r.room["Panel"], r.room["Page"]);
  }

  /** No ranking allows a panel inside a panel: it would have to be below itself. */
  lemma NestedPanelsHaveNoRanking(r: Ranking)
    ensures !Ranked(Site(), r)
  {
    if Ranked(Site(), r) {
      PanelPlacesChildren(r);
      PagePassesPanel(r);
    }
  }
}

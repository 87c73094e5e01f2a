/** The merge of an inventory of actions: one entry for each key, in the order keys first occur. */
module InventoryMerge {
  import SemanticKeys

  // ----- Merging -----

  datatype Surface = Surface(scout: string, source: string, authority: string)

  datatype Action = Action(domain: string, id: string, caption: string, flags: set<string>, surface: Surface)

  datatype Entry = Entry(caption: string, domain: string, ids: seq<string>, flags: set<string>, surfaces: seq<Surface>)

  /** How actions are keyed, and the table that renames domains. */
  datatype Keying = Keying(key: Action -> string, domain: string -> string)

  /** The actions that share a key, in order. */
  function Group(keying: Keying, actions: seq<Action>, key: string): seq<Action> {
    if actions == [] then []
    else
      var last := actions[|actions| - 1];
      Group(keying, actions[..|actions| - 1], key) + (if keying.key(last) == key then [last] else [])
  }

  /** The keys in the order of their first occurrence. */
  function FirstKeys(keying: Keying, actions: seq<Action>): seq<string> {
    if actions == [] then []
    else
      var before, key := FirstKeys(keying, actions[..|actions| - 1]), keying.key(actions[|actions| - 1]);
      if key in before then before else before + [key]
  }

  function Ids(group: seq<Action>): seq<string> {
    seq(|group|, i requires 0 <= i < |group| => group[i].id)
  }

  function Surfaces(group: seq<Action>): seq<Surface> {
    seq(|group|, i requires 0 <= i < |group| => group[i].surface)
  }

  function Flags(group: seq<Action>): set<string> {
    set i, f | 0 <= i < |group| && f in group[i].flags :: f
  }

  /** The entry is the group: its first caption, every id and surface in order, all flags. */
  predicate Collects(keying: Keying, entry: Entry, group: seq<Action>) {
    && group != []
    && entry.caption == group[0].caption
    && entry.domain == keying.domain(group[0].domain)
    && entry.ids == Ids(group)
    && entry.surfaces == Surfaces(group)
    && entry.flags == Flags(group)
  }

  ghost predicate Merges(keying: Keying, merged: map<string, Entry>, order: seq<string>, actions: seq<Action>) {
    && order == FirstKeys(keying, actions)
    && (forall k :: k in merged <==> k in order)
    && (forall k :: k in merged ==> Collects(keying, merged[k], Group(keying, actions, k)))
  }

  lemma GroupNext(keying: Keying, actions: seq<Action>, n: nat, key: string)
    requires n < |actions|
    ensures Group(keying, actions[..n + 1], key) ==
            Group(keying, actions[..n], key) + (if keying.key(actions[n]) == key then [actions[n]] else [])
  {
    assert actions[..n + 1][..n] == actions[..n];
  }

  lemma FirstKeysNext(keying: Keying, actions: seq<Action>, n: nat)
    requires n < |actions|
    ensures FirstKeys(keying, actions[..n + 1]) ==
            var before := FirstKeys(keying, actions[..n]);
            if keying.key(actions[n]) in before then before else before + [keying.key(actions[n])]
  {
    assert actions[..n + 1][..n] == actions[..n];
  }

  lemma {:induction false} GroupIsEmpty(keying: Keying, actions: seq<Action>, key: string)
    requires key !in FirstKeys(keying, actions)
    ensures Group(keying, actions, key) == []
  {
    if actions != [] { GroupIsEmpty(keying, actions[..|actions| - 1], key); }
  }

  function Opened(keying: Keying, a: Action): Entry {
    Entry(a.caption, keying.domain(a.domain), [a.id], a.flags, [a.surface])
  }

  function Extended(entry: Entry, a: Action): Entry {
    entry.(ids := entry.ids + [a.id], flags := entry.flags + a.flags, surfaces := entry.surfaces + [a.surface])
  }

  lemma CollectsNext(keying: Keying, entry: Entry, group: seq<Action>, a: Action)
    requires Collects(keying, entry, group)
    ensures Collects(keying, Extended(entry, a), group + [a])
  {
    assert Flags(group + [a]) == Flags(group) + a.flags by {
      forall f | f in Flags(group) ensures f in Flags(group + [a]) {
        var i :| 0 <= i < |group| && f in group[i].flags;
        assert (group + [a])[i] == group[i];
      }
      forall f | f in a.flags ensures f in Flags(group + [a]) {
        assert (group + [a])[|group|] == a;
      }
    }
  }

  lemma CollectsOpened(keying: Keying, actions: seq<Action>, n: nat)
    requires n < |actions| && keying.key(actions[n]) !in FirstKeys(keying, actions[..n])
    ensures Collects(keying, Opened(keying, actions[n]), Group(keying, actions[..n + 1], keying.key(actions[n])))
  {
    GroupNext(keying, actions, n, keying.key(actions[n]));
    GroupIsEmpty(keying, actions[..n], keying.key(actions[n]));
    assert [] + [actions[n]] == [actions[n]];
  }

  lemma CollectsAfter(keying: Keying, entry: Entry, actions: seq<Action>, n: nat, key: string)
    requires n < |actions| && Collects(keying, entry, Group(keying, actions[..n], key))
    ensures Collects(keying, if key == keying.key(actions[n]) then Extended(entry, actions[n]) else entry, Group(keying, actions[..n + 1], key))
  {
    GroupNext(keying, actions, n, key);
    var group := Group(keying, actions[..n], key);
    CollectsNext(keying, entry, group, actions[n]);
    assert group + [] == group;
  }

  lemma MergesNew(keying: Keying, merged: map<string, Entry>, order: seq<string>, actions: seq<Action>, n: nat)
    requires n < |actions| && Merges(keying, merged, order, actions[..n]) && keying.key(actions[n]) !in merged
    ensures var key := keying.key(actions[n]);
            Merges(keying, merged[key := Opened(keying, actions[n])], order + [key], actions[..n + 1])
  {
    FirstKeysNext(keying, actions, n);
    CollectsOpened(keying, actions, n);
    forall k | k in merged ensures Collects(keying, merged[k], Group(keying, actions[..n + 1], k)) {
      CollectsAfter(keying, merged[k], actions, n, k);
    }
  }

  lemma MergesOld(keying: Keying, merged: map<string, Entry>, order: seq<string>, actions: seq<Action>, n: nat)
    requires n < |actions| && Merges(keying, merged, order, actions[..n]) && keying.key(actions[n]) in merged
    ensures var key := keying.key(actions[n]);
            Merges(keying, merged[key := Extended(merged[key], actions[n])], order, actions[..n + 1])
  {
    FirstKeysNext(keying, actions, n);
    forall k | k in merged
      ensures Collects(keying, if k == keying.key(actions[n]) then Extended(merged[k], actions[n]) else merged[k], Group(keying, actions[..n + 1], k))
    {
      CollectsAfter(keying, merged[k], actions, n, k);
    }
  }

  method Merge(keying: Keying, actions: seq<Action>) returns (merged: map<string, Entry>, order: seq<string>)
    ensures Merges(keying, merged, order, actions)
  {
    merged, order := map[], [];
    for n := 0 to |actions|
      invariant Merges(keying, merged, order, actions[..n])
    {
      var a := actions[n];
      var key := keying.key(a);
      if key !in merged {
        MergesNew(keying, merged, order, actions, n);
        merged := merged[key := Opened(keying, a)];
        order := order + [key];
      } else {
        MergesOld(keying, merged, order, actions, n);
        merged := merged[key := Extended(merged[key], a)];
      }
    }
    assert actions[..|actions|] == actions;
  }

  // ----- What merging keeps -----

  function CountIds(merged: map<string, Entry>, order: seq<string>): nat
    requires forall i :: 0 <= i < |order| ==> order[i] in merged
  {
    if order == [] then 0 else |merged[order[0]].ids| + CountIds(merged, order[1..])
  }

  function CountGroups(keying: Keying, actions: seq<Action>, keys: seq<string>): nat {
    if keys == [] then 0 else |Group(keying, actions, keys[0])| + CountGroups(keying, actions, keys[1..])
  }

  predicate NoRepeats(keys: seq<string>) {
    forall i, j :: 0 <= i < j < |keys| ==> keys[i] != keys[j]
  }

  lemma {:induction false} FirstKeysAreDistinct(keying: Keying, actions: seq<Action>)
    ensures NoRepeats(FirstKeys(keying, actions))
  {
    if actions != [] { FirstKeysAreDistinct(keying, actions[..|actions| - 1]); }
  }

  lemma {:induction false} KeyIsListed(keying: Keying, actions: seq<Action>, i: nat)
    requires i < |actions|
    ensures keying.key(actions[i]) in FirstKeys(keying, actions)
  {
    var n := |actions| - 1;
    if i < n {
      KeyIsListed(keying, actions[..n], i);
    }
  }

  lemma AllKeysListed(keying: Keying, actions: seq<Action>)
    ensures forall i :: 0 <= i < |actions| ==> keying.key(actions[i]) in FirstKeys(keying, actions)
  {
    forall i: nat | i < |actions| ensures keying.key(actions[i]) in FirstKeys(keying, actions) { KeyIsListed(keying, actions, i); }
  }

  /** One more action adds one to the group of its key and nothing to the others. */
  lemma {:induction false} CountNext(keying: Keying, actions: seq<Action>, a: Action, keys: seq<string>)
    requires NoRepeats(keys)
    ensures CountGroups(keying, actions + [a], keys) == CountGroups(keying, actions, keys) + if keying.key(a) in keys then 1 else 0
  {
    if keys != [] {
      GroupNext(keying, actions + [a], |actions|, keys[0]);
      assert (actions + [a])[..|actions|] == actions && (actions + [a])[..|actions| + 1] == actions + [a];
      CountNext(keying, actions, a, keys[1..]);
      assert forall j :: 0 < j < |keys| ==> keys[j] != keys[0];
    }
  }

  lemma {:induction false} CountAll(keying: Keying, actions: seq<Action>, keys: seq<string>)
    requires NoRepeats(keys) && forall i :: 0 <= i < |actions| ==> keying.key(actions[i]) in keys
    ensures CountGroups(keying, actions, keys) == |actions|
  {
    if actions == [] {
      CountNone(keying, keys);
    } else {
      var before := actions[..|actions| - 1];
      CountAll(keying, before, keys);
      CountNext(keying, before, actions[|actions| - 1], keys);
      assert before + [actions[|actions| - 1]] == actions;
    }
  }

  lemma {:induction false} CountNone(keying: Keying, keys: seq<string>)
    ensures CountGroups(keying, [], keys) == 0
  {
    if keys != [] { CountNone(keying, keys[1..]); }
  }

  lemma {:induction false} CountIdsIsCountGroups(keying: Keying, merged: map<string, Entry>, keys: seq<string>, actions: seq<Action>)
    requires forall i :: 0 <= i < |keys| ==> keys[i] in merged && Collects(keying, merged[keys[i]], Group(keying, actions, keys[i]))
    ensures CountIds(merged, keys) == CountGroups(keying, actions, keys)
  {
    if keys != [] { CountIdsIsCountGroups(keying, merged, keys[1..], actions); }
  }

  /** Nothing is lost and nothing counted twice: the entries hold as many ids as there are actions. */
  lemma MergeConservesIds(keying: Keying, merged: map<string, Entry>, order: seq<string>, actions: seq<Action>)
    requires Merges(keying, merged, order, actions)
    ensures NoRepeats(order) && forall i :: 0 <= i < |order| ==> order[i] in merged
    ensures CountIds(merged, order) == |actions|
  {
    FirstKeysAreDistinct(keying, actions);
    AllKeysListed(keying, actions);
    CountAll(keying, actions, order);
    CountIdsIsCountGroups(keying, merged, order, actions);
  }

  lemma {:induction false} GroupMembers(keying: Keying, actions: seq<Action>, key: string)
    ensures forall a :: a in Group(keying, actions, key) <==> a in actions && keying.key(a) == key
  {
    if actions != [] {
      var n := |actions| - 1;
      GroupMembers(keying, actions[..n], key);
      assert actions == actions[..n] + [actions[n]];
    }
  }

  /** Groups keep the order of the actions: that of a whole is those of its parts, one after the other. */
  lemma {:induction false} GroupConcat(keying: Keying, a: seq<Action>, b: seq<Action>, key: string)
    ensures Group(keying, a + b, key) == Group(keying, a, key) + Group(keying, b, key)
  {
    if b == [] {
      assert a + b == a;
    } else {
      var n := |b| - 1;
      GroupConcat(keying, a, b[..n], key);
      assert (a + b)[..|a + b| - 1] == a + b[..n];
    }
  }

  /** No action of key `k` among the first n. */
  predicate NotYet(keying: Keying, actions: seq<Action>, n: nat, k: string)
    requires n <= |actions|
  {
    forall i :: 0 <= i < n ==> keying.key(actions[i]) != k
  }

  /** Keys come in the order of their first occurrences: before the later key's, the earlier one's. */
  lemma {:induction false} FirstKeysInOrder(keying: Keying, actions: seq<Action>, i: nat, j: nat)
    requires i < j < |FirstKeys(keying, actions)|
    ensures exists n: nat :: n < |actions| && keying.key(actions[n]) == FirstKeys(keying, actions)[i]
                             && NotYet(keying, actions, n + 1, FirstKeys(keying, actions)[j])
  {
    var last := |actions| - 1;
    var before, keys := FirstKeys(keying, actions[..last]), FirstKeys(keying, actions);
    if j < |before| {
      FirstKeysInOrder(keying, actions[..last], i, j);
      var n: nat :| n < last && keying.key(actions[..last][n]) == before[i] && NotYet(keying, actions[..last], n + 1, before[j]);
      assert forall k :: 0 <= k < n + 1 ==> actions[..last][k] == actions[k];
      assert NotYet(keying, actions, n + 1, keys[j]);
    } else {
      var n := KeyOccurs(keying, actions[..last], i);
      AllKeysListed(keying, actions[..last]);
      assert forall k :: 0 <= k < last ==> actions[..last][k] == actions[k] && keying.key(actions[k]) in before;
      assert NotYet(keying, actions, n + 1, keys[j]);
    }
  }

  lemma {:induction false} KeyOccurs(keying: Keying, actions: seq<Action>, i: nat) returns (n: nat)
    requires i < |FirstKeys(keying, actions)|
    ensures n < |actions| && keying.key(actions[n]) == FirstKeys(keying, actions)[i]
  {
    n := |actions| - 1;
    if i < |FirstKeys(keying, actions[..n])| { n := KeyOccurs(keying, actions[..n], i); }
  }

  /** Two actions lie in the same entry exactly when their keys are equal. */
  lemma SharedEntryIffSameKey(keying: Keying, actions: seq<Action>, a: Action, b: Action)
    requires a in actions && b in actions
    ensures (exists key :: key in FirstKeys(keying, actions) && a in Group(keying, actions, key) && b in Group(keying, actions, key)) <==>
            keying.key(a) == keying.key(b)
  {
    AllKeysListed(keying, actions);
    forall key ensures forall x :: x in Group(keying, actions, key) <==> x in actions && keying.key(x) == key {
      GroupMembers(keying, actions, key);
    }
    if keying.key(a) == keying.key(b) { assert a in Group(keying, actions, keying.key(a)) && b in Group(keying, actions, keying.key(a)); }
  }

  // ----- The inventory's own keys -----

  function InventoryKeying(lower: SemanticKeys.Lowering): Keying {
    Keying((a: Action) => SemanticKeys.SemanticKey(lower, a.domain, a.id), SemanticKeys.DomainOf)
  }

  /** Two actions share an entry exactly when domain and normal tokens agree, domains with a separator aside. */
  lemma InventoryEntriesShared(lower: SemanticKeys.Lowering, actions: seq<Action>, a: Action, b: Action)
    requires SemanticKeys.Lawful(lower) && a in actions && b in actions
    ensures var keying := InventoryKeying(lower);
            var d, x := SemanticKeys.DomainOf(a.domain), SemanticKeys.JoinDash(SemanticKeys.Words(lower, a.id));
            var e, y := SemanticKeys.DomainOf(b.domain), SemanticKeys.JoinDash(SemanticKeys.Words(lower, b.id));
            (exists key :: key in FirstKeys(keying, actions) && a in Group(keying, actions, key) && b in Group(keying, actions, key)) <==>
            (d == e && SemanticKeys.SameTokens(lower, a.id, b.id))
            || SemanticKeys.Straddles(d, x, e, y) || SemanticKeys.Straddles(e, y, d, x)
  {
    SharedEntryIffSameKey(InventoryKeying(lower), actions, a, b);
    SemanticKeys.KeysAgree(lower, a.domain, a.id, b.domain, b.id);
  }

  method MergeInventory(lower: SemanticKeys.Lowering, actions: seq<Action>) returns (merged: map<string, Entry>, order: seq<string>)
    ensures Merges(InventoryKeying(lower), merged, order, actions)
  {
    merged, order := Merge(InventoryKeying(lower), actions);
  }
}

/** Code-unit order on strings, and stable sorting by a comparison. */
module Ordering {

  /** `left < right` on strings: the first differing unit decides, a proper prefix comes first. */
  predicate Before(left: string, right: string) {
    if right == [] then false
    else if left == [] then true
    else if left[0] != right[0] then left[0] < right[0]
    else Before(left[1..], right[1..])
  }

  lemma {:induction false} BeforeIsTotal(a: string, b: string)
    ensures a == b ==> !Before(a, b)
    ensures a != b ==> (Before(a, b) <==> !Before(b, a))
  {
    if a != [] && b != [] && a[0] == b[0] {
      BeforeIsTotal(a[1..], b[1..]);
      assert a == [a[0]] + a[1..] && b == [b[0]] + b[1..];
    }
  }

  lemma {:induction false} BeforeIsTransitive(a: string, b: string, c: string)
    requires Before(a, b) && Before(b, c)
    ensures Before(a, c)
  {
    if a != [] && b != [] && c != [] && a[0] == b[0] == c[0] {
      BeforeIsTransitive(a[1..], b[1..], c[1..]);
    }
  }

  /** A strict order in which "neither before the other" is transitive. */
  ghost predicate WeakOrder<T(!new)>(less: (T, T) -> bool) {
    && (forall x, y :: less(x, y) ==> !less(y, x))
    && (forall x, y, z :: !less(y, x) && !less(z, y) ==> !less(z, x))
  }

  lemma BeforeIsWeakOrder()
    ensures WeakOrder(Before)
  {
    forall x, y ensures Before(x, y) ==> !Before(y, x) { BeforeIsTotal(x, y); }
    forall x, y, z | !Before(y, x) && !Before(z, y) ensures !Before(z, x) {
      BeforeIsTotal(x, y);
      BeforeIsTotal(y, z);
      BeforeIsTotal(x, z);
      if Before(z, x) && x != y && y != z { BeforeIsTransitive(x, y, z); }
    }
  }

  ghost predicate Sorted<T>(xs: seq<T>, less: (T, T) -> bool) {
    forall i, j :: 0 <= i < j < |xs| ==> !less(xs[j], xs[i])
  }

  function Insert<T>(x: T, xs: seq<T>, less: (T, T) -> bool): (r: seq<T>)
    ensures |r| == |xs| + 1
  {
    if xs == [] || !less(xs[0], x) then [x] + xs else [xs[0]] + Insert(x, xs[1..], less)
  }

  /** Equal elements keep their order, as Array.prototype.sort and Python's sorted promise. */
  function Sort<T>(xs: seq<T>, less: (T, T) -> bool): (r: seq<T>)
    ensures |r| == |xs|
  {
    if xs == [] then [] else Insert(xs[0], Sort(xs[1..], less), less)
  }

  lemma {:induction false} InsertKeepsElements<T>(x: T, xs: seq<T>, less: (T, T) -> bool)
    ensures multiset(Insert(x, xs, less)) == multiset([x] + xs)
  {
    if xs != [] && less(xs[0], x) {
      InsertKeepsElements(x, xs[1..], less);
      assert [x] + xs == [x] + [xs[0]] + xs[1..];
    }
  }

  lemma {:induction false} SortKeepsElements<T>(xs: seq<T>, less: (T, T) -> bool)
    ensures multiset(Sort(xs, less)) == multiset(xs)
  {
    if xs != [] {
      SortKeepsElements(xs[1..], less);
      InsertKeepsElements(xs[0], Sort(xs[1..], less), less);
      assert xs == [xs[0]] + xs[1..];
    }
  }

  lemma SameElements<T>(xs: seq<T>, ys: seq<T>)
    requires multiset(xs) == multiset(ys)
    ensures |xs| == |ys|
    ensures forall x :: x in xs <==> x in ys
  {
    assert |multiset(xs)| == |xs| && |multiset(ys)| == |ys|;
    assert forall x :: x in xs <==> x in multiset(xs);
    assert forall x :: x in ys <==> x in multiset(ys);
  }

  lemma {:induction false} InsertSorts<T(!new)>(x: T, xs: seq<T>, less: (T, T) -> bool)
    requires WeakOrder(less) && Sorted(xs, less)
    ensures Sorted(Insert(x, xs, less), less)
  {
    if xs == [] || !less(xs[0], x) {
      forall j | 0 <= j < |xs| ensures !less(xs[j], x) {
        if j > 0 { assert !less(xs[j], xs[0]); }
      }
    } else {
      assert Sorted(xs[1..], less);
      InsertSorts(x, xs[1..], less);
      InsertKeepsElements(x, xs[1..], less);
      var rest := Insert(x, xs[1..], less);
      forall j | 0 <= j < |rest| ensures !less(rest[j], xs[0]) {
        assert rest[j] in multiset([x] + xs[1..]);
      }
    }
  }

  lemma {:induction false} SortSorts<T(!new)>(xs: seq<T>, less: (T, T) -> bool)
    requires WeakOrder(less)
    ensures Sorted(Sort(xs, less), less)
  {
    if xs != [] {
      SortSorts(xs[1..], less);
      InsertSorts(xs[0], Sort(xs[1..], less), less);
    }
  }

  lemma SortedHeadsAgree<T>(xs: seq<T>, ys: seq<T>, less: (T, T) -> bool)
    requires Sorted(xs, less) && Sorted(ys, less) && multiset(xs) == multiset(ys) && xs != []
    requires forall x, y :: x in xs && y in xs && !less(x, y) && !less(y, x) ==> x == y
    ensures ys != [] && xs[0] == ys[0]
  {
    SameElements(xs, ys);
    assert xs[0] in xs && ys[0] in ys;
    assert xs[0] in ys && ys[0] in xs;
    var i :| 0 <= i < |ys| && ys[i] == xs[0];
    var j :| 0 <= j < |xs| && xs[j] == ys[0];
    if i > 0 && j > 0 {
      assert !less(ys[i], ys[0]) && !less(xs[j], xs[0]);
    }
  }

  lemma SortedTails<T>(xs: seq<T>, ys: seq<T>, less: (T, T) -> bool)
    requires Sorted(xs, less) && Sorted(ys, less) && multiset(xs) == multiset(ys)
    requires xs != [] && ys != [] && xs[0] == ys[0]
    ensures Sorted(xs[1..], less) && Sorted(ys[1..], less) && multiset(xs[1..]) == multiset(ys[1..])
  {
    assert xs == [xs[0]] + xs[1..] && ys == [ys[0]] + ys[1..];
    assert multiset(xs[1..]) == multiset(xs) - multiset{xs[0]};
    assert multiset(ys[1..]) == multiset(ys) - multiset{ys[0]};
  }

  /** Only one sorted arrangement, once elements that tie are equal. */
  lemma {:induction false} SortedIsUnique<T>(xs: seq<T>, ys: seq<T>, less: (T, T) -> bool)
    requires Sorted(xs, less) && Sorted(ys, less) && multiset(xs) == multiset(ys)
    requires forall x, y :: x in xs && y in xs && !less(x, y) && !less(y, x) ==> x == y
    ensures xs == ys
  {
    SameElements(xs, ys);
    if xs != [] {
      SortedHeadsAgree(xs, ys, less);
      SortedTails(xs, ys, less);
      SortedIsUnique(xs[1..], ys[1..], less);
    }
  }

  predicate SameStringSet(left: seq<string>, right: seq<string>) {
    && |left| == |right|
    && forall i :: 0 <= i < |left| ==> Sort(left, Before)[i] == Sort(right, Before)[i]
  }

  /** Sorting strings forgets their order and nothing else: repetitions still count. */
  lemma SameStringSetIsMultisetEquality(left: seq<string>, right: seq<string>)
    ensures SameStringSet(left, right) <==> multiset(left) == multiset(right)
  {
    var a, b := Sort(left, Before), Sort(right, Before);
    SortKeepsElements(left, Before);
    SortKeepsElements(right, Before);
    if multiset(left) == multiset(right) {
      SameElements(left, right);
      BeforeIsWeakOrder();
      SortSorts(left, Before);
      SortSorts(right, Before);
      forall x, y | !Before(x, y) && !Before(y, x) ensures x == y { BeforeIsTotal(x, y); }
      SortedIsUnique(a, b, Before);
    }
    if SameStringSet(left, right) { assert a == b; }
  }
}

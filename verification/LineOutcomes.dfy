/** What parsing a list makes of the outcomes of its lines, whatever a line is. */
module LineOutcomes {
  import opened Wrappers

  /** The issues of one line, the line if it has a shape, and the cents it adds if it adds any. */
  datatype Outcome<+I, +L> = Outcome(issues: seq<I>, line: Option<L>, cents: Option<int>)

  function AllIssues<I, L>(os: seq<Outcome<I, L>>): seq<I> {
    if os == [] then [] else AllIssues(os[..|os| - 1]) + os[|os| - 1].issues
  }

  function AsSeq<T>(o: Option<T>): seq<T> {
    if o.Some? then [o.value] else []
  }

  function AllLines<I, L>(os: seq<Outcome<I, L>>): seq<L> {
    if os == [] then [] else AllLines(os[..|os| - 1]) + AsSeq(os[|os| - 1].line)
  }

  function AllCents<I, L>(os: seq<Outcome<I, L>>): seq<int> {
    if os == [] then [] else AllCents(os[..|os| - 1]) + AsSeq(os[|os| - 1].cents)
  }

  lemma NextOutcome<I, L>(os: seq<Outcome<I, L>>, n: nat)
    requires n < |os|
    ensures AllIssues(os[..n + 1]) == AllIssues(os[..n]) + os[n].issues
    ensures AllLines(os[..n + 1]) == AllLines(os[..n]) + AsSeq(os[n].line)
    ensures AllCents(os[..n + 1]) == AllCents(os[..n]) + AsSeq(os[n].cents)
  {
    assert os[..n + 1][..n] == os[..n];
  }

  lemma {:induction false} NoIssueIffNone<I, L>(os: seq<Outcome<I, L>>)
    ensures AllIssues(os) == [] <==> forall i :: 0 <= i < |os| ==> os[i].issues == []
  {
    if os != [] {
      var n := |os| - 1;
      NoIssueIffNone(os[..n]);
      assert forall i :: 0 <= i < n ==> os[..n][i] == os[i];
    }
  }

  /** When every line has a shape and adds its cents, nothing is dropped. */
  lemma {:induction false} CompleteOutcomes<I, L>(os: seq<Outcome<I, L>>)
    requires forall i :: 0 <= i < |os| ==> os[i].line.Some? && os[i].cents.Some?
    ensures |AllLines(os)| == |os| == |AllCents(os)|
    ensures forall i :: 0 <= i < |os| ==> AllLines(os)[i] == os[i].line.value && AllCents(os)[i] == os[i].cents.value
  {
    if os != [] {
      CompleteOutcomes(os[..|os| - 1]);
    }
  }
}

/** Readers that take a response body chunk by chunk and stop at a limit. */
module BoundedReader {
  import opened Wrappers

  type Bytes = seq<bv8>

  datatype ReadError = ObjectTooLarge | BodyMissing

  function Joined(chunks: seq<Bytes>): Bytes {
    if chunks == [] then [] else chunks[0] + Joined(chunks[1..])
  }

  lemma {:induction false} JoinedConcat(a: seq<Bytes>, b: seq<Bytes>)
    ensures Joined(a + b) == Joined(a) + Joined(b)
  {
    if a == [] {
      assert a + b == b;
    } else {
      assert (a + b)[1..] == a[1..] + b;
      JoinedConcat(a[1..], b);
    }
  }

  lemma JoinedNext(chunks: seq<Bytes>, k: nat)
    requires k < |chunks|
    ensures Joined(chunks[..k + 1]) == Joined(chunks[..k]) + chunks[k]
  {
    assert chunks[..k + 1] == chunks[..k] + [chunks[k]];
    JoinedConcat(chunks[..k], [chunks[k]]);
  }

  /** The bytes before a chunk are a prefix of all the bytes. */
  lemma JoinedPrefix(chunks: seq<Bytes>, k: nat)
    requires k <= |chunks|
    ensures Joined(chunks[..k]) <= Joined(chunks)
  {
    assert chunks == chunks[..k] + chunks[k..];
    JoinedConcat(chunks[..k], chunks[k..]);
  }

  predicate Crosses(chunks: seq<Bytes>, k: nat, limit: nat)
    requires k < |chunks|
  {
    |Joined(chunks[..k])| <= limit < |Joined(chunks[..k + 1])|
  }

  method CollectChunks(chunks: seq<Bytes>, limit: nat) returns (size: Option<nat>, taken: nat)
    ensures size == if |Joined(chunks)| <= limit then Some(|Joined(chunks)|) else None
    ensures size.Some? ==> taken == |chunks|
    ensures size.None? ==> 0 < taken <= |chunks| && Crosses(chunks, taken - 1, limit)
  {
    var total := 0;
    taken := 0;
    while taken < |chunks|
      invariant taken <= |chunks| && total == |Joined(chunks[..taken])| <= limit
    {
      JoinedNext(chunks, taken);
      total := total + |chunks[taken]|;
      taken := taken + 1;
      if total > limit {
        JoinedPrefix(chunks, taken);
        return None, taken;
      }
    }
    assert chunks[..taken] == chunks;
    return Some(total), taken;
  }

  method CopyChunks(chunks: seq<Bytes>, size: nat) returns (bytes: array<bv8>)
    requires size == |Joined(chunks)|
    ensures fresh(bytes) && bytes[..] == Joined(chunks)
  {
    bytes := new bv8[size](_ => 0);
    var offset := 0;
    for k := 0 to |chunks|
      invariant offset == |Joined(chunks[..k])| <= size && bytes[..offset] == Joined(chunks[..k])
    {
      JoinedNext(chunks, k);
      JoinedPrefix(chunks, k + 1);
      ghost var before := bytes[..offset];
      var chunk := chunks[k];
      for i := 0 to |chunk|
        invariant bytes[..offset] == before && bytes[offset..offset + i] == chunk[..i]
      {
        bytes[offset + i] := chunk[i];
      }
      offset := offset + |chunk|;
    }
    assert chunks[..|chunks|] == chunks;
  }

  /**
   All the bytes in order when they fit the limit. A larger body stops at the first chunk that
   crosses it, or before the first one when its declared length already does.
   */
  method ReadBounded(declared: Option<int>, body: Option<seq<Bytes>>, limit: nat)
    returns (r: Result<Bytes, ReadError>, taken: nat)
    ensures r.Ok? <==> (declared.Some? ==> declared.value <= limit) && body.Some? && |Joined(body.value)| <= limit
    ensures r.Ok? ==> r.value == Joined(body.value) && taken == |body.value|
    ensures r.Err? ==>
      r.error == if body.None? && (declared.Some? ==> declared.value <= limit) then BodyMissing else ObjectTooLarge
    ensures r.Err? ==>
      if body.Some? && (declared.Some? ==> declared.value <= limit)
      then 0 < taken <= |body.value| && Crosses(body.value, taken - 1, limit)
      else taken == 0
  {
    if declared.Some? && declared.value > limit { return Err(ObjectTooLarge), 0; }
    if body.None? { return Err(BodyMissing), 0; }
    var size: Option<nat>;
    size, taken := CollectChunks(body.value, limit);
    if size.None? { return Err(ObjectTooLarge), taken; }
    var bytes := CopyChunks(body.value, size.value);
    r := Ok(bytes[..]);
  }

  /** Exactly the first bytes, as many as the limit allows, whatever the chunks are. */
  method ReadResponseSnippet(body: Option<seq<Bytes>>, limit: nat) returns (snippet: Bytes, taken: nat)
    ensures body.None? ==> snippet == [] && taken == 0
    ensures body.Some? ==>
      var all := Joined(body.value);
      snippet == (if |all| <= limit then all else all[..limit])
    ensures body.Some? && taken > 0 ==> taken <= |body.value| && |Joined(body.value[..taken - 1])| < limit
  {
    if body.None? { return [], 0; }
    var chunks := body.value;
    snippet, taken := [], 0;
    while |snippet| < limit && taken < |chunks|
      invariant taken <= |chunks| && snippet == Joined(chunks[..taken]) && |snippet| <= limit
      invariant taken > 0 ==> |Joined(chunks[..taken - 1])| < limit
    {
      JoinedNext(chunks, taken);
      var remaining := limit - |snippet|;
      var chunk := chunks[taken];
      taken := taken + 1;
      if |chunk| > remaining {
        JoinedPrefix(chunks, taken);
        snippet := snippet + chunk[..remaining];
        return;
      }
      snippet := snippet + chunk;
    }
    JoinedPrefix(chunks, taken);
    if taken == |chunks| { assert chunks[..taken] == chunks; }
  }
}

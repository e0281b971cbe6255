/** The two built-in strategies for choosing within a bucket. */
module Selectors {
  import opened Credentials
  import opened Shards
  import opened Picking

  /** The place met `offset` steps after the cursor, wrapping around at the end. */
  function Place(b: Bucket, offset: nat): (i: nat)
    requires b.creds != []
    ensures i < |b.creds|
  {
    (b.cursor % |b.creds| + offset) % |b.creds|
  }

  /** Every place met before `offset` is tried. */
  predicate TriedBefore(b: Bucket, tried: set<string>, offset: nat)
    requires b.creds != []
  {
    forall k: nat :: k < offset ==> b.creds[Place(b, k)].id in tried
  }

  lemma AllPlaces(b: Bucket, tried: set<string>)
    requires b.creds != [] && TriedBefore(b, tried, |b.creds|)
    ensures forall i :: 0 <= i < |b.creds| ==> b.creds[i].id in tried
  {
    forall i | 0 <= i < |b.creds| ensures b.creds[i].id in tried {
      var k := CyclicOffset(|b.creds|, b.cursor % |b.creds|, i);
      assert Place(b, k) == i;
    }
  }

  /** RoundRobinSelector.PickFromBucket: walks the bucket once, starting at the cursor. */
  method RoundRobinPick(b: Bucket, tried: set<string>) returns (r: Option<nat>)
    ensures r == Choose(RoundRobin, b, tried)
    ensures r.None? <==> forall i :: 0 <= i < |b.creds| ==> b.creds[i].id in tried
    ensures r.Some? ==> r.value < |b.creds| && b.creds[r.value].id !in tried
    ensures r.Some? ==> exists k: nat :: k < |b.creds| && r.value == Place(b, k) && TriedBefore(b, tried, k)
  {
    var n := |b.creds|;
    if n == 0 {
      return None;
    }
    var start := b.cursor % n;
    ghost var ids := Ids(b.creds);
    var offset := 0;
    while offset < n
      invariant 0 <= offset <= n
      invariant TriedBefore(b, tried, offset)
      invariant Scan(ids, start, 0, tried) == Scan(ids, start, offset, tried)
    {
      var index := (start + offset) % n;
      assert index == Place(b, offset);
      if b.creds[index].id !in tried {
        return Some(index);
      }
      offset := offset + 1;
    }
    AllPlaces(b, tried);
    return None;
  }

  lemma ScanStep(ids: seq<string>, i: nat, tried: set<string>)
    requires i < |ids|
    ensures Scan(ids, 0, i, tried) == if ids[i] !in tried then Some(i) else Scan(ids, 0, i + 1, tried)
  {
    assert (0 + i) % |ids| == i;
  }

  /** FillFirstSelector.PickFromBucket: the first that matches. */
  method FillFirstPick(b: Bucket, tried: set<string>) returns (r: Option<nat>)
    ensures r == Choose(FillFirst, b, tried)
    ensures r.None? ==> forall i :: 0 <= i < |b.creds| ==> b.creds[i].id in tried
    ensures r.Some? ==> r.value < |b.creds| && b.creds[r.value].id !in tried
    ensures r.Some? ==> forall i :: 0 <= i < r.value ==> b.creds[i].id in tried
  {
    ghost var ids := Ids(b.creds);
    var i := 0;
    while i < |b.creds|
      invariant 0 <= i <= |b.creds|
      invariant forall k :: 0 <= k < i ==> b.creds[k].id in tried
      invariant b.creds != [] ==> Scan(ids, 0, 0, tried) == Scan(ids, 0, i, tried)
    {
      ScanStep(ids, i, tried);
      if b.creds[i].id !in tried {
        return Some(i);
      }
      i := i + 1;
    }
    return None;
  }
}

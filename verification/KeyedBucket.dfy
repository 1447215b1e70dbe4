/**
 A bucket of encoded values whose byte-string keys are encoded outpoints, and the
 map from outpoints that it stands for.
 */
module KeyedBucket {
  import opened Primitives

  ghost predicate Injective(key: OutPoint -> Bytes) {
    forall p, q :: key(p) == key(q) ==> p == q
  }

  /** The bucket holds exactly `contents`, each value encoded under the key of its outpoint. */
  ghost predicate Mirrors<R, V>(key: OutPoint -> Bytes, enc: R -> V, bucket: map<Bytes, V>, contents: map<OutPoint, R>) {
    && (forall p :: key(p) in bucket <==> p in contents)
    && (forall p :: p in contents ==> bucket[key(p)] == enc(contents[p]))
    && (forall k :: k in bucket ==> exists p :: key(p) == k)
  }

  lemma PutMirrors<R, V>(key: OutPoint -> Bytes, enc: R -> V, bucket: map<Bytes, V>, contents: map<OutPoint, R>,
                         p: OutPoint, r: R)
    requires Injective(key) && Mirrors(key, enc, bucket, contents)
    ensures Mirrors(key, enc, bucket[key(p) := enc(r)], contents[p := r])
  {
  }

  lemma DeleteMirrors<R, V>(key: OutPoint -> Bytes, enc: R -> V, bucket: map<Bytes, V>, contents: map<OutPoint, R>,
                            p: OutPoint)
    requires Injective(key) && Mirrors(key, enc, bucket, contents)
    ensures Mirrors(key, enc, bucket - {key(p)}, contents - {p})
  {
  }

  /** `points` are distinct and, with those whose keys are `left`, all there is. */
  ghost predicate Unvisited<R>(key: OutPoint -> Bytes, points: seq<OutPoint>, left: set<Bytes>,
                               contents: map<OutPoint, R>) {
    && (forall i, j :: 0 <= i < j < |points| ==> points[i] != points[j])
    && (forall p :: p in contents <==> p in points || key(p) in left)
    && (forall p :: p in points ==> key(p) !in left)
  }

  lemma VisitNext<R>(key: OutPoint -> Bytes, points: seq<OutPoint>, left: set<Bytes>, contents: map<OutPoint, R>,
                     p: OutPoint)
    requires Injective(key) && Unvisited(key, points, left, contents) && key(p) in left
    ensures Unvisited(key, points + [p], left - {key(p)}, contents) && p in contents
  {
  }

  lemma {:induction false} Distinct(points: seq<OutPoint>, s: set<OutPoint>)
    requires forall i, j :: 0 <= i < j < |points| ==> points[i] != points[j]
    requires forall p :: p in points <==> p in s
    ensures |points| == |s|
    decreases |points|
  {
    if points != [] {
      var init, last := points[..|points| - 1], points[|points| - 1];
      assert points == init + [last];
      Distinct(init, s - {last});
    }
  }

  ghost predicate Decoded<R>(enc: R -> Bytes, dec: Bytes -> Option<R>, values: seq<R>, points: seq<OutPoint>,
                             contents: map<OutPoint, R>) {
    && |values| == |points|
    && forall i :: 0 <= i < |points| ==> points[i] in contents && dec(enc(contents[points[i]])) == Some(values[i])
  }

  lemma DecodeNext<R>(enc: R -> Bytes, dec: Bytes -> Option<R>, values: seq<R>, points: seq<OutPoint>,
                      contents: map<OutPoint, R>, p: OutPoint, v: R)
    requires Decoded(enc, dec, values, points, contents)
    requires p in contents && dec(enc(contents[p])) == Some(v)
    ensures Decoded(enc, dec, values + [v], points + [p], contents)
  {
  }

  /** `values` are what decoding yields for every entry, once each: `points` says where each comes from. */
  ghost predicate Enumerates<R>(enc: R -> Bytes, dec: Bytes -> Option<R>, values: seq<R>, points: seq<OutPoint>,
                                contents: map<OutPoint, R>) {
    && Decoded(enc, dec, values, points, contents)
    && |points| == |contents|
    && (forall p :: p in contents ==> p in points)
    && (forall i, j :: 0 <= i < j < |points| ==> points[i] != points[j])
  }

  /** Some entry cannot be decoded. */
  ghost predicate Undecodable<R>(enc: R -> Bytes, dec: Bytes -> Option<R>, contents: map<OutPoint, R>) {
    exists p :: p in contents && dec(enc(contents[p])).None?
  }

  /** Decoding undoes encoding for every entry. */
  ghost predicate Recovered<R>(enc: R -> Bytes, dec: Bytes -> Option<R>, contents: map<OutPoint, R>) {
    forall p :: p in contents ==> dec(enc(contents[p])) == Some(contents[p])
  }

  lemma EnumeratesAll<R>(key: OutPoint -> Bytes, enc: R -> Bytes, dec: Bytes -> Option<R>,
                         values: seq<R>, points: seq<OutPoint>, contents: map<OutPoint, R>)
    requires Unvisited(key, points, {}, contents) && Decoded(enc, dec, values, points, contents)
    ensures Enumerates(enc, dec, values, points, contents) && !Undecodable(enc, dec, contents)
  {
    assert forall i :: 0 <= i < |points| ==> points[i] in points;
    Distinct(points, contents.Keys);
    forall p | p in contents
      ensures dec(enc(contents[p])).Some?
    {
      var i :| 0 <= i < |points| && points[i] == p;
      assert dec(enc(contents[points[i]])) == Some(values[i]);
    }
  }

  /** Decodes every value, in whatever order the bucket yields them, until one cannot be decoded. */
  method ReadAll<R>(ghost key: OutPoint -> Bytes, ghost enc: R -> Bytes, dec: Bytes -> Option<R>,
                    bucket: map<Bytes, Bytes>, ghost contents: map<OutPoint, R>)
    returns (values: Option<seq<R>>, ghost points: seq<OutPoint>)
    requires Injective(key) && Mirrors(key, enc, bucket, contents)
    ensures values.None? <==> Undecodable(enc, dec, contents)
    ensures values.Some? ==> Enumerates(enc, dec, values.value, points, contents)
  {
    var left, list: seq<R> := bucket.Keys, [];
    points := [];
    while left != {}
      invariant left <= bucket.Keys
      invariant Unvisited(key, points, left, contents)
      invariant Decoded(enc, dec, list, points, contents)
      decreases |left|
    {
      var k :| k in left;
      ghost var p :| key(p) == k;
      VisitNext(key, points, left, contents, p);
      left := left - {k};
      var parsed := dec(bucket[k]);
      if parsed.None? {
        return None, points;
      }
      DecodeNext(enc, dec, list, points, contents, p, parsed.value);
      points := points + [p];
      list := list + [parsed.value];
    }
    EnumeratesAll(key, enc, dec, list, points, contents);
    return Some(list), points;
  }
}

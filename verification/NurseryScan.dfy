/**
 The height index as a database cursor sees it: keys are big-endian heights in
 byte order, and a scan moves from one key to the next.
 */
module NurseryScan {
  import opened Primitives
  import opened ByteOrder
  import opened NurseryIndex

  function HeightKey(height: uint32): (r: Bytes)
    ensures |r| == 4 && FromBigEndian(r) == height
  {
    Pow256Values();
    BigEndianRoundTrip(height, 4);
    BigEndian(height, 4)
  }

  lemma HeightKeyOrder(x: uint32, y: uint32)
    ensures Before(HeightKey(x), HeightKey(y)) <==> x < y
  {
    Pow256Values();
    BigEndianOrder(x, y, 4);
  }

  function HeightKeys(hi: HeightIndex): set<Bytes> {
    set height | height in hi :: HeightKey(height)
  }

  /** `at` is the lowest height in the index from `next` on. */
  ghost predicate LowestFrom(at: Option<uint32>, hi: HeightIndex, next: int) {
    match at
    case None => forall h :: h in hi ==> h < next
    case Some(v) => v in hi && next <= v && forall h :: h in hi && next <= h ==> v <= h
  }

  /** Which height a cursor position stands for. */
  lemma HeightAtCursor(k: Option<Bytes>, hi: HeightIndex, from: uint32, strict: bool) returns (at: Option<uint32>)
    requires IsFirst(k, HeightKeys(hi), HeightKey(from), strict)
    ensures LowestFrom(at, hi, if strict then from + 1 else from)
    ensures k == if at.Some? then Some(HeightKey(at.value)) else None
  {
    var next := if strict then from + 1 else from;
    forall h | h in hi
      ensures HeightKey(h) in HeightKeys(hi)
      ensures Reaches(HeightKey(h), HeightKey(from), strict) <==> next <= h
    {
      HeightKeyOrder(from, h);
    }
    at := None;
    if k.Some? {
      var v :| v in hi && HeightKey(v) == k.value;
      at := Some(v);
      forall h | h in hi && next <= h
        ensures v <= h
      {
        HeightKeyOrder(v, h);
      }
    }
  }

  /** Moves the cursor, and says whether it is at a key not past `upper`. */
  method Seek(keys: set<Bytes>, from: Bytes, strict: bool, upper: Bytes,
              ghost hi: HeightIndex, ghost height: uint32, ghost bound: uint32)
    returns (k: Bytes, more: bool, ghost at: Option<uint32>)
    requires keys == HeightKeys(hi) && from == HeightKey(height) && upper == HeightKey(bound)
    ensures LowestFrom(at, hi, if strict then height + 1 else height)
    ensures more <==> at.Some? && at.value <= bound
    ensures more ==> k == HeightKey(at.value)
  {
    var c := First(keys, from, strict);
    at := HeightAtCursor(c, hi, height, strict);
    if c.None? {
      return [], false, at;
    }
    HeightKeyOrder(bound, at.value);
    return c.value, !Before(upper, c.value) && |c.value| == 4, at;
  }

  /** `heights` lists the heights in the index below `next`, in increasing order. */
  ghost predicate ReadBelow(heights: seq<uint32>, hi: HeightIndex, next: int) {
    && (forall i :: 0 <= i < |heights| ==> heights[i] in hi && heights[i] < next)
    && (forall i, j :: 0 <= i < j < |heights| ==> heights[i] < heights[j])
    && (forall h :: h in hi && h < next ==> h in heights)
  }

  lemma ReadOneMore(heights: seq<uint32>, hi: HeightIndex, next: int, at: uint32)
    requires ReadBelow(heights, hi, next) && LowestFrom(Some(at), hi, next)
    ensures ReadBelow(heights + [at], hi, at + 1)
  {
    var r := heights + [at];
    forall h | h in hi && h < at + 1
      ensures h in r
    {
      if h < next {
        assert h in heights;
      } else {
        assert r[|heights|] == h;
      }
    }
  }

  /** A cursor scan of the height index reads the heights up to a bound in increasing order. */
  method ScanHeights(hi: HeightIndex, height: uint32) returns (heights: seq<uint32>)
    ensures ReadBelow(heights, hi, height + 1)
  {
    var lower: uint32 := 0;
    var upper := HeightKey(height);
    var keys := HeightKeys(hi);
    var k: Bytes, more: bool;
    ghost var at: Option<uint32>;
    k, more, at := Seek(keys, HeightKey(lower), false, upper, hi, lower, height);
    heights := [];
    ghost var next: int := 0;
    while more
      invariant 0 <= next <= height + 1
      invariant LowestFrom(at, hi, next)
      invariant more <==> at.Some? && at.value <= height
      invariant more ==> k == HeightKey(at.value)
      invariant ReadBelow(heights, hi, next)
      decreases height + 1 - next
    {
      ReadOneMore(heights, hi, next, at.value);
      heights := heights + [FromBigEndian(k)];
      next := at.value as int + 1;
      k, more, at := Seek(keys, k, true, upper, hi, at.value, height);
    }
  }
}

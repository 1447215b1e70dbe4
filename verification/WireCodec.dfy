/**
 The byte formats shared by the stored records: fixed-width integers,
 variable-length byte strings with a CompactSize prefix, outpoints and sign
 descriptors. A writer is given the bytes that follow it; a reader returns the
 bytes it leaves.
 */
module WireCodec {
  import opened Primitives
  import opened ByteOrder

  datatype Parsed<+T> = Malformed | Parsed(value: T, rest: Bytes)

  type uint16 = n: int | 0 <= n < 0x1_0000
  type int64 = n: int | -0x8000_0000_0000_0000 <= n < 0x8000_0000_0000_0000

  // ---- Fixed-width fields ----

  /** Reads exactly `n` bytes. */
  function Take(r: Bytes, n: nat): Parsed<Bytes> {
    if |r| < n then Malformed else Parsed(r[..n], r[n..])
  }

  lemma TakeBack(x: Bytes, rest: Bytes)
    ensures Take(x + rest, |x|) == Parsed(x, rest)
  {
  }

  function PutUint(n: nat, k: nat, rest: Bytes): Bytes
    requires n < Pow256(k)
  {
    BigEndian(n, k) + rest
  }

  function GetUint(r: Bytes, k: nat): Parsed<nat> {
    match Take(r, k)
    case Malformed => Malformed
    case Parsed(bs, rest) => Parsed(FromBigEndian(bs), rest)
  }

  lemma UintBack(n: nat, k: nat, rest: Bytes)
    requires n < Pow256(k)
    ensures GetUint(PutUint(n, k, rest), k) == Parsed(n, rest)
  {
    TakeBack(BigEndian(n, k), rest);
    BigEndianRoundTrip(n, k);
  }

  const TWO_64: int := 0x1_0000_0000_0000_0000

  /** The two's complement of a signed value, and back. */
  function ToUnsigned(n: int64): nat {
    if n < 0 then n + TWO_64 else n
  }

  function ToSigned(n: nat): int64
    requires n < 0x1_0000_0000_0000_0000
  {
    if n < 0x8000_0000_0000_0000 then n else n - TWO_64
  }

  function PutInt64(n: int64, rest: Bytes): Bytes {
    Pow256Values();
    PutUint(ToUnsigned(n), 8, rest)
  }

  function GetInt64(r: Bytes): Parsed<int64> {
    match Take(r, 8)
    case Malformed => Malformed
    case Parsed(bs, rest) =>
      Pow256Values();
      Parsed(ToSigned(FromBigEndian(bs)), rest)
  }

  lemma Int64Back(n: int64, rest: Bytes)
    ensures GetInt64(PutInt64(n, rest)) == Parsed(n, rest)
  {
    Pow256Values();
    TakeBack(BigEndian(ToUnsigned(n), 8), rest);
    BigEndianRoundTrip(ToUnsigned(n), 8);
  }

  function PutUint32(n: uint32, rest: Bytes): Bytes {
    Pow256Values();
    PutUint(n, 4, rest)
  }

  function GetUint32(r: Bytes): Parsed<uint32> {
    match Take(r, 4)
    case Malformed => Malformed
    case Parsed(bs, rest) =>
      Pow256Values();
      Parsed(FromBigEndian(bs), rest)
  }

  lemma Uint32Back(n: uint32, rest: Bytes)
    ensures GetUint32(PutUint32(n, rest)) == Parsed(n, rest)
  {
    Pow256Values();
    UintBack(n, 4, rest);
  }

  function PutUint16(n: uint16, rest: Bytes): Bytes {
    Pow256Values();
    PutUint(n, 2, rest)
  }

  function GetUint16(r: Bytes): Parsed<uint16> {
    match Take(r, 2)
    case Malformed => Malformed
    case Parsed(bs, rest) =>
      Pow256Values();
      Parsed(FromBigEndian(bs), rest)
  }

  lemma Uint16Back(n: uint16, rest: Bytes)
    ensures GetUint16(PutUint16(n, rest)) == Parsed(n, rest)
  {
    Pow256Values();
    UintBack(n, 2, rest);
  }

  // ---- CompactSize ----

  type uint64 = n: int | 0 <= n < 0x1_0000_0000_0000_0000

  /** One byte below 0xfd; otherwise a marker and 2, 4 or 8 little-endian bytes. */
  function PutVarInt(n: uint64, rest: Bytes): Bytes {
    Pow256Values();
    if n < 0xfd then [n as byte] + rest
    else if n <= 0xffff then [0xfd] + (LittleEndian(n, 2) + rest)
    else if n <= 0xffff_ffff then [0xfe] + (LittleEndian(n, 4) + rest)
    else [0xff] + (LittleEndian(n, 8) + rest)
  }

  /** Reads `k` little-endian bytes; a value that fits a shorter form is refused. */
  function GetWide(r: Bytes, k: nat, least: nat): Parsed<uint64>
    requires k == 2 || k == 4 || k == 8
  {
    match Take(r, k)
    case Malformed => Malformed
    case Parsed(bs, rest) =>
      Pow256Values();
      var n := FromLittleEndian(bs);
      if n < least then Malformed else Parsed(n, rest)
  }

  function GetVarInt(r: Bytes): Parsed<uint64> {
    if r == [] then Malformed
    else if r[0] == 0xff then GetWide(r[1..], 8, 0x1_0000_0000)
    else if r[0] == 0xfe then GetWide(r[1..], 4, 0x1_0000)
    else if r[0] == 0xfd then GetWide(r[1..], 2, 0xfd)
    else Parsed(r[0] as int, r[1..])
  }

  lemma WideBack(n: uint64, k: nat, least: nat, rest: Bytes)
    requires (k == 2 || k == 4 || k == 8) && n < Pow256(k) && least <= n
    ensures GetWide(LittleEndian(n, k) + rest, k, least) == Parsed(n, rest)
  {
    Pow256Values();
    TakeBack(LittleEndian(n, k), rest);
    LittleEndianRoundTrip(n, k);
  }

  lemma VarIntBack(n: uint64, rest: Bytes)
    ensures GetVarInt(PutVarInt(n, rest)) == Parsed(n, rest)
  {
    Pow256Values();
    if n < 0xfd {
      assert ([n as byte] + rest)[1..] == rest;
    } else {
      var k := if n <= 0xffff then 2 else if n <= 0xffff_ffff then 4 else 8;
      var least := if k == 2 then 0xfd else if k == 4 then 0x1_0000 else 0x1_0000_0000;
      WideBack(n, k, least, rest);
      var bytes := PutVarInt(n, rest);
      assert bytes[1..] == LittleEndian(n, k) + rest;
    }
  }

  type VarBytes = bs: Bytes | |bs| < 0x1_0000_0000_0000_0000

  function PutVarBytes(bs: VarBytes, rest: Bytes): Bytes {
    PutVarInt(|bs|, bs + rest)
  }

  /** Reads a byte string of at most `max` bytes. */
  function GetVarBytes(r: Bytes, max: nat): (p: Parsed<VarBytes>)
    ensures p.Parsed? ==> |p.value| <= max
  {
    match GetVarInt(r)
    case Malformed => Malformed
    case Parsed(n, rest) =>
      if n > max then Malformed
      else match Take(rest, n)
        case Malformed => Malformed
        case Parsed(bs, left) => Parsed(bs, left)
  }

  /** A byte string is read back exactly when it is within the reader's limit. */
  lemma VarBytesBack(bs: VarBytes, max: nat, rest: Bytes)
    ensures GetVarBytes(PutVarBytes(bs, rest), max) == if |bs| <= max then Parsed(bs, rest) else Malformed
  {
    VarIntBack(|bs|, bs + rest);
    TakeBack(bs, rest);
  }

  // ---- Outpoints ----

  /** A read that may come up short: missing bytes stay zero, but an empty stream is an error. */
  function ReadSome(r: Bytes, n: nat): Parsed<Bytes>
    requires n > 0
  {
    if r == [] then Malformed
    else if |r| < n then Parsed(PadRight(r, n), [])
    else Parsed(r[..n], r[n..])
  }

  function PadRight(bs: Bytes, n: nat): (r: Bytes)
    requires |bs| <= n
    ensures |r| == n
  {
    bs + seq(n - |bs|, _ => 0 as byte)
  }

  function PutOutPoint(o: OutPoint, rest: Bytes): Bytes {
    PutVarBytes(o.hash, PutUint32(o.index, rest))
  }

  function GetOutPoint(r: Bytes): Parsed<OutPoint> {
    match GetVarBytes(r, 32)
    case Malformed => Malformed
    case Parsed(txid, left) =>
      match ReadSome(left, 4)
      case Malformed => Malformed
      case Parsed(bs, rest) =>
        Pow256Values();
        Parsed(OutPoint(PadRight(txid, 32), FromBigEndian(bs)), rest)
  }

  lemma OutPointBack(o: OutPoint, rest: Bytes)
    ensures GetOutPoint(PutOutPoint(o, rest)) == Parsed(o, rest)
  {
    Pow256Values();
    var tail := PutUint32(o.index, rest);
    VarBytesBack(o.hash, 32, tail);
    BigEndianRoundTrip(o.index, 4);
    assert tail[..4] == BigEndian(o.index, 4) && tail[4..] == rest;
    assert PadRight(o.hash, 32) == o.hash;
  }

  /** The key a channel's records are stored under. */
  function Key(p: OutPoint): Bytes {
    PutOutPoint(p, [])
  }

  lemma KeysDiffer(p: OutPoint, q: OutPoint)
    requires Key(p) == Key(q)
    ensures p == q
  {
    OutPointBack(p, []);
    OutPointBack(q, []);
  }

  // ---- Writers only append ----

  lemma UintAppend(n: nat, k: nat, a: Bytes, b: Bytes)
    requires n < Pow256(k)
    ensures PutUint(n, k, a + b) == PutUint(n, k, a) + b
  {
    assert BigEndian(n, k) + (a + b) == (BigEndian(n, k) + a) + b;
  }

  lemma Int64Append(n: int64, a: Bytes, b: Bytes)
    ensures PutInt64(n, a + b) == PutInt64(n, a) + b
  {
    Pow256Values();
    UintAppend(ToUnsigned(n), 8, a, b);
  }

  lemma Uint32Append(n: uint32, a: Bytes, b: Bytes)
    ensures PutUint32(n, a + b) == PutUint32(n, a) + b
  {
    Pow256Values();
    UintAppend(n, 4, a, b);
  }

  lemma Uint16Append(n: uint16, a: Bytes, b: Bytes)
    ensures PutUint16(n, a + b) == PutUint16(n, a) + b
  {
    Pow256Values();
    UintAppend(n, 2, a, b);
  }

  lemma VarIntAppend(n: uint64, a: Bytes, b: Bytes)
    ensures PutVarInt(n, a + b) == PutVarInt(n, a) + b
  {
    Pow256Values();
    if n < 0xfd {
      assert [n as byte] + (a + b) == ([n as byte] + a) + b;
    } else {
      var k, mark: byte := if n <= 0xffff then 2 else if n <= 0xffff_ffff then 4 else 8,
                           if n <= 0xffff then 0xfd else if n <= 0xffff_ffff then 0xfe else 0xff;
      var le := LittleEndian(n, k);
      assert [mark] + (le + (a + b)) == ([mark] + (le + a)) + b;
    }
  }

  lemma VarBytesAppend(bs: VarBytes, a: Bytes, b: Bytes)
    ensures PutVarBytes(bs, a + b) == PutVarBytes(bs, a) + b
  {
    assert bs + (a + b) == (bs + a) + b;
    VarIntAppend(|bs|, bs + a, b);
  }

  lemma OutPointAppend(o: OutPoint, a: Bytes, b: Bytes)
    ensures PutOutPoint(o, a + b) == PutOutPoint(o, a) + b
  {
    Uint32Append(o.index, a, b);
    VarBytesAppend(o.hash, PutUint32(o.index, a), b);
  }

  // ---- Lists of records ----

  function PutMany<T>(put: (T, Bytes) -> Bytes, xs: seq<T>, rest: Bytes): Bytes {
    if xs == [] then rest else put(xs[0], PutMany(put, xs[1..], rest))
  }

  function GetMany<T>(get: Bytes -> Parsed<T>, r: Bytes, n: nat): Parsed<seq<T>>
    decreases n
  {
    if n == 0 then Parsed([], r)
    else match get(r)
      case Malformed => Malformed
      case Parsed(x, r1) => Prepend([x], GetMany(get, r1, n - 1))
  }

  function Prepend<T>(xs: seq<T>, p: Parsed<seq<T>>): Parsed<seq<T>> {
    match p
    case Malformed => Malformed
    case Parsed(ys, rest) => Parsed(xs + ys, rest)
  }

  /** Reading back yields `x` and the bytes after it if `fits`, and something else otherwise. */
  ghost predicate ReadsBack<T>(p: Parsed<T>, x: T, rest: Bytes, fits: bool) {
    if fits then p == Parsed(x, rest) else p.Malformed? || p.value != x
  }

  ghost predicate AllFit<T>(fits: T -> bool, xs: seq<T>) {
    forall i :: 0 <= i < |xs| ==> fits(xs[i])
  }

  /** A list is read back exactly when each of its records is. */
  lemma {:induction false} ManyBack<T(!new)>(put: (T, Bytes) -> Bytes, get: Bytes -> Parsed<T>, fits: T -> bool,
                                             xs: seq<T>, rest: Bytes)
    requires forall x, r :: x in xs ==> ReadsBack(get(put(x, r)), x, r, fits(x))
    ensures ReadsBack(GetMany(get, PutMany(put, xs, rest), |xs|), xs, rest, AllFit(fits, xs))
    decreases |xs|
  {
    if xs != [] {
      var x, ys := xs[0], xs[1..];
      var left := PutMany(put, ys, rest);
      ManyBack(put, get, fits, ys, rest);
      assert ReadsBack(get(put(x, left)), x, left, fits(x));
      assert xs == [x] + ys;
      assert AllFit(fits, xs) <==> fits(x) && AllFit(fits, ys) by {
        assert forall i :: 0 < i < |xs| ==> xs[i] == ys[i - 1];
        assert forall i :: 0 <= i < |ys| ==> ys[i] == xs[i + 1];
      }
      var p := get(put(x, left));
      if p.Parsed? {
        var q := GetMany(get, p.rest, |ys|);
        if q.Parsed? {
          assert ([p.value] + q.value)[0] == p.value && ([p.value] + q.value)[1..] == q.value;
        }
      }
    }
  }

  lemma {:induction false} ManyAppend<T(!new)>(put: (T, Bytes) -> Bytes, xs: seq<T>, a: Bytes, b: Bytes)
    requires forall x, r, r' :: put(x, r + r') == put(x, r) + r'
    ensures PutMany(put, xs, a + b) == PutMany(put, xs, a) + b
    decreases |xs|
  {
    if xs != [] {
      ManyAppend(put, xs[1..], a, b);
      assert put(xs[0], PutMany(put, xs[1..], a) + b) == put(xs[0], PutMany(put, xs[1..], a)) + b;
    }
  }

  /** Writes records one after the other. */
  method EncodeMany<T(!new)>(put: (T, Bytes) -> Bytes, xs: seq<T>, w: Bytes) returns (r: Bytes)
    requires forall x, r, r' :: put(x, r + r') == put(x, r) + r'
    ensures r == w + PutMany(put, xs, [])
  {
    r := w;
    assert xs[0..] == xs;
    for i := 0 to |xs|
      invariant w + PutMany(put, xs, []) == r + PutMany(put, xs[i..], [])
    {
      var o := put(xs[i], []);
      ghost var left := PutMany(put, xs[i + 1..], []);
      assert xs[i..][1..] == xs[i + 1..];
      assert put(xs[i], [] + left) == o + left;
      assert [] + left == left;
      assert r + (o + left) == (r + o) + left;
      r := r + o;
    }
    assert r + [] == r;
  }

  /** Reads `n` records one after the other. */
  method DecodeMany<T>(get: Bytes -> Parsed<T>, r: Bytes, n: nat) returns (p: Parsed<seq<T>>)
    ensures p == GetMany(get, r, n)
  {
    var xs: seq<T> := [];
    var left := r;
    PrependNothing(GetMany(get, r, n));
    for i := 0 to n
      invariant GetMany(get, r, n) == Prepend(xs, GetMany(get, left, n - i))
    {
      var next := get(left);
      if next.Malformed? {
        return Malformed;
      }
      PrependOne(xs, next.value, GetMany(get, next.rest, n - i - 1));
      xs := xs + [next.value];
      left := next.rest;
    }
    assert xs + [] == xs;
    return Parsed(xs, left);
  }

  lemma PrependNothing<T>(p: Parsed<seq<T>>)
    ensures Prepend([], p) == p
  {
    if p.Parsed? {
      assert [] + p.value == p.value;
    }
  }

  lemma PrependOne<T>(xs: seq<T>, x: T, p: Parsed<seq<T>>)
    ensures Prepend(xs + [x], p) == Prepend(xs, Prepend([x], p))
  {
    if p.Parsed? {
      assert (xs + [x]) + p.value == xs + ([x] + p.value);
    }
  }
}

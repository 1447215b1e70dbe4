/**
 Fixed-width big- and little-endian integers, and the byte order in which the
 database's cursors visit keys.
 */
module ByteOrder {
  import opened Primitives

  function Pow256(k: nat): (r: nat)
    ensures r > 0
  {
    if k == 0 then 1 else 256 * Pow256(k - 1)
  }

  lemma Pow256Values()
    ensures Pow256(1) == 256
    ensures Pow256(2) == 65536
    ensures Pow256(4) == 0x1_0000_0000
    ensures Pow256(8) == 0x1_0000_0000_0000_0000
  {
    assert Pow256(3) == 16777216;
    assert Pow256(5) == 0x100_0000_0000;
    assert Pow256(7) == 0x100_0000_0000_0000;
  }

  lemma TopDigit(n: nat, k: nat)
    requires n < Pow256(k + 1)
    ensures n / Pow256(k) < 256
    ensures n == (n / Pow256(k)) * Pow256(k) + n % Pow256(k)
  {
    QuotientBound(n, Pow256(k));
  }

  lemma QuotientBound(n: nat, p: nat)
    requires 0 < p && n < 256 * p
    ensures n / p < 256
    ensures n == (n / p) * p + n % p
  {
    var q, r := n / p, n % p;
    assert n == q * p + r;
    if 256 <= q {
      ScaledOrder(256, q, p);
      assert false;
    }
  }

  lemma ScaledOrder(x: nat, y: nat, p: nat)
    requires x <= y
    ensures x * p <= y * p
  {
  }

  /** The `k` low-order bytes of `n`, most significant first. */
  function BigEndian(n: nat, k: nat): (r: Bytes)
    requires n < Pow256(k)
    ensures |r| == k
    decreases k
  {
    if k == 0 then []
    else
      TopDigit(n, k - 1);
      [(n / Pow256(k - 1)) as byte] + BigEndian(n % Pow256(k - 1), k - 1)
  }

  function FromBigEndian(bs: Bytes): (r: nat)
    ensures r < Pow256(|bs|)
    decreases |bs|
  {
    if bs == [] then 0
    else
      DigitBound(bs[0] as nat, Pow256(|bs| - 1), FromBigEndian(bs[1..]));
      bs[0] as nat * Pow256(|bs| - 1) + FromBigEndian(bs[1..])
  }

  lemma DigitBound(d: nat, p: nat, low: nat)
    requires d < 256 && low < p
    ensures d * p + low < 256 * p
  {
    assert d * p <= 255 * p;
  }

  lemma {:induction false} BigEndianRoundTrip(n: nat, k: nat)
    requires n < Pow256(k)
    ensures FromBigEndian(BigEndian(n, k)) == n
    decreases k
  {
    if k > 0 {
      TopDigit(n, k - 1);
      BigEndianRoundTrip(n % Pow256(k - 1), k - 1);
      assert BigEndian(n, k)[1..] == BigEndian(n % Pow256(k - 1), k - 1);
    }
  }

  /** The `k` low-order bytes of `n`, least significant first. */
  function LittleEndian(n: nat, k: nat): (r: Bytes)
    requires n < Pow256(k)
    ensures |r| == k
    decreases k
  {
    if k == 0 then [] else [(n % 256) as byte] + LittleEndian(n / 256, k - 1)
  }

  function FromLittleEndian(bs: Bytes): (r: nat)
    ensures r < Pow256(|bs|)
    decreases |bs|
  {
    if bs == [] then 0 else bs[0] as nat + 256 * FromLittleEndian(bs[1..])
  }

  lemma {:induction false} LittleEndianRoundTrip(n: nat, k: nat)
    requires n < Pow256(k)
    ensures FromLittleEndian(LittleEndian(n, k)) == n
    decreases k
  {
    if k > 0 {
      LittleEndianRoundTrip(n / 256, k - 1);
      assert LittleEndian(n, k)[1..] == LittleEndian(n / 256, k - 1);
    }
  }

  // ---- Key order ----

  /** Lexicographic order on byte strings; a proper prefix comes first. */
  predicate Before(x: Bytes, y: Bytes)
    decreases |x|
  {
    y != [] && (x == [] || x[0] < y[0] || (x[0] == y[0] && Before(x[1..], y[1..])))
  }

  lemma {:induction false} BeforeIsTotal(x: Bytes, y: Bytes)
    ensures (Before(x, y) || Before(y, x)) <==> x != y
    ensures !(Before(x, y) && Before(y, x))
    decreases |x|
  {
    if x != [] && y != [] {
      BeforeIsTotal(x[1..], y[1..]);
      assert x == [x[0]] + x[1..] && y == [y[0]] + y[1..];
    }
  }

  lemma {:induction false} BeforeIsTransitive(x: Bytes, y: Bytes, z: Bytes)
    requires Before(x, y) && Before(y, z)
    ensures Before(x, z)
    decreases |x|
  {
    if x != [] && x[0] == y[0] && y[0] == z[0] {
      BeforeIsTransitive(x[1..], y[1..], z[1..]);
    }
  }

  /** Big-endian keys of one width are visited in numeric order. */
  lemma {:induction false} BigEndianOrder(n: nat, m: nat, k: nat)
    requires n < Pow256(k) && m < Pow256(k)
    ensures Before(BigEndian(n, k), BigEndian(m, k)) <==> n < m
    decreases k
  {
    if k > 0 {
      var a, x := SplitTop(n, k);
      var b, y := SplitTop(m, k);
      BigEndianOrder(x, y, k - 1);
      assert BigEndian(n, k)[1..] == BigEndian(x, k - 1);
      assert BigEndian(m, k)[1..] == BigEndian(y, k - 1);
      DigitOrder(a, x, b, y, Pow256(k - 1));
    }
  }

  /** Byte strings of one length are visited in the order of the numbers they stand for. */
  lemma {:induction false} BytesOrder(x: Bytes, y: Bytes)
    requires |x| == |y|
    ensures Before(x, y) <==> FromBigEndian(x) < FromBigEndian(y)
    decreases |x|
  {
    if x != [] {
      BytesOrder(x[1..], y[1..]);
      DigitOrder(x[0] as nat, FromBigEndian(x[1..]), y[0] as nat, FromBigEndian(y[1..]), Pow256(|x| - 1));
    }
  }

  lemma SplitTop(n: nat, k: nat) returns (d: nat, low: nat)
    requires 0 < k && n < Pow256(k)
    ensures d < 256 && low < Pow256(k - 1) && n == d * Pow256(k - 1) + low
    ensures BigEndian(n, k) == [d as byte] + BigEndian(low, k - 1)
  {
    TopDigit(n, k - 1);
    d, low := n / Pow256(k - 1), n % Pow256(k - 1);
  }

  lemma DigitOrder(a: nat, x: nat, b: nat, y: nat, p: nat)
    requires x < p && y < p
    ensures a * p + x < b * p + y <==> a < b || (a == b && x < y)
  {
    if a < b {
      assert (a + 1) * p <= b * p;
    }
    if b < a {
      assert (b + 1) * p <= a * p;
    }
  }

  // ---- Cursors ----

  /** `k` is the first of `keys` that is at or after `from`, or after it if `strict`. */
  ghost predicate IsFirst(k: Option<Bytes>, keys: set<Bytes>, from: Bytes, strict: bool) {
    match k
    case None => forall x :: x in keys ==> !Reaches(x, from, strict)
    case Some(v) => v in keys && Reaches(v, from, strict)
                    && forall x :: x in keys && Reaches(x, from, strict) ==> x == v || Before(v, x)
  }

  predicate Reaches(x: Bytes, from: Bytes, strict: bool) {
    Before(from, x) || (!strict && x == from)
  }

  /** A cursor's Seek (`strict` false) and Next (`strict` true). */
  method First(keys: set<Bytes>, from: Bytes, strict: bool) returns (k: Option<Bytes>)
    ensures IsFirst(k, keys, from, strict)
  {
    k := None;
    var todo := keys;
    while todo != {}
      invariant todo <= keys
      invariant IsFirst(k, keys - todo, from, strict)
      decreases |todo|
    {
      var x :| x in todo;
      ghost var seen := keys - todo;
      if Reaches(x, from, strict) && (k.None? || Before(x, k.value)) {
        forall y | y in seen && Reaches(y, from, strict)
          ensures Before(x, y)
        {
          if y != k.value {
            BeforeIsTransitive(x, k.value, y);
          }
        }
        k := Some(x);
      } else if k.Some? {
        BeforeIsTotal(x, k.value);
      }
      assert keys - (todo - {x}) == seen + {x};
      todo := todo - {x};
    }
    assert keys - {} == keys;
  }
}

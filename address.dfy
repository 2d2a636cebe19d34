/** How a cache level splits a byte address into a set index and a tag.
    `Cache.read` does it with shifts and a base-2 logarithm, `Cache.write`
    with integer division; both are modelled here and related. */
module Address {

  /** Bytes per cache line, at every level. */
  const LineBytes: nat := 64

  function Pow2(n: nat): (r: nat)
    ensures r >= 1
  {
    if n == 0 then 1 else 2 * Pow2(n - 1)
  }

  ghost predicate IsPow2(x: nat)
  {
    exists n: nat :: Pow2(n) == x
  }

  /** `math.floor(math.log2(x))`, computed exactly. */
  function Log2Floor(x: nat): (r: nat)
    requires x >= 1
    ensures Pow2(r) <= x < 2 * Pow2(r)
  {
    if x == 1 then 0 else 1 + Log2Floor(x / 2)
  }

  /** Python's `a >> n` on a non-negative integer: `n` halvings. */
  function ShiftRight(a: nat, n: nat): nat
  {
    if n == 0 then a else ShiftRight(a / 2, n - 1)
  }

  /** Shifting right by `n` bits is floor division by `2^n`. */
  lemma {:induction false} ShiftRightDivides(a: nat, n: nat)
    ensures ShiftRight(a, n) == a / Pow2(n)
  {
    if n > 0 {
      ShiftRightDivides(a / 2, n - 1);
      DivideTwice(a, 2, Pow2(n - 1));
    }
  }

  datatype Split = Split(setIndex: nat, tag: nat)

  /** The split `Cache.read` computes:
      `(address >> 6) % S` and `address >> floor(log2(64 * S))`. */
  function ProbeSplit(address: nat, numSets: nat): (s: Split)
    requires numSets >= 1
    ensures s.setIndex < numSets
    ensures s.setIndex == (address / LineBytes) % numSets
  {
    assert Pow2(6) == LineBytes;
    ShiftRightDivides(address, 6);
    Split(ShiftRight(address, 6) % numSets, ShiftRight(address, Log2Floor(LineBytes * numSets)))
  }

  /** The split `Cache.write` computes:
      `(address // 64) % S` and `address // (S * 64)`.
      The pair, with the offset in the line, gives the address back. */
  function InstallSplit(address: nat, numSets: nat): (s: Split)
    requires numSets >= 1
    ensures s.setIndex < numSets
    ensures address == s.tag * (LineBytes * numSets) + s.setIndex * LineBytes + address % LineBytes
  {
    DivideTwice(address, LineBytes, numSets);
    Split((address / LineBytes) % numSets, address / (numSets * LineBytes))
  }

  /** Byte address of the first byte of the line holding `tag` in set
      `setIndex`: the inverse of `InstallSplit`. */
  function LineAddress(tag: nat, setIndex: nat, numSets: nat): nat
  {
    tag * (LineBytes * numSets) + setIndex * LineBytes
  }

  lemma DivideTwice(a: nat, d: nat, e: nat)
    requires d >= 1 && e >= 1
    ensures (a / d) / e == a / (e * d)
    ensures a == (a / (e * d)) * (d * e) + ((a / d) % e) * d + a % d
    ensures (a / d) % e < e
  {
    var q, r := a / d, a % d;
    var t, u := q / e, q % e;
    Recombine(d, e, q, r, t, u);
    DivisionIsUnique(a, d * e, t, d * u + r);
    assert e * d == d * e;
  }

  /** a == d*q + r with q == e*t + u is a == (d*e)*t + (d*u + r), and the
      remainder part stays below d*e. */
  lemma Recombine(d: nat, e: nat, q: nat, r: nat, t: nat, u: nat)
    requires r < d && u < e && q == e * t + u
    ensures d * q + r == (d * e) * t + (d * u + r)
    ensures d * u + r < d * e
    ensures u * d == d * u && t * (d * e) == (d * e) * t
  {
    MulDistributes(d, e * t, u);
    MulAssociates(d, e, t);
    MulMonotone(d, u, e - 1);
    MulDistributes(d, e - 1, 1);
  }

  lemma MulDistributes(m: nat, x: nat, y: nat)
    ensures m * (x + y) == m * x + m * y
  {
  }

  lemma MulAssociates(x: nat, y: nat, z: nat)
    ensures x * (y * z) == (x * y) * z
  {
  }

  lemma MulMonotone(m: nat, x: nat, y: nat)
    requires x <= y
    ensures m * x <= m * y
  {
    MulDistributes(m, x, y - x);
  }

  lemma DivisionIsUnique(a: nat, m: nat, t: nat, rest: nat)
    requires m >= 1 && rest < m && a == m * t + rest
    ensures a / m == t
  {
    var t', r' := a / m, a % m;
    assert a == m * t' + r';
    if t' < t {
      MulMonotone(m, t' + 1, t);
      MulDistributes(m, t', 1);
      assert false;
    } else if t' > t {
      MulMonotone(m, t + 1, t');
      MulDistributes(m, t, 1);
      assert false;
    }
  }

  lemma {:induction false} Log2OfPow2(n: nat)
    ensures Log2Floor(Pow2(n)) == n
  {
    if n > 0 {
      assert Pow2(n) / 2 == Pow2(n - 1);
      Log2OfPow2(n - 1);
    }
  }

  /** When `64 * S` is a power of two, the shift form of `Cache.read` and the
      division form of `Cache.write` agree on every address, so a line
      installed by `write` is looked up by `read` in the same set under the
      same tag. */
  lemma SplitsAgree(address: nat, numSets: nat)
    requires numSets >= 1 && IsPow2(LineBytes * numSets)
    ensures ProbeSplit(address, numSets) == InstallSplit(address, numSets)
  {
    var n: nat :| Pow2(n) == LineBytes * numSets;
    Log2OfPow2(n);
    ShiftRightDivides(address, n);
    assert numSets * LineBytes == LineBytes * numSets;
  }

  /** Without that condition the two forms disagree: with three sets,
      `read` shifts by floor(log2(192)) = 7 bits while `write` divides by
      192, so address 128 gets tag 1 from one and tag 0 from the other. */
  lemma SplitsDivergeOffPowerOfTwo()
    ensures ProbeSplit(128, 3).tag == 1
    ensures InstallSplit(128, 3).tag == 0
    ensures ProbeSplit(128, 3).setIndex == InstallSplit(128, 3).setIndex == 2
  {
    assert Log2Floor(192) == 7 by {
      assert Log2Floor(3) == 1;
      assert Log2Floor(6) == 2;
      assert Log2Floor(12) == 3;
      assert Log2Floor(24) == 4;
      assert Log2Floor(48) == 5;
      assert Log2Floor(96) == 6;
    }
    assert Pow2(7) == 128;
  }

  /** The same holds for every set count with `64 * S` not a power of two:
      the first address of the shift width, `2^floor(log2(64 * S))`, gets
      tag 1 from `read` but tag 0 from `write`. */
  lemma SplitsDisagreeOffPowerOfTwo(numSets: nat)
    requires numSets >= 1 && !IsPow2(LineBytes * numSets)
    ensures var address := Pow2(Log2Floor(LineBytes * numSets));
      ProbeSplit(address, numSets).tag == 1 && InstallSplit(address, numSets).tag == 0
  {
    var m := LineBytes * numSets;
    var k := Log2Floor(m);
    var p := Pow2(k);
    ShiftRightDivides(p, k);
    assert p != m;
    assert p < m;
    assert p / p == 1;
    assert numSets * LineBytes == m;
    DivisionIsUnique(p, m, 0, p);
  }

  /** Round trip: splitting the address of a line gives back its set and tag. */
  lemma {:induction false} LineAddressRoundTrip(tag: nat, setIndex: nat, numSets: nat)
    requires setIndex < numSets
    ensures InstallSplit(LineAddress(tag, setIndex, numSets), numSets) == Split(setIndex, tag)
  {
    var a := LineAddress(tag, setIndex, numSets);
    assert setIndex * LineBytes < LineBytes * numSets;
    DivisionIsUnique(a, LineBytes, tag * numSets + setIndex, 0);
    DivisionIsUnique(tag * numSets + setIndex, numSets, tag, setIndex);
    DivisionIsUnique(a, numSets * LineBytes, tag, setIndex * LineBytes);
  }
}

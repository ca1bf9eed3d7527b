/** Powers of two and numbers read from bytes bit by bit. */
module Bits {

  type Byte = b: int | 0 <= b < 256

  function Pow2(n: nat): (r: nat)
    ensures r >= 1
  {
    if n == 0 then 1 else 2 * Pow2(n - 1)
  }

  lemma {:induction false} Pow2Add(a: nat, b: nat)
    ensures Pow2(a + b) == Pow2(a) * Pow2(b)
  {
    if a > 0 {
      Pow2Add(a - 1, b);
    }
  }

  lemma {:induction false} Pow2Grows(a: nat, b: nat)
    requires a <= b
    ensures Pow2(a) <= Pow2(b)
    decreases b - a
  {
    if a < b {
      Pow2Grows(a + 1, b);
    }
  }

  lemma MulIsAtLeast(k: int, d: int)
    requires k >= 1 && d > 0
    ensures k * d >= d
  {
  }

  /** Quotient and remainder are determined by their defining equation. */
  lemma DivModUnique(q: int, d: int, r: int)
    requires 0 <= r < d
    ensures (q * d + r) / d == q && (q * d + r) % d == r
  {
    var x := q * d + r;
    var k := x / d;
    assert k * d + x % d == x;
    assert (q - k) * d == x % d - r;
    if q - k >= 1 {
      MulIsAtLeast(q - k, d);
    } else if k - q >= 1 {
      MulIsAtLeast(k - q, d);
    }
  }

  /** Bit i of an address, bit 0 being the most significant bit of byte 0. */
  function Bit(a: seq<Byte>, i: nat): (r: int)
    requires i < 8 * |a|
    ensures 0 <= r <= 1
  {
    a[i / 8] / Pow2(7 - i % 8) % 2
  }

  /** The number formed by n bits from bit i on. */
  function Field(a: seq<Byte>, i: nat, n: nat): (r: nat)
    requires i + n <= 8 * |a|
    ensures r < Pow2(n)
  {
    if n == 0 then 0 else 2 * Field(a, i, n - 1) + Bit(a, i + n - 1)
  }

  lemma {:induction false} FieldSplit(a: seq<Byte>, i: nat, m: nat, n: nat)
    requires i + m + n <= 8 * |a|
    ensures Field(a, i, m + n) == Field(a, i, m) * Pow2(n) + Field(a, i + m, n)
  {
    if n > 0 {
      FieldSplit(a, i, m, n - 1);
      DoubleProduct(Field(a, i, m), Pow2(n - 1));
      assert Field(a, i, m + n) == 2 * Field(a, i, m + (n - 1)) + Bit(a, i + m + n - 1);
    }
  }

  lemma DoubleProduct(f: int, p: int)
    ensures f * (2 * p) == 2 * (f * p)
  {
  }

  lemma Regroup(k: int, e: int, p: int)
    requires 0 <= e <= 1
    ensures (2 * k + e) * p == k * (2 * p) + (if e == 1 then p else 0)
  {
    DoubleProduct(k, p);
    assert (2 * k + e) * p == 2 * k * p + e * p;
    assert 2 * k * p == 2 * (k * p);
  }

  lemma HalfOf(b: int, p: int, q: int, r: int, k: int, e: int)
    requires 0 <= r < p && b == q * p + r && q == 2 * k + e && 0 <= e <= 1
    ensures b / (2 * p) == k
  {
    Regroup(k, e, p);
    var t := (if e == 1 then p else 0) + r;
    assert b == k * (2 * p) + t;
    DivModUnique(k, 2 * p, t);
  }

  lemma HalfOfQuotient(b: int, p: int)
    requires p > 0
    ensures b / (2 * p) == b / p / 2
  {
    var q, r := b / p, b % p;
    assert b == q * p + r;
    HalfOf(b, p, q, r, q / 2, q % 2);
  }

  lemma {:induction false} ByteStart(a: seq<Byte>, k: nat, j: nat)
    requires k < |a| && j <= 8
    ensures Field(a, 8 * k, j) == a[k] / Pow2(8 - j)
  {
    if j == 0 {
      assert Pow2(8) == 256 by { Pow2Add(4, 4); }
    } else {
      ByteStart(a, k, j - 1);
      HalfOfQuotient(a[k], Pow2(8 - j));
      BitOfByte(a, k, j - 1);
    }
  }

  lemma BitOfByte(a: seq<Byte>, k: nat, j: nat)
    requires k < |a| && j < 8
    ensures Bit(a, 8 * k + j) == a[k] / Pow2(7 - j) % 2
  {
    assert (8 * k + j) / 8 == k;
  }

  lemma ByteIsField(a: seq<Byte>, k: nat)
    requires k < |a|
    ensures Field(a, 8 * k, 8) == a[k]
  {
    ByteStart(a, k, 8);
  }

  /** A field inside a longer one is found by a shift and a mask. */
  lemma FieldInside(a: seq<Byte>, i: nat, skip: nat, n: nat, rest: nat)
    requires i + skip + n + rest <= 8 * |a|
    ensures Field(a, i, skip + n + rest) / Pow2(rest) % Pow2(n) == Field(a, i + skip, n)
  {
    FieldSplit(a, i, skip + n, rest);
    DivModUnique(Field(a, i, skip + n), Pow2(rest), Field(a, i + skip + n, rest));
    FieldSplit(a, i, skip, n);
    DivModUnique(Field(a, i, skip), Pow2(n), Field(a, i + skip, n));
  }
}

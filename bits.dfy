/** Single-bit masks on Python integers, as the flag decoder uses them. */
module Bits {

  function Pow2(k: nat): (r: nat)
    ensures r >= 1
  {
    if k == 0 then 1 else 2 * Pow2(k - 1)
  }

  /** `n & mask` is non-zero, for a mask that is a single bit. Dafny's `/`
      rounds down for a positive divisor, as Python's `//` does, so this
      agrees with Python's two's-complement `&` on negative numbers too. */
  predicate HasFlag(n: int, mask: nat)
    requires mask > 0
  {
    (n / mask) % 2 == 1
  }

  /** The number of set bits among the lowest `width` bits of `n`. */
  function PopCount(n: int, width: nat): nat
  {
    if width == 0 then 0
    else PopCount(n, width - 1) + (if HasFlag(n, Pow2(width - 1)) then 1 else 0)
  }

  /** Reducing `n` modulo 64 keeps each of its six lowest bits. */
  lemma LowSixBitsSurviveMod64(n: int)
    ensures forall k :: 0 <= k < 6 ==> HasFlag(n % 64, Pow2(k)) == HasFlag(n, Pow2(k))
  {
    forall k | 0 <= k < 6 ensures HasFlag(n % 64, Pow2(k)) == HasFlag(n, Pow2(k)) {
      BitSurvivesMod64(n, k);
    }
  }

  /** Bit `k` of `n`, for `k < 6`, is bit `k` of `n % 64`. */
  lemma BitSurvivesMod64(n: int, k: nat)
    requires k < 6
    ensures HasFlag(n % 64, Pow2(k)) == HasFlag(n, Pow2(k))
  {
    assert Pow2(1) == 2 && Pow2(2) == 4 && Pow2(3) == 8;
    assert Pow2(4) == 16 && Pow2(5) == 32;
    match k
    case 0 => MaskSurvivesMod64(n, 1, 32);
    case 1 => MaskSurvivesMod64(n, 2, 16);
    case 2 => MaskSurvivesMod64(n, 4, 8);
    case 3 => MaskSurvivesMod64(n, 8, 4);
    case 4 => MaskSurvivesMod64(n, 16, 2);
    case 5 => MaskSurvivesMod64(n, 32, 1);
  }

  /** For a mask `m` with `m * 2c == 64`: writing `n == 64 * q + r`, the
      quotient of `n` by `m` is `2c * q + r / m`, which has the parity of
      `r / m`. */
  lemma MaskSurvivesMod64(n: int, m: nat, c: int)
    requires m > 0 && m * (2 * c) == 64
    ensures HasFlag(n % 64, m) == HasFlag(n, m)
  {
    var q, r := n / 64, n % 64;
    var t, u := r / m, r % m;
    var e := c * q;
    assert n == 64 * q + r && r == m * t + u;
    SplitProduct(m, c, q, t);
    assert n == m * (2 * e + t) + u;
    DivUnique(n, m, 2 * e + t, u);
    Parity(e, t);
  }

  /** `(m * 2c) * q + m * t` is `m` times `2 * (c * q) + t`. */
  lemma SplitProduct(m: int, c: int, q: int, t: int)
    ensures (m * (2 * c)) * q + m * t == m * (2 * (c * q) + t)
  {
  }

  /** The quotient is determined by the division equation. */
  lemma DivUnique(n: int, m: int, a: int, b: int)
    requires m > 0 && n == m * a + b && 0 <= b < m
    ensures n / m == a
  {
    var d := a - n / m;
    assert m * d == n % m - b by {
      assert n == m * (n / m) + n % m;
      assert m * d == m * a - m * (n / m);
    }
    if d >= 1 {
      MulAtLeast(m, d);
    } else if d <= -1 {
      MulAtLeast(m, -d);
    }
  }

  /** A positive multiple of `m` is at least `m`. */
  lemma MulAtLeast(m: int, d: int)
    requires m > 0 && d >= 1
    ensures m * d >= m && m * -d <= -m
  {
    assert m * d == m * (d - 1) + m;
  }

  lemma Parity(a: int, t: int)
    ensures (2 * a + t) % 2 == t % 2
  {
    assert 2 * a + t == 2 * (a + t / 2) + t % 2;
  }
}

/** Machine arithmetic used by the ring buffer: powers of two, bitwise "and" on naturals,
    and the signed reading of a difference of two wrapping counters. */
module Arith {

  function Pow2(k: nat): (r: nat)
    ensures r >= 1
    ensures k >= 1 ==> r >= 2
  {
    if k == 0 then 1 else 2 * Pow2(k - 1)
  }

  ghost predicate IsPow2(n: nat) {
    exists k: nat :: n == Pow2(k)
  }

  /** Bitwise "and", one binary digit at a time. */
  function And(a: nat, b: nat): (r: nat)
    ensures r <= a && r <= b
  {
    if a == 0 || b == 0 then 0
    else 2 * And(a / 2, b / 2) + (if a % 2 == 1 && b % 2 == 1 then 1 else 0)
  }

  lemma MulAtLeast(d: int, m: nat)
    ensures d >= 1 ==> d * m >= m
    ensures d <= -1 ==> d * m <= 0 - m
  {
    if d >= 1 {
      assert d * m == m + (d - 1) * m;
    } else if d <= -1 {
      assert d * m == 0 - m + (d + 1) * m;
    }
  }

  lemma DivUnique(p: int, m: nat, q: int, r: nat)
    requires m > 0 && p == q * m + r && r < m
    ensures p % m == r && p / m == q
  {
    var pq, pr := p / m, p % m;
    assert p == pq * m + pr;
    assert (pq - q) * m == r - pr;
    MulAtLeast(pq - q, m);
  }

  lemma AddMultiple(p: int, m: nat, q: int)
    requires m > 0
    ensures (p + q * m) % m == p % m
  {
    assert p == (p / m) * m + p % m;
    assert (p / m + q) * m == (p / m) * m + q * m;
    DivUnique(p + q * m, m, p / m + q, p % m);
  }

  lemma HalveMod(p: nat, m: nat)
    requires m > 0
    ensures p % (2 * m) == 2 * ((p / 2) % m) + p % 2
  {
    var h, b := p / 2, p % 2;
    var q, r := h / m, h % m;
    assert h == q * m + r;
    assert p == q * (2 * m) + (2 * r + b) by {
      assert q * (2 * m) == 2 * (q * m);
    }
    DivUnique(p, 2 * m, q, 2 * r + b);
  }

  lemma AndOddMask(p: nat, m: nat)
    requires m > 0
    ensures And(p, 2 * m - 1) == 2 * And(p / 2, m - 1) + p % 2
  {
    var b := 2 * m - 1;
    assert b / 2 == m - 1 && b % 2 == 1;
  }

  /** Masking with 2^k - 1 is the remainder modulo 2^k: `pos & buffer_mask_` is an index. */
  lemma {:induction false} MaskIsMod(p: nat, k: nat)
    ensures And(p, Pow2(k) - 1) == p % Pow2(k)
  {
    if k > 0 {
      AndOddMask(p, Pow2(k - 1));
      MaskIsMod(p / 2, k - 1);
      HalveMod(p, Pow2(k - 1));
    }
  }

  /** The constructor's test `(n & (n - 1)) == 0` accepts exactly the powers of two. */
  lemma {:induction false} PowerOfTwoTest(n: nat)
    requires n >= 1
    ensures And(n, n - 1) == 0 <==> IsPow2(n)
  {
    if n == 1 {
      assert Pow2(0) == 1;
    } else if n % 2 == 0 {
      PowerOfTwoTest(n / 2);
      assert (n - 1) / 2 == n / 2 - 1;
      assert And(n, n - 1) == 2 * And(n / 2, n / 2 - 1);
      if IsPow2(n / 2) {
        var k: nat :| n / 2 == Pow2(k);
        assert n == Pow2(k + 1);
      }
      if IsPow2(n) {
        var k: nat :| n == Pow2(k);
        assert n / 2 == Pow2(k - 1);
      }
    } else {
      assert (n - 1) / 2 == n / 2;
      AndSelf(n / 2);
      forall k: nat ensures n != Pow2(k) {
        if k > 0 { assert Pow2(k) == 2 * Pow2(k - 1); }
      }
    }
  }

  lemma {:induction false} AndSelf(n: nat)
    ensures And(n, n) == n
  {
    if n > 0 { AndSelf(n / 2); }
  }

  /** The cell index of a position: `pos & buffer_mask_`. */
  function Index(pos: nat, mask: nat): (i: nat)
    ensures i <= mask
  {
    And(pos, mask)
  }

  lemma ModInjective(p: nat, q: nat, n: nat)
    requires n > 0 && p % n == q % n && p - q < n && q - p < n
    ensures p == q
  {
    var a, b := p / n, q / n;
    assert p == a * n + p % n && q == b * n + q % n;
    assert p - q == (a - b) * n;
    MulAtLeast(a - b, n);
  }

  /** Two positions less than one lap apart share a cell only when they are equal. */
  lemma IndexInjective(p: nat, q: nat, k: nat)
    requires Index(p, Pow2(k) - 1) == Index(q, Pow2(k) - 1)
    requires p - q < Pow2(k) && q - p < Pow2(k)
    ensures p == q
  {
    MaskIsMod(p, k);
    MaskIsMod(q, k);
    ModInjective(p, q, Pow2(k));
  }

  /** Positions one lap apart share a cell. */
  lemma IndexNextLap(p: nat, k: nat)
    ensures Index(p + Pow2(k), Pow2(k) - 1) == Index(p, Pow2(k) - 1)
  {
    MaskIsMod(p, k);
    MaskIsMod(p + Pow2(k), k);
    AddMultiple(p, Pow2(k), 1);
  }

  /** With at least two cells, neighbouring positions use different cells. */
  lemma IndexSuccDiffers(p: nat, k: nat)
    requires k >= 1
    ensures Index(p + 1, Pow2(k) - 1) != Index(p, Pow2(k) - 1)
  {
    if Index(p + 1, Pow2(k) - 1) == Index(p, Pow2(k) - 1) {
      IndexInjective(p + 1, p, k);
    }
  }

  lemma DoubleProduct(c: nat, n: nat)
    ensures (2 * c) * n == 2 * (c * n)
  {
  }

  lemma {:induction false} Pow2Divides(k: nat, w: nat)
    requires k <= w
    ensures Pow2(w) == Pow2(w - k) * Pow2(k)
  {
    if k == w {
      assert Pow2(w - k) == 1;
    } else {
      Pow2Divides(k, w - 1);
      assert Pow2(w) == 2 * Pow2(w - 1) && Pow2(w - k) == 2 * Pow2(w - 1 - k);
      hide Pow2;
      DoubleProduct(Pow2(w - 1 - k), Pow2(k));
    }
  }

  lemma ModOfMod(p: nat, n: nat, c: nat)
    requires n > 0 && c > 0
    ensures c * n > 0 && (p % (c * n)) % n == p % n
  {
    var m := c * n;
    MulAtLeast(c, n);
    var r, q := p % m, p / m;
    assert p == q * m + r;
    assert p == r + (q * c) * n by {
      assert q * (c * n) == (q * c) * n;
    }
    AddMultiple(r, n, q * c);
  }

  /** Wrapping a position to w bits does not change its cell. */
  lemma IndexWraps(p: nat, k: nat, w: nat)
    requires k <= w
    ensures Index(Wrap(p, Pow2(w)), Pow2(k) - 1) == Index(p, Pow2(k) - 1)
  {
    MaskIsMod(p, k);
    MaskIsMod(p % Pow2(w), k);
    Pow2Divides(k, w);
    ModOfMod(p, Pow2(k), Pow2(w - k));
  }

  /** What is left of a counter that wraps at m. */
  function Wrap(x: int, m: nat): (r: nat)
    requires m > 0
    ensures r < m
  {
    x % m
  }

  /** A w-bit value read as two's complement. */
  function ToSigned(x: nat, m: nat): int
    requires m >= 2 && x < m
  {
    if x < m / 2 then x else x - m
  }

  /** `(intptr_t)a - (intptr_t)b` on w-bit values, the subtraction wrapping. */
  function SignedSub(a: nat, b: nat, m: nat): int
    requires m >= 2 && a < m && b < m
  {
    ToSigned(Wrap(ToSigned(a, m) - ToSigned(b, m), m), m)
  }

  /** The signed difference of two wrapped counters depends only on their true difference. */
  lemma SignedSubOfDifference(a: int, b: int, m: nat)
    requires m >= 2
    ensures SignedSub(Wrap(a, m), Wrap(b, m), m) == ToSigned(Wrap(a - b, m), m)
  {
    var x, y := a % m, b % m;
    var dx := if x < m / 2 then 0 else -1;
    var dy := if y < m / 2 then 0 else -1;
    assert a == (a / m) * m + x && b == (b / m) * m + y;
    var q := dx - dy - a / m + b / m;
    assert ToSigned(x, m) - ToSigned(y, m) == (a - b) + q * m by {
      assert q * m == dx * m - dy * m - (a / m) * m + (b / m) * m;
    }
    AddMultiple(a - b, m, q);
  }

  /** A difference less than one full wrap keeps its sign exactly when it fits the signed range. */
  lemma SignKeptIffInRange(d: int, m: nat)
    requires m >= 2 && m % 2 == 0 && 0 - m < d < m
    ensures var r := ToSigned(Wrap(d, m), m);
            ((r < 0) == (d < 0) && (r == 0) == (d == 0)) <==> 0 - m / 2 <= d < m / 2
    ensures 0 - m / 2 <= d < m / 2 ==> ToSigned(Wrap(d, m), m) == d
  {
    if d >= 0 {
      DivUnique(d, m, 0, d);
    } else {
      DivUnique(d, m, -1, d + m);
    }
  }
}

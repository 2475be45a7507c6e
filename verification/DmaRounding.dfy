/** The rounding of bf_sys_dma_hugepages.c, by bit masks on 32-bit unsigned integers. */
module DmaRounding {
  import opened Arithmetic

  const UINT32: nat := 0x1_0000_0000

  // ---------- Bit operations on unsigned integers ----------

  function Pow2(k: nat): (p: nat)
    ensures 0 < p
  {
    if k == 0 then 1 else 2 * Pow2(k - 1)
  }

  function And(x: nat, y: nat): nat {
    if x == 0 || y == 0 then 0 else 2 * And(x / 2, y / 2) + (if x % 2 == 1 && y % 2 == 1 then 1 else 0)
  }

  /** ~x for a uint32_t. */
  function Not32(x: nat): nat
    requires x < UINT32
  {
    UINT32 - 1 - x
  }

  lemma {:induction false} AndLow(x: nat, k: nat)
    ensures And(x, Pow2(k) - 1) == x % Pow2(k)
    decreases k
  {
    if k != 0 {
      AndLow(x / 2, k - 1);
      HalfMod(x, Pow2(k - 1));
    }
  }

  lemma HalfMod(x: nat, p: nat)
    requires 0 < p
    ensures x % (2 * p) == 2 * (x / 2 % p) + x % 2
  {
    var q, r := x / 2 / p, x / 2 % p;
    assert x == 2 * (q * p + r) + x % 2;
    assert x == q * (2 * p) + (2 * r + x % 2);
    ModUnique(x, 2 * p, q, 2 * r + x % 2);
  }

  lemma ModUnique(x: nat, d: nat, q: nat, r: nat)
    requires 0 < d && r < d && x == q * d + r
    ensures x % d == r && x / d == q
  {
    if x / d < q {
      assert x / d + 1 <= q;
      MulLe(x / d + 1, q, d);
    } else if q < x / d {
      MulLe(q + 1, x / d, d);
    }
  }

  /** Masking with ~(2^k - 1) takes off the remainder. */
  lemma {:induction false} AndHigh(x: nat, k: nat, n: nat)
    requires k <= n && x < Pow2(n)
    ensures Pow2(k) <= Pow2(n) && And(x, Pow2(n) - Pow2(k)) == x - x % Pow2(k)
    decreases n
  {
    if k == 0 {
      AndLow(x, n);
      Small(x, Pow2(n));
    } else {
      AndHigh(x / 2, k - 1, n - 1);
      HalfMod(x, Pow2(k - 1));
      var y := Pow2(n) - Pow2(k);
      assert y == 2 * (Pow2(n - 1) - Pow2(k - 1));
    }
  }

  lemma Small(x: nat, d: nat)
    requires x < d
    ensures x % d == x
  {
  }

  /** The test `x & (x - 1)` passes exactly for 0 and the powers of two. */
  lemma {:induction false} PowerOfTwoTest(x: nat)
    requires 0 < x
    ensures And(x, x - 1) == 0 <==> exists k: nat :: x == Pow2(k)
    decreases x
  {
    if x == 1 {
      assert x == Pow2(0);
    } else if x % 2 == 0 {
      PowerOfTwoTest(x / 2);
      assert (x - 1) / 2 == x / 2 - 1;
      HalfPower(x);
    } else {
      assert (x - 1) / 2 == x / 2 && x / 2 != 0;
      AndSame(x / 2);
      forall k: nat ensures x != Pow2(k) {
        assert k == 0 || Pow2(k) == 2 * Pow2(k - 1);
      }
    }
  }

  lemma HalfPower(x: nat)
    requires 1 < x && x % 2 == 0
    ensures (exists k: nat :: x == Pow2(k)) <==> (exists k: nat :: x / 2 == Pow2(k))
  {
    if k: nat :| x / 2 == Pow2(k) {
      assert x == Pow2(k + 1);
    }
    if k: nat :| x == Pow2(k) {
      HalfOfPower(x, k);
      var half: nat := k - 1;
      assert x / 2 == Pow2(half);
    }
  }

  lemma HalfOfPower(x: nat, k: nat)
    requires 1 < x == Pow2(k)
    ensures 0 < k && x / 2 == Pow2(k - 1)
  {
  }

  lemma {:induction false} AndSame(x: nat)
    ensures And(x, x) == x
  {
    if x != 0 {
      AndSame(x / 2);
    }
  }

  // ---------- Rounding ----------

  function ConvToNextAligned(val: nat, alignment: nat): nat
    requires val < UINT32 && alignment < UINT32
  {
    var low := (alignment + UINT32 - 1) % UINT32;
    if And(val, low) != 0 then And((val + alignment) % UINT32, Not32(low)) else val
  }

  lemma {:induction false} Pow2Sum(a: nat, b: nat)
    ensures Pow2(a + b) == Pow2(a) * Pow2(b)
  {
    if a != 0 {
      Pow2Sum(a - 1, b);
    }
  }

  lemma Pow2Of32()
    ensures Pow2(32) == UINT32
  {
    assert Pow2(1) == 2 && Pow2(2) == 4 && Pow2(3) == 8 && Pow2(4) == 16;
    Pow2Sum(4, 4);
    Pow2Sum(8, 8);
    Pow2Sum(16, 16);
  }

  /** For a power of two it finds the least multiple that is not below the value. */
  lemma ConvertsToNextMultiple(val: nat, k: nat)
    requires k <= 32 && val + Pow2(k) < UINT32
    ensures var r := ConvToNextAligned(val, Pow2(k)); r % Pow2(k) == 0 && val <= r < val + Pow2(k)
  {
    Converts(val, k);
    RoundedUp(val, Pow2(k));
  }

  lemma Converts(val: nat, k: nat)
    requires k <= 32 && val + Pow2(k) < UINT32
    ensures var a := Pow2(k);
            ConvToNextAligned(val, a) == if val % a != 0 then val + a - (val + a) % a else val
  {
    NoWrap(val, Pow2(k));
    AndLow(val, k);
    AndHigh32(val + Pow2(k), k);
  }

  lemma AndHigh32(x: nat, k: nat)
    requires k <= 32 && x < UINT32
    ensures Pow2(k) <= UINT32 && And(x, UINT32 - Pow2(k)) == x - x % Pow2(k)
  {
    Pow2Of32();
    AndHigh(x, k, 32);
  }

  /** As long as nothing exceeds 32 bits. */
  lemma NoWrap(val: nat, a: nat)
    requires 0 < a && val + a < UINT32
    ensures ConvToNextAligned(val, a) == if And(val, a - 1) != 0 then And(val + a, UINT32 - a) else val
  {
    MaskOf(a);
    Small(val + a, UINT32);
    assert Not32(a - 1) == UINT32 - a;
  }

  lemma MaskOf(a: nat)
    requires 0 < a < UINT32
    ensures (a + UINT32 - 1) % UINT32 == a - 1
  {
  }

  lemma RoundedUp(val: nat, a: nat)
    requires 0 < a
    ensures var r := val + a - (val + a) % a; r % a == 0 && (val % a != 0 ==> val <= r < val + a)
  {
    var q, m := val / a, val % a;
    assert val + a == (q + 1) * a + m;
    ModUnique(val + a, a, q + 1, m);
    ModUnique((q + 1) * a, a, q + 1, 0);
  }

  /** Alignment 0 passes the power-of-two test, but makes every size 0. */
  lemma ZeroAlignmentLosesSize(val: nat)
    requires val < UINT32
    ensures And(0, UINT32 - 1) == 0 && ConvToNextAligned(val, 0) == 0
  {
    Pow2Of32();
    AndLow(val, 32);
    Small(val, UINT32);
  }

  // ---------- Multiples ----------

  lemma MulMod(q: nat, a: nat)
    requires 0 < a
    ensures q * a % a == 0
  {
    ModUnique(q * a, a, q, 0);
  }

  lemma SumOfMultiples(x: nat, y: nat, a: nat)
    requires 0 < a && x % a == 0 && y % a == 0
    ensures (x + y) % a == 0
    ensures x <= y ==> (y - x) % a == 0
  {
    var p, q := x / a, y / a;
    Quotient(x, a);
    Quotient(y, a);
    SumOfProducts(p, q, a);
    if x <= y {
      DifferenceOfMultiples(p, q, a);
    }
  }

  lemma Quotient(x: nat, a: nat)
    requires 0 < a && x % a == 0
    ensures x == x / a * a
  {
  }

  lemma SumOfProducts(p: nat, q: nat, a: nat)
    requires 0 < a
    ensures (p * a + q * a) % a == 0
  {
    assert p * a + q * a == (p + q) * a;
    MulMod(p + q, a);
  }

  lemma DifferenceOfMultiples(p: nat, q: nat, a: nat)
    requires 0 < a && p * a <= q * a
    ensures p <= q && (q * a - p * a) % a == 0
  {
    if p <= q {
      assert q * a - p * a == (q - p) * a;
      MulMod(q - p, a);
    } else {
      MulLt(q, p, a);
    }
  }

  lemma MulLt(a: nat, b: nat, d: nat)
    requires a < b && 0 < d
    ensures a * d < b * d
  {
  }

  lemma MultipleOfMultiple(x: nat, b: nat, a: nat)
    requires 0 < a && 0 < b && x % b == 0 && b % a == 0
    ensures x % a == 0
  {
    var p, q := x / b, b / a;
    assert x == p * (q * a) == (p * q) * a;
    MulMod(p * q, a);
  }

  lemma TimesMultiple(i: nat, x: nat, a: nat)
    requires 0 < a && x % a == 0
    ensures (i * x) % a == 0
  {
    var q := x / a;
    assert i * x == i * (q * a) == (i * q) * a;
    MulMod(i * q, a);
  }

  /** A smaller power of two divides a larger one. */
  lemma Pow2Divides(k: nat, n: nat)
    requires k <= n
    ensures Pow2(n) % Pow2(k) == 0
  {
    Pow2Sum(n - k, k);
    MulMod(Pow2(n - k), Pow2(k));
  }

  /** The divisors of a power of two are powers of two, so of two of them one divides the other. */
  lemma {:induction false} DivisorsOfPow2(d: nat, n: nat) returns (k: nat)
    requires 0 < d && Pow2(n) % d == 0
    ensures k <= n && d == Pow2(k)
    decreases n
  {
    k := 0;
    if n == 0 {
      DivisorOfOne(d);
    } else if d != 1 {
      var q := Pow2(n) / d;
      assert Pow2(n) == q * d;
      if d % 2 == 0 {
        var h := d / 2;
        assert q * d == 2 * (q * h);
        assert Pow2(n - 1) == q * h;
        MulMod(q, h);
        k := DivisorsOfPow2(h, n - 1);
        k := k + 1;
      } else {
        OddFactor(q, d);
        var h := q / 2;
        assert q * d == 2 * (h * d);
        assert Pow2(n - 1) == h * d;
        MulMod(h, d);
        k := DivisorsOfPow2(d, n - 1);
      }
    }
  }

  lemma DivisorOfOne(d: nat)
    requires 0 < d && 1 % d == 0
    ensures d == 1
  {
    if 1 < d {
      Small(1, d);
    }
  }

  lemma OddFactor(q: nat, d: nat)
    requires d % 2 == 1 && q * d % 2 == 0
    ensures q % 2 == 0
  {
    var e := d / 2;
    assert q * d == 2 * (q * e) + q;
  }
}

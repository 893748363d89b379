/** Python's integer bit operators restricted to non-negative integers.
    Each operator is defined by recursion on the binary digits, and each is
    characterised by a lemma about `Bit(x, i)`, the i-th binary digit. */
module Bits {

  /** 2 ** n */
  function Pow2(n: nat): (p: nat)
    ensures p >= 1
  {
    if n == 0 then 1 else 2 * Pow2(n - 1)
  }

  /** Binary digit i of x, counting from the least significant: (x >> i) & 1 == 1 */
  predicate Bit(x: nat, i: nat)
  {
    if i == 0 then x % 2 == 1 else Bit(x / 2, i - 1)
  }

  /** x << s */
  function Shl(x: nat, s: nat): nat
  {
    if s == 0 then x else 2 * Shl(x, s - 1)
  }

  /** x >> s */
  function Shr(x: nat, s: nat): nat
  {
    if s == 0 then x else Shr(x / 2, s - 1)
  }

  /** x & y */
  function And(x: nat, y: nat): nat
  {
    if x == 0 then 0
    else 2 * And(x / 2, y / 2) + (if x % 2 == 1 && y % 2 == 1 then 1 else 0)
  }

  /** x | y */
  function Or(x: nat, y: nat): nat
    decreases x + y
  {
    if x == 0 then y
    else if y == 0 then x
    else 2 * Or(x / 2, y / 2) + (if x % 2 == 1 || y % 2 == 1 then 1 else 0)
  }

  /** x & ~m, which is non-negative for non-negative x */
  function AndNot(x: nat, m: nat): nat
  {
    if x == 0 then 0
    else 2 * AndNot(x / 2, m / 2) + (if x % 2 == 1 && m % 2 == 0 then 1 else 0)
  }

  // ---------------------------------------------------------------------
  // Digit-wise characterisation of the operators

  lemma {:induction false} BitOfZero(i: nat)
    ensures !Bit(0, i)
  {
    if i > 0 {
      BitOfZero(i - 1);
    }
  }

  /** Two numbers with the same binary digits are equal. */
  lemma {:induction false} BitsDetermine(x: nat, y: nat)
    requires forall i: nat :: Bit(x, i) == Bit(y, i)
    ensures x == y
    decreases x + y
  {
    if x != 0 || y != 0 {
      assert Bit(x, 0) == Bit(y, 0);
      forall i: nat
        ensures Bit(x / 2, i) == Bit(y / 2, i)
      {
        assert Bit(x, i + 1) == Bit(y, i + 1);
      }
      BitsDetermine(x / 2, y / 2);
    }
  }

  lemma {:induction false} BitOfAnd(x: nat, y: nat, i: nat)
    ensures Bit(And(x, y), i) == (Bit(x, i) && Bit(y, i))
    decreases x
  {
    if x == 0 {
      BitOfZero(i);
    } else if i > 0 {
      var c := if x % 2 == 1 && y % 2 == 1 then 1 else 0;
      assert (2 * And(x / 2, y / 2) + c) / 2 == And(x / 2, y / 2);
      BitOfAnd(x / 2, y / 2, i - 1);
    }
  }

  lemma {:induction false} BitOfOr(x: nat, y: nat, i: nat)
    ensures Bit(Or(x, y), i) == (Bit(x, i) || Bit(y, i))
    decreases x + y
  {
    if x == 0 {
      BitOfZero(i);
    } else if y == 0 {
      BitOfZero(i);
    } else if i > 0 {
      var c := if x % 2 == 1 || y % 2 == 1 then 1 else 0;
      assert (2 * Or(x / 2, y / 2) + c) / 2 == Or(x / 2, y / 2);
      BitOfOr(x / 2, y / 2, i - 1);
    }
  }

  lemma {:induction false} BitOfAndNot(x: nat, m: nat, i: nat)
    ensures Bit(AndNot(x, m), i) == (Bit(x, i) && !Bit(m, i))
    decreases x
  {
    if x == 0 {
      BitOfZero(i);
    } else if i > 0 {
      var c := if x % 2 == 1 && m % 2 == 0 then 1 else 0;
      assert (2 * AndNot(x / 2, m / 2) + c) / 2 == AndNot(x / 2, m / 2);
      BitOfAndNot(x / 2, m / 2, i - 1);
    }
  }

  lemma {:induction false} BitOfShl(x: nat, s: nat, i: nat)
    ensures Bit(Shl(x, s), i) == (s <= i && Bit(x, i - s))
  {
    if s > 0 {
      if i > 0 {
        assert (2 * Shl(x, s - 1)) / 2 == Shl(x, s - 1);
        BitOfShl(x, s - 1, i - 1);
      }
    }
  }

  lemma {:induction false} BitOfShr(x: nat, s: nat, i: nat)
    ensures Bit(Shr(x, s), i) == Bit(x, i + s)
  {
    if s > 0 {
      BitOfShr(x / 2, s - 1, i);
    }
  }

  /** 2 ** n - 1 has exactly the digits 0 .. n-1 set. */
  lemma {:induction false} BitOfLowOnes(n: nat, i: nat)
    ensures Bit(Pow2(n) - 1, i) == (i < n)
  {
    if n == 0 {
      BitOfZero(i);
    } else if i > 0 {
      assert (Pow2(n) - 1) / 2 == Pow2(n - 1) - 1;
      BitOfLowOnes(n - 1, i - 1);
    }
  }

  // ---------------------------------------------------------------------
  // Bounds

  lemma {:induction false} BitAboveWidth(x: nat, n: nat, i: nat)
    requires x < Pow2(n) && n <= i
    ensures !Bit(x, i)
  {
    if n == 0 {
      BitOfZero(i);
    } else {
      BitAboveWidth(x / 2, n - 1, i - 1);
    }
  }

  lemma {:induction false} BelowPow2(x: nat, n: nat)
    requires forall i: nat :: n <= i ==> !Bit(x, i)
    ensures x < Pow2(n)
  {
    if n == 0 {
      forall i: nat
        ensures Bit(x, i) == Bit(0, i)
      {
        BitOfZero(i);
      }
      BitsDetermine(x, 0);
    } else {
      forall i: nat | n - 1 <= i
        ensures !Bit(x / 2, i)
      {
        assert !Bit(x, i + 1);
      }
      BelowPow2(x / 2, n - 1);
    }
  }

  // ---------------------------------------------------------------------
  // Arithmetic views

  lemma {:induction false} Pow2Add(a: nat, b: nat)
    ensures Pow2(a + b) == Pow2(a) * Pow2(b)
  {
    if a > 0 {
      Pow2Add(a - 1, b);
    }
  }

  lemma {:induction false} ShlIsMul(x: nat, s: nat)
    ensures Shl(x, s) == x * Pow2(s)
  {
    if s > 0 {
      ShlIsMul(x, s - 1);
    }
  }

  lemma {:induction false} MulAtLeast(k: nat, d: nat)
    requires 1 <= k
    ensures d <= k * d
  {
    if k > 1 {
      MulAtLeast(k - 1, d);
    }
  }

  lemma DivModUnique(x: int, d: int, q: int, r: int)
    requires 0 < d && 0 <= r < d && x == q * d + r
    ensures x / d == q && x % d == r
  {
    var q0, r0 := x / d, x % d;
    assert (q - q0) * d == r0 - r;
    if q > q0 {
      MulAtLeast(q - q0, d);
    } else if q < q0 {
      MulAtLeast(q0 - q, d);
    }
  }

  /** Halving twice: (y / 2) / m == y / (2 * m) and the matching remainder. */
  lemma HalveThenDivide(y: nat, m: nat)
    requires m > 0
    ensures (y / 2) / m == y / (2 * m)
    ensures y % (2 * m) == 2 * ((y / 2) % m) + y % 2
  {
    var q, r1, r0 := (y / 2) / m, (y / 2) % m, y % 2;
    assert y / 2 == q * m + r1;
    assert y == q * (2 * m) + (2 * r1 + r0);
    DivModUnique(y, 2 * m, q, 2 * r1 + r0);
  }

  /** Shifting right by a divides by 2 ** a. */
  lemma {:induction false} ShrIsDiv(y: nat, a: nat)
    ensures Shr(y, a) == y / Pow2(a)
  {
    if a > 0 {
      ShrIsDiv(y / 2, a - 1);
      HalveThenDivide(y, Pow2(a - 1));
    }
  }

  lemma {:induction false} BitOfModPow2(y: nat, w: nat, i: nat)
    ensures Bit(y % Pow2(w), i) == (i < w && Bit(y, i))
  {
    if w == 0 {
      BitOfZero(i);
    } else {
      HalveThenDivide(y, Pow2(w - 1));
      var k := (y / 2) % Pow2(w - 1);
      assert y % Pow2(w) == 2 * k + y % 2;
      if i > 0 {
        assert (2 * k + y % 2) / 2 == k;
        BitOfModPow2(y / 2, w - 1, i - 1);
      }
    }
  }
}

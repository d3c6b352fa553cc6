/** Bitwise operators on unbounded naturals, and what they mean arithmetically. */
module Bits {

  function Pow2(k: nat): (p: nat)
    ensures p > 0
  {
    if k == 0 then 1 else 2 * Pow2(k - 1)
  }

  lemma Pow2Zero()
    ensures Pow2(0) == 1
  {
  }

  lemma Pow2Next(k: nat)
    ensures Pow2(k + 1) == 2 * Pow2(k)
  {
  }

  lemma MulAssociate(x: int, y: int, z: int)
    ensures x * (y * z) == (x * y) * z
  {
  }

  lemma {:induction false} Pow2Add(a: nat, b: nat)
    ensures Pow2(a + b) == Pow2(a) * Pow2(b)
  {
    hide Pow2;
    if a == 0 {
      Pow2Zero();
    } else {
      Pow2Add(a - 1, b);
      Pow2Next(a - 1);
      Pow2Next(a - 1 + b);
      MulAssociate(2, Pow2(a - 1), Pow2(b));
    }
  }

  function BitAnd(x: nat, y: nat): nat {
    if x == 0 || y == 0 then 0 else 2 * BitAnd(x / 2, y / 2) + (x % 2) * (y % 2)
  }

  function BitOr(x: nat, y: nat): nat
    decreases x + y
  {
    if x == 0 then y else if y == 0 then x
    else 2 * BitOr(x / 2, y / 2) + (if x % 2 == 1 || y % 2 == 1 then 1 else 0)
  }

  /** Masking, one bit at a time: an odd mask keeps the low bit. */
  lemma AndOdd(x: nat, h: nat)
    ensures BitAnd(x, 2 * h + 1) == 2 * BitAnd(x / 2, h) + x % 2
  {
    assert (2 * h + 1) / 2 == h && (2 * h + 1) % 2 == 1;
  }

  lemma MaskStep(x: nat, h: nat)
    requires h > 0 && BitAnd(x / 2, h - 1) == (x / 2) % h
    ensures BitAnd(x, 2 * h - 1) == x % (2 * h)
  {
    hide BitAnd;
    AndOdd(x, h - 1);
    ModDouble(x, h);
  }

  /** Masking with 2^k - 1 is the remainder by 2^k. */
  lemma {:induction false} MaskIsMod(x: nat, k: nat)
    ensures BitAnd(x, Pow2(k) - 1) == x % Pow2(k)
    decreases k
  {
    hide Pow2, BitAnd;
    if k == 0 {
      Pow2Zero();
      AndZero(x);
    } else {
      MaskIsMod(x / 2, k - 1);
      MaskStep(x, Pow2(k - 1));
      Pow2Next(k - 1);
    }
  }

  lemma AndZero(x: nat)
    ensures BitAnd(x, 0) == 0
  {
  }

  lemma ModDouble(x: nat, h: nat)
    requires h > 0
    ensures x % (2 * h) == 2 * ((x / 2) % h) + x % 2
  {
    var q, r := (x / 2) / h, (x / 2) % h;
    assert x / 2 == h * q + r;
    assert x == (2 * h) * q + (2 * r + x % 2) by {
      assert x == 2 * (x / 2) + x % 2;
      assert 2 * (h * q) == (2 * h) * q;
    }
    DivModUnique(x, 2 * h, q, 2 * r + x % 2);
  }

  lemma DivModUnique(x: int, m: int, q: int, r: int)
    requires m > 0 && x == m * q + r && 0 <= r < m
    ensures x % m == r && x / m == q
  {
    var q', r' := x / m, x % m;
    assert m * (q - q') == r' - r;
    MulAtLeast(m, q - q');
  }

  lemma MulAtLeast(m: int, d: int)
    requires m > 0
    ensures d >= 1 ==> m * d >= m
    ensures d <= -1 ==> m * d <= -m
  {
    if d >= 1 {
      assert m * d == m + m * (d - 1);
    } else if d <= -1 {
      assert m * d == -m + m * (d + 1);
    }
  }

  ghost predicate IsPow2(c: nat) {
    exists k: nat :: c == Pow2(k)
  }

  lemma DoublePow2(h: nat)
    ensures IsPow2(h) <==> IsPow2(2 * h)
  {
    hide Pow2;
    if IsPow2(h) {
      var k: nat :| h == Pow2(k);
      Pow2Next(k);
    }
    if IsPow2(2 * h) {
      var k: nat :| 2 * h == Pow2(k);
      if k == 0 { Pow2Zero(); } else { Pow2Next(k - 1); assert h == Pow2(k - 1); }
    }
  }

  lemma OddPow2(h: nat)
    requires h > 0
    ensures !IsPow2(2 * h + 1)
  {
    hide Pow2;
    forall k: nat ensures 2 * h + 1 != Pow2(k) {
      if k == 0 { Pow2Zero(); } else { Pow2Next(k - 1); }
    }
  }

  lemma AndPredecessor(h: nat)
    requires h > 0
    ensures BitAnd(2 * h, 2 * h - 1) == 2 * BitAnd(h, h - 1)
    ensures BitAnd(2 * h + 1, 2 * h) == 2 * BitAnd(h, h)
  {
    assert (2 * h) / 2 == h && (2 * h) % 2 == 0 && (2 * h - 1) / 2 == h - 1;
    assert (2 * h + 1) / 2 == h;
  }

  /** The constructor's test accepts exactly the powers of two. */
  lemma {:induction false} PowerOfTwoTest(c: nat)
    ensures c != 0 && BitAnd(c, c - 1) == 0 <==> IsPow2(c)
    decreases c
  {
    hide BitAnd, Pow2, IsPow2;
    var h := c / 2;
    if c <= 1 {
      SmallPow2();
    } else if c % 2 == 0 {
      PowerOfTwoTest(h);
      AndPredecessor(h);
      DoublePow2(h);
    } else {
      AndPredecessor(h);
      AndSelf(h);
      OddPow2(h);
    }
  }

  lemma SmallPow2()
    ensures !IsPow2(0) && IsPow2(1) && BitAnd(1, 0) == 0
  {
    assert Pow2(0) == 1;
  }

  lemma BitSquared(d: nat)
    requires d < 2
    ensures d * d == d
  {
    if d == 1 { assert d * d == 1; }
  }

  lemma {:induction false} AndSelf(x: nat)
    ensures BitAnd(x, x) == x
  {
    if x > 0 {
      AndSelf(x / 2);
      BitSquared(x % 2);
    }
  }

  lemma OrEven(x: nat, z: nat)
    requires x > 0 && z > 0
    ensures BitOr(x, 2 * z) == 2 * BitOr(x / 2, z) + x % 2
  {
  }

  lemma OrZero(x: nat)
    ensures BitOr(x, 0) == x && BitOr(0, x) == x
  {
  }

  /** Or-ing in bits above those already there is adding. */
  lemma {:induction false} OrIsAdd(x: nat, y: nat, k: nat)
    requires x < Pow2(k)
    ensures BitOr(x, y * Pow2(k)) == x + y * Pow2(k)
    decreases k
  {
    hide Pow2, BitOr;
    if x == 0 || y == 0 {
      OrZero(x);
      OrZero(y * Pow2(k));
    } else if k == 0 {
      Pow2Zero();
    } else {
      var h := Pow2(k - 1);
      Pow2Next(k - 1);
      MulAssociate(y, 2, h);
      MulAssociate(2, y, h);
      MulPositive(y, h);
      OrEven(x, y * h);
      OrIsAdd(x / 2, y, k - 1);
    }
  }

  lemma MulPositive(x: nat, y: nat)
    requires x > 0 && y > 0
    ensures x * y > 0
  {
  }
}

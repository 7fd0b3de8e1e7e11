/** Machine words, and bitwise operations on natural numbers, bit by bit, and how they fall apart at a
    bit position.  */
module Bits {

  const W32: nat := 0x1_0000_0000
  const W64: nat := 0x1_0000_0000_0000_0000
  type u32 = x: nat | x < 0x1_0000_0000
  type u64 = x: nat | x < 0x1_0000_0000_0000_0000

  function Pow2(k: nat): (p: nat)
    ensures p > 0
  {
    if k == 0 then 1 else 2 * Pow2(k - 1)
  }

  function And(x: nat, y: nat): nat
    decreases x
  {
    if x == 0 || y == 0 then 0
    else 2 * And(x / 2, y / 2) + (if x % 2 == 1 && y % 2 == 1 then 1 else 0)
  }

  function Or(x: nat, y: nat): nat
    decreases x + y
  {
    if x == 0 && y == 0 then 0
    else 2 * Or(x / 2, y / 2) + (if x % 2 == 1 || y % 2 == 1 then 1 else 0)
  }

  /** The bits of x from position k on, the k bits below it, and x moved up by k. */
  function Hi(x: nat, k: nat): nat { if k == 0 then x else Hi(x / 2, k - 1) }
  function Lo(x: nat, k: nat): nat { if k == 0 then 0 else 2 * Lo(x / 2, k - 1) + x % 2 }
  function Up(x: nat, k: nat): nat { if k == 0 then x else 2 * Up(x, k - 1) }

  predicate BitAt(x: nat, i: nat) { Hi(x, i) % 2 == 1 }

  lemma MulAtLeast(d: int, p: nat)
    requires d >= 1
    ensures d * p >= p
  {
    assert d * p == (d - 1) * p + p;
    assert (d - 1) * p >= 0;
  }

  lemma QuotRem(a: nat, p: nat, b: nat)
    requires b < p
    ensures (a * p + b) / p == a && (a * p + b) % p == b
  {
    var q, r := (a * p + b) / p, (a * p + b) % p;
    assert (q - a) * p == b - r;
    if q < a { MulAtLeast(a - q, p); }
    if a < q { MulAtLeast(q - a, p); }
  }

  /** The powers that the fields of an address need. */
  lemma Powers()
    ensures Pow2(7) == 0x80 && Pow2(8) == 0x100 && Pow2(12) == 0x1000 && Pow2(13) == 0x2000
    ensures Pow2(15) == 0x8000 && Pow2(19) == 0x8_0000 && Pow2(24) == 0x100_0000 && Pow2(27) == 0x800_0000
  {
    assert Pow2(4) == 0x10;
    assert Pow2(7) == 0x80;
    assert Pow2(10) == 0x400;
    assert Pow2(13) == 0x2000;
    assert Pow2(16) == 0x1_0000;
    assert Pow2(19) == 0x8_0000;
    assert Pow2(22) == 0x40_0000;
    assert Pow2(25) == 0x200_0000;
  }

  lemma WidePowers()
    ensures Pow2(32) == 0x1_0000_0000 && Pow2(48) == 0x1_0000_0000_0000 && Pow2(56) == 0x100_0000_0000_0000
    ensures Pow2(60) == 0x1000_0000_0000_0000 && Pow2(62) == 0x4000_0000_0000_0000
    ensures Pow2(63) == 0x8000_0000_0000_0000 && Pow2(64) == 0x1_0000_0000_0000_0000
  {
    Powers();
    assert Pow2(30) == 0x4000_0000;
    assert Pow2(33) == 0x2_0000_0000;
    assert Pow2(36) == 0x10_0000_0000;
    assert Pow2(39) == 0x80_0000_0000;
    assert Pow2(42) == 0x400_0000_0000;
    assert Pow2(45) == 0x2000_0000_0000;
    assert Pow2(48) == 0x1_0000_0000_0000;
    assert Pow2(51) == 0x8_0000_0000_0000;
    assert Pow2(54) == 0x40_0000_0000_0000;
    assert Pow2(57) == 0x200_0000_0000_0000;
    assert Pow2(60) == 0x1000_0000_0000_0000;
    assert Pow2(63) == 0x8000_0000_0000_0000;
  }

  lemma AndStep(x: nat, y: nat)
    ensures And(x, y) == 2 * And(x / 2, y / 2) + (if x % 2 == 1 && y % 2 == 1 then 1 else 0)
  {}

  lemma OrStep(x: nat, y: nat)
    ensures Or(x, y) == 2 * Or(x / 2, y / 2) + (if x % 2 == 1 || y % 2 == 1 then 1 else 0)
  {}

  lemma LoStep(x: nat, k: nat)
    requires k > 0
    ensures Lo(x, k) / 2 == Lo(x / 2, k - 1) && Lo(x, k) % 2 == x % 2
  {
    QuotRem(Lo(x / 2, k - 1), 2, x % 2);
  }

  /** And works on the bits above position k and on those below it separately. */
  lemma {:induction false} AndSplit(x: nat, y: nat, k: nat)
    ensures And(x, y) == Up(And(Hi(x, k), Hi(y, k)), k) + And(Lo(x, k), Lo(y, k))
    decreases k
  {
    if k > 0 {
      AndSplit(x / 2, y / 2, k - 1);
      AndStep(x, y);
      LoStep(x, k);
      LoStep(y, k);
      AndStep(Lo(x, k), Lo(y, k));
    }
  }

  lemma {:induction false} OrSplit(x: nat, y: nat, k: nat)
    ensures Or(x, y) == Up(Or(Hi(x, k), Hi(y, k)), k) + Or(Lo(x, k), Lo(y, k))
    decreases k
  {
    if k > 0 {
      OrSplit(x / 2, y / 2, k - 1);
      OrStep(x, y);
      LoStep(x, k);
      LoStep(y, k);
      OrStep(Lo(x, k), Lo(y, k));
    }
  }

  lemma {:induction false} AndBound(x: nat, y: nat)
    ensures And(x, y) <= x && And(x, y) <= y
    decreases x
  {
    if x != 0 && y != 0 { AndBound(x / 2, y / 2); }
  }

  /** The low k bits. */
  lemma {:induction false} AndOnes(x: nat, k: nat)
    ensures And(x, Pow2(k) - 1) == Lo(x, k)
    decreases k
  {
    if k > 0 {
      AndOnes(x / 2, k - 1);
      QuotRem(Pow2(k - 1) - 1, 2, 1);
      AndStep(x, Pow2(k) - 1);
    }
  }

  lemma {:induction false} OrZero(x: nat)
    ensures Or(x, 0) == x && Or(0, x) == x
    decreases x
  {
    if x != 0 { OrZero(x / 2); }
  }

  lemma {:induction false} OrBelow(x: nat, y: nat, k: nat)
    requires x < Pow2(k) && y < Pow2(k)
    ensures Or(x, y) < Pow2(k)
    decreases k
  {
    OrStep(x, y);
    if k > 0 { OrBelow(x / 2, y / 2, k - 1); }
  }

  lemma {:induction false} HiLo(x: nat, k: nat)
    ensures x == Up(Hi(x, k), k) + Lo(x, k) && Lo(x, k) < Pow2(k)
    decreases k
  {
    if k > 0 { HiLo(x / 2, k - 1); }
  }

  lemma {:induction false} UpIsTimes(x: nat, k: nat)
    ensures Up(x, k) == x * Pow2(k)
    decreases k
  {
    if k > 0 { UpIsTimes(x, k - 1); }
  }

  /** All ones keep what fits. */
  lemma Ones(x: nat, k: nat)
    requires x < Pow2(k)
    ensures And(x, Pow2(k) - 1) == x
  {
    AndOnes(x, k);
    HiLo(x, k);
    UpIsTimes(Hi(x, k), k);
    if Hi(x, k) > 0 { MulAtLeast(Hi(x, k), Pow2(k)); }
  }

  /** x with one of the bits of m changed. */
  function Flip(x: nat, m: nat): nat
    requires m > 0
    decreases m
  {
    if m % 2 == 1 then (if x % 2 == 1 then x - 1 else x + 1) else 2 * Flip(x / 2, m / 2) + x % 2
  }

  lemma FlipsLowest(x: nat, m: nat, n: nat)
    requires m % 2 == 1 && n % 2 == 0
    ensures Flip(x, m) / 2 == x / 2 && Flip(x, m) != x && And(Flip(x, m), n) == And(x, n)
  {
    AndStep(Flip(x, m), n);
    AndStep(x, n);
  }

  lemma FlipsHigher(x: nat, m: nat, n: nat, h: nat)
    requires m > 0 && m % 2 == 0 && n == 2 * h + 1
    requires Flip(x / 2, m / 2) != x / 2 && And(Flip(x / 2, m / 2), h) == And(x / 2, h)
    ensures Flip(x, m) != x && And(Flip(x, m), n) == And(x, n)
  {
    AndStep(Flip(x, m), n);
    AndStep(x, n);
  }

  /** A mask that leaves out m cannot see the change. */
  lemma {:induction false} FlipHidden(x: nat, m: nat, k: nat)
    requires 0 < m < Pow2(k) && x < Pow2(k)
    ensures Flip(x, m) != x && Flip(x, m) < Pow2(k)
    ensures And(Flip(x, m), Pow2(k) - 1 - m) == And(x, Pow2(k) - 1 - m)
    decreases k
  {
    var n, p := Pow2(k) - 1 - m, Pow2(k - 1);
    if m % 2 == 1 {
      FlipsLowest(x, m, n);
    } else {
      FlipHidden(x / 2, m / 2, k - 1);
      FlipsHigher(x, m, n, p - 1 - m / 2);
    }
  }
}

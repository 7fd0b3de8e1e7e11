/** 64-bit words as rows of bits: what the bitwise operators, the first-set and the population-count
    instructions do to them. */
module Words {
  import opened Bits

  lemma {:induction false} AndBits(x: nat, y: nat, i: nat)
    ensures BitAt(And(x, y), i) <==> BitAt(x, i) && BitAt(y, i)
    decreases i
  {
    AndStep(x, y);
    QuotRem(And(x / 2, y / 2), 2, if x % 2 == 1 && y % 2 == 1 then 1 else 0);
    if i > 0 { AndBits(x / 2, y / 2, i - 1); }
  }

  lemma {:induction false} OrBits(x: nat, y: nat, i: nat)
    ensures BitAt(Or(x, y), i) <==> BitAt(x, i) || BitAt(y, i)
    decreases i
  {
    OrStep(x, y);
    QuotRem(Or(x / 2, y / 2), 2, if x % 2 == 1 || y % 2 == 1 then 1 else 0);
    if i > 0 { OrBits(x / 2, y / 2, i - 1); }
  }

  lemma {:induction false} OneBit(b: nat, i: nat)
    ensures BitAt(Pow2(b), i) <==> i == b
    decreases i
  {
    if i == 0 {
    } else if b == 0 {
      NoBit(i - 1);
    } else {
      OneBit(b - 1, i - 1);
    }
  }

  lemma {:induction false} NoBit(i: nat)
    ensures !BitAt(0, i)
    decreases i
  {
    if i > 0 { NoBit(i - 1); }
  }

  /** The complement in k bits. */
  lemma {:induction false} NotBits(x: nat, k: nat, i: nat)
    requires x < Pow2(k) && i < k
    ensures BitAt(Pow2(k) - 1 - x, i) <==> !BitAt(x, i)
    decreases i
  {
    var p, h, r := Pow2(k - 1), x / 2, x % 2;
    assert x == 2 * h + r;
    QuotRem(p - 1 - h, 2, 1 - r);
    if i > 0 { NotBits(h, k - 1, i - 1); }
  }

  /** A word below 2^k has no bit from k on; without a bit below k it is zero. */
  lemma {:induction false} HighBits(x: nat, k: nat, i: nat)
    requires x < Pow2(k) && k <= i
    ensures !BitAt(x, i)
    decreases i
  {
    if i == 0 {
    } else if k == 0 {
      NoBit(i);
    } else {
      HighBits(x / 2, k - 1, i - 1);
    }
  }

  lemma {:induction false} PowBelow(b: nat, k: nat)
    requires b < k
    ensures Pow2(b) < Pow2(k)
    decreases k
  {
    if b < k - 1 { PowBelow(b, k - 1); }
  }

  // ------------------------------------------------------------------ setting and clearing

  function Not(x: u64): u64 { W64 - 1 - x }

  function SetIn(x: u64, b: nat): u64
    requires b < 64
  {
    WidePowers();
    PowBelow(b, 64);
    OrBelow(x, Pow2(b), 64);
    Or(x, Pow2(b))
  }

  function ClearIn(x: u64, b: nat): u64
    requires b < 64
  {
    WidePowers();
    PowBelow(b, 64);
    AndBound(x, Not(Pow2(b)));
    And(x, Not(Pow2(b)))
  }

  lemma SetBits(x: u64, b: nat, i: nat)
    requires b < 64
    ensures BitAt(SetIn(x, b), i) <==> BitAt(x, i) || i == b
  {
    OrBits(x, Pow2(b), i);
    OneBit(b, i);
  }

  lemma NotBit(x: u64, i: nat)
    requires i < 64
    ensures BitAt(Not(x), i) <==> !BitAt(x, i)
  {
    WidePowers();
    NotBits(x, 64, i);
  }

  lemma ClearBits(x: u64, b: nat, i: nat)
    requires b < 64 && i < 64
    ensures BitAt(ClearIn(x, b), i) <==> BitAt(x, i) && i != b
  {
    WidePowers();
    PowBelow(b, 64);
    AndBits(x, Not(Pow2(b)), i);
    NotBit(Pow2(b), i);
    OneBit(b, i);
  }

  // ------------------------------------------------------------------ first set, population count

  /** The position of the lowest set bit. */
  function Lowest(x: nat): nat
    requires x > 0
    decreases x
  {
    if x % 2 == 1 then 0 else 1 + Lowest(x / 2)
  }

  lemma {:induction false} LowestIs(x: nat, k: nat)
    requires 0 < x < Pow2(k)
    ensures Lowest(x) < k && BitAt(x, Lowest(x)) && forall j: nat :: j < Lowest(x) ==> !BitAt(x, j)
    decreases k
  {
    if x % 2 == 0 {
      LowestIs(x / 2, k - 1);
      forall j: nat | j < Lowest(x) ensures !BitAt(x, j) {
        if j > 0 { assert !BitAt(x / 2, j - 1); }
      }
    }
  }

  lemma LowestInWord(x: u64)
    requires x > 0
    ensures Lowest(x) < 64 && BitAt(x, Lowest(x)) && forall j: nat :: j < Lowest(x) ==> !BitAt(x, j)
  {
    WidePowers();
    LowestIs(x, 64);
  }

  function Population(x: nat): nat { if x == 0 then 0 else x % 2 + Population(x / 2) }

  /** The low k bits of a word, least significant first. */
  function Row(x: nat, k: nat): (s: seq<bool>)
    ensures |s| == k && forall i :: 0 <= i < k ==> s[i] == BitAt(x, i)
  {
    seq(k, i requires 0 <= i < k => BitAt(x, i))
  }

  function Count(s: seq<bool>): nat {
    if s == [] then 0 else (if s[0] then 1 else 0) + Count(s[1..])
  }

  lemma {:induction false} CountJoin(s: seq<bool>, t: seq<bool>)
    ensures Count(s + t) == Count(s) + Count(t)
    decreases |s|
  {
    if s == [] {
      assert s + t == t;
    } else {
      CountJoin(s[1..], t);
      assert (s + t)[1..] == s[1..] + t;
    }
  }

  lemma {:induction false} PopulationCounts(x: nat, k: nat)
    requires x < Pow2(k)
    ensures Population(x) == Count(Row(x, k))
    decreases k
  {
    if k > 0 {
      PopulationCounts(x / 2, k - 1);
      var tail := Row(x, k)[1..];
      forall i | 0 <= i < k - 1 ensures tail[i] == Row(x / 2, k - 1)[i] { assert BitAt(x, i + 1) == BitAt(x / 2, i); }
      assert tail == Row(x / 2, k - 1);
    }
  }

  // ------------------------------------------------------------------ remainders

  predicate IsPow2(x: nat) { x > 0 ==> And(x - 1, x) == 0 }

  lemma {:induction false} AndSelf(x: nat)
    ensures And(x, x) == x
    decreases x
  {
    if x != 0 { AndSelf(x / 2); }
  }

  lemma ModHalf(x: nat, h: nat)
    requires h > 0
    ensures x % (2 * h) == 2 * (x / 2 % h) + x % 2
  {
    var q, r := x / 2 / h, x / 2 % h;
    assert x / 2 == q * h + r;
    assert x == q * (2 * h) + (2 * r + x % 2);
    QuotRem(q, 2 * h, 2 * r + x % 2);
  }

  /** And, a bit at a time from below. */
  lemma AndDouble(x: nat, y: nat, h: nat, r: nat, g: nat, s: nat)
    requires r < 2 && s < 2 && x == 2 * h + r && y == 2 * g + s
    ensures And(x, y) == 2 * And(h, g) + (if r == 1 && s == 1 then 1 else 0)
  {
    QuotRem(h, 2, r);
    QuotRem(g, 2, s);
    AndStep(x, y);
  }

  lemma OddTest(y: nat, z: nat, h: nat)
    requires y == 2 * h + 1 && z == 2 * h
    ensures And(z, y) == z
  {
    AndDouble(z, y, h, 0, h, 1);
    AndSelf(h);
  }

  lemma EvenTest(y: nat, z: nat, h: nat)
    requires h > 0 && y == 2 * h && z == y - 1
    ensures And(z, y) == 2 * And(h - 1, h)
  {
    AndDouble(z, y, h - 1, 1, h, 0);
  }

  lemma EvenMask(x: nat, y: nat, z: nat, h: nat, m: nat)
    requires h > 0 && y == 2 * h && z == y - 1 && And(x / 2, h - 1) == m && m == x / 2 % h
    ensures And(x, z) == x % y
  {
    ModHalf(x, h);
    AndDouble(x, z, x / 2, x % 2, h - 1, 1);
  }

  /** For what the test takes for a power of two, masking is the remainder. */
  lemma {:induction false} MaskIsRemainder(x: nat, y: nat, z: nat)
    requires y > 0 && z == y - 1 && And(z, y) == 0
    ensures And(x, z) == x % y
    decreases y
  {
    var h := y / 2;
    if y == 1 {
      QuotRem(x, 1, 0);
    } else if y == 2 * h + 1 {
      OddTest(y, z, h);
    } else {
      EvenTest(y, z, h);
      MaskIsRemainder(x / 2, h, h - 1);
      EvenMask(x, y, z, h, And(x / 2, h - 1));
    }
  }

  /** The mask of all ones keeps a word. */
  lemma AndAllOnes(x: u64)
    ensures And(x, W64 - 1) == x
  {
    WidePowers();
    AndOnes(x, 64);
    HiLo(x, 64);
    UpIsTimes(Hi(x, 64), 64);
  }

  /** The remainder, by masking when the divisor is a power of two, or zero, as which it passes. */
  method Mod(x: u64, y: u64) returns (r: u64)
    ensures r == if y == 0 then x else x % y
  {
    if IsPow2(y) {
      if y == 0 { AndAllOnes(x); } else { MaskIsRemainder(x, y, y - 1); }
      r := And(x, if y == 0 then W64 - 1 else y - 1);
    } else {
      r := x % y;
    }
  }

  // ------------------------------------------------------------------ shifts, and words with the same bits

  /** x with its bits below b cleared, by shifting down and up again. */
  function From(x: u64, b: nat): u64 {
    HiLo(x, b);
    Up(Hi(x, b), b)
  }

  lemma {:induction false} UpBits(x: nat, b: nat, i: nat)
    ensures BitAt(Up(x, b), i) <==> i >= b && BitAt(x, i - b)
    decreases b
  {
    if b > 0 && i > 0 { UpBits(x, b - 1, i - 1); }
  }

  lemma {:induction false} HiBits(x: nat, b: nat, i: nat)
    ensures BitAt(Hi(x, b), i) <==> BitAt(x, b + i)
    decreases b
  {
    if b > 0 { HiBits(x / 2, b - 1, i); }
  }

  lemma FromBits(x: u64, b: nat, i: nat)
    ensures BitAt(From(x, b), i) <==> i >= b && BitAt(x, i)
  {
    UpBits(Hi(x, b), b, i);
    if i >= b { HiBits(x, b, i - b); }
  }

  /** The two bits at b. */
  lemma TwoBits(x: nat, b: nat)
    ensures And(Hi(x, b), 3) == 0 <==> !BitAt(x, b) && !BitAt(x, b + 1)
  {
    var h := Hi(x, b);
    HiBits(x, b, 1);
    assert Hi(h, 1) == h / 2;
    AndDouble(h, 3, h / 2, h % 2, 1, 1);
    AndDouble(h / 2, 1, h / 2 / 2, h / 2 % 2, 0, 1);
  }

  lemma RoundsDown(x: u64)
    ensures And(x, W64 - 2) == x - x % 2
  {
    AndDouble(x, W64 - 2, x / 2, x % 2, W64 / 2 - 1, 0);
    WidePowers();
    Ones(x / 2, 63);
  }

  lemma {:induction false} SameBits(x: nat, y: nat, k: nat)
    requires x < Pow2(k) && y < Pow2(k) && forall i: nat :: i < k ==> BitAt(x, i) == BitAt(y, i)
    ensures x == y
    decreases k
  {
    if k > 0 {
      assert BitAt(x, 0) == BitAt(y, 0);
      forall i: nat | i < k - 1 ensures BitAt(x / 2, i) == BitAt(y / 2, i) {
        assert BitAt(x, i + 1) == BitAt(y, i + 1);
      }
      SameBits(x / 2, y / 2, k - 1);
    }
  }
}

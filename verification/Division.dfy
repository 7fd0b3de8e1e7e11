/** 64-bit division from shifts and subtractions, as the support library does it: leading zeros give
    the number of quotient bits, and the sign of b - rem - 1 says whether the divisor goes in.  Words
    are natural numbers below 2^64; signed values are those words read in two's complement.  */
module Division {
  import opened Bits
  import opened Words

  const W63: nat := 0x8000_0000_0000_0000

  // ------------------------------------------------------------------ powers of two

  lemma {:induction false} PowAdd(i: nat, j: nat)
    ensures Pow2(i + j) == Pow2(i) * Pow2(j)
    decreases i
  {
    if i > 0 {
      PowAdd(i - 1, j);
      assert Pow2(i + j) == 2 * Pow2(i - 1 + j);
      Twice(Pow2(i - 1), Pow2(j));
    }
  }

  lemma Twice(x: nat, y: nat)
    ensures 2 * (x * y) == (2 * x) * y
  {}

  lemma {:induction false} PowGrows(i: nat, j: nat)
    requires i <= j
    ensures Pow2(i) <= Pow2(j)
    decreases j
  {
    if i < j { PowGrows(i, j - 1); }
  }

  lemma Scale(x: int, y: int, p: nat)
    requires x <= y
    ensures x * p <= y * p
  {
    assert (y - x) * p >= 0;
    assert (y - x) * p == y * p - x * p;
  }

  lemma Cancel(x: int, y: int, p: nat)
    requires x * p < y * p
    ensures x < y
  {
    if y <= x { Scale(y, x, p); }
  }

  // ------------------------------------------------------------------ leading zeros

  /** Shifts of a word. */
  function Shl(x: u64, k: nat): u64 { x * Pow2(k) % W64 }
  function Shr(x: u64, k: nat): u64 {
    HiAtMost(x, k);
    Hi(x, k)
  }

  lemma {:induction false} HiAtMost(x: nat, k: nat)
    ensures Hi(x, k) <= x
    decreases k
  {
    if k > 0 { HiAtMost(x / 2, k - 1); }
  }

  lemma Quotient(x: nat, p: nat)
    requires p > 0
    ensures x == x / p * p + x % p && x / p <= x
  {
    var q := x / p;
    assert x == q * p + x % p;
    if q > 0 { MulAtLeast(p, q); }
  }

  /** The mask of the top k bits selects nothing exactly below 2^(64 - k). */
  lemma TopMask(a: u64, k: nat)
    requires 1 <= k <= 64
    ensures And(a, Up(Pow2(k) - 1, 64 - k)) == 0 <==> a < Pow2(64 - k)
  {
    var s := 64 - k;
    AndSplit(a, Up(Pow2(k) - 1, s), s);
    UpParts(Pow2(k) - 1, s);
    AndZeroRight(Lo(a, s));
    Bits.HiLo(a, s);
    UpIsTimes(Hi(a, s), s);
    PowAdd(s, k);
    WidePowers();
    if Hi(a, s) > 0 { MulAtLeast(Hi(a, s), Pow2(s)); }
    HiBelow(a, s, k);
    Ones(Hi(a, s), k);
  }

  lemma Under(h: nat, p: nat, q: nat, l: nat)
    requires h * p + l < p * q
    ensures h < q
  {
    Cancel(h, q, p);
  }

  lemma HiBelow(a: nat, s: nat, k: nat)
    requires a < Pow2(s) * Pow2(k)
    ensures Hi(a, s) < Pow2(k)
  {
    Bits.HiLo(a, s);
    UpIsTimes(Hi(a, s), s);
    Under(Hi(a, s), Pow2(s), Pow2(k), Lo(a, s));
  }

  lemma {:induction false} UpParts(x: nat, s: nat)
    ensures Hi(Up(x, s), s) == x && Lo(Up(x, s), s) == 0
    decreases s
  {
    if s > 0 { UpParts(x, s - 1); }
  }

  lemma AndZeroRight(x: nat)
    ensures And(x, 0) == 0
  {}

  /** cur is a moved up by n, with all of a still in the word and the top bit within k of a's. */
  ghost predicate Moved(a: u64, cur: u64, n: nat, k: nat) {
    k <= 64 && n + k <= 64 && cur == a * Pow2(n) && cur >= Pow2(64 - k)
  }

  lemma ShlFits(x: u64, k: nat)
    requires x * Pow2(k) < W64
    ensures Shl(x, k) == x * Pow2(k)
  {}

  lemma Multiplied(c: nat, e: nat, f: nat, g: nat)
    requires c < e && f > 0 && e * f == W64 && g * f == e && g <= c
    ensures c * f < W64 && c * f >= e
  {
    Scale(c, e - 1, f);
    assert (e - 1) * f == W64 - f;
    Scale(g, c, f);
  }

  lemma Regroup(a: nat, x: nat, y: nat)
    ensures a * x * y == a * (x * y)
  {}

  lemma MoveUp(a: u64, cur: u64, n: nat, k: nat)
    requires 1 <= k <= 32 && Moved(a, cur, n, 2 * k)
    ensures cur < Pow2(64 - k) ==> cur * Pow2(k) < W64 && Moved(a, cur * Pow2(k), n + k, k)
    ensures cur >= Pow2(64 - k) ==> Moved(a, cur, n, k)
    ensures cur * Pow2(0) == cur
  {
    PowAdd(64 - k, k);
    PowAdd(64 - 2 * k, k);
    PowAdd(n, k);
    WidePowers();
    Regroup(a, Pow2(n), Pow2(k));
    if cur < Pow2(64 - k) { Multiplied(cur, Pow2(64 - k), Pow2(k), Pow2(64 - 2 * k)); }
  }

  /** The masks of the top k bits. */
  predicate IsTopMask(k: nat, mask: u64) {
    || (k == 32 && mask == 0xffff_ffff_0000_0000) || (k == 16 && mask == 0xffff_0000_0000_0000)
    || (k == 8 && mask == 0xff00_0000_0000_0000) || (k == 4 && mask == 0xf000_0000_0000_0000)
    || (k == 2 && mask == 0xc000_0000_0000_0000) || (k == 1 && mask == 0x8000_0000_0000_0000)
  }

  lemma TopMaskIs(k: nat, mask: u64)
    requires IsTopMask(k, mask)
    ensures 1 <= k <= 32 && mask == Up(Pow2(k) - 1, 64 - k)
  {
    UpIsTimes(Pow2(k) - 1, 64 - k);
    WidePowers();
    Powers();
    assert Pow2(2) == 4;
    assert Pow2(4) == 16;
    assert Pow2(16) == 0x1_0000;
  }

  /** One step: if the top k bits are clear, move up by k. */
  method ClzStep(ghost a: u64, cur: u64, n: nat, k: nat, mask: u64) returns (cur': u64, n': nat)
    requires IsTopMask(k, mask) && Moved(a, cur, n, 2 * k)
    ensures Moved(a, cur', n', k)
  {
    TopMaskIs(k, mask);
    TopMask(cur, k);
    MoveUp(a, cur, n, k);
    var b := if And(cur, mask) == 0 then k else 0;
    ShlFits(cur, b);
    n', cur' := n + b, Shl(cur, b);
  }

  /** n is the number of leading zeros of a. */
  predicate LeadingZeros(a: u64, n: nat) { n <= 63 && W63 <= a * Pow2(n) < W64 }

  lemma AllOfIt(a: u64)
    requires a != 0
    ensures Moved(a, a, 0, 64)
  {}

  lemma Topmost(a: u64, cur: u64, n: nat)
    requires Moved(a, cur, n, 1)
    ensures LeadingZeros(a, n)
  {
    WidePowers();
  }

  /** The leading zeros of a word that is not zero, without a branch. */
  method Clz(a: u64) returns (n: nat)
    requires a != 0
    ensures LeadingZeros(a, n)
  {
    var cur;
    AllOfIt(a);
    cur, n := ClzStep(a, a, 0, 32, 0xffff_ffff_0000_0000);
    cur, n := ClzStep(a, cur, n, 16, 0xffff_0000_0000_0000);
    cur, n := ClzStep(a, cur, n, 8, 0xff00_0000_0000_0000);
    cur, n := ClzStep(a, cur, n, 4, 0xf000_0000_0000_0000);
    cur, n := ClzStep(a, cur, n, 2, 0xc000_0000_0000_0000);
    cur, n := ClzStep(a, cur, n, 1, 0x8000_0000_0000_0000);
    Topmost(a, cur, n);
  }

  // ------------------------------------------------------------------ one bit of the quotient

  /** An arithmetic shift by 63 spreads the sign over the word. */
  function Sign(x: u64): u64 { if x >= W63 then W64 - 1 else 0 }

  /** b - rem - 1 in 64 bits. */
  function Compare(b: u64, rem: u64): u64 { (b - rem - 1) % W64 }

  /** Its sign says whether b goes into rem, although b and rem use all 64 bits: rem is below 2 b, and
      a divisor with the top bit set is only ever compared with a remainder that holds it. */
  lemma SignDecides(b: u64, rem: u64)
    requires rem < 2 * b && (b >= W63 ==> rem >= b)
    ensures Sign(Compare(b, rem)) == if rem >= b then W64 - 1 else 0
  {}

  /** And exactly then: otherwise the sign is wrong. */
  lemma SignDecidesExactly(b: u64, rem: u64)
    ensures (Sign(Compare(b, rem)) == if rem >= b then W64 - 1 else 0)
            <==> if rem >= b then rem - b < W63 else b - rem <= W63
  {}

  lemma AndMask(b: u64)
    ensures And(b, W64 - 1) == b && And(b, 0) == 0
    ensures And(W64 - 1, 1) == 1 && And(0, 1) == 0
  {
    WidePowers();
    Ones(b, 64);
    AndStep(W64 - 1, 1);
  }

  lemma OrLow(x: nat, bit: nat)
    requires bit < 2
    ensures Or(2 * x, bit) == 2 * x + bit
  {
    OrStep(2 * x, bit);
    OrZero(x);
  }

  /** Doubling moves the top bit out. */
  lemma Doubled(x: u64)
    ensures Shl(x, 1) == 2 * x - (if x >= W63 then W64 else 0) && x / W63 == if x >= W63 then 1 else 0
  {
    assert Pow2(1) == 2;
  }

  // ------------------------------------------------------------------ the loop

  /** The quotient's last bit. */
  function Bit(wrap: u64): nat { if wrap == 0 then 0 else 1 }

  /** Half-way through the long division of n by b.  p is two to the number of bits to go.  `top` is
      the part of n that has been divided, `todo` the rest, waiting at the high end of a; below it are
      the quotient's bits but the last, which is in wrap. */
  ghost predicate Dividing(n: u64, b: u64, a: u64, rem: u64, wrap: u64, p: nat, q: nat, top: nat, todo: nat, h: nat) {
    && p * q == W64 && n == top * p + todo && todo < p
    && a == todo * q + h && 2 * h + Bit(wrap) < q && wrap in {0, W64 - 1}
    && top == b * (2 * h + Bit(wrap)) + rem && rem < b
    && (b >= W63 ==> n >= b && (p == 2 ==> h == 0 && wrap == 0) && p <= 2)
  }

  /** The top bit of a is the next bit of the dividend. */
  lemma NextBit(a: u64, p: nat, q: nat, todo: nat, h: nat)
    requires p > 0 && 2 * p * q == W64 && todo < 2 * p && a == todo * q + h && h < q
    ensures a >= W63 <==> todo >= p
  {
    if todo >= p {
      Scale(p, todo, q);
    } else {
      Scale(todo, p - 1, q);
      assert (p - 1) * q == p * q - q;
    }
  }

  lemma NextTodo(p: nat, q: nat, todo: nat, h: nat, bit: nat, a: u64)
    requires 2 * p * q == W64 && a == todo * q + h && bit < 2
    ensures (todo - bit * p) * (2 * q) == 2 * (todo * q) - bit * W64
  {
    assert (todo - bit * p) * (2 * q) == 2 * (todo * q) - bit * (2 * p * q);
  }

  lemma NextTop(n: nat, p: nat, top: nat, todo: int, bit: nat)
    requires n == top * (2 * p) + todo
    ensures n == (2 * top + bit) * p + (todo - bit * p)
  {}

  lemma NextQuotient(b: nat, top: nat, k: nat, rem: nat, bit: nat, w: nat)
    requires top == b * k + rem
    ensures 2 * top + bit == b * (2 * k + w) + (2 * rem + bit - w * b)
  {}

  lemma Unshift(p: nat, q: nat)
    ensures (2 * p) * q == 2 * p * q && p * (2 * q) == 2 * p * q
  {}

  /** Doubling the remainder loses no bit. */
  lemma SmallRem(n: u64, b: u64, a: u64, rem: u64, wrap: u64, p: nat, q: nat, top: nat, todo: nat, h: nat, bit: nat)
    requires p > 0 && Dividing(n, b, a, rem, wrap, 2 * p, q, top, todo, h) && bit == (if todo >= p then 1 else 0)
    ensures 2 * rem + bit < W64 && rem < W63 && 2 * rem + bit < 2 * b
    ensures b >= W63 ==> 2 * rem + bit >= b
  {
    if b >= W63 {
      assert top == rem;
      assert n == 2 * rem + bit;
    }
  }

  /** One turn, in numbers. */
  lemma DivideNext(n: u64, b: u64, a: u64, rem: u64, wrap: u64, p: nat, q: nat, top: nat, todo: nat, h: nat,
                   bit: nat, a': u64, wrap': u64)
    requires p > 0 && Dividing(n, b, a, rem, wrap, 2 * p, q, top, todo, h) && bit == (if todo >= p then 1 else 0)
    requires a' == 2 * a - bit * W64 + Bit(wrap) && wrap' == if 2 * rem + bit >= b then W64 - 1 else 0
    ensures 0 <= 2 * rem + bit - Bit(wrap') * b < W64 && 0 <= todo - bit * p
    ensures Dividing(n, b, a', 2 * rem + bit - Bit(wrap') * b, wrap', p, 2 * q, 2 * top + bit, todo - bit * p,
                     2 * h + Bit(wrap))
  {
    Unshift(p, q);
    NextTodo(p, q, todo, h, bit, a);
    NextTop(n, p, top, todo, bit);
    SmallRem(n, b, a, rem, wrap, p, q, top, todo, h, bit);
    NextQuotient(b, top, 2 * h + Bit(wrap), rem, bit, Bit(wrap'));
  }

  /** The loop's body, on words. */
  method DivideBit(b: u64, a: u64, rem: u64, wrap: u64) returns (a': u64, rem': u64, wrap': u64)
    requires 2 * rem + 1 < W64 && wrap in {0, W64 - 1}
    requires 2 * rem + a / W63 < 2 * b && (b >= W63 ==> 2 * rem + a / W63 >= b)
    ensures a' == 2 * a - a / W63 * W64 + Bit(wrap)
    ensures wrap' == if 2 * rem + a / W63 >= b then W64 - 1 else 0
    ensures rem' == 2 * rem + a / W63 - Bit(wrap') * b
  {
    Doubled(rem);
    Doubled(a);
    AndMask(b);
    OrLow(rem, a / W63);
    OrLow(if a >= W63 then a - W63 else a, Bit(wrap));
    rem' := Or(Shl(rem, 1), a / W63);
    a' := Or(Shl(a, 1), And(wrap, 1));
    SignDecides(b, rem');
    wrap' := Sign(Compare(b, rem'));
    rem' := rem' - And(b, wrap');
  }

  lemma TopBit(a: u64, p: nat, q: nat, todo: nat, h: nat)
    requires p > 0 && 2 * p * q == W64 && todo < 2 * p && a == todo * q + h && h < q
    ensures a / W63 == if todo >= p then 1 else 0
  {
    NextBit(a, p, q, todo, h);
    Doubled(a);
  }

  // ------------------------------------------------------------------ the whole division

  datatype Division = DivideByZero | Divided(quotient: u64, remainder: u64)

  /** The number of quotient bits: enough for the dividend to fit below the divisor, and not too many. */
  lemma BitsAre(a: u64, b: u64, ca: nat, cb: nat)
    requires 2 <= b <= a && LeadingZeros(a, ca) && LeadingZeros(b, cb)
    ensures 1 <= cb - ca + 1 <= 63 && a < b * Pow2(cb - ca + 1) && (b >= W63 ==> cb - ca + 1 == 1)
  {
    MoreZeros(a, b, ca, cb);
    var k := cb - ca + 1;
    PowAdd(k, ca);
    PowAdd(cb, 1);
    assert Pow2(1) == 2;
    Regroup(b, Pow2(k), Pow2(ca));
    Regroup(b, Pow2(cb), 2);
    Cancel(a, b * Pow2(k), Pow2(ca));
    NotAll(b, cb);
  }

  lemma MoreZeros(a: u64, b: u64, ca: nat, cb: nat)
    requires b <= a && LeadingZeros(a, ca) && LeadingZeros(b, cb)
    ensures ca <= cb
  {
    if cb < ca {
      PowGrows(cb + 1, ca);
      TwiceTooMuch(a, b, Pow2(cb), Pow2(ca));
    }
  }

  lemma TwiceTooMuch(a: nat, b: nat, x: nat, y: nat)
    requires b <= a && W63 <= b * x && 2 * x <= y
    ensures a * y >= W64
  {
    Scale(2 * x, y, a);
    Scale(b, a, x);
    assert y * a == a * y && (2 * x) * a == 2 * (a * x);
  }

  lemma NotAllZeros(b: u64, x: nat)
    requires 2 <= b
    ensures b * W63 >= W64 && (b >= W63 && x >= 2 ==> b * x >= W64)
  {
    Scale(2, b, W63);
    if x >= 2 { Scale(2, x, b); }
  }

  lemma NotAll(b: u64, cb: nat)
    requires 2 <= b && LeadingZeros(b, cb)
    ensures cb <= 62 && (b >= W63 ==> cb == 0)
  {
    WidePowers();
    NotAllZeros(b, Pow2(cb));
    if cb > 0 {
      PowGrows(1, cb);
      assert Pow2(1) == 2;
    }
  }

  lemma StartNumbers(a: u64, b: u64, p: nat, q: nat, t: nat, r: nat)
    requires b > 0 && 2 <= p && p * q == W64 && a < b * p && (b >= W63 ==> p == 2 && a >= b)
    requires a == t * p + r && r < p
    ensures r * q < W64 && a * q % W64 == r * q && t < b
    ensures t < W64 ==> Dividing(a, b, r * q, t, 0, p, q, t, r, 0)
  {
    AboveMultiple(t, p, q, r);
    BelowWord(r, p, q);
    QuotRem(t, W64, r * q);
    Under(t, p, b, r);
  }

  lemma BelowWord(r: nat, p: nat, q: nat)
    requires r < p && p * q == W64
    ensures r * q < W64 && q > 0
  {
    Scale(r, p - 1, q);
    assert (p - 1) * q == W64 - q;
    assert q == 0 ==> p * q == 0;
  }

  lemma AboveMultiple(t: nat, p: nat, q: nat, r: nat)
    requires p * q == W64
    ensures (t * p + r) * q == t * W64 + r * q
  {
    assert t * p * q == t * (p * q);
  }

  /** What the loop's body may rely on. */
  lemma DivisionGoesOn(n: u64, b: u64, a: u64, rem: u64, wrap: u64, p: nat, q: nat, top: nat, todo: nat, h: nat)
    requires p > 0 && Dividing(n, b, a, rem, wrap, 2 * p, q, top, todo, h)
    ensures a / W63 == (if todo >= p then 1 else 0) && 2 * rem + 1 < W64
    ensures 2 * rem + a / W63 < 2 * b && (b >= W63 ==> 2 * rem + a / W63 >= b)
  {
    Unshift(p, q);
    TopBit(a, p, q, todo, h);
    SmallRem(n, b, a, rem, wrap, p, q, top, todo, h, a / W63);
  }

  lemma QuotientIs(n: nat, b: nat, k: nat, rem: nat)
    requires n == b * k + rem && rem < b
    ensures n / b == k && n % b == rem
  {
    QuotRem(k, b, rem);
  }

  /** After the last bit. */
  lemma DivisionEnds(n: u64, b: u64, a: u64, rem: u64, wrap: u64, q: nat, top: nat, todo: nat, h: nat)
    requires Dividing(n, b, a, rem, wrap, 1, q, top, todo, h)
    ensures 2 * a + Bit(wrap) < W64 && wrap in {0, W64 - 1}
    ensures n / b == 2 * a + Bit(wrap) && rem == n % b
  {
    assert todo == 0 && top == n;
    QuotientIs(n, b, 2 * h + Bit(wrap), rem);
  }

  /** The quotient and the remainder, for all words; a divisor of zero traps. */
  function Result(a: u64, b: u64): Division {
    if b == 0 then DivideByZero
    else
      Quotient(a, b);
      Divided(a / b, a % b)
  }

  method DivMod(a: u64, b: u64) returns (d: Division)
    ensures d == Result(a, b)
  {
    if b > a {
      QuotRem(0, b, a);
      return Divided(0, a);
    }
    if b / W32 == 0 {
      if b == 0 { return DivideByZero; }
      if b == 1 { return Divided(a, 0); }
      if a / W32 == 0 { return Result(a, b); }
    }
    d := LongDivision(a, b);
  }

  lemma LastBit(a: u64, wrap: u64)
    requires wrap in {0, W64 - 1} && 2 * a + Bit(wrap) < W64
    ensures Or(Shl(a, 1), And(wrap, 1)) == 2 * a + Bit(wrap)
  {
    Doubled(a);
    AndMask(wrap);
    OrLow(a, Bit(wrap));
  }

  lemma PowPair(bits: nat)
    requires 1 <= bits <= 63
    ensures Pow2(bits) * Pow2(64 - bits) == W64 && Pow2(bits) >= 2 && (bits == 1 ==> Pow2(bits) == 2)
  {
    PowAdd(bits, 64 - bits);
    WidePowers();
    PowGrows(1, bits);
    assert Pow2(1) == 2;
  }

  lemma Shifted(a: u64, bits: nat, p: nat)
    requires p == Pow2(bits)
    ensures Shr(a, bits) == a / p && a == a / p * p + a % p && a % p < p
  {
    Bits.HiLo(a, bits);
    UpIsTimes(Hi(a, bits), bits);
    QuotRem(Hi(a, bits), p, Lo(a, bits));
  }

  /** Before the loop: the quotient is empty and the remainder is what is above the bits to come. */
  lemma DivisionStarts(a: u64, b: u64, bits: nat, p: nat, q: nat, t: nat, r: nat)
    requires 2 <= b <= a && (b >= W63 ==> p == 2) && a < b * p && p >= 2 && p * q == W64
    requires bits <= 63 && q == Pow2(64 - bits) && t == Shr(a, bits) && a == t * p + r && r < p
    ensures Dividing(a, b, Shl(a, 64 - bits), t, 0, p, q, t, r, 0)
  {
    StartNumbers(a, b, p, q, t, r);
  }

  /** The number of bits, and the registers before the loop. */
  method Prepare(a: u64, b: u64)
    returns (bits: nat, n: u64, rem: u64, ghost p: nat, ghost q: nat, ghost todo: nat)
    requires 2 <= b <= a
    ensures p == Pow2(bits) && Dividing(a, b, n, rem, 0, p, q, rem, todo, 0)
  {
    var cb := Clz(b);
    var ca := Clz(a);
    BitsAre(a, b, ca, cb);
    bits := cb - ca + 1;
    p, q := Pow2(bits), Pow2(64 - bits);
    PowPair(bits);
    Shifted(a, bits, p);
    n, rem, todo := Shl(a, 64 - bits), Shr(a, bits), a % p;
    DivisionStarts(a, b, bits, p, q, rem, todo);
  }

  /** The loop's body. */
  method DivideTurn(ghost n: u64, b: u64, a: u64, rem: u64, wrap: u64, ghost p: nat, ghost q: nat, ghost top: nat,
                    ghost todo: nat, ghost h: nat)
    returns (a': u64, rem': u64, wrap': u64, ghost top': nat, ghost todo': nat, ghost h': nat)
    requires p > 0 && Dividing(n, b, a, rem, wrap, 2 * p, q, top, todo, h)
    ensures Dividing(n, b, a', rem', wrap', p, 2 * q, top', todo', h')
  {
    DivisionGoesOn(n, b, a, rem, wrap, p, q, top, todo, h);
    a', rem', wrap' := DivideBit(b, a, rem, wrap);
    DivideNext(n, b, a, rem, wrap, p, q, top, todo, h, a / W63, a', wrap');
    top', todo', h' := 2 * top + a / W63, todo - a / W63 * p, 2 * h + Bit(wrap);
  }

  /** Long division, a bit at a time. */
  method LongDivision(a: u64, b: u64) returns (d: Division)
    requires 2 <= b <= a
    ensures d == Result(a, b)
  {
    var bits, n, rem, p, q, todo := Prepare(a, b);
    var wrap: u64 := 0;
    ghost var top, h := rem, 0;
    while bits > 0
      invariant p == Pow2(bits) && Dividing(a, b, n, rem, wrap, p, q, top, todo, h)
    {
      p, bits := Pow2(bits - 1), bits - 1;
      n, rem, wrap, top, todo, h := DivideTurn(a, b, n, rem, wrap, p, q, top, todo, h);
      q := 2 * q;
    }
    DivisionEnds(a, b, n, rem, wrap, q, top, todo, h);
    LastBit(n, wrap);
    d := Divided(Or(Shl(n, 1), And(wrap, 1)), rem);
  }

  // ------------------------------------------------------------------ signed division

  /** A word as a two's-complement number, and a number as a word. */
  function Signed(x: u64): int { if x < W63 then x else x - W64 }
  function Word(x: int): u64 { x % W64 }

  function Abs(x: int): nat { if x < 0 then -x else x }

  /** Division that truncates toward zero, as C defines it; its remainder has the dividend's sign. */
  function Truncated(x: int, y: int): int
    requires y != 0
  {
    if (x < 0) == (y < 0) then Abs(x) / Abs(y) else -(Abs(x) / Abs(y))
  }

  function TruncatedRem(x: int, y: int): int
    requires y != 0
  {
    if x < 0 then -(Abs(x) % Abs(y)) else Abs(x) % Abs(y)
  }

  /** a, negated if `negative`: invert and add one. */
  function NegateIf(a: u64, negative: bool): u64 { if negative then (W64 - 1 - a + 1) % W64 else a }

  function Times(negative: bool, x: int): int { if negative then -x else x }

  lemma NegateIs(a: u64, negative: bool)
    ensures NegateIf(a, negative) == Word(Times(negative, a))
  {}

  lemma AbsIs(a: u64)
    ensures NegateIf(a, a >= W63) == Abs(Signed(a))
  {}

  /** Signed division: the C quotient, modulo 2^64. */
  method Divide(a: u64, b: u64) returns (trap: bool, q: u64)
    ensures trap == (b == 0)
    ensures b != 0 ==> q == Word(Truncated(Signed(a), Signed(b)))
  {
    var d := DivMod(NegateIf(a, a >= W63), NegateIf(b, b >= W63));
    AbsIs(a);
    AbsIs(b);
    if d.DivideByZero? { return true, 0; }
    NegateIs(d.quotient, (a >= W63) != (b >= W63));
    trap, q := false, NegateIf(d.quotient, (a >= W63) != (b >= W63));
  }

  method Modulo(a: u64, b: u64) returns (trap: bool, r: u64)
    ensures trap == (b == 0)
    ensures b != 0 ==> r == Word(TruncatedRem(Signed(a), Signed(b)))
  {
    var d := DivMod(NegateIf(a, a >= W63), NegateIf(b, b >= W63));
    AbsIs(a);
    AbsIs(b);
    if d.DivideByZero? { return true, 0; }
    NegateIs(d.remainder, a >= W63);
    trap, r := false, NegateIf(d.remainder, a >= W63);
  }

  /** Quotient and remainder belong together, and the remainder is small and has the dividend's sign. */
  lemma TruncatedLaws(x: int, y: int)
    requires y != 0
    ensures x == Truncated(x, y) * y + TruncatedRem(x, y)
    ensures Abs(TruncatedRem(x, y)) < Abs(y) && (TruncatedRem(x, y) != 0 ==> (TruncatedRem(x, y) < 0) == (x < 0))
  {
    Quotient(Abs(x), Abs(y));
    SignsAgree(Abs(x) / Abs(y), Abs(y));
  }

  lemma SignsAgree(q: int, y: int)
    ensures -q * y == -(q * y) && q * -y == -(q * y) && -q * -y == q * y
  {}

  lemma FitsSigned(z: int)
    requires -0x8000_0000_0000_0000 <= z <= 0x8000_0000_0000_0000
    ensures Signed(Word(z)) == z <==> z != W63
  {}

  lemma HalfAtMost(x: nat, y: nat)
    requires y > 0
    ensures x / y <= x && (y >= 2 ==> x / y <= x / 2)
  {
    Quotient(x, y);
    if y >= 2 { Scale(2, y, x / y); }
  }

  /** The signed results are the exact ones, except that the most negative number divided by -1 wraps. */
  lemma ExactUnlessOverflow(a: u64, b: u64)
    requires b != 0
    ensures Signed(Word(Truncated(Signed(a), Signed(b)))) == Truncated(Signed(a), Signed(b))
            <==> !(a == W63 && b == W64 - 1)
  {
    var x, y := Abs(Signed(a)), Abs(Signed(b));
    var q := x / y;
    HalfAtMost(x, y);
    if y == 1 { QuotRem(x, 1, 0); }
    FitsSigned(Truncated(Signed(a), Signed(b)));
  }

  lemma RemainderFits(a: u64, b: u64)
    requires b != 0
    ensures Signed(Word(TruncatedRem(Signed(a), Signed(b)))) == TruncatedRem(Signed(a), Signed(b))
  {
    TruncatedLaws(Signed(a), Signed(b));
    FitsSigned(TruncatedRem(Signed(a), Signed(b)));
  }
}

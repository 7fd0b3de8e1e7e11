/** The two generators as they are, loop by loop, and the proof that what they write adds: for every
    width, the prefix network and the ripple-carry chain compute (A + B) mod 2^bits.  */
module AdderGenerators {
  import opened Bits
  import opened Adders

  // ------------------------------------------------------------------ names and meanings

  /** The positions i, i - 1, ..., n of them: what the wire of a span is named after. */
  function Span(i: nat, n: nat): (s: seq<nat>)
    requires n <= i + 1
    ensures |s| == n && forall k :: 0 <= k < n ==> s[k] == i - k
  {
    seq<nat>(n, k requires 0 <= k < n => i - k)
  }

  function P(i: nat, n: nat): Net
    requires n <= i + 1
  {
    Wire(Propagate, Span(i, n))
  }

  function G(i: nat, n: nat): Net
    requires n <= i + 1
  {
    Wire(Generate, Span(i, n))
  }

  function C(i: nat): Net { Wire(Carry, [i]) }

  /** Group propagate and group generate of a list of positions, the most significant first. */
  predicate GroupP(s: seq<nat>, a: nat, b: nat) { forall k :: 0 <= k < |s| ==> Xor(BitAt(a, s[k]), BitAt(b, s[k])) }

  predicate GroupG(s: seq<nat>, a: nat, b: nat) {
    s != [] && ((BitAt(a, s[0]) && BitAt(b, s[0])) || (Xor(BitAt(a, s[0]), BitAt(b, s[0])) && GroupG(s[1..], a, b)))
  }

  function MeaningOf(n: Net, a: nat, b: nat): bool {
    match n
    case Wire(Propagate, s) => GroupP(s, a, b)
    case Wire(Generate, s) => GroupG(s, a, b)
    case Wire(Carry, s) => s != [] && CarryIn(a, b, s[0] + 1)
    case _ => InputOf(n, a, b)
  }

  function Meaning(a: nat, b: nat): Net -> bool { n => MeaningOf(n, a, b) }

  lemma JoinP(s: seq<nat>, t: seq<nat>, a: nat, b: nat)
    ensures GroupP(s + t, a, b) <==> GroupP(s, a, b) && GroupP(t, a, b)
  {
    assert forall k :: 0 <= k < |s| ==> s[k] == (s + t)[k];
    assert forall k :: 0 <= k < |t| ==> t[k] == (s + t)[|s| + k];
  }

  /** Two neighbouring groups make one. */
  lemma {:induction false} JoinG(s: seq<nat>, t: seq<nat>, a: nat, b: nat)
    ensures GroupG(s + t, a, b) <==> GroupG(s, a, b) || (GroupP(s, a, b) && GroupG(t, a, b))
    decreases |s|
  {
    if s == [] {
      assert s + t == t;
    } else {
      JoinG(s[1..], t, a, b);
      JoinP([s[0]], s[1..], a, b);
      assert s == [s[0]] + s[1..];
      assert (s + t)[1..] == s[1..] + t;
      assert GroupP([s[0]], a, b) <==> Xor(BitAt(a, s[0]), BitAt(b, s[0]));
    }
  }

  /** A group down to bit 0 generates exactly when there is a carry out of it. */
  lemma {:induction false} WholeGroup(i: nat, a: nat, b: nat)
    ensures GroupG(Span(i, i + 1), a, b) <==> CarryIn(a, b, i + 1)
    decreases i
  {
    CarryNext(a, b, i);
    if i == 0 {
      assert Span(0, 1)[1..] == [];
    } else {
      WholeGroup(i - 1, a, b);
      assert Span(i, i + 1)[1..] == Span(i - 1, i);
    }
  }

  // ------------------------------------------------------------------ the prefix network

  /** The length of the span at position i after l levels. */
  function Length(l: nat, i: nat): (n: nat)
    ensures 1 <= n <= i + 1
  {
    if i + 1 < Pow2(l) then i + 1 else Pow2(l)
  }

  function First(n: nat): seq<Decl> {
    if n == 0 then []
    else
      var i := n - 1;
      First(i) + [Decl(P(i, 1), XorOf(InA(i), InB(i))), Decl(G(i, 1), AndOf(InA(i), InB(i)))]
  }

  /** What level l writes for position i: the span there joined with the one below it. */
  function Cell(l: nat, i: nat): seq<Decl> {
    if i < Pow2(l) then []
    else
      var j := i - Pow2(l);
      [Decl(P(i, Length(l + 1, i)), AndOf(P(i, Length(l, i)), P(j, Length(l, j)))),
       Decl(G(i, Length(l + 1, i)), AndOr(G(j, Length(l, j)), P(i, Length(l, i)), G(i, Length(l, i))))]
  }

  function Row(l: nat, n: nat): seq<Decl> { if n == 0 then [] else Row(l, n - 1) + Cell(l, n - 1) }

  function Network(bits: nat, l: nat): seq<Decl> {
    if l == 0 then First(bits) else Network(bits, l - 1) + Row(l - 1, bits)
  }

  /** The outputs: the sum's bits from the propagates and the groups below them. */
  function PrefixOutput(i: nat): Expr { if i == 0 then Id(P(0, 1)) else XorOf(P(i, 1), G(i - 1, i)) }

  function PrefixOutputs(bits: nat): (ys: seq<Expr>)
    ensures |ys| == bits && forall i :: 0 <= i < bits ==> ys[i] == PrefixOutput(i)
  {
    seq(bits, i requires 0 <= i < bits => PrefixOutput(i))
  }

  lemma Joined(l: nat, i: nat)
    requires i >= Pow2(l)
    ensures Length(l, i) == Pow2(l) && Length(l + 1, i) == Pow2(l) + Length(l, i - Pow2(l))
    ensures Span(i, Length(l + 1, i)) == Span(i, Length(l, i)) + Span(i - Pow2(l), Length(l, i - Pow2(l)))
  {}

  // ------------------------------------------------------------------ it is sound

  /** The longest span at position i with n positions of level l done. */
  function Longest(l: nat, n: nat, i: nat): nat { if i < n then Length(l + 1, i) else Length(l, i) }

  /** Position i has its wires: of one position, of level l and, if it is done, of the next. */
  predicate Covered(ds: seq<Decl>, l: nat, n: nat, i: nat) {
    Has(ds, i, 1) && Has(ds, i, Length(l, i)) && Has(ds, i, Longest(l, n, i))
  }

  /** With n positions of level l done: every position has its wires, and no wire is of a longer span. */
  ghost predicate Covers(ds: seq<Decl>, bits: nat, l: nat, n: nat) {
    && (forall i: nat :: i < bits ==> Covered(ds, l, n, i))
    && (forall i: nat, m: nat :: Touches(ds, i, m) ==> m <= Longest(l, n, i))
  }

  predicate Has(ds: seq<Decl>, i: nat, m: nat) { m <= i + 1 && P(i, m) in Names(ds) && G(i, m) in Names(ds) }

  predicate Touches(ds: seq<Decl>, i: nat, m: nat) {
    1 <= m <= i + 1 && (P(i, m) in Names(ds) || G(i, m) in Names(ds))
  }

  lemma SameSpan(i: nat, m: nat, j: nat, n: nat)
    requires 1 <= m <= i + 1 && 1 <= n <= j + 1 && Span(i, m) == Span(j, n)
    ensures i == j && m == n
  {
    assert Span(i, m)[0] == i;
  }

  /** Two more wires, of a span that was not there. */
  lemma AddPair(ds: seq<Decl>, p: Decl, g: Decl, bits: nat)
    requires Sound(ds, bits) && p.name.Wire? && g.name.Wire? && p.name != g.name
    requires p.name !in Names(ds) && g.name !in Names(ds) && Usable(p.e, ds, bits) && Usable(g.e, ds, bits)
    ensures Sound(ds + [p, g], bits) && Names(ds + [p, g]) == Names(ds) + {p.name, g.name}
  {
    SoundMore(ds, p, bits);
    assert Usable(g.e, ds + [p], bits);
    SoundMore(ds + [p], g, bits);
    assert ds + [p, g] == ds + [p] + [g];
  }

  lemma PairNames(ds: seq<Decl>, es: seq<Decl>, i: nat, m: nat)
    requires 1 <= m <= i + 1 && Names(es) == Names(ds) + {P(i, m), G(i, m)}
    ensures Has(es, i, m)
    ensures forall j: nat, n: nat :: Has(ds, j, n) ==> Has(es, j, n)
    ensures forall j: nat, n: nat :: Touches(es, j, n) ==> Touches(ds, j, n) || (j == i && n == m)
  {
    forall j: nat, n: nat | Touches(es, j, n) ensures Touches(ds, j, n) || (j == i && n == m) {
      if P(j, n) == P(i, m) || G(j, n) == G(i, m) { SameSpan(j, n, i, m); }
    }
  }

  /** After n inputs of the first level. */
  ghost predicate Starts(ds: seq<Decl>, n: nat) {
    && (forall i: nat :: i < n ==> Has(ds, i, 1))
    && (forall i: nat, m: nat :: Touches(ds, i, m) ==> i < n && m == 1)
  }

  lemma {:induction false} FirstSound(bits: nat, n: nat)
    requires n <= bits
    ensures Sound(First(n), bits) && Starts(First(n), n)
    decreases n
  {
    if n > 0 {
      var ds, i := First(n - 1), n - 1;
      FirstSound(bits, i);
      var p, g := Decl(P(i, 1), XorOf(InA(i), InB(i))), Decl(G(i, 1), AndOf(InA(i), InB(i)));
      assert !Touches(ds, i, 1);
      AddPair(ds, p, g, bits);
      PairNames(ds, ds + [p, g], i, 1);
    }
  }

  lemma ShortCell(ds: seq<Decl>, bits: nat, l: nat, n: nat)
    requires Covers(ds, bits, l, n) && n < Pow2(l)
    ensures Cell(l, n) == [] && Covers(ds, bits, l, n + 1)
  {
    var k := n + 1;
    assert Length(l + 1, n) == Length(l, n);
    assert forall i: nat :: Longest(l, k, i) == Longest(l, n, i);
    forall i: nat | i < bits ensures Covered(ds, l, k, i) { assert Covered(ds, l, n, i); }
  }

  lemma CellCovers(ds: seq<Decl>, es: seq<Decl>, bits: nat, l: nat, n: nat)
    requires Covers(ds, bits, l, n) && n < bits && Pow2(l) <= n
    requires Names(es) == Names(ds) + {P(n, Length(l + 1, n)), G(n, Length(l + 1, n))}
    ensures Covers(es, bits, l, n + 1)
  {
    var k := n + 1;
    PairNames(ds, es, n, Length(l + 1, n));
    forall i: nat | i < bits ensures Covered(es, l, k, i) { assert Covered(ds, l, n, i); }
    forall i: nat, m: nat | Touches(es, i, m) ensures m <= Longest(l, k, i) {
      if Touches(ds, i, m) { assert m <= Longest(l, n, i) <= Longest(l, k, i); }
    }
  }

  lemma CellSound(ds: seq<Decl>, bits: nat, l: nat, n: nat)
    requires Sound(ds, bits) && Covers(ds, bits, l, n) && n < bits && Pow2(l) <= n
    ensures Sound(ds + Cell(l, n), bits) && Covers(ds + Cell(l, n), bits, l, n + 1)
  {
    Joined(l, n);
    var p, g := Cell(l, n)[0], Cell(l, n)[1];
    assert Covered(ds, l, n, n) && Covered(ds, l, n, n - Pow2(l));
    assert !Touches(ds, n, Length(l + 1, n));
    AddPair(ds, p, g, bits);
    assert ds + Cell(l, n) == ds + [p, g];
    CellCovers(ds, ds + Cell(l, n), bits, l, n);
  }

  lemma RowNext(ds: seq<Decl>, l: nat, n: nat)
    requires n > 0
    ensures ds + Row(l, n) == (ds + Row(l, n - 1)) + Cell(l, n - 1)
  {}

  ghost predicate Good(ds: seq<Decl>, bits: nat, l: nat, n: nat) { Sound(ds, bits) && Covers(ds, bits, l, n) }

  lemma CellGood(ds: seq<Decl>, bits: nat, l: nat, n: nat)
    requires Good(ds, bits, l, n) && n < bits
    ensures Good(ds + Cell(l, n), bits, l, n + 1)
  {
    if n < Pow2(l) {
      ShortCell(ds, bits, l, n);
      assert ds + Cell(l, n) == ds;
    } else {
      CellSound(ds, bits, l, n);
    }
  }

  lemma GoodNext(ds: seq<Decl>, es: seq<Decl>, bits: nat, l: nat, n: nat)
    requires Good(ds, bits, l, n) && n < bits && es == ds + Cell(l, n)
    ensures Good(es, bits, l, n + 1)
  {
    CellGood(ds, bits, l, n);
  }

  lemma {:induction false} RowGood(ds: seq<Decl>, bits: nat, l: nat, n: nat, es: seq<Decl>)
    requires Good(ds, bits, l, 0) && n <= bits && es == ds + Row(l, n)
    ensures Good(es, bits, l, n)
    decreases n
  {
    if n == 0 {
      assert es == ds;
    } else {
      RowNext(ds, l, n);
      RowGood(ds, bits, l, n - 1, ds + Row(l, n - 1));
      GoodNext(ds + Row(l, n - 1), es, bits, l, n - 1);
    }
  }

  lemma NextLevel(ds: seq<Decl>, bits: nat, l: nat)
    requires Covers(ds, bits, l, bits)
    ensures Covers(ds, bits, l + 1, 0)
  {
    var k := l + 1;
    forall i: nat ensures Longest(l, bits, i) <= Longest(k, 0, i) { assert Length(l, i) <= Length(k, i); }
    forall i: nat | i < bits ensures Covered(ds, k, 0, i) { assert Covered(ds, l, bits, i); }
  }

  lemma StartsCovers(ds: seq<Decl>, bits: nat)
    requires Starts(ds, bits)
    ensures Covers(ds, bits, 0, 0)
  {
    forall i: nat ensures Length(0, i) == 1 && Longest(0, 0, i) == 1 {}
    forall i: nat | i < bits ensures Covered(ds, 0, 0, i) { assert Has(ds, i, 1); }
  }

  /** Every level declares its wires once and after those it uses, and has the groups of its length. */
  lemma {:induction false} NetworkSound(bits: nat, l: nat)
    ensures Good(Network(bits, l), bits, l, 0)
    decreases l
  {
    if l == 0 {
      FirstSound(bits, bits);
      StartsCovers(First(bits), bits);
    } else {
      NetworkSound(bits, l - 1);
      RowGood(Network(bits, l - 1), bits, l - 1, bits, Network(bits, l));
      NextLevel(Network(bits, l), bits, l - 1);
    }
  }

  // ------------------------------------------------------------------ it adds

  lemma OneBit(i: nat, a: nat, b: nat)
    ensures GroupP(Span(i, 1), a, b) == Xor(BitAt(a, i), BitAt(b, i))
    ensures GroupG(Span(i, 1), a, b) == (BitAt(a, i) && BitAt(b, i))
  {
    assert Span(i, 1)[0] == i;
    assert Span(i, 1)[1..] == [];
  }

  lemma {:induction false} FirstMeans(n: nat, a: nat, b: nat)
    ensures Means(First(n), Meaning(a, b))
    decreases n
  {
    if n > 0 {
      FirstMeans(n - 1, a, b);
      OneBit(n - 1, a, b);
    }
  }

  lemma CellMeans(l: nat, i: nat, a: nat, b: nat)
    ensures Means(Cell(l, i), Meaning(a, b))
  {
    if i >= Pow2(l) {
      Joined(l, i);
      var s, t := Span(i, Length(l, i)), Span(i - Pow2(l), Length(l, i - Pow2(l)));
      JoinP(s, t, a, b);
      JoinG(s, t, a, b);
    }
  }

  lemma {:induction false} RowMeans(l: nat, n: nat, a: nat, b: nat)
    ensures Means(Row(l, n), Meaning(a, b))
    decreases n
  {
    if n > 0 {
      RowMeans(l, n - 1, a, b);
      CellMeans(l, n - 1, a, b);
    }
  }

  lemma {:induction false} NetworkMeans(bits: nat, l: nat, a: nat, b: nat)
    ensures Means(Network(bits, l), Meaning(a, b))
    decreases l
  {
    if l == 0 {
      FirstMeans(bits, a, b);
    } else {
      NetworkMeans(bits, l - 1, a, b);
      RowMeans(l - 1, bits, a, b);
    }
  }

  /** After l levels the pair of wires at position i carries the group propagate and the group generate
      of the min(i + 1, 2^l) positions down from i. */
  lemma LevelsCarryGroups(bits: nat, l: nat, i: nat, a: nat, b: nat)
    requires i < bits
    ensures var env, s := Run(Network(bits, l), a, b), Span(i, Length(l, i));
            && P(i, Length(l, i)) in env && env[P(i, Length(l, i))] == GroupP(s, a, b)
            && G(i, Length(l, i)) in env && env[G(i, Length(l, i))] == GroupG(s, a, b)
  {
    NetworkSound(bits, l);
    NetworkMeans(bits, l, a, b);
    RunIsMeaning(Network(bits, l), bits, a, b, Meaning(a, b));
    assert Covered(Network(bits, l), l, 0, i);
  }

  lemma OutputUsable(ds: seq<Decl>, bits: nat, lg: nat, i: nat)
    requires Covers(ds, bits, lg, 0) && i < bits && bits == Pow2(lg)
    ensures Usable(PrefixOutput(i), ds, bits)
  {
    assert Covered(ds, lg, 0, i);
    if i > 0 { assert Covered(ds, lg, 0, i - 1) && Length(lg, i - 1) == i; }
  }

  lemma PrefixUsable(lg: nat, i: nat)
    requires i < Pow2(lg)
    ensures Usable(PrefixOutput(i), Network(Pow2(lg), lg), Pow2(lg))
  {
    NetworkSound(Pow2(lg), lg);
    OutputUsable(Network(Pow2(lg), lg), Pow2(lg), lg, i);
  }

  lemma PrefixMeans(i: nat, a: nat, b: nat)
    ensures Eval(PrefixOutput(i), Meaning(a, b)) == BitAt(a + b, i)
  {
    OneBit(i, a, b);
    SumBit(a, b, i);
    if i == 0 { CarryNext(a, b, 0); } else { WholeGroup(i - 1, a, b); }
  }

  lemma PrefixBit(lg: nat, i: nat, a: nat, b: nat)
    requires i < Pow2(lg)
    ensures var env := Run(Network(Pow2(lg), lg), a, b);
            Eval(PrefixOutput(i), n => Read(env, n, a, b)) == BitAt(a + b, i)
  {
    PrefixUsable(lg, i);
    NetworkSound(Pow2(lg), lg);
    NetworkMeans(Pow2(lg), lg, a, b);
    OutputIsMeaning(Network(Pow2(lg), lg), PrefixOutput(i), Pow2(lg), a, b, Meaning(a, b));
    PrefixMeans(i, a, b);
  }

  lemma PrefixOutputsAre(lg: nat, i: nat, a: nat, b: nat)
    requires i < Pow2(lg)
    ensures Outputs(Network(Pow2(lg), lg), PrefixOutputs(Pow2(lg)), a, b)[i] == BitAt(a + b, i)
  {
    PrefixBit(lg, i, a, b);
  }

  /** The prefix network is a well-formed netlist, and it adds. */
  lemma PrefixAdds(lg: nat, a: nat, b: nat)
    ensures Sound(Network(Pow2(lg), lg), Pow2(lg))
    ensures forall i :: 0 <= i < Pow2(lg) ==> Usable(PrefixOutputs(Pow2(lg))[i], Network(Pow2(lg), lg), Pow2(lg))
    ensures Value(Outputs(Network(Pow2(lg), lg), PrefixOutputs(Pow2(lg)), a, b)) == (a + b) % Pow2(Pow2(lg))
  {
    var y := Outputs(Network(Pow2(lg), lg), PrefixOutputs(Pow2(lg)), a, b);
    NetworkSound(Pow2(lg), lg);
    forall i | 0 <= i < Pow2(lg) ensures Usable(PrefixOutput(i), Network(Pow2(lg), lg), Pow2(lg)) {
      PrefixUsable(lg, i);
    }
    forall i | 0 <= i < |y| ensures y[i] == BitAt(a + b, i) { PrefixOutputsAre(lg, i, a, b); }
    ValueOfBits(y, a + b);
  }

  // ------------------------------------------------------------------ the ripple-carry chain

  /** The carries out of the first n positions. */
  function Chain(n: nat): seq<Decl> {
    if n == 0 then []
    else if n == 1 then [Decl(C(0), AndOf(InA(0), InB(0)))]
    else Chain(n - 1) + [Decl(C(n - 1), Majority(InA(n - 1), InB(n - 1), C(n - 2)))]
  }

  function RippleOutput(i: nat): Expr {
    if i == 0 then XorOf(InA(0), InB(0)) else Xor3(InA(i), InB(i), C(i - 1))
  }

  function RippleOutputs(bits: nat): (ys: seq<Expr>)
    ensures |ys| == bits && forall i :: 0 <= i < bits ==> ys[i] == RippleOutput(i)
  {
    seq(bits, i requires 0 <= i < bits => RippleOutput(i))
  }

  /** The last position's carry is not written, but the first one's always is. */
  function Ripple(bits: nat): seq<Decl> { Chain(if bits <= 1 then 1 else bits - 1) }

  lemma {:induction false} ChainSound(n: nat, bits: nat)
    requires n <= bits
    ensures Sound(Chain(n), bits) && Names(Chain(n)) == (set i: nat | i < n :: C(i))
    decreases n
  {
    if n == 1 {
      SoundMore([], Decl(C(0), AndOf(InA(0), InB(0))), bits);
      assert [] + Chain(1) == Chain(1);
    } else if n > 1 {
      ChainSound(n - 1, bits);
      SoundMore(Chain(n - 1), Decl(C(n - 1), Majority(InA(n - 1), InB(n - 1), C(n - 2))), bits);
    }
  }

  lemma {:induction false} ChainMeans(n: nat, a: nat, b: nat)
    ensures Means(Chain(n), Meaning(a, b))
    decreases n
  {
    if n > 0 {
      ChainMeans(n - 1, a, b);
      CarryNext(a, b, n - 1);
    }
  }

  lemma RippleMeans(i: nat, a: nat, b: nat)
    ensures Eval(RippleOutput(i), Meaning(a, b)) == BitAt(a + b, i)
  {
    SumBit(a, b, i);
    CarryNext(a, b, 0);
  }

  lemma RippleUsable(bits: nat, i: nat)
    requires i < bits
    ensures Sound(Ripple(bits), bits) && Usable(RippleOutput(i), Ripple(bits), bits)
  {
    var n := if bits <= 1 then 1 else bits - 1;
    ChainSound(n, bits);
    if i > 0 { assert C(i - 1) in Names(Chain(n)); }
  }

  lemma RippleBit(bits: nat, i: nat, a: nat, b: nat)
    requires i < bits
    ensures Outputs(Ripple(bits), RippleOutputs(bits), a, b)[i] == BitAt(a + b, i)
  {
    RippleUsable(bits, i);
    ChainMeans(if bits <= 1 then 1 else bits - 1, a, b);
    OutputIsMeaning(Ripple(bits), RippleOutput(i), bits, a, b, Meaning(a, b));
    RippleMeans(i, a, b);
  }

  /** The ripple-carry chain is a well-formed netlist, and it adds. */
  lemma RippleAdds(bits: nat, a: nat, b: nat)
    requires bits > 0
    ensures Sound(Ripple(bits), bits)
    ensures forall i :: 0 <= i < bits ==> Usable(RippleOutputs(bits)[i], Ripple(bits), bits)
    ensures Value(Outputs(Ripple(bits), RippleOutputs(bits), a, b)) == (a + b) % Pow2(bits)
  {
    var y := Outputs(Ripple(bits), RippleOutputs(bits), a, b);
    RippleUsable(bits, 0);
    forall i | 0 <= i < bits ensures Usable(RippleOutput(i), Ripple(bits), bits) { RippleUsable(bits, i); }
    forall i | 0 <= i < bits ensures y[i] == BitAt(a + b, i) { RippleBit(bits, i, a, b); }
    ValueOfBits(y, a + b);
  }

  /** So the two netlists of a width are equivalent, bit for bit. */
  lemma SameAdder(lg: nat, a: nat, b: nat)
    ensures Outputs(Network(Pow2(lg), lg), PrefixOutputs(Pow2(lg)), a, b)
         == Outputs(Ripple(Pow2(lg)), RippleOutputs(Pow2(lg)), a, b)
  {
    forall i | 0 <= i < Pow2(lg)
      ensures Outputs(Network(Pow2(lg), lg), PrefixOutputs(Pow2(lg)), a, b)[i]
           == Outputs(Ripple(Pow2(lg)), RippleOutputs(Pow2(lg)), a, b)[i]
    {
      PrefixOutputsAre(lg, i, a, b);
      RippleBit(Pow2(lg), i, a, b);
    }
  }

  // ------------------------------------------------------------------ the generators' loops

  /** The names of the spans at the first n positions after l levels. */
  function NamesAt(l: nat, n: nat): (s: seq<seq<nat>>)
    ensures |s| == n && forall i :: 0 <= i < n ==> s[i] == Span(i, Length(l, i))
  {
    seq<seq<nat>>(n, i requires 0 <= i < n => Span(i, Length(l, i)))
  }

  /** One level: every position that has another d below it gets two wires, named after both. */
  method WriteLevel(ghost l: nat, bits: nat, d: nat, names: seq<seq<nat>>) returns (out: seq<Decl>, next: seq<seq<nat>>)
    requires d == Pow2(l) && names == NamesAt(l, bits)
    ensures out == Row(l, bits) && next == NamesAt(l + 1, bits)
  {
    out, next := [], [];
    var i := 0;
    while i < bits
      invariant i <= bits && out == Row(l, i) && next == NamesAt(l + 1, i)
    {
      var n := names[i];
      if i >= d {
        Joined(l, i);
        n := names[i] + names[i - d];
        out := out + [Decl(Wire(Propagate, n), AndOf(Wire(Propagate, names[i]), Wire(Propagate, names[i - d]))),
                      Decl(Wire(Generate, n),
                           AndOr(Wire(Generate, names[i - d]), Wire(Propagate, names[i]), Wire(Generate, names[i])))];
      }
      next := next + [n];
      i := i + 1;
    }
  }

  /** The parallel-prefix adder of 2^lg bits: its wires and its outputs. */
  method WritePrefix(lg: nat) returns (out: seq<Decl>, ys: seq<Expr>)
    ensures out == Network(Pow2(lg), lg) && ys == PrefixOutputs(Pow2(lg))
  {
    var bits := Pow2(lg);
    var names: seq<seq<nat>> := [];
    out := [];
    var i := 0;
    while i < bits
      invariant i <= bits && out == First(i) && names == NamesAt(0, i)
    {
      assert Span(i, 1) == [i];
      out := out + [Decl(Wire(Propagate, [i]), XorOf(InA(i), InB(i))),
                    Decl(Wire(Generate, [i]), AndOf(InA(i), InB(i)))];
      names := names + [[i]];
      i := i + 1;
    }
    var first := names;
    var l := 0;
    while l < lg
      invariant l <= lg && out == Network(bits, l) && names == NamesAt(l, bits)
    {
      var more;
      more, names := WriteLevel(l, bits, Pow2(l), names);
      out := out + more;
      l := l + 1;
    }
    ys := WriteSums(lg, first, names);
  }

  method WriteSums(ghost lg: nat, first: seq<seq<nat>>, names: seq<seq<nat>>) returns (ys: seq<Expr>)
    requires first == NamesAt(0, Pow2(lg)) && names == NamesAt(lg, Pow2(lg))
    ensures ys == PrefixOutputs(Pow2(lg))
  {
    ys := [Id(Wire(Propagate, first[0]))];
    var i := 1;
    while i < |first|
      invariant 1 <= i <= |first| && ys == PrefixOutputs(i)
    {
      assert Length(0, i) == 1 && Length(lg, i - 1) == i;
      ys := ys + [XorOf(Wire(Propagate, first[i]), Wire(Generate, names[i - 1]))];
      i := i + 1;
    }
  }

  /** The ripple-carry adder. */
  method WriteRipple(bits: nat) returns (out: seq<Decl>, ys: seq<Expr>)
    requires bits > 0
    ensures out == Ripple(bits) && ys == RippleOutputs(bits)
  {
    ys := [XorOf(InA(0), InB(0))];
    out := [Decl(C(0), AndOf(InA(0), InB(0)))];
    var i := 1;
    while i < bits
      invariant 1 <= i <= bits && ys == RippleOutputs(i)
      invariant out == Chain(if i < bits || bits == 1 then i else bits - 1)
    {
      ys := ys + [Xor3(InA(i), InB(i), C(i - 1))];
      if i != bits - 1 { out := out + [Decl(C(i), Majority(InA(i), InB(i), C(i - 1)))]; }
      i := i + 1;
    }
  }
}

/** The adder generators: a parallel-prefix network and a ripple-carry chain, as the lists of wires
    that they write out, and what those wires carry.  */
module Adders {
  import opened Bits

  // ------------------------------------------------------------------ netlists

  datatype Kind = Propagate | Generate | Carry

  /** An input bit, or a wire; a wire's name is the list of the bit positions it was made from. */
  datatype Net = InA(i: nat) | InB(i: nat) | Wire(kind: Kind, name: seq<nat>)

  datatype Expr =
    | Id(x: Net)
    | XorOf(x: Net, y: Net)
    | Xor3(x: Net, y: Net, z: Net)
    | AndOf(x: Net, y: Net)
    | AndOr(x: Net, y: Net, z: Net)      // (x & y) | z
    | Majority(x: Net, y: Net, z: Net)   // (x & y) | (z & (x ^ y))

  datatype Decl = Decl(name: Net, e: Expr)

  function Operands(e: Expr): set<Net> {
    match e
    case Id(x) => {x}
    case XorOf(x, y) => {x, y}
    case Xor3(x, y, z) => {x, y, z}
    case AndOf(x, y) => {x, y}
    case AndOr(x, y, z) => {x, y, z}
    case Majority(x, y, z) => {x, y, z}
  }

  function Names(ds: seq<Decl>): set<Net> { set d | d in ds :: d.name }

  predicate IsInput(n: Net, bits: nat) { !n.Wire? && n.i < bits }

  predicate Usable(e: Expr, ds: seq<Decl>, bits: nat) {
    forall n :: n in Operands(e) ==> IsInput(n, bits) || n in Names(ds)
  }

  /** Every wire is declared once and before it is used. */
  ghost predicate Sound(ds: seq<Decl>, bits: nat)
    decreases |ds|
  {
    ds == [] ||
    (var last := |ds| - 1;
     && Sound(ds[..last], bits)
     && ds[last].name.Wire? && ds[last].name !in Names(ds[..last]) && Usable(ds[last].e, ds[..last], bits))
  }

  lemma SoundMore(ds: seq<Decl>, d: Decl, bits: nat)
    requires Sound(ds, bits) && d.name.Wire? && d.name !in Names(ds) && Usable(d.e, ds, bits)
    ensures Sound(ds + [d], bits)
    ensures Names(ds + [d]) == Names(ds) + {d.name}
  {
    assert (ds + [d])[..|ds|] == ds;
  }

  // ------------------------------------------------------------------ what a netlist computes

  function InputOf(n: Net, a: nat, b: nat): bool {
    match n
    case InA(i) => BitAt(a, i)
    case InB(i) => BitAt(b, i)
    case Wire(_, _) => false
  }

  type Env = map<Net, bool>

  function Read(env: Env, n: Net, a: nat, b: nat): bool {
    if n.Wire? && n in env then env[n] else InputOf(n, a, b)
  }

  function Xor(x: bool, y: bool): bool { x != y }

  function Eval(e: Expr, v: Net -> bool): bool {
    match e
    case Id(x) => v(x)
    case XorOf(x, y) => Xor(v(x), v(y))
    case Xor3(x, y, z) => Xor(Xor(v(x), v(y)), v(z))
    case AndOf(x, y) => v(x) && v(y)
    case AndOr(x, y, z) => (v(x) && v(y)) || v(z)
    case Majority(x, y, z) => (v(x) && v(y)) || (v(z) && Xor(v(x), v(y)))
  }

  /** The wires' values, declaration by declaration. */
  function Run(ds: seq<Decl>, a: nat, b: nat): Env
    decreases |ds|
  {
    if ds == [] then map[]
    else
      var last := |ds| - 1;
      var env := Run(ds[..last], a, b);
      env[ds[last].name := Eval(ds[last].e, n => Read(env, n, a, b))]
  }

  /** The outputs, least significant bit first. */
  function Outputs(ds: seq<Decl>, ys: seq<Expr>, a: nat, b: nat): (s: seq<bool>)
    ensures |s| == |ys|
  {
    var env := Run(ds, a, b);
    seq(|ys|, i requires 0 <= i < |ys| => Eval(ys[i], n => Read(env, n, a, b)))
  }

  function Value(y: seq<bool>): nat {
    if y == [] then 0 else (if y[0] then 1 else 0) + 2 * Value(y[1..])
  }

  /** A meaning of wires that every declaration agrees with is what the netlist computes. */
  ghost predicate Means(ds: seq<Decl>, v: Net -> bool) {
    forall k :: 0 <= k < |ds| ==> v(ds[k].name) == Eval(ds[k].e, v)
  }

  lemma SameEval(e: Expr, v: Net -> bool, w: Net -> bool)
    requires forall n :: n in Operands(e) ==> v(n) == w(n)
    ensures Eval(e, v) == Eval(e, w)
  {}

  /** Once the wires have their meaning, so has an expression over them. */
  lemma ReadIsMeaning(ds: seq<Decl>, e: Expr, bits: nat, a: nat, b: nat, v: Net -> bool)
    requires Usable(e, ds, bits) && Run(ds, a, b).Keys == Names(ds) && forall n: Net :: n in Names(ds) ==> n.Wire?
    requires forall n: Net :: n in Names(ds) ==> Run(ds, a, b)[n] == v(n)
    requires forall n: Net :: IsInput(n, bits) ==> v(n) == InputOf(n, a, b)
    ensures var env := Run(ds, a, b); Eval(e, n => Read(env, n, a, b)) == Eval(e, v)
  {
    var env := Run(ds, a, b);
    var w := n => Read(env, n, a, b);
    forall n | n in Operands(e) ensures v(n) == w(n) {
      assert w(n) == Read(env, n, a, b);
    }
    SameEval(e, v, w);
  }

  lemma {:induction false} RunIsMeaning(ds: seq<Decl>, bits: nat, a: nat, b: nat, v: Net -> bool)
    requires Sound(ds, bits) && Means(ds, v)
    requires forall n: Net :: IsInput(n, bits) ==> v(n) == InputOf(n, a, b)
    ensures Run(ds, a, b).Keys == Names(ds) && forall n: Net :: n in Names(ds) ==> n.Wire?
    ensures forall n: Net :: n in Names(ds) ==> Run(ds, a, b)[n] == v(n)
    decreases |ds|
  {
    if ds != [] {
      var last := |ds| - 1;
      RunIsMeaning(ds[..last], bits, a, b, v);
      ReadIsMeaning(ds[..last], ds[last].e, bits, a, b, v);
      assert ds == ds[..last] + [ds[last]];
    }
  }

  /** What an expression over the netlist computes. */
  lemma OutputIsMeaning(ds: seq<Decl>, e: Expr, bits: nat, a: nat, b: nat, v: Net -> bool)
    requires Sound(ds, bits) && Means(ds, v) && Usable(e, ds, bits)
    requires forall n: Net :: IsInput(n, bits) ==> v(n) == InputOf(n, a, b)
    ensures var env := Run(ds, a, b); Eval(e, n => Read(env, n, a, b)) == Eval(e, v)
  {
    RunIsMeaning(ds, bits, a, b, v);
    ReadIsMeaning(ds, e, bits, a, b, v);
  }

  // ------------------------------------------------------------------ addition, bit by bit

  function Num(x: bool): nat { if x then 1 else 0 }

  /** The carry into position i. */
  predicate CarryIn(a: nat, b: nat, i: nat) { Lo(a, i) + Lo(b, i) >= Pow2(i) }

  lemma {:induction false} Next(x: nat, i: nat)
    ensures Hi(x, i) == 2 * Hi(x, i + 1) + Num(BitAt(x, i))
    ensures Lo(x, i + 1) == Lo(x, i) + Num(BitAt(x, i)) * Pow2(i)
    decreases i
  {
    if i > 0 { Next(x / 2, i - 1); }
  }

  /** A position generates a carry, or propagates the one that comes in. */
  lemma CarryNext(a: nat, b: nat, i: nat)
    ensures CarryIn(a, b, i + 1)
            <==> (BitAt(a, i) && BitAt(b, i)) || (Xor(BitAt(a, i), BitAt(b, i)) && CarryIn(a, b, i))
    ensures !CarryIn(a, b, 0)
  {
    Next(a, i);
    Next(b, i);
    HiLo(a, i);
    HiLo(b, i);
  }

  lemma SumParts(ha: nat, hb: nat, la: nat, lb: nat, p: nat)
    requires la < p && lb < p
    ensures var c := Num(la + lb >= p);
            (ha * p + la + (hb * p + lb)) / p == ha + hb + c && (ha * p + la + (hb * p + lb)) % p == la + lb - c * p
  {
    var c := Num(la + lb >= p);
    assert ha * p + la + (hb * p + lb) == (ha + hb + c) * p + (la + lb - c * p);
    QuotRem(ha + hb + c, p, la + lb - c * p);
  }

  lemma HiIs(x: nat, i: nat)
    ensures Hi(x, i) == x / Pow2(i) && Lo(x, i) == x % Pow2(i)
  {
    HiLo(x, i);
    UpIsTimes(Hi(x, i), i);
    QuotRem(Hi(x, i), Pow2(i), Lo(x, i));
  }

  lemma Parity(x: nat, y: nat, c: bool)
    ensures ((x + y + Num(c)) % 2 == 1) == Xor(Xor(x % 2 == 1, y % 2 == 1), c)
  {}

  lemma HiOfSum(a: nat, b: nat, i: nat)
    ensures Hi(a + b, i) == Hi(a, i) + Hi(b, i) + Num(CarryIn(a, b, i))
  {
    HiLo(a, i);
    HiLo(b, i);
    UpIsTimes(Hi(a, i), i);
    UpIsTimes(Hi(b, i), i);
    HiIs(a + b, i);
    SumParts(Hi(a, i), Hi(b, i), Lo(a, i), Lo(b, i), Pow2(i));
  }

  /** The sum's bit: the two bits and the carry. */
  lemma SumBit(a: nat, b: nat, i: nat)
    ensures BitAt(a + b, i) == Xor(Xor(BitAt(a, i), BitAt(b, i)), CarryIn(a, b, i))
  {
    HiOfSum(a, b, i);
    Parity(Hi(a, i), Hi(b, i), CarryIn(a, b, i));
  }

  lemma {:induction false} ValueOfBits(y: seq<bool>, x: nat)
    requires forall i :: 0 <= i < |y| ==> y[i] == BitAt(x, i)
    ensures Value(y) == x % Pow2(|y|)
    decreases |y|
  {
    HiIs(x, |y|);
    if y != [] {
      ValueOfBits(y[1..], x / 2);
      HiIs(x / 2, |y| - 1);
    }
  }
}

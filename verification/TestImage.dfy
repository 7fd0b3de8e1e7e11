/** A random test as the interpreter finds it: assembled, in an unmapped segment.  What an instruction
    computes is fixed only as far as the generator's safety rests on it.  */
module TestImage {
  import opened Bits
  import opened Tlb
  import opened Exec
  import Generator
  import P = RandomProgram
  import R = RandomRuns

  // ------------------------------------------------------------------ the Status register

  function Flag(b: bool): nat { if b then 1 else 0 }

  /** The fields, in place. */
  function Fields(st: Status): nat {
    Flag(st.exl) * 2 + Flag(st.erl) * 4 + st.ksu * 8 + Flag(st.ux) * 0x20 + Flag(st.sx) * 0x40 + Flag(st.kx) * 0x80
    + Flag(st.bev) * 0x40_0000 + Flag(st.fr) * 0x400_0000 + Flag(st.cu1) * 0x2000_0000
  }

  function Word(st: Status): int { Fields(st) + st.rest }

  function StatusOf(w: u32): Status {
    var st := Status(w / 2 % 2 == 1, w / 4 % 2 == 1, w / 0x40_0000 % 2 == 1, w / 8 % 4, w / 0x80 % 2 == 1,
                     w / 0x40 % 2 == 1, w / 0x20 % 2 == 1, w / 0x400_0000 % 2 == 1, w / 0x2000_0000 % 2 == 1, 0);
    st.(rest := w - Fields(st))
  }

  const CU2: nat := 0x4000_0000

  /** What a move from Status reads: one bit is always set. */
  function ReadStatus(st: Status): u32 {
    var w := Word(st) % W32;
    if w / CU2 % 2 == 1 then w else (w + CU2) % W32
  }

  // ------------------------------------------------------------------ a test in memory

  /** A test, its buffer and the address it starts at. */
  datatype Image = Image(p: R.Program, b: R.Buffer, start: u64)
  {
    function Pc(i: nat): nat { start + 4 * i }
    function Pa(i: nat): nat { start % 0x2000_0000 + 4 * i }

    /** Program and buffer are each in an unmapped segment, the program in reach of a jump. */
    ghost predicate Valid() {
      && p.Valid(b)
      && Kseg01(start) && start == SignExtend(start % W32) && start % 4 == 0
      && start % 0x1000_0000 + 4 * |p.body| + 4 < 0x1000_0000
      && Kseg01(b.base) && b.base % 0x2000_0000 + b.size <= 0x2000_0000
    }
  }

  /** The loads and stores, and nothing that can run for another mnemonic. */
  function Access(op: P.Mnemonic, reg: P.Reg, off: nat, base: P.Reg): Instr {
    match op
    case LB => Instr.Load(Bits8, true, reg, base, off)
    case LBU => Instr.Load(Bits8, false, reg, base, off)
    case LH => Instr.Load(Bits16, true, reg, base, off)
    case LHU => Instr.Load(Bits16, false, reg, base, off)
    case LW => Instr.Load(Bits32, true, reg, base, off)
    case LWU => Instr.Load(Bits32, false, reg, base, off)
    case LD => Instr.Load(Bits64, true, reg, base, off)
    case SB_ => Instr.Store(Bits8, reg, base, off)
    case SH => Instr.Store(Bits16, reg, base, off)
    case SW => Instr.Store(Bits32, reg, base, off)
    case SD => Instr.Store(Bits64, reg, base, off)
    case LWL => LoadPart(true, false, reg, base, off)
    case LWR => LoadPart(false, false, reg, base, off)
    case LDL => LoadPart(true, true, reg, base, off)
    case LDR => LoadPart(false, true, reg, base, off)
    case SWL => StorePart(true, false, reg, base, off)
    case SWR => StorePart(false, false, reg, base, off)
    case SDL => StorePart(true, true, reg, base, off)
    case SDR => StorePart(false, true, reg, base, off)
    case LWC1 => LoadFp(false, reg, base, off)
    case LDC1 => LoadFp(true, reg, base, off)
    case SWC1 => StoreFp(false, reg, base, off)
    case SDC1 => StoreFp(true, reg, base, off)
    case _ => Exec.Trap(10)
  }

  /** x computes from the registers what the mnemonic says, as far as it matters. */
  ghost predicate ComputesAs(i: P.Instr, x: Instr)
    requires x.Compute?
  {
    forall c: R.Cpu, h: u64, l: u64 | |c.regs| == 32 :: R.Computes(i, c, x.f(c.regs[x.rs], c.regs[x.rt], h, l))
  }

  /** x is the instruction i, assembled. */
  ghost predicate Encodes(i: P.Instr, x: Instr) {
    match i
    case Reg3(_, rd, rs, rt) => x.Compute? && x.rd == rd && x.rs == rs && x.rt == rt && ComputesAs(i, x)
    case RegImm(_, rd, rs, _) => x.Compute? && x.rd == rd && x.rs == rs && ComputesAs(i, x)
    case Lui(rd, _) => x.Compute? && x.rd == rd
    case FromHiLo(_, rd) => x.Compute? && x.rd == rd
    case MulDiv(_, rs, rt) => x.SetHiLo? && x.rs == rs && x.rt == rt
    case Mem(op, reg, off, base) => x == Access(op, reg, off, base) && !x.Trap?
    case ToFp(rs, f) => x.MoveToFp? && !x.dw && x.rt == rs && x.fs == f
    case FromFp(rd, f) => x.MoveFromFp? && !x.dw && x.rt == rd && x.fs == f
    case FromStatus(rd) =>
      x.MoveFromCp0? && x.rt == rd && forall c: Cp0 :: x.get(c) == SignExtend(ReadStatus(c.status))
    case ToStatus(rs) =>
      x.MoveToCp0? && x.rt == rs && forall c: Cp0, v: u64 :: x.put(c, v) == c.(status := StatusOf(v % W32))
    case Ehb => x.Compute? && x.rd == 0
    case Nop => x.Compute? && x.rd == 0
    case Br(_, _, _, _, _) => x.Branch? || x.Jump?
  }

  /** x, at index i, is the branch or jump to the label. */
  ghost predicate Leads(im: Image, i: nat, br: P.Instr, x: Instr)
    requires br.Br?
  {
    && (if br.op == P.J then x.Jump? && !x.link else x.Branch? && !x.fp && !x.link && x.likely == br.likely)
    && forall q: nat | R.LabelAt(im.p.body, br.to, q) ::
         if x.Jump? then x.target == im.Pc(q) % 0x1000_0000 / 4 else x.Branch? && x.offset == 4 * (q - i - 1)
  }

  /** x is instruction i of the program, assembled. */
  ghost predicate EncodesAt(im: Image, i: nat, x: Instr)
    requires i < |im.p.body|
  {
    && Encodes(im.p.body[i].ins, x)
    && (im.p.body[i].ins.Br? ==> Leads(im, i, im.p.body[i].ins, x))
  }

  /** `code` has the program. */
  ghost predicate Loaded(im: Image, code: u32 -> Instr)
    requires im.Valid()
  {
    forall i: nat | i < |im.p.body| && im.Pa(i) < W32 :: EncodesAt(im, i, code(im.Pa(i)))
  }

  // ------------------------------------------------------------------ every test can be loaded

  function And64(x: u64, y: u64): u64 {
    AndBound(x, y);
    And(x, y)
  }

  function Or64(x: u64, y: u64): u64 {
    WidePowers();
    OrBelow(x, y, 64);
    Or(x, y)
  }

  function ZeroTo(rd: Reg): Instr { Compute(rd, 0, 0, (a: u64, b: u64, h: u64, l: u64) => 0, false) }

  /** An encoding of i, which is not a branch. */
  function Assembled(i: P.Instr): Instr
    requires !i.Br?
  {
    match i
    case Reg3(op, rd, rs, rt) =>
      Compute(rd, rs, rt, (a: u64, b: u64, h: u64, l: u64) => if op == P.AND then And64(a, b) else (a + b) % W64, false)
    case RegImm(op, rd, rs, imm) =>
      Compute(rd, rs, 0,
              (a: u64, b: u64, h: u64, l: u64) =>
                if op == P.SLL then SignExtend(a % W32)
                else if 0 <= imm < W64 then (if op == P.ANDI then And64(a, imm) else Or64(a, imm)) else 0,
              false)
    case Lui(rd, _) => ZeroTo(rd)
    case FromHiLo(_, rd) => ZeroTo(rd)
    case MulDiv(_, rs, rt) => SetHiLo(rs, rt, (a: u64, b: u64, h: u64, l: u64) => (0, 0), false)
    case Mem(op, reg, off, base) => Access(op, reg, off, base)
    case ToFp(rs, f) => MoveToFp(false, rs, f % 32)
    case FromFp(rd, f) => MoveFromFp(false, rd, f % 32)
    case FromStatus(rd) => MoveFromCp0(rd, (c: Cp0) => SignExtend(ReadStatus(c.status)))
    case ToStatus(rs) => MoveToCp0(rs, (c: Cp0, v: u64) => c.(status := StatusOf(v % W32)))
    case Ehb => ZeroTo(0)
    case Nop => ZeroTo(0)
  }

  /** What units are made of can be encoded. */
  predicate Encodable(i: P.Instr) {
    match i
    case RegImm(op, _, _, imm) => op in {P.ANDI, P.ORI} ==> imm < W64
    case Mem(op, reg, off, base) => !Access(op, reg, off, base).Trap?
    case ToFp(_, f) => f < 32
    case FromFp(_, f) => f < 32
    case _ => true
  }

  lemma ComputedEncodes(i: P.Instr)
    requires (i.Reg3? || i.RegImm?) && Encodable(i)
    ensures Encodes(i, Assembled(i))
  {
    var x := Assembled(i);
    forall c: R.Cpu, h: u64, l: u64 | |c.regs| == 32
      ensures R.Computes(i, c, x.f(c.regs[x.rs], c.regs[x.rt], h, l))
    {
    }
  }

  lemma AssembledEncodes(i: P.Instr)
    requires !i.Br? && Encodable(i)
    ensures Encodes(i, Assembled(i))
  {
    if i.Reg3? || i.RegImm? { ComputedEncodes(i); }
  }

  lemma UnitsEncodable(u: P.Unit, j: nat, mask: nat)
    requires P.IsUnit(u) && j < |P.Text(u, mask)| && mask < 0x1_0000
    ensures Encodable(P.Text(u, mask)[j])
  {}

  lemma TestsEncodable(im: Image, i: nat)
    requires im.Valid() && i < |im.p.body|
    ensures Encodable(im.p.body[i].ins)
  {
    var k := R.UnitOf(im.p, im.b, i);
    R.UnitSpan(im.p, im.b, k);
    R.InstrIs(im.p, im.b, k, i);
    UnitsEncodable(im.p.units[k], i - im.p.cuts[k], Generator.OffMask(im.b.size));
  }

  function AssembledBranch(im: Image, i: nat, br: P.Instr, q: nat): Instr
    requires br.Br?
  {
    if br.op == P.J then Jump(im.Pc(q) % 0x1000_0000 / 4, false)
    else Branch((a: u64, b: u64, f: u32) => a == b, false, br.rs, br.rt, br.likely, false, 4 * (q - i - 1))
  }

  /** Labels are where they are once. */
  lemma OneLabel(im: Image, l: nat, p: nat, q: nat)
    requires im.Valid() && R.LabelAt(im.p.body, l, p) && R.LabelAt(im.p.body, l, q)
    ensures p == q
  {}

  lemma EncodeOne(im: Image, i: nat) returns (x: Instr)
    requires im.Valid() && i < |im.p.body|
    ensures EncodesAt(im, i, x)
  {
    var ins := im.p.body[i].ins;
    if ins.Br? {
      var q := R.LabelIsThere(im.p, im.b, i);
      x := AssembledBranch(im, i, ins, q);
      forall p: nat | R.LabelAt(im.p.body, ins.to, p) ensures p == q { OneLabel(im, ins.to, p, q); }
    } else {
      TestsEncodable(im, i);
      AssembledEncodes(ins);
      x := Assembled(ins);
    }
  }

  ghost predicate EncodesAll(im: Image, xs: seq<Instr>) {
    |xs| <= |im.p.body| && forall i :: 0 <= i < |xs| ==> EncodesAt(im, i, xs[i])
  }

  lemma {:induction false} EncodeAll(im: Image, n: nat) returns (xs: seq<Instr>)
    requires im.Valid() && n <= |im.p.body|
    ensures |xs| == n && EncodesAll(im, xs)
    decreases n
  {
    xs := [];
    if n > 0 {
      var before := EncodeAll(im, n - 1);
      var x := EncodeOne(im, n - 1);
      xs := before + [x];
    }
  }

  /** Code with xs from address `first` on. */
  function Place(first: nat, xs: seq<Instr>): u32 -> Instr {
    (pa: u32) => if first <= pa && (pa - first) / 4 < |xs| then xs[(pa - first) / 4] else Exec.Trap(10)
  }

  lemma PlacedAt(first: nat, xs: seq<Instr>, i: nat)
    requires i < |xs| && first + 4 * i < W32
    ensures Place(first, xs)(first + 4 * i) == xs[i]
  {
    QuotRem(i, 4, 0);
  }

  /** Every test has an encoding: there is code to load. */
  lemma EveryTestLoads(im: Image) returns (code: u32 -> Instr)
    requires im.Valid()
    ensures Loaded(im, code)
  {
    var xs := EncodeAll(im, |im.p.body|);
    code := Place(im.Pa(0), xs);
    forall i: nat | i < |im.p.body| && im.Pa(i) < W32 ensures EncodesAt(im, i, code(im.Pa(i))) {
      PlacedAt(im.Pa(0), xs, i);
    }
  }
}

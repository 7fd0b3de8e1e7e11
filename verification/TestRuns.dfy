/** A random test on the interpreter: loaded in an unmapped segment and entered as the preamble leaves
    the machine, it runs to its end and no instruction raises an exception.  */
module TestRuns {
  import opened Bits
  import opened Tlb
  import opened Exec
  import opened Precise
  import opened TestImage
  import Generator
  import P = RandomProgram
  import R = RandomRuns
  import S = PairSteps

  // ------------------------------------------------------------------ the machine during a test

  /** Kernel mode, by KSU or, as after reset, by ERL, or by EXL; floating point usable; KX comes and goes. */
  predicate Running(w: u32) {
    && (w / 2 % 2 == 1 || w / 4 % 2 == 1 || w / 8 % 4 == 0)
    && w / 0x2000_0000 % 2 == 1 && w / CU2 % 2 == 1
  }

  lemma ModeIs(w: u32)
    requires Running(w)
    ensures var st := StatusOf(w);
            && KernelMode(st) && In64BitMode(st) && st.cu1 && Word(st) == w
            && (w / 0x80 % 2 == 1 ==> Wide(st))
  {}

  lemma HighBit(h: nat, e: nat, p: nat)
    requires e < 0x100 && p in {0x20_0000, 0x40_0000}
    ensures (h * 0x100 + e) / (p * 0x100) == h / p
  {
    QuotRem(h / p, p * 0x100, h % p * 0x100 + e);
  }

  /** The fields within the low seven bits. */
  lemma LowField2(k: nat, e: nat)
    requires e < 0x80
    ensures (k * 0x80 + e) / 2 % 2 == e / 2 % 2
  {
    QuotRem(k * 0x40 + e / 2, 2, e % 2);
    QuotRem(k * 0x20 + e / 2 / 2, 2, e / 2 % 2);
  }

  lemma LowField4(k: nat, e: nat)
    requires e < 0x80
    ensures (k * 0x80 + e) / 4 % 2 == e / 4 % 2
  {
    QuotRem(k * 0x20 + e / 4, 4, e % 4);
    QuotRem(k * 0x10 + e / 4 / 2, 2, e / 4 % 2);
  }

  lemma LowField8(k: nat, e: nat)
    requires e < 0x80
    ensures (k * 0x80 + e) / 8 % 4 == e / 8 % 4
  {
    QuotRem(k * 0x10 + e / 8, 8, e % 8);
    QuotRem(k * 4 + e / 8 / 4, 4, e / 8 % 4);
  }

  lemma HighFields(h: nat, e: nat)
    requires e < 0x100
    ensures (h * 0x100 + e) / 0x2000_0000 == h / 0x20_0000 && (h * 0x100 + e) / CU2 == h / 0x40_0000
  {
    HighBit(h, e, 0x20_0000);
    HighBit(h, e, 0x40_0000);
  }

  lemma RunningIs(h: nat, k: nat, e: nat)
    requires e < 0x80 && k < 2 && h * 0x100 + k * 0x80 + e < W32
    ensures Running(h * 0x100 + k * 0x80 + e)
            <==> && (e / 2 % 2 == 1 || e / 4 % 2 == 1 || e / 8 % 4 == 0)
                 && h / 0x20_0000 % 2 == 1 && h / 0x40_0000 % 2 == 1
  {
    LowField2(2 * h + k, e);
    LowField4(2 * h + k, e);
    LowField8(2 * h + k, e);
    HighFields(h, k * 0x80 + e);
  }

  lemma KxApart(w: u32)
    requires w / 0x80 % 2 == 1
    ensures w == w / 0x100 * 0x100 + 1 * 0x80 + w % 0x80
  {}

  lemma WithoutKx(w: u32)
    requires Running(w) && w / 0x80 % 2 == 1
    ensures Running(w - 0x80)
  {
    var h, e := w / 0x100, w % 0x80;
    KxApart(w);
    RunningIs(h, 1, e);
    RunningIs(h, 0, e);
  }

  /** t is what c describes, at the end of an instruction: register 0 is not yet zero again. */
  predicate Shows(t: Cpu, c: R.Cpu) {
    Fit(t) && c.regs == t.gpr[0 := 0] && t.m.cp0.status == StatusOf(c.status)
  }

  /** The state r, ready to execute, is what c describes. */
  predicate Meets(r: Cpu, c: R.Cpu) {
    && Fit(r) && c.regs == r.gpr && r.gpr[0] == 0 && r.m.cp0.status == StatusOf(c.status)
    && Running(c.status) && !r.m.tlbFault
  }

  /** The instruction x, run in r, raises nothing and goes on to a state that d describes. */
  ghost predicate Follows(i: P.Instr, x: Instr, r: Cpu, c: R.Cpu, d: R.Cpu)
    requires Fit(r) && !IsControl(x)
  {
    && !Faults(r, x) && R.Executes(i, c, d) && Shows(ExecPlain(r, x), d)
    && ExecPlain(r, x).m.pc == Add(r.m.pc, 4) && ExecPlain(r, x).m.inDelaySlot == r.m.inDelaySlot
  }

  lemma ArithmeticRuns(i: P.Instr, x: Instr, r: Cpu, c: R.Cpu) returns (d: R.Cpu)
    requires Meets(r, c) && (i.Reg3? || i.RegImm?) && x.Compute? && x.rd == i.rd && ComputesAs(i, x)
    ensures Follows(i, x, r, c, d)
  {
    var v := x.f(r.gpr[x.rs], r.gpr[x.rt], r.hi, r.lo);
    assert R.Computes(i, c, v);
    d := R.Result(i, c, v);
  }

  lemma OtherRuns(i: P.Instr, x: Instr, r: Cpu, c: R.Cpu) returns (d: R.Cpu)
    requires Meets(r, c) && (i.Lui? || i.FromHiLo? || i.Ehb? || i.Nop?) && x.Compute?
    requires x.rd == if i.Lui? || i.FromHiLo? then i.rd else 0
    ensures Follows(i, x, r, c, d)
  {
    var v := x.f(r.gpr[x.rs], r.gpr[x.rt], r.hi, r.lo);
    assert R.Computes(i, c, v);
    d := R.Result(i, c, v);
  }

  lemma HiLoRuns(i: P.Instr, x: Instr, r: Cpu, c: R.Cpu) returns (d: R.Cpu)
    requires Meets(r, c) && Encodes(i, x) && i.MulDiv?
    ensures Follows(i, x, r, c, d)
  {
    assert R.Computes(i, c, 0);
    d := R.Result(i, c, 0);
  }

  lemma FpRuns(i: P.Instr, x: Instr, r: Cpu, c: R.Cpu) returns (d: R.Cpu)
    requires Meets(r, c) && Encodes(i, x) && (i.ToFp? || i.FromFp?)
    ensures Follows(i, x, r, c, d)
  {
    var v := if i.FromFp? then SignExtend(FpWord(r, x.fs)) else 0;
    assert R.Computes(i, c, v);
    d := R.Result(i, c, v);
  }

  lemma ReadsStatus(w: u32)
    requires Running(w)
    ensures ReadStatus(StatusOf(w)) == w
  {
    ModeIs(w);
  }

  lemma FromStatusRuns(i: P.Instr, x: Instr, r: Cpu, c: R.Cpu) returns (d: R.Cpu)
    requires Meets(r, c) && i.FromStatus? && x.MoveFromCp0? && x.rt == i.rd
    requires x.get(r.m.cp0) == SignExtend(ReadStatus(r.m.cp0.status))
    ensures Follows(i, x, r, c, d)
  {
    ReadsStatus(c.status);
    var v := x.get(r.m.cp0);
    assert R.Computes(i, c, v);
    d := R.Result(i, c, v);
  }

  lemma ToStatusRuns(i: P.Instr, x: Instr, r: Cpu, c: R.Cpu) returns (d: R.Cpu)
    requires Meets(r, c) && i.ToStatus? && x.MoveToCp0? && x.rt == i.rs
    requires x.put(r.m.cp0, r.gpr[x.rt]) == r.m.cp0.(status := StatusOf(r.gpr[x.rt] % W32))
    ensures Follows(i, x, r, c, d)
  {
    assert R.Computes(i, c, 0);
    d := R.Result(i, c, 0);
  }

  // ------------------------------------------------------------------ memory

  lemma InSegment(a: u64, n: nat)
    requires n in {1, 2, 4, 8} && a % n == 0
    ensures a % 0x2000_0000 % n == 0
  {}

  lemma InGroup(ea: nat, n: nat)
    requires n in {1, 2, 4, 8}
    ensures ea / n * n <= ea < ea / n * n + n
  {}

  /** An address in the buffer translates to the buffer's place in memory. */
  lemma BufferReached(im: Image, r: Cpu, c: R.Cpu, ea: u64, op: Op)
    requires im.Valid() && Meets(r, c) && R.HasKx(c) && im.b.base <= ea < im.b.base + im.b.size
    ensures Translate(r.m, ea, op) == (r.m, ea % 0x2000_0000)
  {
    ModeIs(c.status);
    S.KsegEnd(im.b.base, ea - im.b.base);
  }

  /** The access of a memory instruction that is safe reaches memory, aligned where that is checked. */
  predicate Reached(r: Cpu, x: Instr)
    requires Fit(r)
  {
    match x
    case Load(w, _, _, base, imm) =>
      var q := Translate(r.m, EffectiveAddress(r, base, imm), Op.Load);
      q.0 == r.m && q.1 % Bytes(w) == 0
    case Store(w, _, base, imm) =>
      var q := Translate(r.m, EffectiveAddress(r, base, imm), Op.Store);
      q.0 == r.m && q.1 % Bytes(w) == 0
    case LoadPart(_, _, _, base, imm) => Translate(r.m, EffectiveAddress(r, base, imm), Op.Load).0 == r.m
    case StorePart(_, _, _, base, imm) => Translate(r.m, EffectiveAddress(r, base, imm), Op.Store).0 == r.m
    case LoadFp(dw, ft, base, imm) =>
      ft % 2 == 0 && Translate(r.m, EffectiveAddress(r, base, imm), Op.Load).0 == r.m
    case StoreFp(dw, ft, base, imm) =>
      ft % 2 == 0 && Translate(r.m, EffectiveAddress(r, base, imm), Op.Store).0 == r.m
    case _ => false
  }

  /** The shape of a memory instruction's encoding. */
  predicate Shape(i: P.Instr, x: Instr)
    requires i.Mem?
  {
    && (x.Load? || x.Store? || x.LoadPart? || x.StorePart? || x.LoadFp? || x.StoreFp?)
    && x.base == i.base && x.imm == i.off
    && (x.Load? || x.Store? ==> Bytes(x.w) == R.Size(i.op) && !R.Unaligned(i.op))
    && (P.WritesReg(i.op) <==> x.Load? || x.LoadPart?)
    && (x.Load? || x.LoadPart? ==> x.rt == i.reg)
    && (x.LoadFp? || x.StoreFp? ==> i.op in P.FP_MEM && x.ft == i.reg)
  }

  lemma ShapeIs(i: P.Instr, x: Instr)
    requires i.Mem? && x == Access(i.op, i.reg, i.off, i.base) && !x.Trap?
    ensures Shape(i, x)
  {}

  lemma MemReached(im: Image, i: P.Instr, x: Instr, r: Cpu, c: R.Cpu)
    requires im.Valid() && Meets(r, c) && i.Mem? && Shape(i, x) && R.Safe(im.b, i, c)
    ensures Reached(r, x)
  {
    var ea := EffectiveAddress(r, x.base, x.imm);
    AddressSafe(im.b, i.op, ea);
    BufferReached(im, r, c, ea, Op.Load);
    BufferReached(im, r, c, ea, Op.Store);
  }

  /** A safe address is in the buffer, and in its segment aligned where that is checked. */
  lemma AddressSafe(b: R.Buffer, op: P.Mnemonic, ea: u64)
    requires R.InBuffer(b, op, ea)
    ensures b.base <= ea < b.base + b.size
    ensures !R.Unaligned(op) ==> ea % 0x2000_0000 % R.Size(op) == 0
  {
    var n := R.Size(op);
    InGroup(ea, n);
    if !R.Unaligned(op) {
      Multiple(ea, n);
      InSegment(ea, n);
    }
  }

  lemma Multiple(ea: nat, n: nat)
    requires n in {1, 2, 4, 8} && ea / n * n == ea
    ensures ea % n == 0
  {}

  /** What such an instruction does, but to memory and the floating-point registers. */
  lemma ReachedLoads(r: Cpu, x: Instr)
    requires Fit(r) && !r.m.tlbFault && (x.Load? || x.LoadPart?) && Reached(r, x)
    ensures !Faults(r, x) && ExecPlain(r, x).m == Advance(r.m)
    ensures ExecPlain(r, x).gpr == r.gpr[x.rt := ExecPlain(r, x).gpr[x.rt]]
  {}

  lemma ReachedStores(r: Cpu, x: Instr)
    requires Fit(r) && !r.m.tlbFault && (x.Store? || x.StorePart?) && Reached(r, x)
    ensures !Faults(r, x) && ExecPlain(r, x).m == Advance(r.m) && ExecPlain(r, x).gpr == r.gpr
  {}

  lemma ReachedFp(r: Cpu, x: Instr)
    requires Fit(r) && !r.m.tlbFault && (x.LoadFp? || x.StoreFp?) && Reached(r, x)
    ensures !Faults(r, x) && ExecPlain(r, x).m == Advance(r.m) && ExecPlain(r, x).gpr == r.gpr
  {}

  lemma MemRuns(im: Image, i: P.Instr, x: Instr, r: Cpu, c: R.Cpu) returns (d: R.Cpu)
    requires im.Valid() && Meets(r, c) && i.Mem? && Shape(i, x) && R.Safe(im.b, i, c)
    ensures Follows(i, x, r, c, d)
  {
    MemReached(im, i, x, r, c);
    if P.WritesReg(i.op) {
      ReachedLoads(r, x);
      var v := ExecPlain(r, x).gpr[x.rt];
      assert R.Computes(i, c, v);
      d := R.Result(i, c, v);
    } else {
      if x.LoadFp? || x.StoreFp? { ReachedFp(r, x); } else { ReachedStores(r, x); }
      assert R.Computes(i, c, 0);
      d := R.Result(i, c, 0);
    }
  }

  // ------------------------------------------------------------------ one instruction

  lemma EncodesPlain(i: P.Instr, x: Instr)
    requires Encodes(i, x) && !i.Br?
    ensures !IsControl(x)
  {}

  lemma InstrRuns(im: Image, i: P.Instr, x: Instr, r: Cpu, c: R.Cpu) returns (d: R.Cpu)
    requires im.Valid() && Meets(r, c) && Encodes(i, x) && !i.Br? && R.Safe(im.b, i, c)
    ensures !IsControl(x) && Follows(i, x, r, c, d)
  {
    EncodesPlain(i, x);
    if i.Mem? {
      ShapeIs(i, x);
      d := MemRuns(im, i, x, r, c);
    } else if i.Reg3? || i.RegImm? {
      d := ArithmeticRuns(i, x, r, c);
    } else if i.MulDiv? {
      d := HiLoRuns(i, x, r, c);
    } else if i.ToFp? || i.FromFp? {
      d := FpRuns(i, x, r, c);
    } else if i.FromStatus? {
      d := FromStatusRuns(i, x, r, c);
    } else if i.ToStatus? {
      d := ToStatusRuns(i, x, r, c);
    } else {
      d := OtherRuns(i, x, r, c);
    }
  }

  /** Addresses of the program. */
  lemma PcIs(im: Image, i: nat)
    requires im.Valid() && i <= |im.p.body| + 1
    ensures im.Pc(i) < W64 && Kseg01(im.Pc(i)) && im.Pc(i) == SignExtend(im.Pc(i) % W32)
    ensures im.Pc(i) % 0x2000_0000 == im.Pa(i) < W32
  {
    assert im.start % 0x2000_0000 == im.start % 0x1000_0000 + im.start / 0x1000_0000 % 2 * 0x1000_0000;
    S.KsegEnd(im.start, 4 * i);
  }

  /** s is at instruction i, and is what c describes. */
  predicate At(im: Image, s: Cpu, i: nat, c: R.Cpu) {
    && Shows(s, c) && Running(c.status) && i < |im.p.body| + 1 && s.m.pc == im.Pc(i)
  }

  lemma FetchIs(im: Image, code: u32 -> Instr, s: Cpu, i: nat, c: R.Cpu)
    requires im.Valid() && At(im, s, i, c)
    ensures Fetched(s) == (Begin(s).m, im.Pa(i))
    ensures InstrAt(code, s) == code(im.Pa(i)) && Runs(code, s)
    ensures Ready(code, s).m.pc == s.m.pc && Ready(code, s).m.inDelaySlot == s.m.inDelaySlot
    ensures Meets(Ready(code, s), c)
  {
    ModeIs(c.status);
    PcIs(im, i);
    ReadyIs(code, s);
  }

  lemma CodeAt(im: Image, code: u32 -> Instr, i: nat)
    requires im.Valid() && Loaded(im, code) && i < |im.p.body|
    ensures im.Pa(i) < W32 && EncodesAt(im, i, code(im.Pa(i)))
  {
    PcIs(im, i);
  }

  lemma NextPc(im: Image, i: nat)
    requires im.Valid() && i <= |im.p.body|
    ensures im.Pc(i) < W64 && Add(im.Pc(i), 4) == im.Pc(i + 1)
  {
    PcIs(im, i);
    PcIs(im, i + 1);
  }

  lemma PlainRuns(im: Image, code: u32 -> Instr, s: Cpu, i: nat, c: R.Cpu) returns (d: R.Cpu)
    requires im.Valid() && At(im, s, i, c) && i < |im.p.body| && Encodes(im.p.body[i].ins, code(im.Pa(i)))
    requires !im.p.body[i].ins.Br? && R.Safe(im.b, im.p.body[i].ins, c)
    ensures IsPlain(code, s) && !PlainFaults(code, s) && R.Executes(im.p.body[i].ins, c, d)
    ensures Shows(StepPlain(code, s), d) && StepPlain(code, s).m.pc == im.Pc(i + 1)
    ensures StepPlain(code, s).m.inDelaySlot == s.m.inDelaySlot
  {
    FetchIs(im, code, s, i, c);
    NextPc(im, i);
    var r, x := Ready(code, s), InstrAt(code, s);
    d := InstrRuns(im, im.p.body[i].ins, x, r, c);
    assert Follows(im.p.body[i].ins, x, r, c, d);
    assert StepPlain(code, s) == ExecPlain(r, x);
  }

  // ------------------------------------------------------------------ branches

  lemma RegionOf(im: Image, i: nat)
    requires im.Valid() && i <= |im.p.body| + 1
    ensures im.Pc(i) / 0x1000_0000 == im.start / 0x1000_0000 && im.Pc(i) % 4 == 0
  {
    QuotRem(im.start / 0x1000_0000, 0x1000_0000, im.start % 0x1000_0000 + 4 * i);
  }

  lemma TargetIs(im: Image, br: P.Instr, x: Instr, r: Cpu, i: nat, q: nat)
    requires im.Valid() && Fit(r) && i + 1 < |im.p.body| && r.m.pc == im.Pc(i)
    requires br.Br? && Leads(im, i, br, x) && R.LabelAt(im.p.body, br.to, q)
    ensures IsControl(x) && Target(r, x) == im.Pc(q)
  {
    PcIs(im, q);
    NextPc(im, i);
    if x.Jump? {
      JumpTarget(im, i, q);
    } else {
      BranchTarget(im, i, q);
    }
  }

  lemma BranchTarget(im: Image, i: nat, q: nat)
    requires im.Valid() && i < |im.p.body| && q < |im.p.body|
    ensures Add(im.Pc(i), 4 + 4 * (q - i - 1)) == im.Pc(q)
  {
    PcIs(im, q);
  }

  lemma JumpTarget(im: Image, i: nat, q: nat)
    requires im.Valid() && i + 1 < |im.p.body| && q < |im.p.body|
    ensures im.Pc(q) % 0x1000_0000 / 4 * 4 % 0x1000_0000 + im.Pc(i + 1) / 0x1000_0000 * 0x1000_0000 == im.Pc(q)
  {
    RegionOf(im, i + 1);
    RegionOf(im, q);
  }

  /** The branch at s, seen from its delay slot. */
  lemma SlotAt(im: Image, code: u32 -> Instr, s: Cpu, i: nat, c: R.Cpu)
    requires im.Valid() && At(im, s, i, c) && i + 1 < |im.p.body| && !s.m.inDelaySlot
    requires im.p.body[i].ins.Br? && Leads(im, i, im.p.body[i].ins, code(im.Pa(i)))
    ensures AtBranch(code, s) && Meets(Ready(code, s), c) && Ready(code, s).m.pc == im.Pc(i)
    ensures AtSlot(Ready(code, s), InstrAt(code, s)) == Next(Ready(code, s))
    ensures At(im, Slot(code, s), i + 1, c) && !Ready(code, s).m.inDelaySlot
  {
    FetchIs(im, code, s, i, c);
    NextPc(im, i);
    assert c.regs[0 := 0] == c.regs;
  }

  /** Where the pipeline goes from the branch at i. */
  function AfterBranch(s: Cpu, x: Instr, i: nat, q: nat, c: R.Cpu): R.State
    requires Fit(s) && IsControl(x)
  {
    if SkipsSlot(s, x) then R.State(i + 2, i + 3, c)
    else if Takes(s, x) then R.State(i + 1, q, c)
    else R.State(i + 1, i + 2, c)
  }

  lemma BranchMoves(im: Image, r: Cpu, x: Instr, i: nat, q: nat, c: R.Cpu)
    requires im.Valid() && Fit(r) && i < |im.p.body| && im.p.body[i].ins.Br? && Leads(im, i, im.p.body[i].ins, x)
    requires R.LabelAt(im.p.body, im.p.body[i].ins.to, q)
    ensures IsControl(x) && R.Moves(im.p.body, R.State(i, i + 1, c), AfterBranch(r, x, i, q, c))
  {}

  /** A likely branch that is not taken. */
  lemma SkipRuns(im: Image, code: u32 -> Instr, s: Cpu, i: nat, c: R.Cpu)
    requires im.Valid() && At(im, s, i, c) && i + 1 < |im.p.body| && !s.m.inDelaySlot
    requires im.p.body[i].ins.Br? && Leads(im, i, im.p.body[i].ins, code(im.Pa(i)))
    requires AtBranch(code, s) && SkipsSlot(Ready(code, s), InstrAt(code, s))
    ensures Modelled(code, s) && !StepFaults(code, s) && Shows(Step(code, s), c)
    ensures Step(code, s).m.pc == im.Pc(i + 2) && !Step(code, s).m.inDelaySlot
  {
    SlotAt(im, code, s, i, c);
    NextPc(im, i);
    NextPc(im, i + 1);
    assert c.regs[0 := 0] == c.regs;
  }

  /** A branch that runs its slot. */
  lemma SlotRuns(im: Image, code: u32 -> Instr, s: Cpu, i: nat, q: nat, c: R.Cpu, d: R.Cpu)
    requires im.Valid() && At(im, s, i, c) && i + 1 < |im.p.body| && !s.m.inDelaySlot
    requires im.p.body[i].ins.Br? && Leads(im, i, im.p.body[i].ins, code(im.Pa(i)))
    requires R.LabelAt(im.p.body, im.p.body[i].ins.to, q)
    requires RunsSlot(code, s) && IsPlain(code, Slot(code, s)) && !PlainFaults(code, Slot(code, s))
    requires Shows(StepPlain(code, Slot(code, s)), d) && d.status == c.status
    requires StepPlain(code, Slot(code, s)).m.pc == im.Pc(i + 2)
    ensures Modelled(code, s) && !StepFaults(code, s) && Shows(Step(code, s), d) && !Step(code, s).m.inDelaySlot
    ensures Step(code, s).m.pc == im.Pc(AfterBranch(Ready(code, s), InstrAt(code, s), i, q, c).npc)
  {
    var r, x := Ready(code, s), InstrAt(code, s);
    SlotAt(im, code, s, i, c);
    FetchIs(im, code, s, i, c);
    TargetIs(im, im.p.body[i].ins, x, r, i, q);
    var t, u := Next(r), StepPlain(code, Slot(code, s));
    var v := u.(m := u.m.(inDelaySlot := false));
    assert RunSlot(code, t) == v && !SlotFaults(t, v);
    assert Step(code, s) == if Takes(r, x) then v.(m := v.m.(pc := im.Pc(q))) else v;
  }

  // ------------------------------------------------------------------ the whole test

  /** s is the machine where the pipeline is at x: between instructions and not in a delay slot. */
  ghost predicate Tracks(im: Image, st: u32, s: Cpu, x: R.State)
    requires im.Valid()
  {
    && x.npc == x.pc + 1 && x.pc <= |im.p.body| && R.Fine(im.p, im.b, st, x)
    && Shows(s, x.cpu) && s.m.pc == im.Pc(x.pc) && !s.m.inDelaySlot
  }

  lemma UsableRuns(st: u32)
    requires R.Usable(st) && Running(st)
    ensures st >= R.KX && Running(st - R.KX)
  {
    WithoutKx(st);
  }

  /** What the program's own structure says about the state at x. */
  lemma FineIn(im: Image, st: u32, x: R.State, k: nat)
    requires im.Valid() && R.Usable(st) && Running(st) && R.OnTrack(im.p, im.b, st, x, k)
    ensures x.pc < |im.p.body| && |x.cpu.regs| == 32
    ensures R.Safe(im.b, im.p.body[x.pc].ins, x.cpu) && Running(x.cpu.status)
  {
    R.StateIsSafe(im.p, im.b, st, x, k);
    R.StatusIs(im.p, im.b, st, x, k);
    UsableRuns(st);
  }

  lemma FineIs(im: Image, st: u32, x: R.State)
    requires im.Valid() && R.Usable(st) && Running(st) && R.Fine(im.p, im.b, st, x) && x.pc < |im.p.body|
    ensures |x.cpu.regs| == 32 && R.Safe(im.b, im.p.body[x.pc].ins, x.cpu) && Running(x.cpu.status)
  {
    var k: nat :| R.OnTrack(im.p, im.b, st, x, k);
    FineIn(im, st, x, k);
  }

  lemma PlainTracks(im: Image, code: u32 -> Instr, st: u32, s: Cpu, x: R.State) returns (y: R.State)
    requires im.Valid() && Loaded(im, code) && R.Usable(st) && Running(st)
    requires Tracks(im, st, s, x) && x.pc < |im.p.body| && !im.p.body[x.pc].ins.Br?
    ensures Modelled(code, s) && !StepFaults(code, s) && Tracks(im, st, Step(code, s), y) && x.pc < y.pc
  {
    FineIs(im, st, x);
    CodeAt(im, code, x.pc);
    var d := PlainRuns(im, code, s, x.pc, x.cpu);
    y := R.State(x.npc, x.npc + 1, d);
    R.StepIsFine(im.p, im.b, st, x, y);
    FineEnds(im, st, y);
  }

  lemma FineEnds(im: Image, st: u32, y: R.State)
    requires im.Valid() && R.Fine(im.p, im.b, st, y)
    ensures y.pc <= |im.p.body|
  {
    if y.pc != |im.p.body| {
      var k: nat :| R.OnTrack(im.p, im.b, st, y, k);
      R.UnitSpan(im.p, im.b, k);
    }
  }

  /** The slot of a branch holds an ALU instruction. */
  lemma SlotIsAlu(im: Image, st: u32, x: R.State)
    requires im.Valid() && R.Fine(im.p, im.b, st, x) && x.pc < |im.p.body| && im.p.body[x.pc].ins.Br?
    ensures x.pc + 1 < |im.p.body| && P.IsAlu(im.p.body[x.pc + 1].ins)
  {
    var k: nat :| R.OnTrack(im.p, im.b, st, x, k);
    SlotInUnit(im, st, x, k);
  }

  lemma SlotInUnit(im: Image, st: u32, x: R.State, k: nat)
    requires im.Valid() && R.OnTrack(im.p, im.b, st, x, k) && x.pc < |im.p.body| && im.p.body[x.pc].ins.Br?
    ensures x.pc + 1 < |im.p.body| && P.IsAlu(im.p.body[x.pc + 1].ins)
  {
    R.UnitSpan(im.p, im.b, k);
    R.InstrIs(im.p, im.b, k, x.pc);
    R.OnlyBranches(im.p.units[k], x.pc - im.p.cuts[k], Generator.OffMask(im.b.size));
    R.InstrIs(im.p, im.b, k, x.pc + 1);
  }

  lemma AluKeepsStatus(i: P.Instr, c: R.Cpu, d: R.Cpu)
    requires P.IsAlu(i) && R.Executes(i, c, d)
    ensures d.status == c.status
  {}

  lemma BranchTracks(im: Image, code: u32 -> Instr, st: u32, s: Cpu, x: R.State) returns (y: R.State)
    requires im.Valid() && Loaded(im, code) && R.Usable(st) && Running(st)
    requires Tracks(im, st, s, x) && x.pc < |im.p.body| && im.p.body[x.pc].ins.Br?
    ensures Modelled(code, s) && !StepFaults(code, s) && Tracks(im, st, Step(code, s), y) && x.pc < y.pc
  {
    var i, c := x.pc, x.cpu;
    FineIs(im, st, x);
    SlotIsAlu(im, st, x);
    CodeAt(im, code, i);
    CodeAt(im, code, i + 1);
    SlotAt(im, code, s, i, c);
    var q := R.LabelIsThere(im.p, im.b, i);
    var r, b := Ready(code, s), InstrAt(code, s);
    FetchIs(im, code, s, i, c);
    var x1 := AfterBranch(r, b, i, q, c);
    BranchMoves(im, r, b, i, q, c);
    R.StepIsFine(im.p, im.b, st, x, x1);
    FineEnds(im, st, x1);
    if SkipsSlot(r, b) {
      SkipRuns(im, code, s, i, c);
      y := x1;
    } else {
      FineIs(im, st, x1);
      var d := PlainRuns(im, code, Slot(code, s), i + 1, c);
      AluKeepsStatus(im.p.body[i + 1].ins, c, d);
      SlotRuns(im, code, s, i, q, c, d);
      y := R.State(x1.npc, x1.npc + 1, d);
      R.StepIsFine(im.p, im.b, st, x1, y);
      FineEnds(im, st, y);
    }
  }

  lemma RunJoined(code: u32 -> Instr, s: Cpu, rest: seq<Cpu>)
    requires Fit(s) && Modelled(code, s) && !StepFaults(code, s)
    requires IsRun(code, rest) && rest != [] && rest[0] == Step(code, s)
    requires forall k :: 0 <= k < |rest| - 1 ==> !StepFaults(code, rest[k])
    ensures IsRun(code, [s] + rest)
    ensures forall k :: 0 <= k < |rest| ==> !StepFaults(code, ([s] + rest)[k])
  {
    var ss := [s] + rest;
    forall k | 0 <= k < |rest|
      ensures Modelled(code, ss[k]) && ss[k + 1] == Step(code, ss[k]) && !StepFaults(code, ss[k])
    {
      if k > 0 { assert ss[k] == rest[k - 1] && ss[k + 1] == rest[k]; }
    }
  }

  /** From where the pipeline is at x to the end. */
  lemma {:induction false} RunsFrom(im: Image, code: u32 -> Instr, st: u32, s: Cpu, x: R.State)
    returns (ss: seq<Cpu>)
    requires im.Valid() && Loaded(im, code) && R.Usable(st) && Running(st) && Tracks(im, st, s, x)
    ensures IsRun(code, ss) && ss != [] && ss[0] == s && |ss| <= |im.p.body| - x.pc + 1
    ensures forall k :: 0 <= k < |ss| - 1 ==> !StepFaults(code, ss[k])
    ensures ss[|ss| - 1].m.pc == im.Pc(|im.p.body|)
    decreases |im.p.body| - x.pc
  {
    ss := [s];
    if x.pc < |im.p.body| {
      var y;
      if im.p.body[x.pc].ins.Br? {
        y := BranchTracks(im, code, st, s, x);
      } else {
        y := PlainTracks(im, code, st, s, x);
      }
      var rest := RunsFrom(im, code, st, Step(code, s), y);
      RunJoined(code, s, rest);
      ss := [s] + rest;
    }
  }

  /** How the preamble leaves the machine: at the program, in kernel mode with KX and coprocessor 1, the
      mask and the buffer's address in their registers.  */
  ghost predicate Starts(im: Image, st: u32, s: Cpu) {
    && Fit(s) && s.m.pc == im.Pc(0) && !s.m.inDelaySlot && s.m.cp0.status == StatusOf(st)
    && R.Usable(st) && Running(st)
    && s.gpr[P.SB] == im.b.base && s.gpr[P.GP] == W64 - 1 - R.KX
  }

  /** The interpreter runs the test to its end, in no more calls than the test has instructions, and no
      call raises an exception: whatever the instructions compute, whatever registers and memory hold,
      and whichever way the branches go.  */
  lemma TestsRunClean(im: Image, code: u32 -> Instr, st: u32, s: Cpu) returns (ss: seq<Cpu>)
    requires im.Valid() && Loaded(im, code) && Starts(im, st, s)
    ensures IsRun(code, ss) && ss != [] && ss[0] == s && |ss| <= |im.p.body| + 1
    ensures forall k :: 0 <= k < |ss| - 1 ==> !StepFaults(code, ss[k])
    ensures ss[|ss| - 1].m.pc == im.Pc(|im.p.body|)
  {
    var c := R.Cpu(s.gpr[0 := 0], st);
    var x := R.State(0, 1, c);
    R.Arrives(im.p, im.b, st, x, 0);
    ss := RunsFrom(im, code, st, s, x);
  }
}

/** The interpreter's instructions: how each reads and writes registers and memory, what it raises,
    what it does to the load-linked reservation, and branches with their delay slots.

    An instruction is given decoded.  What an ALU or floating-point operation computes is a parameter;
    what matters here is when it raises, what it may change and in which order.  `code` gives the
    decoded instruction at each physical address.  */
module Exec {
  import opened Bits
  import opened Tlb
  import opened Unaligned

  type Reg = r: nat | r < 32

  type FpRegs = s: seq<u64> | |s| == 32 witness seq(32, _ => 0)

  /** `csr` is the floating-point control and status register. */
  datatype Cpu = Cpu(m: Machine, gpr: seq<u64>, hi: u64, lo: u64, mem: Mem, fpr: FpRegs, csr: u32)

  datatype Width = Bits8 | Bits16 | Bits32 | Bits64

  /** f and the like take the two source registers, HI and LO.  `only64`: a reserved instruction
      outside 64-bit mode.  `checked`: ADD and its kin, and the conditional traps.  `odd`: a
      floating-point operation that names an odd register; `known`: one that is implemented.  `hit`:
      a CACHE operation on an address.  A branch may look at the floating-point condition.  */
  datatype Instr =
    | Compute(rd: Reg, rs: Reg, rt: Reg, f: (u64, u64, u64, u64) -> u64, only64: bool)
    | Checked(rd: Reg, rs: Reg, rt: Reg, value: (u64, u64) -> u64, traps: (u64, u64) -> bool, code: nat, only64: bool)
    | SetHiLo(rs: Reg, rt: Reg, g: (u64, u64, u64, u64) -> (u64, u64), only64: bool)
    | Load(w: Width, signed: bool, rt: Reg, base: Reg, imm: int)
    | Store(w: Width, rt: Reg, base: Reg, imm: int)
    | LoadPart(left: bool, dw: bool, rt: Reg, base: Reg, imm: int)
    | StorePart(left: bool, dw: bool, rt: Reg, base: Reg, imm: int)
    | LoadLinked(dw: bool, rt: Reg, base: Reg, imm: int)
    | StoreCond(dw: bool, rt: Reg, base: Reg, imm: int)
    | LoadFp(dw: bool, ft: Reg, base: Reg, imm: int)
    | StoreFp(dw: bool, ft: Reg, base: Reg, imm: int)
    | MoveToFp(dw: bool, rt: Reg, fs: Reg)
    | MoveFromFp(dw: bool, rt: Reg, fs: Reg)
    | ComputeFp(odd: bool, known: bool, h: (FpRegs, u32) -> (FpRegs, u32))
    | MoveToCsr(rt: Reg, write: (u32, u64) -> u32)
    | MoveFromCsr(rt: Reg, read: u32 -> u64)
    | CacheOp(hit: bool, base: Reg, imm: int)
    | Branch(take: (u64, u64, u32) -> bool, fp: bool, rs: Reg, rt: Reg, likely: bool, link: bool, offset: int)
    | Jump(target: nat, link: bool)
    | JumpReg(rs: Reg, rd: Reg)
    | Trap(code: nat)
    | ReadEntry | WriteIndexed | WriteRandom | ProbeEntry | ReturnFromException
    | MoveFromCp0(rt: Reg, get: Cp0 -> u64)
    | MoveToCp0(rt: Reg, put: (Cp0, u64) -> Cp0)

  predicate IsControl(i: Instr) { i.Branch? || i.Jump? || i.JumpReg? }
  predicate IsStore(i: Instr) { i.Store? || i.StorePart? || i.StoreFp? }

  predicate NeedsFp(i: Instr) {
    || i.LoadFp? || i.StoreFp? || i.MoveToFp? || i.MoveFromFp? || i.ComputeFp? || i.MoveToCsr? || i.MoveFromCsr?
    || (i.Branch? && i.fp)
  }

  predicate Fit(s: Cpu) { |s.gpr| == 32 && |s.m.tlb| == ENTRIES }

  // ------------------------------------------------------------------ exceptions and modes

  function Raise(s: Cpu, code: nat): Cpu { s.(m := RaiseGeneral(s.m, code)) }

  predicate In64BitMode(st: Status) {
    || KernelMode(st)
    || (st.ksu == 2 && !st.exl && !st.erl && st.ux)
    || (st.ksu == 1 && !st.exl && !st.erl && st.sx)
  }

  predicate Only64(i: Instr) {
    match i
    case Compute(_, _, _, _, o) => o
    case Checked(_, _, _, _, _, _, o) => o
    case SetHiLo(_, _, _, o) => o
    case LoadLinked(dw, _, _, _) => dw
    case StoreCond(dw, _, _, _) => dw
    case _ => false
  }

  // ------------------------------------------------------------------ the reservation

  function ProbeRoMask(e: Entry, wide: bool): nat {
    And(Not64(PairMask(e)), if wide then W64 - 4 else W32 - 1)
  }

  predicate ProbeRoMatches(e: Entry, va: u64, asid: nat) {
    && And(va, ProbeRoMask(e, !Compatible(va))) == And(e.hi, ProbeRoMask(e, !Compatible(va)))
    && (!Compatible(va) ==> Region(va) == Region(e.hi))
    && (Global(e) || asid == Asid(e.hi))
  }

  function ProbeRoFind(tlb: seq<Entry>, va: u64, asid: nat, i: nat): (r: nat)
    requires i <= |tlb|
    ensures i <= r <= |tlb|
    ensures r < |tlb| ==> ProbeRoMatches(tlb[r], va, asid)
    ensures forall j :: i <= j < r ==> !ProbeRoMatches(tlb[j], va, asid)
    decreases |tlb| - i
  {
    if i == |tlb| || ProbeRoMatches(tlb[i], va, asid) then i else ProbeRoFind(tlb, va, asid, i + 1)
  }

  /** Where an unmapped or unmatched address is taken to be: kernel addresses lose their top bits. */
  function StripSegment(va: u32): u32 { if va / 0x8000_0000 == 1 then va % 0x2000_0000 else va }

  /** The physical address that the reservation logic works with; it never faults. */
  function ProbePa(m: Machine, va: u64): u32 {
    if Unmapped(va) then UnmappedPa(va)
    else
      var i := ProbeRoFind(m.tlb, va, Asid(m.cp0.entryHi), 0);
      if i < |m.tlb| && IsValid(Half(m.tlb[i], va)) then FullPa(m.tlb[i], va) % W32
      else StripSegment(va % W32)
  }

  function Line(pa: nat): nat { pa / 16 * 16 }

  function EffectiveAddress(s: Cpu, base: Reg, imm: int): u64
    requires Fit(s)
  {
    Add(s.gpr[base], imm)
  }

  function StoreAddress(s: Cpu, i: Instr): u64
    requires Fit(s) && IsStore(i)
  {
    EffectiveAddress(s, i.base, i.imm)
  }

  /** A store to the reserved line, as far as the probe can tell, breaks the reservation. */
  function BreakLink(s: Cpu, i: Instr): Cpu
    requires Fit(s)
  {
    if IsStore(i) && s.m.linkValid && Line(ProbePa(s.m, StoreAddress(s, i))) == s.m.linkAddr
    then s.(m := s.m.(linkValid := false))
    else s
  }

  // ------------------------------------------------------------------ loads and stores

  function Bytes(w: Width): (n: nat)
    ensures n > 0
  {
    match w case Bits8 => 1 case Bits16 => 2 case Bits32 => 4 case Bits64 => 8
  }

  function Extend8(b: nat): u64 requires b < 0x100 { if b < 0x80 then b else b + (W64 - 0x100) }
  function Extend16(h: nat): u64 requires h < 0x1_0000 { if h < 0x8000 then h else h + (W64 - 0x1_0000) }

  function ReadMem(mem: Mem, pa: nat, w: Width, signed: bool): u64 {
    match w
    case Bits8 => if signed then Extend8(ByteAt(mem, pa)) else ByteAt(mem, pa)
    case Bits16 => if signed then Extend16(Half16(mem, pa)) else Half16(mem, pa)
    case Bits32 => if signed then SignExtend(Word(mem, pa)) else Word(mem, pa)
    case Bits64 => Dword(mem, pa)
  }

  function WriteMem(mem: Mem, pa: nat, w: Width, v: u64): Mem {
    match w
    case Bits8 => SetByte(mem, pa, v)
    case Bits16 => SetHalf(mem, pa, v)
    case Bits32 => SetWord(mem, pa, v)
    case Bits64 => SetDword(mem, pa, v)
  }

  function SetReg(s: Cpu, r: Reg, v: u64): Cpu
    requires Fit(s)
  {
    s.(gpr := s.gpr[r := v])
  }

  function Next(s: Cpu): Cpu { s.(m := Advance(s.m)) }

  function ExecLoad(s: Cpu, w: Width, signed: bool, rt: Reg, ea: u64): (t: Cpu)
    requires Fit(s)
    ensures Fit(t)
  {
    var (m, pa) := Translate(s.m, ea, Op.Load);
    if m.tlbFault then s.(m := m)
    else if pa % Bytes(w) != 0 then Raise(s.(m := m), 4)
    else Next(SetReg(s.(m := m), rt, ReadMem(s.mem, pa, w, signed)))
  }

  function ExecStore(s: Cpu, w: Width, rt: Reg, ea: u64): (t: Cpu)
    requires Fit(s)
    ensures Fit(t)
  {
    var (m, pa) := Translate(s.m, ea, Op.Store);
    if m.tlbFault then s.(m := m)
    else if pa % Bytes(w) != 0 then Raise(s.(m := m), 5)
    else Next(s.(m := m, mem := WriteMem(s.mem, pa, w, s.gpr[rt])))
  }

  function GroupSize(dw: bool): (n: nat)
    ensures Size(n)
  {
    if dw then 8 else 4
  }

  function ExecLoadPart(s: Cpu, left: bool, dw: bool, rt: Reg, ea: u64): (t: Cpu)
    requires Fit(s)
    ensures Fit(t)
  {
    var (m, pa) := Translate(s.m, ea, Op.Load);
    if m.tlbFault then s.(m := m)
    else
      var v := if left then Left(s.mem, pa, s.gpr[rt], GroupSize(dw)) else Right(s.mem, pa, s.gpr[rt], GroupSize(dw));
      Next(SetReg(s.(m := m), rt, v))
  }

  function ExecStorePart(s: Cpu, left: bool, dw: bool, rt: Reg, ea: u64): (t: Cpu)
    requires Fit(s)
    ensures Fit(t)
  {
    var (m, pa) := Translate(s.m, ea, Op.Store);
    if m.tlbFault then s.(m := m)
    else
      var n := GroupSize(dw);
      Next(s.(m := m, mem := if left then PutLeft(s.mem, pa, s.gpr[rt], n) else PutRight(s.mem, pa, s.gpr[rt], n)))
  }

  /** The reservation is made first; a load that faults loses it again. */
  function ExecLoadLinked(s: Cpu, dw: bool, rt: Reg, ea: u64): (t: Cpu)
    requires Fit(s)
    ensures Fit(t)
  {
    ExecLoad(s.(m := s.m.(linkValid := true, linkAddr := Line(ProbePa(s.m, ea)))),
             if dw then Bits64 else Bits32, true, rt, ea)
  }

  /** Only the doubleword form checks its alignment. */
  function ExecStoreCond(s: Cpu, dw: bool, rt: Reg, ea: u64): (t: Cpu)
    requires Fit(s)
    ensures Fit(t)
  {
    var (m, pa) := Translate(s.m, ea, Op.Store);
    if m.tlbFault then s.(m := m)
    else if dw && pa % 8 != 0 then Raise(s.(m := m), 5)
    else
      var ok := m.linkValid && m.linkAddr == Line(pa);
      var u := s.(m := m.(linkValid := false),
                  mem := if ok then WriteMem(s.mem, pa, if dw then Bits64 else Bits32, s.gpr[rt]) else s.mem);
      Next(SetReg(u, rt, if ok then 1 else 0))
  }

  // ------------------------------------------------------------------ floating point

  /** Where FR is clear the even registers hold pairs, and f names a half of one. */
  function Pair(f: Reg): Reg { f / 2 * 2 }

  function FpWord(s: Cpu, f: Reg): u32 {
    if s.m.cp0.status.fr then s.fpr[f] % W32
    else if f % 2 == 1 then s.fpr[Pair(f)] / W32
    else s.fpr[Pair(f)] % W32
  }

  function SetFpWord(s: Cpu, f: Reg, v: u32): Cpu {
    if s.m.cp0.status.fr then s.(fpr := s.fpr[f := SignExtend(v)])
    else
      var x := s.fpr[Pair(f)];
      s.(fpr := s.fpr[Pair(f) := if f % 2 == 1 then x % W32 + v * W32 else x / W32 * W32 + v])
  }

  /** A doubleword needs a register of its own. */
  predicate Unpaired(s: Cpu, dw: bool, f: Reg) { dw && !s.m.cp0.status.fr && f % 2 == 1 }

  /** Floating-point loads and stores do not check their alignment. */
  function ExecLoadFp(s: Cpu, dw: bool, ft: Reg, ea: u64): (t: Cpu)
    requires Fit(s)
    ensures Fit(t)
  {
    if Unpaired(s, dw, ft) then Raise(s, 10)
    else
      var (m, pa) := Translate(s.m, ea, Op.Load);
      if m.tlbFault then s.(m := m)
      else if dw then Next(s.(m := m, fpr := s.fpr[ft := Dword(s.mem, pa)]))
      else Next(SetFpWord(s.(m := m), ft, Word(s.mem, pa)))
  }

  function FpValue(s: Cpu, dw: bool, ft: Reg): u64 { if dw then s.fpr[ft] else FpWord(s, ft) }

  function ExecStoreFp(s: Cpu, dw: bool, ft: Reg, ea: u64): (t: Cpu)
    requires Fit(s)
    ensures Fit(t)
  {
    if Unpaired(s, dw, ft) then Raise(s, 10)
    else
      var (m, pa) := Translate(s.m, ea, Op.Store);
      if m.tlbFault then s.(m := m)
      else Next(s.(m := m, mem := WriteMem(s.mem, pa, if dw then Bits64 else Bits32, FpValue(s, dw, ft))))
  }

  /** An operation that is not implemented says so in the control and status register. */
  const UNIMPLEMENTED: nat := 0x2_0000

  function ExecComputeFp(s: Cpu, odd: bool, known: bool, h: (FpRegs, u32) -> (FpRegs, u32)): (t: Cpu)
    requires Fit(s)
    ensures Fit(t)
  {
    if !s.m.cp0.status.fr && odd then Raise(s, 10)
    else if !known then Raise(s.(csr := if s.csr / UNIMPLEMENTED % 2 == 1 then s.csr else s.csr + UNIMPLEMENTED), 15)
    else var r := h(s.fpr, s.csr); Next(s.(fpr := r.0, csr := r.1))
  }

  function ExecMoveToFp(s: Cpu, dw: bool, rt: Reg, fs: Reg): (t: Cpu)
    requires Fit(s)
    ensures Fit(t)
  {
    Next(if dw then s.(fpr := s.fpr[fs := s.gpr[rt]]) else SetFpWord(s, fs, s.gpr[rt] % W32))
  }

  function ExecMoveFromFp(s: Cpu, dw: bool, rt: Reg, fs: Reg): (t: Cpu)
    requires Fit(s)
    ensures Fit(t)
  {
    Next(SetReg(s, rt, if dw then s.fpr[fs] else SignExtend(FpWord(s, fs))))
  }

  /** Of the CACHE operations those on an address translate it, as a load; none does more here. */
  function ExecCacheOp(s: Cpu, hit: bool, ea: u64): (t: Cpu)
    requires Fit(s)
    ensures Fit(t)
  {
    var m := Translate(s.m, ea, Op.Load).0;
    if !hit then Next(s) else if m.tlbFault then s.(m := m) else Next(s.(m := m))
  }

  // ------------------------------------------------------------------ one instruction

  /** An instruction that is not a branch or jump. */
  function ExecPlain(s: Cpu, i: Instr): (t: Cpu)
    requires Fit(s) && !IsControl(i)
    ensures Fit(t)
  {
    match i
    case Compute(rd, rs, rt, f, _) => Next(SetReg(s, rd, f(s.gpr[rs], s.gpr[rt], s.hi, s.lo)))
    case Checked(rd, rs, rt, value, traps, code, _) =>
      if traps(s.gpr[rs], s.gpr[rt]) then Raise(s, code) else Next(SetReg(s, rd, value(s.gpr[rs], s.gpr[rt])))
    case SetHiLo(rs, rt, g, _) =>
      var r := g(s.gpr[rs], s.gpr[rt], s.hi, s.lo);
      Next(s.(hi := r.0, lo := r.1))
    case Load(w, signed, rt, base, imm) => ExecLoad(s, w, signed, rt, EffectiveAddress(s, base, imm))
    case Store(w, rt, base, imm) => ExecStore(s, w, rt, EffectiveAddress(s, base, imm))
    case LoadPart(left, dw, rt, base, imm) => ExecLoadPart(s, left, dw, rt, EffectiveAddress(s, base, imm))
    case StorePart(left, dw, rt, base, imm) => ExecStorePart(s, left, dw, rt, EffectiveAddress(s, base, imm))
    case LoadLinked(dw, rt, base, imm) => ExecLoadLinked(s, dw, rt, EffectiveAddress(s, base, imm))
    case StoreCond(dw, rt, base, imm) => ExecStoreCond(s, dw, rt, EffectiveAddress(s, base, imm))
    case LoadFp(dw, ft, base, imm) => ExecLoadFp(s, dw, ft, EffectiveAddress(s, base, imm))
    case StoreFp(dw, ft, base, imm) => ExecStoreFp(s, dw, ft, EffectiveAddress(s, base, imm))
    case MoveToFp(dw, rt, fs) => ExecMoveToFp(s, dw, rt, fs)
    case MoveFromFp(dw, rt, fs) => ExecMoveFromFp(s, dw, rt, fs)
    case ComputeFp(odd, known, h) => ExecComputeFp(s, odd, known, h)
    case MoveToCsr(rt, write) => Next(s.(csr := write(s.csr, s.gpr[rt])))
    case MoveFromCsr(rt, read) => Next(SetReg(s, rt, read(s.csr)))
    case CacheOp(hit, base, imm) => ExecCacheOp(s, hit, EffectiveAddress(s, base, imm))
    case Trap(code) => Raise(s, code)
    case ReadEntry => s.(m := Tlbr(s.m))
    case WriteIndexed => s.(m := Tlbwi(s.m, false))
    case WriteRandom => s.(m := Tlbwr(s.m, false))
    case ProbeEntry => s.(m := Tlbp(s.m))
    case ReturnFromException => s.(m := Eret(s.m))
    case MoveFromCp0(rt, get) => Next(SetReg(s, rt, get(s.m.cp0)))
    case MoveToCp0(rt, put) => Next(s.(m := s.m.(cp0 := put(s.m.cp0, s.gpr[rt]))))
  }

  /** What happens before the instruction is known: $0 reads as zero and no fault is pending. */
  function Begin(s: Cpu): Cpu
    requires Fit(s)
  {
    SetReg(s, 0, 0).(m := s.m.(tlbFault := false))
  }

  function Fetched(s: Cpu): (Machine, u32)
    requires Fit(s)
  {
    Translate(Begin(s).m, s.m.pc, Op.Fetch)
  }

  /** The instruction that s is about to run; a fetch that faults runs none. */
  predicate Runs(code: u32 -> Instr, s: Cpu)
    requires Fit(s)
  {
    && !Fetched(s).0.tlbFault
    && (Only64(code(Fetched(s).1)) ==> In64BitMode(s.m.cp0.status))
    && (NeedsFp(code(Fetched(s).1)) ==> s.m.cp0.status.cu1)
  }

  function InstrAt(code: u32 -> Instr, s: Cpu): Instr
    requires Fit(s)
  {
    code(Fetched(s).1)
  }

  /** The state in which the instruction executes. */
  function Ready(code: u32 -> Instr, s: Cpu): (t: Cpu)
    requires Fit(s)
    ensures Fit(t)
  {
    BreakLink(Begin(s).(m := Fetched(s).0), InstrAt(code, s))
  }

  /** What a fetch fault, a 64-bit instruction in 32-bit mode, or a floating-point one without
      coprocessor 1 leaves. */
  function Refused(code: u32 -> Instr, s: Cpu): Cpu
    requires Fit(s)
  {
    var t, i := Begin(s).(m := Fetched(s).0), InstrAt(code, s);
    if t.m.tlbFault then t
    else if Only64(i) && !In64BitMode(s.m.cp0.status) then Raise(t, 10)
    else t.(m := RaiseUnusable(t.m))
  }

  /** The instruction that s runs, if it runs one, is not a branch or jump. */
  predicate IsPlain(code: u32 -> Instr, s: Cpu)
    requires Fit(s)
  {
    Runs(code, s) ==> !IsControl(InstrAt(code, s))
  }

  /** A step whose instruction is not a branch or jump. */
  function StepPlain(code: u32 -> Instr, s: Cpu): (t: Cpu)
    requires Fit(s) && IsPlain(code, s)
    ensures Fit(t)
  {
    if Runs(code, s) then ExecPlain(Ready(code, s), InstrAt(code, s)) else Refused(code, s)
  }

  // ------------------------------------------------------------------ branches

  function InSlot(s: Cpu): Cpu { s.(m := s.m.(inDelaySlot := true)) }

  /** The delay slot, with the branch's own flag put back after it. */
  function RunSlot(code: u32 -> Instr, s: Cpu): (t: Cpu)
    requires Fit(s) && IsPlain(code, InSlot(s))
    ensures Fit(t)
  {
    var u := StepPlain(code, InSlot(s));
    u.(m := u.m.(inDelaySlot := s.m.inDelaySlot))
  }

  /** The slot raised an exception: the branch must not be taken. */
  predicate SlotFaults(s: Cpu, t: Cpu) { !s.m.cp0.status.exl && t.m.cp0.status.exl }

  function GoTo(before: Cpu, after: Cpu, pc: u64): Cpu {
    if SlotFaults(before, after) then after else after.(m := after.m.(pc := pc))
  }

  function Link(s: Cpu, r: Reg, pc: u64): Cpu
    requires Fit(s)
  {
    SetReg(s, r, Add(pc, 8))
  }

  /** The state at the delay slot of the branch i: some link before it. */
  function AtSlot(s: Cpu, i: Instr): (t: Cpu)
    requires Fit(s) && IsControl(i)
    ensures Fit(t)
  {
    var t := match i
             case Branch(_, _, _, _, likely, link, _) => if likely && link then Link(s, 31, s.m.pc) else s
             case Jump(_, link) => if link then Link(s, 31, s.m.pc) else s
             case JumpReg(_, rd) => if rd != 0 then Link(s, rd, s.m.pc) else s
             case _ => s;
    Next(t)
  }

  /** A likely branch that is not taken skips its slot. */
  predicate SkipsSlot(s: Cpu, i: Instr)
    requires Fit(s)
  {
    i.Branch? && i.likely && !i.take(s.gpr[i.rs], s.gpr[i.rt], s.csr)
  }

  predicate SlotIsPlain(code: u32 -> Instr, s: Cpu, i: Instr)
    requires Fit(s) && IsControl(i)
  {
    var t := AtSlot(s, i);
    !SkipsSlot(s, i) ==> IsPlain(code, InSlot(t))
  }

  predicate Takes(s: Cpu, i: Instr)
    requires Fit(s) && IsControl(i)
  {
    i.Branch? ==> i.take(s.gpr[i.rs], s.gpr[i.rt], s.csr)
  }

  function Target(s: Cpu, i: Instr): u64
    requires Fit(s) && IsControl(i)
  {
    match i
    case Branch(_, _, _, _, _, _, offset) => Add(s.m.pc, 4 + offset)
    case Jump(target, _) => (target * 4 % 0x1000_0000 + Add(s.m.pc, 4) / 0x1000_0000 * 0x1000_0000) % W64
    case JumpReg(rs, _) => s.gpr[rs]
    case _ => s.m.pc
  }

  /** A branch that is not likely links after its slot. */
  function ExecControl(code: u32 -> Instr, s: Cpu, i: Instr): Cpu
    requires Fit(s) && IsControl(i) && SlotIsPlain(code, s, i)
  {
    var t := AtSlot(s, i);
    if SkipsSlot(s, i) then Next(t)
    else
      var u := RunSlot(code, t);
      var v := if i.Branch? && i.link && !i.likely then Link(u, 31, s.m.pc) else u;
      if Takes(s, i) then GoTo(t, v, Target(s, i)) else v
  }

  /** The slot of a branch, if there is one, does not hold another branch. */
  predicate Modelled(code: u32 -> Instr, s: Cpu)
    requires Fit(s)
  {
    Runs(code, s) && IsControl(InstrAt(code, s)) ==> SlotIsPlain(code, Ready(code, s), InstrAt(code, s))
  }

  /** One call of the interpreter: an instruction, with its delay slot if it is a branch. */
  function Step(code: u32 -> Instr, s: Cpu): (t: Cpu)
    requires Fit(s) && Modelled(code, s)
    ensures Fit(t)
  {
    if Runs(code, s) && IsControl(InstrAt(code, s)) then ExecControl(code, Ready(code, s), InstrAt(code, s))
    else StepPlain(code, s)
  }
}

/** Exceptions are precise and restartable: a faulting instruction leaves registers and memory as they
    were, EPC names the instruction to run again (the branch, when its delay slot faulted), nested
    exceptions keep EPC, and ERET goes back there. */
module Precise {
  import opened Bits
  import opened Tlb
  import opened Unaligned
  import opened Exec

  // ------------------------------------------------------------------ what an exception does

  /** One of the handlers; `Faults` says which for each exception. */
  predicate AtVector(m: Machine, st: Status) {
    var base := if st.bev then 0xffff_ffff_bfc0_0200 else 0xffff_ffff_8000_0000;
    m.pc == base || m.pc == base + 0x80 || m.pc == base + 0x180
  }

  /** m1 is m0 with an exception taken at its pc. */
  predicate RaisedFrom(m0: Machine, m1: Machine) {
    && m1.cp0.status == m0.cp0.status.(exl := true, erl := false)
    && AtVector(m1, m0.cp0.status)
    && !m1.linkValid && m1.inDelaySlot == m0.inDelaySlot && m1.tlb == m0.tlb
    && (if m0.cp0.status.exl then m1.cp0.epc == m0.cp0.epc && m1.cp0.cause.bd == m0.cp0.cause.bd
        else m1.cp0.epc == (if m0.inDelaySlot then Add(m0.pc, -4) else m0.pc) && m1.cp0.cause.bd == m0.inDelaySlot)
  }

  /** m1 has not taken an exception since m0. */
  predicate NotRaised(m0: Machine, m1: Machine) {
    m1.cp0.status == m0.cp0.status && m1.cp0.epc == m0.cp0.epc && m1.cp0.cause == m0.cp0.cause
    && m1.inDelaySlot == m0.inDelaySlot
  }

  lemma TlbRaises(m: Machine, va: u64, code: nat, refill: bool)
    ensures var r := RaiseTlb(m, va, code, refill, Wide(m.cp0.status)); r.tlbFault && RaisedFrom(m, r)
  {}

  lemma TranslateRaises(m: Machine, va: u64, op: Op)
    requires !m.tlbFault
    ensures var r := Translate(m, va, op).0; if r.tlbFault then RaisedFrom(m, r) else r == m
  {
    var a := Canonical(m.cp0.status, va);
    var code := if op == Op.Store then 3 else 2;
    if !Unmapped(a) {
      match Cam(m.tlb, a, Asid(m.cp0.entryHi), op)
      case Mapped(_) =>
      case Modified(_) => TlbRaises(m, a, 1, false);
      case Invalid(_) => TlbRaises(m, a, code, false);
      case Refill => TlbRaises(m, a, code, true);
    }
  }

  /** The instruction, run in state s, takes an exception. */
  predicate Faults(s: Cpu, i: Instr)
    requires Fit(s) && !IsControl(i)
  {
    match i
    case Trap(_) => true
    case Checked(_, rs, rt, _, traps, _, _) => traps(s.gpr[rs], s.gpr[rt])
    case Load(w, _, _, base, imm) =>
      var r := Translate(s.m, EffectiveAddress(s, base, imm), Op.Load);
      r.0.tlbFault || r.1 % Bytes(w) != 0
    case LoadLinked(dw, _, base, imm) =>
      var r := Translate(s.m, EffectiveAddress(s, base, imm), Op.Load);
      r.0.tlbFault || r.1 % (if dw then 8 else 4) != 0
    case Store(w, _, base, imm) =>
      var r := Translate(s.m, EffectiveAddress(s, base, imm), Op.Store);
      r.0.tlbFault || r.1 % Bytes(w) != 0
    case LoadPart(_, _, _, base, imm) => Translate(s.m, EffectiveAddress(s, base, imm), Op.Load).0.tlbFault
    case StorePart(_, _, _, base, imm) => Translate(s.m, EffectiveAddress(s, base, imm), Op.Store).0.tlbFault
    case StoreCond(dw, _, base, imm) =>
      var r := Translate(s.m, EffectiveAddress(s, base, imm), Op.Store);
      r.0.tlbFault || (dw && r.1 % 8 != 0)
    case LoadFp(dw, ft, base, imm) =>
      Unpaired(s, dw, ft) || Translate(s.m, EffectiveAddress(s, base, imm), Op.Load).0.tlbFault
    case StoreFp(dw, ft, base, imm) =>
      Unpaired(s, dw, ft) || Translate(s.m, EffectiveAddress(s, base, imm), Op.Store).0.tlbFault
    case ComputeFp(odd, known, _) => (!s.m.cp0.status.fr && odd) || !known
    case CacheOp(hit, base, imm) => hit && Translate(s.m, EffectiveAddress(s, base, imm), Op.Load).0.tlbFault
    case _ => false
  }

  /** An exception leaves the floating-point control register alone, or notes there that the operation
      is not implemented. */
  predicate SameCsr(s: Cpu, t: Cpu) {
    t.csr == s.csr || (s.csr / UNIMPLEMENTED % 2 == 0 && t.csr == s.csr + UNIMPLEMENTED)
  }

  predicate SameData(s: Cpu, t: Cpu) {
    t.gpr == s.gpr && t.hi == s.hi && t.lo == s.lo && t.mem == s.mem && t.fpr == s.fpr && SameCsr(s, t)
  }

  /** All data but the general registers. */
  predicate SameRest(s: Cpu, t: Cpu) {
    t.hi == s.hi && t.lo == s.lo && t.mem == s.mem && t.fpr == s.fpr && t.csr == s.csr
  }

  lemma LoadOutcome(s: Cpu, w: Width, signed: bool, rt: Reg, ea: u64)
    requires Fit(s) && !s.m.tlbFault
    ensures var r := Translate(s.m, ea, Op.Load);
            var t := ExecLoad(s, w, signed, rt, ea);
            if r.0.tlbFault || r.1 % Bytes(w) != 0 then RaisedFrom(s.m, t.m) && SameData(s, t)
            else NotRaised(s.m, t.m) && t.m.linkValid == s.m.linkValid && t.m.linkAddr == s.m.linkAddr && t.mem == s.mem
  {
    TranslateRaises(s.m, ea, Op.Load);
  }

  lemma StoreOutcome(s: Cpu, w: Width, rt: Reg, ea: u64)
    requires Fit(s) && !s.m.tlbFault
    ensures var r := Translate(s.m, ea, Op.Store);
            var t := ExecStore(s, w, rt, ea);
            if r.0.tlbFault || r.1 % Bytes(w) != 0 then RaisedFrom(s.m, t.m) && SameData(s, t)
            else NotRaised(s.m, t.m) && t.m.linkValid == s.m.linkValid && t.m.linkAddr == s.m.linkAddr
                 && t.mem == WriteMem(s.mem, r.1, w, s.gpr[rt])
  {
    TranslateRaises(s.m, ea, Op.Store);
  }

  lemma PartOutcome(s: Cpu, left: bool, dw: bool, rt: Reg, ea: u64)
    requires Fit(s) && !s.m.tlbFault
    ensures var r := Translate(s.m, ea, Op.Load);
            var t := ExecLoadPart(s, left, dw, rt, ea);
            if r.0.tlbFault then RaisedFrom(s.m, t.m) && SameData(s, t)
            else NotRaised(s.m, t.m) && t.m.linkValid == s.m.linkValid && t.m.linkAddr == s.m.linkAddr && t.mem == s.mem
    ensures var r := Translate(s.m, ea, Op.Store);
            var t := ExecStorePart(s, left, dw, rt, ea);
            if r.0.tlbFault then RaisedFrom(s.m, t.m) && SameData(s, t)
            else NotRaised(s.m, t.m) && t.m.linkValid == s.m.linkValid && t.m.linkAddr == s.m.linkAddr
                 && t.mem == (if left then PutLeft(s.mem, r.1, s.gpr[rt], GroupSize(dw))
                              else PutRight(s.mem, r.1, s.gpr[rt], GroupSize(dw)))
  {
    TranslateRaises(s.m, ea, Op.Load);
    TranslateRaises(s.m, ea, Op.Store);
  }

  lemma LinkedOutcome(s: Cpu, dw: bool, rt: Reg, ea: u64)
    requires Fit(s) && !s.m.tlbFault
    ensures var r := Translate(s.m, ea, Op.Load);
            var t := ExecLoadLinked(s, dw, rt, ea);
            if r.0.tlbFault || r.1 % (if dw then 8 else 4) != 0 then RaisedFrom(s.m, t.m) && SameData(s, t)
            else NotRaised(s.m, t.m) && t.mem == s.mem
  {
    var u := s.(m := s.m.(linkValid := true, linkAddr := Line(ProbePa(s.m, ea))));
    TranslateRaises(s.m, ea, Op.Load);
    SameTranslation(s.m, u.m, ea);
    LoadOutcome(u, if dw then Bits64 else Bits32, true, rt, ea);
  }

  /** Translation does not look at the reservation. */
  lemma SameTranslation(m0: Machine, m1: Machine, ea: u64)
    requires m1 == m0.(linkValid := m1.linkValid, linkAddr := m1.linkAddr) && !m0.tlbFault
    ensures Translate(m1, ea, Op.Load).1 == Translate(m0, ea, Op.Load).1
    ensures Translate(m1, ea, Op.Load).0.tlbFault == Translate(m0, ea, Op.Load).0.tlbFault
  {}

  lemma CondOutcome(s: Cpu, dw: bool, rt: Reg, ea: u64)
    requires Fit(s) && !s.m.tlbFault
    ensures var r := Translate(s.m, ea, Op.Store);
            var t := ExecStoreCond(s, dw, rt, ea);
            && !t.m.linkValid
            && (if r.0.tlbFault || (dw && r.1 % 8 != 0) then RaisedFrom(s.m, t.m) && SameData(s, t)
                else NotRaised(s.m, t.m) && (t.mem != s.mem ==> s.m.linkValid && s.m.linkAddr == Line(r.1)))
  {
    TranslateRaises(s.m, ea, Op.Store);
  }

  lemma LoadFpOutcome(s: Cpu, dw: bool, ft: Reg, ea: u64)
    requires Fit(s) && !s.m.tlbFault
    ensures var t := ExecLoadFp(s, dw, ft, ea);
            if Unpaired(s, dw, ft) || Translate(s.m, ea, Op.Load).0.tlbFault
            then RaisedFrom(s.m, t.m) && SameData(s, t)
            else NotRaised(s.m, t.m) && t.m.linkValid == s.m.linkValid && t.m.linkAddr == s.m.linkAddr && t.mem == s.mem
  {
    TranslateRaises(s.m, ea, Op.Load);
  }

  lemma StoreFpOutcome(s: Cpu, dw: bool, ft: Reg, ea: u64)
    requires Fit(s) && !s.m.tlbFault
    ensures var r := Translate(s.m, ea, Op.Store);
            var t := ExecStoreFp(s, dw, ft, ea);
            if Unpaired(s, dw, ft) || r.0.tlbFault then RaisedFrom(s.m, t.m) && SameData(s, t)
            else NotRaised(s.m, t.m) && t.m.linkValid == s.m.linkValid && t.m.linkAddr == s.m.linkAddr
                 && t.mem == WriteMem(s.mem, r.1, if dw then Bits64 else Bits32, FpValue(s, dw, ft))
  {
    TranslateRaises(s.m, ea, Op.Store);
  }

  lemma CacheOutcome(s: Cpu, hit: bool, ea: u64)
    requires Fit(s) && !s.m.tlbFault
    ensures var t := ExecCacheOp(s, hit, ea);
            && SameData(s, t)
            && (if hit && Translate(s.m, ea, Op.Load).0.tlbFault then RaisedFrom(s.m, t.m)
                else t.m == Advance(s.m))
  {
    TranslateRaises(s.m, ea, Op.Load);
  }

  lemma MemoryOutcome(s: Cpu, i: Instr)
    requires Fit(s) && !s.m.tlbFault
    requires i.Load? || i.Store? || i.LoadPart? || i.StorePart? || i.LoadLinked? || i.StoreCond?
    ensures if Faults(s, i) then RaisedFrom(s.m, ExecPlain(s, i).m) && SameData(s, ExecPlain(s, i))
            else NotRaised(s.m, ExecPlain(s, i).m)
  {
    match i
    case Load(w, signed, rt, base, imm) => LoadOutcome(s, w, signed, rt, EffectiveAddress(s, base, imm));
    case Store(w, rt, base, imm) => StoreOutcome(s, w, rt, EffectiveAddress(s, base, imm));
    case LoadPart(left, dw, rt, base, imm) => PartOutcome(s, left, dw, rt, EffectiveAddress(s, base, imm));
    case StorePart(left, dw, rt, base, imm) => PartOutcome(s, left, dw, rt, EffectiveAddress(s, base, imm));
    case LoadLinked(dw, rt, base, imm) => LinkedOutcome(s, dw, rt, EffectiveAddress(s, base, imm));
    case StoreCond(dw, rt, base, imm) => CondOutcome(s, dw, rt, EffectiveAddress(s, base, imm));
  }

  lemma FpOutcome(s: Cpu, i: Instr)
    requires Fit(s) && !s.m.tlbFault && !IsControl(i) && (NeedsFp(i) || i.CacheOp?)
    ensures if Faults(s, i) then RaisedFrom(s.m, ExecPlain(s, i).m) && SameData(s, ExecPlain(s, i))
            else NotRaised(s.m, ExecPlain(s, i).m)
  {
    match i
    case LoadFp(dw, ft, base, imm) => LoadFpOutcome(s, dw, ft, EffectiveAddress(s, base, imm));
    case StoreFp(dw, ft, base, imm) => StoreFpOutcome(s, dw, ft, EffectiveAddress(s, base, imm));
    case CacheOp(hit, base, imm) => CacheOutcome(s, hit, EffectiveAddress(s, base, imm));
    case ComputeFp(_, _, _) => ComputeFpOutcome(s, i);
    case _ => FpRegisterOutcome(s, i);
  }

  lemma ComputeFpOutcome(s: Cpu, i: Instr)
    requires Fit(s) && !s.m.tlbFault && i.ComputeFp?
    ensures if Faults(s, i) then RaisedFrom(s.m, ExecPlain(s, i).m) && SameData(s, ExecPlain(s, i))
            else NotRaised(s.m, ExecPlain(s, i).m)
  {
    assert ExecPlain(s, i) == ExecComputeFp(s, i.odd, i.known, i.h);
  }

  lemma FpRegisterOutcome(s: Cpu, i: Instr)
    requires Fit(s) && !s.m.tlbFault && (i.MoveToFp? || i.MoveFromFp? || i.MoveToCsr? || i.MoveFromCsr?)
    ensures !Faults(s, i) && NotRaised(s.m, ExecPlain(s, i).m)
  {
    assert ExecPlain(s, i).m == Advance(s.m);
  }

  /** A plain instruction either takes an exception, with all data as it was, or takes none. */
  lemma PlainOutcome(s: Cpu, i: Instr)
    requires Fit(s) && !s.m.tlbFault && !IsControl(i)
    ensures Faults(s, i) ==> RaisedFrom(s.m, ExecPlain(s, i).m) && SameData(s, ExecPlain(s, i))
    ensures !Faults(s, i) && !i.MoveToCp0? && !i.ReturnFromException? ==> NotRaised(s.m, ExecPlain(s, i).m)
    ensures ExecPlain(s, i).m.inDelaySlot == s.m.inDelaySlot
  {
    if i.Load? || i.Store? || i.LoadPart? || i.StorePart? || i.LoadLinked? || i.StoreCond? {
      MemoryOutcome(s, i);
    } else if NeedsFp(i) || i.CacheOp? {
      FpOutcome(s, i);
    }
  }

  // ------------------------------------------------------------------ steps

  /** A step without a branch takes an exception. */
  predicate PlainFaults(code: u32 -> Instr, s: Cpu)
    requires Fit(s) && IsPlain(code, s)
  {
    Runs(code, s) ==> Faults(Ready(code, s), InstrAt(code, s))
  }

  /** The instruction in s runs and moves a register into CP0, or returns from an exception. */
  predicate WritesCp0(code: u32 -> Instr, s: Cpu)
    requires Fit(s)
  {
    Runs(code, s) && InstrAt(code, s).MoveToCp0?
  }

  predicate Returns(code: u32 -> Instr, s: Cpu)
    requires Fit(s)
  {
    Runs(code, s) && InstrAt(code, s).ReturnFromException?
  }

  lemma FetchOutcome(s: Cpu)
    requires Fit(s)
    ensures var m := Fetched(s).0;
            if m.tlbFault then RaisedFrom(s.m, m) else m == s.m.(tlbFault := false)
  {
    TranslateRaises(Begin(s).m, s.m.pc, Op.Fetch);
  }

  lemma ReadyIs(code: u32 -> Instr, s: Cpu)
    requires Fit(s) && Runs(code, s)
    ensures var t := Ready(code, s);
            && SameRest(Begin(s), t) && t.gpr == Begin(s).gpr && Fit(t)
            && t.m == s.m.(tlbFault := false, linkValid := t.m.linkValid)
            && (t.m.linkValid ==> s.m.linkValid)
  {
    FetchOutcome(s);
  }

  lemma StepPlainOutcome(code: u32 -> Instr, s: Cpu)
    requires Fit(s) && IsPlain(code, s)
    ensures PlainFaults(code, s) ==> RaisedFrom(s.m, StepPlain(code, s).m) && SameData(Begin(s), StepPlain(code, s))
    ensures !PlainFaults(code, s) && !WritesCp0(code, s) && !Returns(code, s) ==> NotRaised(s.m, StepPlain(code, s).m)
    ensures StepPlain(code, s).m.inDelaySlot == s.m.inDelaySlot
  {
    FetchOutcome(s);
    if Runs(code, s) {
      ReadyIs(code, s);
      PlainOutcome(Ready(code, s), InstrAt(code, s));
    }
  }

  predicate AtBranch(code: u32 -> Instr, s: Cpu)
    requires Fit(s)
  {
    Runs(code, s) && IsControl(InstrAt(code, s))
  }

  /** The delay slot that the branch at s runs: where it starts. */
  function Slot(code: u32 -> Instr, s: Cpu): (t: Cpu)
    requires Fit(s) && AtBranch(code, s)
    ensures Fit(t)
  {
    InSlot(AtSlot(Ready(code, s), InstrAt(code, s)))
  }

  predicate RunsSlot(code: u32 -> Instr, s: Cpu)
    requires Fit(s)
  {
    AtBranch(code, s) && !SkipsSlot(Ready(code, s), InstrAt(code, s))
  }

  /** The register that the branch i links in. */
  predicate Links(i: Instr, r: Reg) {
    match i
    case Branch(_, _, _, _, _, link, _) => link && r == 31
    case Jump(_, link) => link && r == 31
    case JumpReg(_, rd) => rd != 0 && r == rd
    case _ => false
  }

  lemma AtSlotIs(s: Cpu, i: Instr)
    requires Fit(s) && IsControl(i)
    ensures var t := AtSlot(s, i);
            && Fit(t) && t.m == s.m.(pc := Add(s.m.pc, 4))
            && SameRest(s, t) && forall r: Reg :: !Links(i, r) ==> t.gpr[r] == s.gpr[r]
  {}

  /** A branch does nothing after its slot but link and go. */
  lemma AfterSlotIs(s: Cpu, i: Instr, t: Cpu, u: Cpu)
    requires Fit(s) && Fit(u) && IsControl(i)
    ensures var v := if i.Branch? && i.link && !i.likely then Exec.Link(u, 31, s.m.pc) else u;
            var w := if Takes(s, i) then GoTo(t, v, Target(s, i)) else v;
            && SameRest(u, w) && w.m == u.m.(pc := w.m.pc)
            && (forall r: Reg :: !Links(i, r) ==> w.gpr[r] == u.gpr[r])
            && (SlotFaults(t, u) ==> w.m.pc == u.m.pc)
  {}

  /** What a step of a branch does with its slot: nothing but the link and the pc are its own. */
  lemma ControlOutcome(code: u32 -> Instr, s: Cpu, i: Instr)
    requires Fit(s) && IsControl(i) && SlotIsPlain(code, s, i) && !SkipsSlot(s, i)
    ensures var slot := InSlot(AtSlot(s, i));
            var u, t := StepPlain(code, slot), ExecControl(code, s, i);
            && SameRest(u, t)
            && (forall r: Reg :: !Links(i, r) ==> t.gpr[r] == u.gpr[r])
            && t.m == u.m.(inDelaySlot := s.m.inDelaySlot, pc := t.m.pc)
            && (SlotFaults(s, u) ==> t.m.pc == u.m.pc)
  {
    AtSlotIs(s, i);
    AfterSlotIs(s, i, AtSlot(s, i), RunSlot(code, AtSlot(s, i)));
  }

  lemma BackToBranch(pc: u64)
    ensures Add(Add(pc, 4), -4) == pc
  {}

  // ------------------------------------------------------------------ precise exceptions

  /** The step takes an exception: its instruction, or the one in its delay slot. */
  predicate StepFaults(code: u32 -> Instr, s: Cpu)
    requires Fit(s) && Modelled(code, s)
  {
    if AtBranch(code, s) then RunsSlot(code, s) && PlainFaults(code, Slot(code, s)) else PlainFaults(code, s)
  }

  /** Neither the instruction nor its delay slot writes CP0. */
  predicate LeavesCp0(code: u32 -> Instr, s: Cpu)
    requires Fit(s)
  {
    !WritesCp0(code, s) && (RunsSlot(code, s) ==> !WritesCp0(code, Slot(code, s)))
  }

  predicate Untouched(code: u32 -> Instr, s: Cpu, t: Cpu)
    requires Fit(s) && Fit(t)
  {
    && t.mem == s.mem && t.hi == s.hi && t.lo == s.lo && t.fpr == s.fpr && SameCsr(s, t)
    && forall r: Reg :: r != 0 && !(AtBranch(code, s) && Links(InstrAt(code, s), r)) ==> t.gpr[r] == s.gpr[r]
  }

  lemma SlotIs(code: u32 -> Instr, s: Cpu)
    requires Fit(s) && AtBranch(code, s)
    ensures var slot, i := Slot(code, s), InstrAt(code, s);
            && Fit(slot) && SameRest(s, slot)
            && slot.m == s.m.(tlbFault := false, linkValid := slot.m.linkValid, pc := Add(s.m.pc, 4),
                              inDelaySlot := true)
            && (forall r: Reg :: r != 0 && !Links(i, r) ==> slot.gpr[r] == s.gpr[r])
  {
    ReadyIs(code, s);
    AtSlotIs(Ready(code, s), InstrAt(code, s));
  }

  /** The step of a branch that runs its slot. */
  lemma BranchOutcome(code: u32 -> Instr, s: Cpu)
    requires Fit(s) && Modelled(code, s) && RunsSlot(code, s)
    ensures IsPlain(code, Slot(code, s))
    ensures var i, u, t := InstrAt(code, s), StepPlain(code, Slot(code, s)), Step(code, s);
            && SameRest(u, t)
            && (forall r: Reg :: !Links(i, r) ==> t.gpr[r] == u.gpr[r])
            && t.m == u.m.(inDelaySlot := s.m.inDelaySlot, pc := t.m.pc)
            && (SlotFaults(s, u) ==> t.m.pc == u.m.pc)
  {
    ReadyIs(code, s);
    ControlOutcome(code, Ready(code, s), InstrAt(code, s));
  }

  /** A likely branch that skips its slot raises nothing. */
  lemma SkippedOutcome(code: u32 -> Instr, s: Cpu)
    requires Fit(s) && Modelled(code, s) && AtBranch(code, s) && !RunsSlot(code, s)
    ensures NotRaised(s.m, Step(code, s).m)
  {
    ReadyIs(code, s);
    AtSlotIs(Ready(code, s), InstrAt(code, s));
  }

  /** m is at a handler for the exception at pc, taken with status st. */
  predicate Entered(m: Machine, st: Status, pc: u64, bd: bool) {
    AtVector(m, st) && m.cp0.status == st.(exl := true, erl := false) && m.cp0.epc == pc && m.cp0.cause.bd == bd
  }

  /** ERET goes back to it. */
  lemma ReturnsThere(m: Machine, st: Status, pc: u64, bd: bool)
    requires Entered(m, st, pc, bd) && !st.exl
    ensures Eret(m).pc == pc && Eret(m).cp0.status == st.(erl := false)
  {}

  lemma PrecisePlain(code: u32 -> Instr, s: Cpu)
    requires Fit(s) && Modelled(code, s) && !AtBranch(code, s) && StepFaults(code, s)
    requires !s.m.cp0.status.exl && !s.m.inDelaySlot
    ensures Untouched(code, s, Step(code, s)) && !Step(code, s).m.inDelaySlot
    ensures Entered(Step(code, s).m, s.m.cp0.status, s.m.pc, false)
  {
    StepPlainOutcome(code, s);
  }

  lemma PreciseSlot(code: u32 -> Instr, s: Cpu)
    requires Fit(s) && Modelled(code, s) && AtBranch(code, s) && !s.m.cp0.status.exl && StepFaults(code, s)
    ensures Untouched(code, s, Step(code, s)) && Step(code, s).m.inDelaySlot == s.m.inDelaySlot
    ensures Entered(Step(code, s).m, s.m.cp0.status, s.m.pc, true)
  {
    var slot := Slot(code, s);
    SlotIs(code, s);
    BranchOutcome(code, s);
    StepPlainOutcome(code, slot);
    BackToBranch(s.m.pc);
    assert RaisedFrom(slot.m, StepPlain(code, slot).m);
  }

  /** An exception outside an exception handler: no register but a branch's own link register, no
      floating-point register, HI, LO or memory changes; a branch whose slot faults is not taken; EPC is
      the instruction (or the branch), BD says which, and ERET goes back there with the status as it
      was. */
  lemma ExceptionsArePrecise(code: u32 -> Instr, s: Cpu)
    requires Fit(s) && Modelled(code, s) && !s.m.cp0.status.exl && !s.m.inDelaySlot && StepFaults(code, s)
    ensures var t := Step(code, s);
            && Untouched(code, s, t) && !t.m.inDelaySlot
            && Entered(t.m, s.m.cp0.status, s.m.pc, AtBranch(code, s))
            && Eret(t.m).pc == s.m.pc && Eret(t.m).cp0.status == s.m.cp0.status.(erl := false)
  {
    if AtBranch(code, s) {
      PreciseSlot(code, s);
    } else {
      PrecisePlain(code, s);
    }
    ReturnsThere(Step(code, s).m, s.m.cp0.status, s.m.pc, AtBranch(code, s));
  }

  /** Nothing else enters a handler: a step that leaves CP0 alone sets EXL exactly when it faults. */
  lemma OnlyFaultsEnter(code: u32 -> Instr, s: Cpu)
    requires Fit(s) && Modelled(code, s) && !s.m.cp0.status.exl && !s.m.inDelaySlot && LeavesCp0(code, s)
    ensures Step(code, s).m.cp0.status.exl <==> StepFaults(code, s)
  {
    if StepFaults(code, s) {
      ExceptionsArePrecise(code, s);
    } else if RunsSlot(code, s) {
      SlotIs(code, s);
      BranchOutcome(code, s);
      NothingEnters(code, Slot(code, s));
    } else if AtBranch(code, s) {
      SkippedOutcome(code, s);
    } else {
      NothingEnters(code, s);
    }
  }

  lemma NothingEnters(code: u32 -> Instr, s: Cpu)
    requires Fit(s) && IsPlain(code, s) && !s.m.cp0.status.exl && !PlainFaults(code, s) && !WritesCp0(code, s)
    ensures !StepPlain(code, s).m.cp0.status.exl
  {
    StepPlainOutcome(code, s);
    if Returns(code, s) { ReadyIs(code, s); }
  }

  // ------------------------------------------------------------------ nested exceptions

  /** The instruction in s does not return, and a move into CP0 is to none of the return state: a
      handler may set EntryLo, say. */
  predicate KeepsReturn(code: u32 -> Instr, s: Cpu)
    requires Fit(s)
  {
    && !Returns(code, s)
    && (WritesCp0(code, s) ==>
          var i, t := InstrAt(code, s), Ready(code, s);
          var c := i.put(t.m.cp0, t.gpr[i.rt]);
          c.status == t.m.cp0.status && c.epc == t.m.cp0.epc && c.cause.bd == t.m.cp0.cause.bd)
  }

  /** A step inside a handler: also in its delay slot. */
  predicate HandlerStep(code: u32 -> Instr, s: Cpu)
    requires Fit(s)
  {
    KeepsReturn(code, s) && (RunsSlot(code, s) ==> KeepsReturn(code, Slot(code, s)))
  }

  /** t still has the return state of s; an exception in between clears ERL. */
  predicate StillHandling(s: Cpu, t: Cpu) {
    && t.m.cp0.epc == s.m.cp0.epc && t.m.cp0.cause.bd == s.m.cp0.cause.bd
    && (t.m.cp0.status == s.m.cp0.status || t.m.cp0.status == s.m.cp0.status.(erl := false))
  }

  lemma NestedPlain(code: u32 -> Instr, s: Cpu)
    requires Fit(s) && IsPlain(code, s)
    requires s.m.cp0.status.exl && KeepsReturn(code, s)
    ensures StillHandling(s, StepPlain(code, s))
  {
    StepPlainOutcome(code, s);
    if WritesCp0(code, s) { ReadyIs(code, s); }
  }

  lemma NestedStep(code: u32 -> Instr, s: Cpu)
    requires Fit(s) && Modelled(code, s) && s.m.cp0.status.exl && HandlerStep(code, s)
    ensures StillHandling(s, Step(code, s))
  {
    if RunsSlot(code, s) {
      SlotIs(code, s);
      BranchOutcome(code, s);
      NestedPlain(code, Slot(code, s));
    } else if AtBranch(code, s) {
      SkippedOutcome(code, s);
    } else {
      NestedPlain(code, s);
    }
  }

  /** ss is a run of the interpreter. */
  ghost predicate IsRun(code: u32 -> Instr, ss: seq<Cpu>) {
    && (forall k :: 0 <= k < |ss| ==> Fit(ss[k]))
    && (forall k :: 0 <= k < |ss| - 1 ==> Modelled(code, ss[k]) && ss[k + 1] == Step(code, ss[k]))
  }

  lemma {:induction false} HandledUpTo(code: u32 -> Instr, ss: seq<Cpu>, k: nat)
    requires IsRun(code, ss) && k < |ss| && ss[0].m.cp0.status.exl
    requires forall j :: 0 <= j < |ss| - 1 ==> HandlerStep(code, ss[j])
    ensures StillHandling(ss[0], ss[k])
    decreases k
  {
    if k > 0 {
      HandledUpTo(code, ss, k - 1);
      NestedStep(code, ss[k - 1]);
    }
  }

  /** However many instructions run and exceptions nest in a handler, until it changes the return
      state itself or returns, EPC and BD still say where the first one came from. */
  lemma NestedExceptionsKeepEpc(code: u32 -> Instr, ss: seq<Cpu>)
    requires IsRun(code, ss) && ss != [] && ss[0].m.cp0.status.exl
    requires forall k :: 0 <= k < |ss| - 1 ==> HandlerStep(code, ss[k])
    ensures StillHandling(ss[0], ss[|ss| - 1])
  {
    HandledUpTo(code, ss, |ss| - 1);
  }

  lemma EretStep(code: u32 -> Instr, s: Cpu)
    requires Fit(s) && Returns(code, s) && s.m.cp0.status.exl && !s.m.cp0.status.erl
    ensures Modelled(code, s) && Step(code, s).m.pc == s.m.cp0.epc
    ensures Step(code, s).m.cp0.status == s.m.cp0.status.(exl := false)
  {
    ReadyIs(code, s);
  }

  /** An exception, any handler with any exceptions nested in it, then ERET: the instruction that took
      the exception (or the branch in whose slot it was taken) runs next, in the mode it ran in. */
  lemma ExceptionsResume(code: u32 -> Instr, s: Cpu, ss: seq<Cpu>)
    requires Fit(s) && Modelled(code, s) && !s.m.cp0.status.exl && !s.m.inDelaySlot && StepFaults(code, s)
    requires IsRun(code, ss) && ss != [] && ss[0] == Step(code, s) && Returns(code, ss[|ss| - 1])
    requires forall k :: 0 <= k < |ss| - 1 ==> HandlerStep(code, ss[k])
    ensures Modelled(code, ss[|ss| - 1])
    ensures var t := Step(code, ss[|ss| - 1]);
            t.m.pc == s.m.pc && t.m.cp0.status == s.m.cp0.status.(erl := false)
  {
    ExceptionsArePrecise(code, s);
    NestedExceptionsKeepEpc(code, ss);
    EretStep(code, ss[|ss| - 1]);
  }
}

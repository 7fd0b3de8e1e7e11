/** The interpreter's loop body in its own form: registers and memory updated in place, translation
    through the micro-TLB, exceptions by `tlbFault` and early return.  Each method is proved to do
    what the corresponding function of `Exec` says.  */
module Interpreter {
  import opened Bits
  import opened Tlb
  import opened Unaligned
  import opened Exec
  import opened TranslationUnit

  /** What a branch does, once at its slot. */
  lemma LikelyIs(code: u32 -> Instr, s: Cpu, i: Instr, t: Cpu)
    requires Fit(s) && i.Branch? && i.likely && SlotIsPlain(code, s, i) && t == AtSlot(s, i)
    ensures if !Takes(s, i) then ExecControl(code, s, i) == Next(t)
            else IsPlain(code, InSlot(t)) && ExecControl(code, s, i) == GoTo(t, RunSlot(code, t), Target(s, i))
  {}

  lemma PlainIs(code: u32 -> Instr, s: Cpu, i: Instr, t: Cpu)
    requires Fit(s) && i.Branch? && !i.likely && SlotIsPlain(code, s, i) && t == AtSlot(s, i)
    ensures IsPlain(code, InSlot(t))
    ensures var u := RunSlot(code, t);
            var v := if i.link then Exec.Link(u, 31, s.m.pc) else u;
            ExecControl(code, s, i) == if Takes(s, i) then GoTo(t, v, Target(s, i)) else v
  {}

  class Interpreter {
    const mmu: Mmu
    var gpr: seq<u64>
    var hi: u64
    var lo: u64
    var mem: Mem
    var fpr: FpRegs
    var csr: u32

    ghost function View(): Cpu
      reads this, mmu, mmu.tlb
    {
      Cpu(mmu.View(), gpr, hi, lo, mem, fpr, csr)
    }

    ghost predicate Valid()
      reads this, mmu, mmu.tlb, mmu.utlb
    {
      |gpr| == 32 && mmu.Valid()
    }

    constructor (c: Cp0, pc: u64)
      ensures Valid() && fresh(mmu) && fresh(mmu.tlb) && fresh(mmu.utlb)
      ensures View().gpr == seq(32, _ => 0) && View().mem == map[] && View().m.pc == pc && View().m.cp0 == c
      ensures View().fpr == seq(32, _ => 0) && View().csr == 0
    {
      gpr, hi, lo, mem := seq(32, _ => 0), 0, 0, map[];
      fpr, csr := seq(32, _ => 0), 0;
      mmu := new Mmu(c, pc);
    }

    method RaiseException(code: nat)
      requires Valid()
      modifies mmu
      ensures Valid() && View() == Raise(old(View()), code)
    {
      mmu.RaiseCode(code);
    }

    method Advance4()
      requires Valid()
      modifies mmu
      ensures Valid() && View() == Next(old(View()))
    {
      mmu.pc := Add(mmu.pc, 4);
    }

    // ---------------------------------------------------------------- memory instructions

    method LoadMem(w: Width, signed: bool, rt: Reg, ea: u64)
      requires Valid() && !mmu.tlbFault
      modifies this, mmu, mmu.utlb
      ensures Valid() && View() == ExecLoad(old(View()), w, signed, rt, ea)
    {
      var pa := mmu.TranslateVa(ea, Op.Load);
      if mmu.tlbFault { return; }
      if pa % Bytes(w) != 0 {
        RaiseException(4);
        return;
      }
      gpr := gpr[rt := ReadMem(mem, pa, w, signed)];
      Advance4();
    }

    method StoreMem(w: Width, rt: Reg, ea: u64)
      requires Valid() && !mmu.tlbFault
      modifies this, mmu, mmu.utlb
      ensures Valid() && View() == ExecStore(old(View()), w, rt, ea)
    {
      var pa := mmu.TranslateVa(ea, Op.Store);
      if mmu.tlbFault { return; }
      if pa % Bytes(w) != 0 {
        RaiseException(5);
        return;
      }
      mem := WriteMem(mem, pa, w, gpr[rt]);
      Advance4();
    }

    method LoadPartOf(left: bool, dw: bool, rt: Reg, ea: u64)
      requires Valid() && !mmu.tlbFault
      modifies this, mmu, mmu.utlb
      ensures Valid() && View() == ExecLoadPart(old(View()), left, dw, rt, ea)
    {
      var pa := mmu.TranslateVa(ea, Op.Load);
      if mmu.tlbFault { return; }
      var n := GroupSize(dw);
      gpr := gpr[rt := if left then Left(mem, pa, gpr[rt], n) else Right(mem, pa, gpr[rt], n)];
      Advance4();
    }

    method StorePartOf(left: bool, dw: bool, rt: Reg, ea: u64)
      requires Valid() && !mmu.tlbFault
      modifies this, mmu, mmu.utlb
      ensures Valid() && View() == ExecStorePart(old(View()), left, dw, rt, ea)
    {
      var pa := mmu.TranslateVa(ea, Op.Store);
      if mmu.tlbFault { return; }
      var n := GroupSize(dw);
      mem := if left then PutLeft(mem, pa, gpr[rt], n) else PutRight(mem, pa, gpr[rt], n);
      Advance4();
    }

    // ---------------------------------------------------------------- load-linked, store-conditional

    /** The probe's own scan of the TLB. */
    method ProbeAddress(va: u64) returns (pa: u32)
      requires Valid()
      ensures pa == ProbePa(View().m, va)
    {
      if Unmapped(va) { return UnmappedPa(va); }
      var asid := Asid(mmu.cp0.entryHi);
      var i := 0;
      while i < ENTRIES && !ProbeRoMatches(mmu.tlb[i], va, asid)
        invariant i <= ENTRIES
        invariant ProbeRoFind(mmu.tlb[..], va, asid, 0) == ProbeRoFind(mmu.tlb[..], va, asid, i)
      {
        i := i + 1;
      }
      if i < ENTRIES && IsValid(Half(mmu.tlb[i], va)) { return FullPa(mmu.tlb[i], va) % W32; }
      pa := StripSegment(va % W32);
    }

    method LinkedLoad(dw: bool, rt: Reg, ea: u64)
      requires Valid() && !mmu.tlbFault
      modifies this, mmu, mmu.utlb
      ensures Valid() && View() == ExecLoadLinked(old(View()), dw, rt, ea)
    {
      var pa := ProbeAddress(ea);
      mmu.linkValid := true;
      mmu.linkAddr := Line(pa);
      LoadMem(if dw then Bits64 else Bits32, true, rt, ea);
    }

    method ConditionalStore(dw: bool, rt: Reg, ea: u64)
      requires Valid() && !mmu.tlbFault
      modifies this, mmu, mmu.utlb
      ensures Valid() && View() == ExecStoreCond(old(View()), dw, rt, ea)
    {
      var pa := mmu.TranslateVa(ea, Op.Store);
      if mmu.tlbFault { return; }
      if dw && pa % 8 != 0 {
        RaiseException(5);
        return;
      }
      var ok := mmu.linkValid && mmu.linkAddr == Line(pa);
      if ok { mem := WriteMem(mem, pa, if dw then Bits64 else Bits32, gpr[rt]); }
      mmu.linkValid := false;
      gpr := gpr[rt := if ok then 1 else 0];
      Advance4();
    }

    /** A store to the reserved line breaks the reservation. */
    method CheckLink(i: Instr)
      requires Valid()
      modifies mmu
      ensures Valid() && View() == BreakLink(old(View()), i)
    {
      if IsStore(i) && mmu.linkValid {
        var pa := ProbeAddress(Add(gpr[i.base], i.imm));
        if Line(pa) == mmu.linkAddr { mmu.linkValid := false; }
      }
    }

    // ---------------------------------------------------------------- floating point

    method SetFp(f: Reg, v: u32)
      requires Valid()
      modifies this`fpr
      ensures Valid() && View() == SetFpWord(old(View()), f, v)
    {
      if mmu.cp0.status.fr {
        fpr := fpr[f := SignExtend(v)];
      } else {
        var x := fpr[Pair(f)];
        fpr := fpr[Pair(f) := if f % 2 == 1 then x % W32 + v * W32 else x / W32 * W32 + v];
      }
    }

    method GetFp(f: Reg) returns (v: u32)
      requires Valid()
      ensures v == FpWord(View(), f)
    {
      if mmu.cp0.status.fr {
        v := fpr[f] % W32;
      } else {
        var x := fpr[Pair(f)];
        v := if f % 2 == 1 then x / W32 else x % W32;
      }
    }

    method LoadFpMem(dw: bool, ft: Reg, ea: u64)
      requires Valid() && !mmu.tlbFault
      modifies this, mmu, mmu.utlb
      ensures Valid() && View() == ExecLoadFp(old(View()), dw, ft, ea)
    {
      if dw && !mmu.cp0.status.fr && ft % 2 == 1 {
        RaiseException(10);
        return;
      }
      var pa := mmu.TranslateVa(ea, Op.Load);
      if mmu.tlbFault { return; }
      if dw { fpr := fpr[ft := Dword(mem, pa)]; } else { SetFp(ft, Word(mem, pa)); }
      Advance4();
    }

    method StoreFpMem(dw: bool, ft: Reg, ea: u64)
      requires Valid() && !mmu.tlbFault
      modifies this, mmu, mmu.utlb
      ensures Valid() && View() == ExecStoreFp(old(View()), dw, ft, ea)
    {
      if dw && !mmu.cp0.status.fr && ft % 2 == 1 {
        RaiseException(10);
        return;
      }
      var pa := mmu.TranslateVa(ea, Op.Store);
      if mmu.tlbFault { return; }
      var v: u64 := fpr[ft];
      if !dw { v := GetFp(ft); }
      mem := WriteMem(mem, pa, if dw then Bits64 else Bits32, v);
      Advance4();
    }

    method MoveFp(to: bool, dw: bool, rt: Reg, fs: Reg)
      requires Valid()
      modifies this, mmu
      ensures Valid()
      ensures View() == if to then ExecMoveToFp(old(View()), dw, rt, fs) else ExecMoveFromFp(old(View()), dw, rt, fs)
    {
      if to && dw {
        fpr := fpr[fs := gpr[rt]];
      } else if to {
        SetFp(fs, gpr[rt] % W32);
      } else if dw {
        gpr := gpr[rt := fpr[fs]];
      } else {
        var v := GetFp(fs);
        gpr := gpr[rt := SignExtend(v)];
      }
      Advance4();
    }

    method OperateFp(odd: bool, known: bool, h: (FpRegs, u32) -> (FpRegs, u32))
      requires Valid()
      modifies this, mmu
      ensures Valid() && View() == ExecComputeFp(old(View()), odd, known, h)
    {
      if !mmu.cp0.status.fr && odd {
        RaiseException(10);
      } else if !known {
        if csr / UNIMPLEMENTED % 2 == 0 { csr := csr + UNIMPLEMENTED; }
        RaiseException(15);
      } else {
        var r := h(fpr, csr);
        fpr, csr := r.0, r.1;
        Advance4();
      }
    }

    method OperateCache(hit: bool, ea: u64)
      requires Valid() && !mmu.tlbFault
      modifies this, mmu, mmu.utlb
      ensures Valid() && View() == ExecCacheOp(old(View()), hit, ea)
    {
      if hit {
        var _ := mmu.TranslateVa(ea, Op.Load);
        if mmu.tlbFault { return; }
      }
      Advance4();
    }

    method ExecuteFpMemory(i: Instr)
      requires Valid() && !mmu.tlbFault && (i.LoadFp? || i.StoreFp?)
      modifies this, mmu, mmu.utlb
      ensures Valid() && View() == ExecPlain(old(View()), i)
    {
      var ea := Add(gpr[i.base], i.imm);
      if i.LoadFp? { LoadFpMem(i.dw, i.ft, ea); } else { StoreFpMem(i.dw, i.ft, ea); }
    }

    method ExecuteFpMove(i: Instr)
      requires Valid() && (i.MoveToFp? || i.MoveFromFp? || i.MoveToCsr? || i.MoveFromCsr?)
      modifies this, mmu
      ensures Valid() && View() == ExecPlain(old(View()), i)
    {
      if i.MoveToFp? || i.MoveFromFp? {
        MoveFp(i.MoveToFp?, i.dw, i.rt, i.fs);
      } else {
        if i.MoveToCsr? { csr := i.write(csr, gpr[i.rt]); } else { gpr := gpr[i.rt := i.read(csr)]; }
        Advance4();
      }
    }

    method ExecuteFp(i: Instr)
      requires Valid() && !mmu.tlbFault && !IsControl(i) && NeedsFp(i)
      modifies this, mmu, mmu.utlb
      ensures Valid() && View() == ExecPlain(old(View()), i)
    {
      if i.LoadFp? || i.StoreFp? {
        ExecuteFpMemory(i);
      } else if i.ComputeFp? {
        OperateFp(i.odd, i.known, i.h);
      } else {
        ExecuteFpMove(i);
      }
    }

    // ---------------------------------------------------------------- one instruction

    method ExecuteMemory(i: Instr)
      requires Valid() && !mmu.tlbFault
      requires i.Load? || i.Store? || i.LoadPart? || i.StorePart? || i.LoadLinked? || i.StoreCond?
      modifies this, mmu, mmu.utlb
      ensures Valid() && View() == ExecPlain(old(View()), i)
    {
      var ea := Add(gpr[i.base], i.imm);
      match i
      case Load(w, signed, rt, _, _) => LoadMem(w, signed, rt, ea);
      case Store(w, rt, _, _) => StoreMem(w, rt, ea);
      case LoadPart(left, dw, rt, _, _) => LoadPartOf(left, dw, rt, ea);
      case StorePart(left, dw, rt, _, _) => StorePartOf(left, dw, rt, ea);
      case LoadLinked(dw, rt, _, _) => LinkedLoad(dw, rt, ea);
      case StoreCond(dw, rt, _, _) => ConditionalStore(dw, rt, ea);
    }

    method ExecuteTlbWrite(i: Instr)
      requires Valid() && (i.WriteIndexed? || i.WriteRandom?)
      modifies mmu, mmu.tlb, mmu.utlb
      ensures Valid() && View() == ExecPlain(old(View()), i)
    {
      if i.WriteIndexed? { mmu.ExecTlbwi(false); } else { mmu.ExecTlbwr(false); }
    }

    method ExecuteSystem(i: Instr)
      requires Valid()
      requires i.ReadEntry? || i.WriteIndexed? || i.WriteRandom? || i.ProbeEntry? || i.ReturnFromException?
      modifies mmu, mmu.tlb, mmu.utlb
      ensures Valid() && View() == ExecPlain(old(View()), i)
    {
      if i.WriteIndexed? || i.WriteRandom? {
        ExecuteTlbWrite(i);
      } else if i.ReadEntry? {
        mmu.ExecTlbr();
      } else if i.ProbeEntry? {
        mmu.ExecTlbp();
      } else {
        mmu.ExecEret();
      }
    }

    method Execute(i: Instr)
      requires Valid() && !mmu.tlbFault && !IsControl(i)
      modifies this, mmu, mmu.tlb, mmu.utlb
      ensures Valid() && View() == ExecPlain(old(View()), i)
    {
      if i.Load? || i.Store? || i.LoadPart? || i.StorePart? || i.LoadLinked? || i.StoreCond? {
        ExecuteMemory(i);
      } else if i.ReadEntry? || i.WriteIndexed? || i.WriteRandom? || i.ProbeEntry? || i.ReturnFromException? {
        ExecuteSystem(i);
      } else if NeedsFp(i) {
        ExecuteFp(i);
      } else {
        match i
        case CacheOp(hit, base, imm) => OperateCache(hit, Add(gpr[base], imm));
        case Compute(rd, rs, rt, f, _) =>
          gpr := gpr[rd := f(gpr[rs], gpr[rt], hi, lo)];
          Advance4();
        case Checked(rd, rs, rt, value, traps, code, _) =>
          if traps(gpr[rs], gpr[rt]) {
            RaiseException(code);
          } else {
            gpr := gpr[rd := value(gpr[rs], gpr[rt])];
            Advance4();
          }
        case SetHiLo(rs, rt, g, _) =>
          var r := g(gpr[rs], gpr[rt], hi, lo);
          hi, lo := r.0, r.1;
          Advance4();
        case Trap(code) => RaiseException(code);
        case MoveFromCp0(rt, get) =>
          gpr := gpr[rt := get(mmu.cp0)];
          Advance4();
        case MoveToCp0(rt, put) =>
          mmu.cp0 := put(mmu.cp0, gpr[rt]);
          Advance4();
      }
    }

    /** Fetch; `ran` is false when the fetch faulted or the instruction is not allowed in this mode. */
    method FetchInstr(code: u32 -> Instr) returns (ran: bool, i: Instr)
      requires Valid()
      modifies this, mmu, mmu.utlb
      ensures Valid() && (ran ==> !mmu.tlbFault)
      ensures ran == Runs(code, old(View()))
      ensures ran ==> i == InstrAt(code, old(View())) && View() == Ready(code, old(View()))
      ensures !ran ==> View() == Refused(code, old(View()))
    {
      ghost var s := View();
      gpr := gpr[0 := 0];
      mmu.tlbFault := false;
      assert View() == Begin(s);
      var pa := mmu.TranslateVa(mmu.pc, Op.Fetch);
      assert View() == Begin(s).(m := Fetched(s).0) && pa == Fetched(s).1;
      i := code(pa);
      if mmu.tlbFault { return false, i; }
      if Only64(i) && !In64BitMode(mmu.cp0.status) {
        RaiseException(10);
        return false, i;
      }
      if NeedsFp(i) && !mmu.cp0.status.cu1 {
        mmu.RaiseUnusableFp();
        return false, i;
      }
      CheckLink(i);
      ran := true;
    }

    method RunPlain(code: u32 -> Instr)
      requires Valid() && IsPlain(code, View())
      modifies this, mmu, mmu.tlb, mmu.utlb
      ensures Valid() && View() == StepPlain(code, old(View()))
    {
      var ran, i := FetchInstr(code);
      if ran { Execute(i); }
    }

    // ---------------------------------------------------------------- branches

    /** The delay slot; `faulted` when it raised an exception, and then the branch must not be taken. */
    method RunDelaySlot(code: u32 -> Instr) returns (faulted: bool)
      requires Valid() && IsPlain(code, InSlot(View()))
      modifies this, mmu, mmu.tlb, mmu.utlb
      ensures Valid() && View() == RunSlot(code, old(View()))
      ensures faulted == SlotFaults(old(View()), View())
    {
      var exl, saved := mmu.cp0.status.exl, mmu.inDelaySlot;
      mmu.inDelaySlot := true;
      RunPlain(code);
      mmu.inDelaySlot := saved;
      faulted := !exl && mmu.cp0.status.exl;
    }

    /** The branch is taken unless its slot has raised an exception. */
    method GoUnless(faulted: bool, target: u64, ghost before: Cpu)
      requires Valid() && faulted == SlotFaults(before, View())
      modifies mmu
      ensures Valid() && View() == GoTo(before, old(View()), target)
    {
      if !faulted { mmu.pc := target; }
    }

    /** The slot, then the jump. */
    method RunSlotThenGo(code: u32 -> Instr, target: u64)
      requires Valid() && IsPlain(code, InSlot(View()))
      modifies this, mmu, mmu.tlb, mmu.utlb
      ensures Valid() && View() == GoTo(old(View()), RunSlot(code, old(View())), target)
    {
      var faulted := RunDelaySlot(code);
      GoUnless(faulted, target, old(View()));
    }

    method LinkIn(r: Reg, pc: u64)
      requires Valid()
      modifies this
      ensures Valid() && View() == Exec.Link(old(View()), r, pc)
    {
      gpr := gpr[r := Add(pc, 8)];
    }

    /** To the delay slot of i; some branches link first. */
    method ToSlot(i: Instr)
      requires Valid() && IsControl(i)
      modifies this, mmu
      ensures Valid() && View() == AtSlot(old(View()), i)
    {
      var pc := mmu.pc;
      if i.JumpReg? {
        if i.rd != 0 { LinkIn(i.rd, pc); }
      } else if i.link && (i.Jump? || i.likely) {
        LinkIn(31, pc);
      }
      Advance4();
    }

    method LikelyBranch(code: u32 -> Instr, i: Instr)
      requires Valid() && i.Branch? && i.likely && SlotIsPlain(code, View(), i)
      modifies this, mmu, mmu.tlb, mmu.utlb
      ensures Valid() && View() == ExecControl(code, old(View()), i)
    {
      var pc, take := mmu.pc, i.take(gpr[i.rs], gpr[i.rt], csr);
      ghost var s := View();
      var target := Add(pc, 4 + i.offset);
      assert take == Takes(s, i) && target == Target(s, i);
      ToSlot(i);
      LikelyIs(code, s, i, View());
      if take {
        RunSlotThenGo(code, target);
      } else {
        Advance4();
      }
    }

    /** After the slot of a branch at pc that is not likely. */
    method LinkAndGo(link: bool, pc: u64, take: bool, target: u64, faulted: bool, ghost before: Cpu)
      requires Valid() && faulted == SlotFaults(before, View())
      modifies this, mmu
      ensures Valid()
      ensures var v := if link then Exec.Link(old(View()), 31, pc) else old(View());
              View() == if take then GoTo(before, v, target) else v
    {
      if link { LinkIn(31, pc); }
      if take { GoUnless(faulted, target, before); }
    }

    /** Its slot, then that. */
    method RunSlotThenLink(code: u32 -> Instr, link: bool, pc: u64, take: bool, target: u64)
      requires Valid() && IsPlain(code, InSlot(View()))
      modifies this, mmu, mmu.tlb, mmu.utlb
      ensures Valid()
      ensures var u := RunSlot(code, old(View()));
              var v := if link then Exec.Link(u, 31, pc) else u;
              View() == if take then GoTo(old(View()), v, target) else v
    {
      var faulted := RunDelaySlot(code);
      LinkAndGo(link, pc, take, target, faulted, old(View()));
    }

    method PlainBranch(code: u32 -> Instr, i: Instr)
      requires Valid() && i.Branch? && !i.likely && SlotIsPlain(code, View(), i)
      modifies this, mmu, mmu.tlb, mmu.utlb
      ensures Valid() && View() == ExecControl(code, old(View()), i)
    {
      var pc, take := mmu.pc, i.take(gpr[i.rs], gpr[i.rt], csr);
      ghost var s := View();
      var target := Add(pc, 4 + i.offset);
      assert take == Takes(s, i) && target == Target(s, i) && pc == s.m.pc;
      ToSlot(i);
      PlainIs(code, s, i, View());
      RunSlotThenLink(code, i.link, pc, take, target);
    }

    method JumpTo(code: u32 -> Instr, i: Instr)
      requires Valid() && i.Jump? && SlotIsPlain(code, View(), i)
      modifies this, mmu, mmu.tlb, mmu.utlb
      ensures Valid() && View() == ExecControl(code, old(View()), i)
    {
      var region := Add(mmu.pc, 4) / 0x1000_0000 * 0x1000_0000;
      ToSlot(i);
      RunSlotThenGo(code, (i.target * 4 % 0x1000_0000 + region) % W64);
    }

    method JumpToRegister(code: u32 -> Instr, i: Instr)
      requires Valid() && i.JumpReg? && SlotIsPlain(code, View(), i)
      modifies this, mmu, mmu.tlb, mmu.utlb
      ensures Valid() && View() == ExecControl(code, old(View()), i)
    {
      var target := gpr[i.rs];
      ToSlot(i);
      RunSlotThenGo(code, target);
    }

    /** One call of the interpreter. */
    method RunInstr(code: u32 -> Instr)
      requires Valid() && Modelled(code, View())
      modifies this, mmu, mmu.tlb, mmu.utlb
      ensures Valid() && View() == Step(code, old(View()))
    {
      var ran, i := FetchInstr(code);
      if !ran { return; }
      if i.Jump? {
        JumpTo(code, i);
      } else if i.JumpReg? {
        JumpToRegister(code, i);
      } else if i.Branch? && i.likely {
        LikelyBranch(code, i);
      } else if i.Branch? {
        PlainBranch(code, i);
      } else {
        Execute(i);
      }
    }
  }
}

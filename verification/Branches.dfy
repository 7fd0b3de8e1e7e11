/** Where a branch or jump goes, what it links, and what becomes of an exception in its delay slot. */
module Branches {
  import opened Bits
  import opened Tlb
  import opened Exec
  import opened Precise

  /** The state in which the instruction of s executes, when it is a branch: $0 reads as zero. */
  function Begun(s: Cpu): (r: Cpu)
    requires Fit(s)
    ensures Fit(r)
  {
    s.(gpr := s.gpr[0 := 0], m := s.m.(tlbFault := false))
  }

  lemma ReadyToBranch(code: u32 -> Instr, s: Cpu)
    requires Fit(s) && AtBranch(code, s)
    ensures Ready(code, s) == Begun(s)
  {
    FetchOutcome(s);
  }

  /** The register that i links in before its slot runs, and after it. */
  predicate LinksFirst(i: Instr, r: Reg) {
    || (i.Branch? && i.likely && i.link && r == 31)
    || (i.Jump? && i.link && r == 31)
    || (i.JumpReg? && i.rd == r && r != 0)
  }

  predicate LinksLast(i: Instr, r: Reg) { i.Branch? && !i.likely && i.link && r == 31 }

  /** The delay slot of the branch i at r. */
  predicate IsSlotOf(r: Cpu, i: Instr, slot: Cpu) {
    && Fit(r) && Fit(slot)
    && slot == r.(gpr := slot.gpr, m := r.m.(pc := (r.m.pc + 4) % W64, inDelaySlot := true))
    && forall g: Reg :: slot.gpr[g] == if LinksFirst(i, g) then (r.m.pc + 8) % W64 else r.gpr[g]
  }

  lemma SlotStarts(code: u32 -> Instr, s: Cpu)
    requires Fit(s) && AtBranch(code, s)
    ensures IsSlotOf(Begun(s), InstrAt(code, s), Slot(code, s))
  {
    ReadyToBranch(code, s);
  }

  /** A slot that takes an exception while none is being handled. */
  predicate Interrupted(slot: Cpu, u: Cpu) { !slot.m.cp0.status.exl && u.m.cp0.status.exl }

  /** t is what a branch makes of u, its slot's end: it goes to `target`, unless the slot was interrupted. */
  predicate GoesTo(s: Cpu, i: Instr, slot: Cpu, u: Cpu, t: Cpu, target: u64) {
    && Fit(u) && Fit(t)
    && t == u.(gpr := t.gpr, m := u.m.(inDelaySlot := s.m.inDelaySlot,
                                       pc := if Interrupted(slot, u) then u.m.pc else target))
    && forall g: Reg :: t.gpr[g] == if LinksLast(i, g) then (s.m.pc + 8) % W64 else u.gpr[g]
  }

  /** The link and the jump after a slot that started at t and ended in u. */
  lemma LinksAndGoes(r: Cpu, i: Instr, t: Cpu, u: Cpu, goes: bool, target: u64)
    requires Fit(r) && Fit(u) && IsControl(i) && t.m.cp0 == InSlot(t).m.cp0 && t.m.inDelaySlot == r.m.inDelaySlot
    ensures var back := u.(m := u.m.(inDelaySlot := t.m.inDelaySlot));
            var v := if i.Branch? && i.link && !i.likely then Exec.Link(back, 31, r.m.pc) else back;
            GoesTo(r, i, InSlot(t), u, if goes then GoTo(t, v, target) else v, if goes then target else u.m.pc)
  {}

  /** What a branch at r makes of its slot. */
  lemma AfterSlot(code: u32 -> Instr, r: Cpu, i: Instr, u: Cpu)
    requires Fit(r) && IsControl(i) && SlotIsPlain(code, r, i) && !SkipsSlot(r, i)
    requires u == StepPlain(code, InSlot(AtSlot(r, i)))
    ensures GoesTo(r, i, InSlot(AtSlot(r, i)), u, ExecControl(code, r, i), if Takes(r, i) then Target(r, i) else u.m.pc)
  {
    AtSlotIs(r, i);
    LinksAndGoes(r, i, AtSlot(r, i), u, Takes(r, i), Target(r, i));
  }

  lemma AfterItsSlot(code: u32 -> Instr, s: Cpu)
    requires Fit(s) && Modelled(code, s) && RunsSlot(code, s)
    ensures IsPlain(code, Slot(code, s))
    ensures var i, r, u := InstrAt(code, s), Begun(s), StepPlain(code, Slot(code, s));
            GoesTo(s, i, Slot(code, s), u, Step(code, s), if Takes(r, i) then Target(r, i) else u.m.pc)
  {
    ReadyToBranch(code, s);
    AfterSlot(code, Begun(s), InstrAt(code, s), StepPlain(code, Slot(code, s)));
  }

  /** It goes to `target`, if that is where it is to go. */
  lemma ItGoes(code: u32 -> Instr, s: Cpu, target: u64)
    requires Fit(s) && Modelled(code, s) && RunsSlot(code, s)
    requires var i, r := InstrAt(code, s), Begun(s);
             target == if Takes(r, i) then Target(r, i) else StepPlain(code, Slot(code, s)).m.pc
    ensures IsSlotOf(Begun(s), InstrAt(code, s), Slot(code, s))
    ensures GoesTo(s, InstrAt(code, s), Slot(code, s), StepPlain(code, Slot(code, s)), Step(code, s), target)
  {
    SlotStarts(code, s);
    AfterItsSlot(code, s);
  }

  /** The branch at s goes by its condition, which is read before the slot. */
  predicate Taken(code: u32 -> Instr, s: Cpu)
    requires Fit(s)
  {
    var i, r := InstrAt(code, s), Begun(s);
    i.Branch? && i.take(r.gpr[i.rs], r.gpr[i.rt], r.csr)
  }

  /** A branch that is taken runs its slot and goes to its offset from there. */
  lemma TakenGoes(code: u32 -> Instr, s: Cpu)
    requires Fit(s) && Modelled(code, s) && AtBranch(code, s) && Taken(code, s)
    ensures RunsSlot(code, s) && IsPlain(code, Slot(code, s)) && IsSlotOf(Begun(s), InstrAt(code, s), Slot(code, s))
    ensures var i, u := InstrAt(code, s), StepPlain(code, Slot(code, s));
            GoesTo(s, i, Slot(code, s), u, Step(code, s), (s.m.pc + 4 + i.offset) % W64)
  {
    ReadyToBranch(code, s);
    ItGoes(code, s, (s.m.pc + 4 + InstrAt(code, s).offset) % W64);
  }

  /** A branch that is not taken and not likely runs its slot and goes where that goes. */
  lemma NotTakenGoesOn(code: u32 -> Instr, s: Cpu)
    requires Fit(s) && Modelled(code, s) && AtBranch(code, s)
    requires InstrAt(code, s).Branch? && !Taken(code, s) && !InstrAt(code, s).likely
    ensures RunsSlot(code, s) && IsPlain(code, Slot(code, s)) && IsSlotOf(Begun(s), InstrAt(code, s), Slot(code, s))
    ensures var u := StepPlain(code, Slot(code, s));
            GoesTo(s, InstrAt(code, s), Slot(code, s), u, Step(code, s), u.m.pc)
  {
    ReadyToBranch(code, s);
    ItGoes(code, s, StepPlain(code, Slot(code, s)).m.pc);
  }

  lemma SkippedIs(code: u32 -> Instr, r: Cpu, i: Instr)
    requires Fit(r) && IsControl(i) && SkipsSlot(r, i) && SlotIsPlain(code, r, i)
    ensures ExecControl(code, r, i) == Next(AtSlot(r, i)) && Add(Add(r.m.pc, 4), 4) == (r.m.pc + 8) % W64
  {}

  /** A likely branch that is not taken goes past its slot without running it. */
  lemma LikelySkips(code: u32 -> Instr, s: Cpu)
    requires Fit(s) && Modelled(code, s) && AtBranch(code, s)
    requires InstrAt(code, s).Branch? && !Taken(code, s) && InstrAt(code, s).likely
    ensures !RunsSlot(code, s)
    ensures var i, r, t := InstrAt(code, s), Begun(s), Step(code, s);
            && t == r.(gpr := t.gpr, m := r.m.(pc := (s.m.pc + 8) % W64))
            && forall g: Reg :: t.gpr[g] == if i.link && g == 31 then (s.m.pc + 8) % W64 else r.gpr[g]
  {
    ReadyToBranch(code, s);
    SkippedIs(code, Begun(s), InstrAt(code, s));
  }

  lemma JumpTarget(target: nat, pc: u64)
    ensures var t := target * 4 % 0x1000_0000 + pc / 0x1000_0000 * 0x1000_0000;
            t < W64 && t % 0x1000_0000 == target * 4 % 0x1000_0000 && t / 0x1000_0000 == pc / 0x1000_0000
  {
    QuotRem(pc / 0x1000_0000, 0x1000_0000, target * 4 % 0x1000_0000);
  }

  lemma TargetIs(r: Cpu, i: Instr, target: u64)
    requires Fit(r) && i.Jump? && target % 0x1000_0000 == i.target * 4 % 0x1000_0000
    requires target / 0x1000_0000 == (r.m.pc + 4) % W64 / 0x1000_0000
    ensures Target(r, i) == target
  {
    JumpTarget(i.target, Add(r.m.pc, 4));
  }

  /** J and JAL go to a word of the 256 MB that their slot is in. */
  lemma JumpGoes(code: u32 -> Instr, s: Cpu, target: u64)
    requires Fit(s) && Modelled(code, s) && AtBranch(code, s) && InstrAt(code, s).Jump?
    requires target % 0x1000_0000 == InstrAt(code, s).target * 4 % 0x1000_0000
    requires target / 0x1000_0000 == (s.m.pc + 4) % W64 / 0x1000_0000
    ensures RunsSlot(code, s) && IsPlain(code, Slot(code, s)) && IsSlotOf(Begun(s), InstrAt(code, s), Slot(code, s))
    ensures GoesTo(s, InstrAt(code, s), Slot(code, s), StepPlain(code, Slot(code, s)), Step(code, s), target)
  {
    ReadyToBranch(code, s);
    TargetIs(Begun(s), InstrAt(code, s), target);
    ItGoes(code, s, target);
  }

  /** JR and JALR go where the register pointed before the link. */
  lemma JumpRegGoes(code: u32 -> Instr, s: Cpu)
    requires Fit(s) && Modelled(code, s) && AtBranch(code, s) && InstrAt(code, s).JumpReg?
    ensures RunsSlot(code, s) && IsPlain(code, Slot(code, s)) && IsSlotOf(Begun(s), InstrAt(code, s), Slot(code, s))
    ensures GoesTo(s, InstrAt(code, s), Slot(code, s), StepPlain(code, Slot(code, s)), Step(code, s),
                   Begun(s).gpr[InstrAt(code, s).rs])
  {
    ReadyToBranch(code, s);
    ItGoes(code, s, Begun(s).gpr[InstrAt(code, s).rs]);
  }
}

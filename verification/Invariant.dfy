/** What every reachable state of the protocol satisfies.

    The first group ties the state machines and the message slots together, the second describes
    the probes in flight, the third is inclusion and presence, the fourth says where the latest
    value of each address is, and the last what the instruction side may rely on.
  */
module Invariant {
  import opened Protocol

  // ------------------------------------------------------------------ vocabulary

  /** The L2 is working on the request in w. */
  predicate Working(s: State) {
    s.l2st in {L2Check, L2Reload, L2Upurge, L2Unc} || (s.l2st == L2Probe && s.pret != L2Flush)
  }

  predicate Walking(s: State) {
    s.l2st == L2Flush || (s.l2st == L2Probe && s.pret == L2Flush)
  }

  predicate Snooping(s: State) {
    Working(s) && s.w.r.op in {OpSnpWbinv, OpSnpDrop}
  }

  /** The L2 is working on the request whose response the L1D waits for. */
  predicate Serving(s: State) {
    Working(s) && s.w.src == SD && s.w.r.op !in {OpSW, OpSnpWbinv, OpSnpDrop}
  }

  predicate Waiting(s: State) {
    s.dst in {DVict, DFill, DOp, DUncWb, DUnc, DFlushWb}
  }

  /** r is what the L1D asked for when it entered its current state. */
  predicate Expected(s: State, r: Req) {
    match s.dst
    case DVict => r.op == OpSW
    case DFlushWb => r.op == OpSW
    case DUncWb => r.op == OpSW && r.a == s.da
    case DFill => r.op == OpLW && r.a == s.da
    case DOp =>
      && r.a == s.da
      && (match s.dop
          case CoChwb => r.op in {OpWB, OpINVL}
          case CoXpgWbinv => r.op in {OpWB, OpINVL}
          case CoChinv => r.op == OpINVL
          case CoXpgInv => r.op == OpPGDROP
          case _ => false)
    case DUnc => if s.dop == CoUstore then r == Req(OpUSW, s.da, s.dsd) else r.op == OpULW && r.a == s.da
    case _ => false
  }

  /** The L1D has line a, or has been sent it. */
  predicate DHolds(s: State, a: Addr) {
    DHit(s, a) || (s.rspD.Full? && s.dst == DFill && s.da == a)
  }

  predicate IHolds(s: State, a: Addr) {
    IHit(s, a) || (s.rspI.Full? && s.ia == a)
  }

  predicate Released(s: State, a: Addr) { !DHolds(s, a) && !IHolds(s, a) }

  /** A newer value of a than the L2's is on its way: dirty in the L1D, latched, being written by
      the L2, or in a probe answer. */
  predicate Above(s: State, a: Addr) {
    || (s.l1d.st == LVD && s.l1d.tag == a)
    || Latched(s, a)
    || (Working(s) && s.w.r.op in {OpSW, OpWB} && s.w.r.a == a)
    || (s.packD.Full? && s.packD.v.dirty && s.pa == a)
  }

  /** An uncached store to a has committed but has not reached memory. */
  predicate Pending(s: State, a: Addr) {
    s.dop == CoUstore && s.da == a && (s.dst in {DUncWb, DUncIssue} || (s.dst == DUnc && s.rspD.Empty?))
  }

  /** The device has overwritten a and its stale copies have not been dropped yet. */
  predicate Stale(s: State, a: Addr) {
    s.daddr == a &&
    (s.dma == DmInDone || (s.dma == DmInDrop && !(s.rspD.Full? && s.dst == DOp && s.dop == CoXpgInv)))
  }

  predicate PreFlushing(s: State) {
    s.dst == DOp && s.dop == CoXpgWbinv && s.rspD.Empty?
  }

  // ------------------------------------------------------------------ control

  /** The L1D waits for a response exactly while its request is latched, served or answered. */
  ghost predicate DataPort(c: Config, s: State) {
    && (s.reqD.Full? ==> Expected(s, s.reqD.v) && s.rspD.Empty? && !Serving(s))
    && (Serving(s) ==> Expected(s, s.w.r) && s.rspD.Empty?)
    && (s.rspD.Full? ==> Waiting(s))
    && (Waiting(s) ==> s.reqD.Full? || Serving(s) || s.rspD.Full?)
  }

  ghost predicate DataOps(c: Config, s: State) {
    && (s.dst in {DUncWb, DUncIssue, DUnc} ==> s.dop in {CoUload, CoUstore})
    && (s.dst == DOp ==> s.dop in {CoChwb, CoChinv, CoXpgWbinv, CoXpgInv})
  }

  /** A writeback answered early is still being written while the L1D goes on, but not past its
      next request. */
  ghost predicate EarlyAck(c: Config, s: State) {
    Working(s) && s.w.r.op == OpSW ==>
      && s.w.src == SD
      && (|| s.dst in {DReload, DUncIssue, DFlushL2}
          || (s.dst in {DVict, DUncWb, DFlushWb} && s.rspD.Full? && s.l2st == L2Check)
          || (s.dst in {DFill, DUnc} && s.reqD.Full?))
  }

  ghost predicate FetchPort(c: Config, s: State) {
    && (Working(s) && s.w.src == SI ==>
          s.w.r.op == OpLW && s.w.r.a == s.ia && s.ifill && s.reqI.Empty? && s.rspI.Empty?)
    && (s.reqI.Full? ==> s.ifill && s.reqI.v.op == OpLW && s.reqI.v.a == s.ia && s.rspI.Empty?)
    && (s.rspI.Full? ==> s.ifill)
    && (s.ifill ==> s.reqI.Full? || s.rspI.Full? || (Working(s) && s.w.src == SI))
    && (!c.l1i ==> !s.ifill && s.l1i.st == LI)
  }

  /** The L2 state machine and the request it works on. */
  ghost predicate Engine(c: Config, s: State) {
    && (s.l2st == L2Probe ==> s.pret in {L2Check, L2Upurge, L2Flush})
    && (Working(s) ==>
          (s.w.r.op in {OpULW, OpUSW}
           <==> (s.l2st in {L2Upurge, L2Unc} || (s.l2st == L2Probe && s.pret == L2Upurge))))
    && (s.l2st == L2Reload ==> s.w.r.op in {OpLW, OpSW})
    && (Walking(s) ==> s.dst == DFlushL2 && s.fset < c.sets)
  }

  predicate SnoopPhase(s: State, op: Op) {
    if op == OpSnpWbinv then s.dma in {DmInPre, DmOutPre} else op == OpSnpDrop && s.dma == DmInDrop
  }

  /** The DMA agent's snoops. */
  ghost predicate Snoops(c: Config, s: State) {
    && (!c.snoop ==> s.snp.Empty? && s.dma !in {DmInPre, DmOutPre} && !Snooping(s))
    && (s.snp.Full? ==> s.snp.v.a == s.daddr && SnoopPhase(s, s.snp.v.op) && !Snooping(s))
    && (Snooping(s) ==> s.w.r.a == s.daddr && SnoopPhase(s, s.w.r.op) && s.w.src == SD && s.rspD.Empty?)
    && (s.dma in {DmInPre, DmOutPre} || (c.snoop && s.dma == DmInDrop) ==> s.snp.Full? || Snooping(s))
  }

  /** The page-flush operations that the core runs for the DMA agent. */
  ghost predicate PageOps(c: Config, s: State) {
    && (c.snoop ==> !(s.dst == DOp && s.dop in {CoXpgWbinv, CoXpgInv}))
    && (s.dst == DOp && s.dop == CoXpgWbinv ==> s.da == s.daddr && s.dma in {DmInArmed, DmOutArmed})
    && (s.dst == DOp && s.dop == CoXpgInv ==> s.da == s.daddr && s.dma == DmInDrop)
    && (!c.snoop && s.dma == DmInDrop ==> s.dst == DOp && s.dop == CoXpgInv)
  }

  /** What the core may be doing to the buffer while a window is open. */
  ghost predicate Windows(c: Config, s: State) {
    && (InWindow(s, s.da) && s.dst in {DVict, DReload, DFill} ==> s.dkind == KSpec)
    && (InWindow(s, s.da) ==> s.dst !in {DUncWb, DUncIssue, DUnc})
    && (OutWindow(s, s.da) && s.dst in {DVict, DReload, DFill} ==> s.dkind != KStore)
    && (OutWindow(s, s.da) && s.dst in {DUncWb, DUncIssue, DUnc} ==> s.dop == CoUload)
  }

  // ------------------------------------------------------------------ probes

  /** A probe is outstanding, then its answer, exactly while the L2 waits for it; an L1 that has
      answered, or was not asked, does not have the line. */
  ghost predicate Channels(c: Config, s: State) {
    && (s.prbD.Full? ==> s.pexpD && s.packD.Empty? && s.prbD.v == s.pa)
    && (s.packD.Full? ==> s.pexpD && !DHolds(s, s.pa) && s.rspD.Empty?)
    && (s.pexpD ==> s.l2st == L2Probe && (s.prbD.Full? || s.packD.Full?))
    && (s.prbI.Full? ==> s.pexpI && s.packI.Empty? && s.prbI.v == s.pa)
    && (s.packI.Full? ==> s.pexpI && !IHolds(s, s.pa) && s.rspI.Empty? && !s.packI.v.dirty)
    && (s.pexpI ==> s.l2st == L2Probe && (s.prbI.Full? || s.packI.Full?))
  }

  ghost predicate Probing(c: Config, s: State) {
    s.l2st == L2Probe ==>
      && !s.probed && L2Hit(c, s, s.pa) && (s.pexpD || s.pexpI)
      && (!s.pexpD ==> !DHolds(s, s.pa))
      && (!s.pexpI ==> !IHolds(s, s.pa))
      && (s.pret == L2Flush ==> c.setOf(s.pa) == s.fset)
      && (s.pret != L2Flush ==>
            && c.setOf(s.pa) == c.setOf(s.w.r.a)
            && (s.w.r.op in {OpLW, OpSW} <==> s.pa != s.w.r.a))
  }

  // ------------------------------------------------------------------ inclusion and presence

  /** A line that an L1 has or has been sent is in the L2, with its presence bit set. */
  ghost predicate Inclusion(c: Config, s: State) {
    && (s.l1d.st != LI ==> L2Hit(c, s, s.l1d.tag) && (c.pres ==> LineOf(c, s, s.l1d.tag).pd))
    && (s.rspD.Full? && s.dst == DFill ==> L2Hit(c, s, s.da) && (c.pres ==> LineOf(c, s, s.da).pd))
    && (s.l1i.st != LI ==> L2Hit(c, s, s.l1i.tag) && (c.pres ==> LineOf(c, s, s.l1i.tag).pi))
    && (s.rspI.Full? ==> L2Hit(c, s, s.ia) && (c.pres ==> LineOf(c, s, s.ia).pi))
  }

  /** A valid line is in the set its address maps to, and not in a set the flush has passed. */
  ghost predicate Placed(c: Config, s: State, i: nat) {
    LineAt(s.l2, i).valid ==> c.setOf(LineAt(s.l2, i).tag) == i && (Walking(s) ==> s.fset <= i)
  }

  ghost predicate Placement(c: Config, s: State) { forall i: nat :: Placed(c, s, i) }

  /** A line that the L2 is about to drop has left both L1s. */
  ghost predicate Leaving(c: Config, s: State) {
    var ln := LineOf(c, s, s.w.r.a);
    && (s.l2st in {L2Check, L2Upurge} && s.probed && ln.valid ==> Released(s, ln.tag))
    && (s.l2st == L2Reload ==> !L2Hit(c, s, s.w.r.a) && (ln.valid ==> Released(s, ln.tag)))
    && (s.l2st == L2Unc ==> !L2Hit(c, s, s.w.r.a))
    && (s.l2st == L2Flush && s.probed && LineAt(s.l2, s.fset).valid ==> Released(s, LineAt(s.l2, s.fset).tag))
    && (s.l2st == L2Reload && ln.valid && ln.dirty ==> At(s.mem, ln.tag) == ln.d)
  }

  // ------------------------------------------------------------------ values

  /** Which line the L1D can have while it works on something. */
  ghost predicate Core(c: Config, s: State) {
    && (s.dst in {DFill, DReload, DFlushL2} ==> s.l1d.st == LI)
    && (s.dst in {DOp, DUncWb, DUncIssue, DUnc} ==> !DHit(s, s.da))
    && (s.dst in {DVict, DFlushWb} ==> s.l1d.st != LV && (s.reqD.Full? ==> s.reqD.v.a == s.l1d.tag))
    && (s.dst == DVict ==> s.l1d.tag != s.da)
    && (s.rspD.Full? && s.dst in {DVict, DFlushWb} && s.l1d.st == LVD ==>
          Working(s) && s.w.r.op == OpSW && s.w.r.a == s.l1d.tag)
    && (Working(s) && s.w.r.op == OpSW && s.rspD.Full? && s.dst == DUncWb ==> s.w.r.a == s.da)
    && (Working(s) && s.w.r.op == OpSW && s.rspD.Empty? ==> !DHolds(s, s.w.r.a))
  }

  /** Every copy above the L2 is the latest value, except while an uncached store overtakes it. */
  ghost predicate Copies(c: Config, s: State) {
    && (s.l1d.st == LVD ==> s.l1d.d == At(s.latest, s.l1d.tag) && !Pending(s, s.l1d.tag))
    && (s.reqD.Full? && s.reqD.v.op in {OpSW, OpWB} ==>
          Pending(s, s.reqD.v.a) || s.reqD.v.d == At(s.latest, s.reqD.v.a))
    && (Working(s) && s.w.r.op in {OpSW, OpWB} ==> Pending(s, s.w.r.a) || s.w.r.d == At(s.latest, s.w.r.a))
    && (s.packD.Full? && s.packD.v.dirty ==> Pending(s, s.pa) || s.packD.v.d == At(s.latest, s.pa))
    && (s.l1d.st == LV ==> !Above(s, s.l1d.tag) && !Pending(s, s.l1d.tag))
    && (s.l1d.st == LV ==> Stale(s, s.l1d.tag) || s.l1d.d == At(s.latest, s.l1d.tag))
  }

  /** What a response in its slot carries. */
  ghost predicate Responses(c: Config, s: State) {
    && (s.rspD.Full? && s.dst == DFill ==> !Above(s, s.da) && (Stale(s, s.da) || s.rspD.v == At(s.latest, s.da)))
    && (s.rspD.Full? && s.dst == DUnc && s.dop == CoUload ==> s.rspD.v == At(s.latest, s.da))
    && (s.dst in {DUncWb, DUncIssue, DUnc} && s.dop == CoUstore ==> s.dsd == At(s.latest, s.da))
  }

  /** Where the latest value of a is when nothing above the L2 has it. */
  ghost predicate Below(c: Config, s: State, a: Addr) {
    !Above(s, a) && !Pending(s, a) ==>
      && (L2Hit(c, s, a) && !Stale(s, a) ==> LineOf(c, s, a).d == At(s.latest, a))
      && (!(L2Hit(c, s, a) && LineOf(c, s, a).dirty) ==> At(s.mem, a) == At(s.latest, a))
  }

  ghost predicate Values(c: Config, s: State) { forall a: Addr :: Below(c, s, a) }

  /** Once the pre-flush is over nothing holds dirty data of the buffer. */
  ghost predicate Buffer(c: Config, s: State) {
    s.dma in {DmInArmed, DmInDone, DmInDrop, DmOutArmed} && !PreFlushing(s) ==>
      !Above(s, s.daddr) && !Pending(s, s.daddr) && !(L2Hit(c, s, s.daddr) && LineOf(c, s, s.daddr).dirty)
  }

  // ------------------------------------------------------------------ instruction side

  /** An address that software has cleaned has no newer value above the L2. */
  ghost predicate Settled(s: State, a: Addr) { a in s.unclean || (!Above(s, a) && !Pending(s, a)) }

  ghost predicate Cleaned(c: Config, s: State) { forall a: Addr :: Settled(s, a) }

  ghost predicate Fetch(c: Config, s: State) {
    && s.unclean <= s.incoh
    && (s.dma in {DmInDone, DmInDrop} ==> s.daddr in s.incoh)
    && (s.l1i.st != LI && s.l1i.tag !in s.incoh ==> s.l1i.d == At(s.latest, s.l1i.tag))
    && (s.rspI.Full? && s.ia !in s.incoh ==> s.rspI.v == At(s.latest, s.ia))
  }

  /** Once the L2 has dropped the buffer the L1I has no older copy of it. */
  ghost predicate Dropped(c: Config, s: State) {
    s.dma == DmInDrop && !Stale(s, s.daddr) ==>
      && (IHit(s, s.daddr) ==> s.l1i.d == At(s.latest, s.daddr))
      && (s.rspI.Full? && s.ia == s.daddr ==> s.rspI.v == At(s.latest, s.daddr))
  }

  // ------------------------------------------------------------------ all of it

  ghost predicate Control(c: Config, s: State) {
    && DataPort(c, s) && DataOps(c, s) && EarlyAck(c, s) && FetchPort(c, s)
    && Engine(c, s) && Snoops(c, s) && PageOps(c, s) && Windows(c, s)
  }

  ghost predicate Holding(c: Config, s: State) {
    Channels(c, s) && Probing(c, s) && Inclusion(c, s) && Placement(c, s) && Leaving(c, s)
  }

  ghost predicate Upper(c: Config, s: State) {
    Core(c, s) && Copies(c, s) && Responses(c, s)
  }

  ghost predicate Lower(c: Config, s: State) {
    Values(c, s) && Buffer(c, s) && Cleaned(c, s) && Fetch(c, s) && Dropped(c, s)
  }

  ghost predicate Data(c: Config, s: State) { Upper(c, s) && Lower(c, s) }

  ghost predicate Inv(c: Config, s: State) {
    Control(c, s) && Holding(c, s) && Data(c, s)
  }

  /** A state from which every rule of the system with queued responses keeps the invariant. */
  ghost predicate Ready(c: Config, s: State) { c.Valid() && Inv(c, s) }

  /** The tag check goes through: nothing has to be probed first. */
  ghost predicate Serves(c: Config, s: State) {
    CanL2Check(Queued, s) && !ProbeDrop(c, s) && !ProbeVictim(c, s)
  }

  /** Line a is about to be dropped for the step the L2 is in, and the L1s have not been asked. */
  ghost predicate ToProbe(c: Config, s: State, a: Addr) {
    && s.l2st in {L2Check, L2Upurge, L2Flush} && !s.probed && L2Hit(c, s, a)
    && (s.l2st == L2Check ==> RspFree(Queued, s, s.w.src))
    && (s.l2st == L2Flush ==> c.setOf(a) == s.fset)
    && (s.l2st != L2Flush ==> c.setOf(a) == c.setOf(s.w.r.a) && (s.w.r.op in {OpLW, OpSW} <==> a != s.w.r.a))
  }
}

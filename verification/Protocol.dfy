/** The inclusive-L2 coherence protocol as a transition system.

    Two L1s (data and instruction), each with one latched request, talk to one serial L2.
    Before the L2 drops a valid line it probes the L1s and waits for their answers.  A device
    reads and writes memory behind the caches, protected either by page-flush operations that
    the core runs or by snoops that the L2 runs itself.

    Every rule is a guard and a function from state to state.  Addresses, versions and L2 sets
    are unbounded; the knobs of the model are the fields of `Config`.
  */
module Protocol {

  type Addr = nat
  type Ver = nat

  datatype Slot<T> = Empty | Full(v: T)

  datatype LState = LI | LV | LVD
  datatype Src = SD | SI
  datatype Op = OpLW | OpSW | OpULW | OpUSW | OpWB | OpINVL | OpPGDROP | OpSnpWbinv | OpSnpDrop
  datatype Req = Req(op: Op, a: Addr, d: Ver)
  datatype Work = Work(src: Src, r: Req)
  datatype Snp = Snp(op: Op, a: Addr)
  datatype Ack = Ack(dirty: bool, d: Ver)
  datatype L2St = L2Idle | L2Check | L2Reload | L2Upurge | L2Unc | L2Probe | L2Flush
  datatype Line = Line(valid: bool, dirty: bool, tag: Addr, d: Ver, pd: bool, pi: bool)
  datatype L1Line = L1Line(st: LState, tag: Addr, d: Ver)
  datatype DSt = DIdle | DVict | DReload | DFill | DOp | DUncWb | DUncIssue | DUnc | DFlushWb | DFlushL2
  datatype DKind = KLoad | KStore | KSpec
  datatype COp = CoChwb | CoChinv | CoXpgWbinv | CoXpgInv | CoUload | CoUstore | CoNone
  datatype DmaSt = DmIdle | DmInPre | DmInArmed | DmInDone | DmInDrop | DmOutPre | DmOutArmed

  /** How a response reaches an L1: installed in the L2's own step, or queued in a slot per L1. */
  datatype Delivery = SameStep | Queued

  /** The other knobs.  `setOf` is the L2 index function, `pres` keeps presence bits, `snoop` lets
      the L2 run the DMA flushes itself.  */
  datatype Config = Config(sets: nat, setOf: Addr -> nat, pres: bool, snoop: bool,
                           l1i: bool, dma: bool, specFill: bool)
  {
    ghost predicate Valid() {
      forall a: Addr :: setOf(a) < sets
    }
  }

  /** `latest` is the architecturally latest value of each address.  `unclean` holds the addresses
      written since their last completed data-side writeback, `incoh` those whose current value the
      instruction side has not been synchronised with.  */
  datatype State = State(
    latest: map<Addr, Ver>, unclean: set<Addr>, incoh: set<Addr>, mem: map<Addr, Ver>,
    reqD: Slot<Req>, reqI: Slot<Req>, rspD: Slot<Ver>, rspI: Slot<Ver>,
    prbD: Slot<Addr>, prbI: Slot<Addr>, packD: Slot<Ack>, packI: Slot<Ack>,
    pexpD: bool, pexpI: bool, snp: Slot<Snp>,
    l2: map<nat, Line>, l2st: L2St, w: Work, probed: bool, pa: Addr, pret: L2St, fset: nat,
    l1d: L1Line, dst: DSt, dkind: DKind, da: Addr, dop: COp, dsd: Ver,
    l1i: L1Line, ifill: bool, ia: Addr,
    dma: DmaSt, daddr: Addr)

  // ------------------------------------------------------------------ helpers

  /** Memory contents: every address starts at version 0. */
  function At(m: map<Addr, Ver>, a: Addr): Ver {
    if a in m then m[a] else 0
  }

  const NoLine := Line(false, false, 0, 0, false, false)

  /** The line in L2 set i; every set starts empty. */
  function LineAt(m: map<nat, Line>, i: nat): Line {
    if i in m then m[i] else NoLine
  }

  function LineOf(c: Config, s: State, a: Addr): Line {
    LineAt(s.l2, c.setOf(a))
  }

  predicate DHit(s: State, a: Addr) { s.l1d.st != LI && s.l1d.tag == a }
  predicate IHit(s: State, a: Addr) { s.l1i.st != LI && s.l1i.tag == a }
  predicate L2Hit(c: Config, s: State, a: Addr) { LineOf(c, s, a).valid && LineOf(c, s, a).tag == a }

  /** The device may write the buffer: the core must not use the line. */
  predicate InWindow(s: State, a: Addr) {
    s.dma in {DmInPre, DmInArmed, DmInDone, DmInDrop} && s.daddr == a
  }

  /** The device is about to read the buffer: the core must not write the line. */
  predicate OutWindow(s: State, a: Addr) {
    s.dma in {DmOutPre, DmOutArmed} && s.daddr == a
  }

  predicate RspFree(m: Delivery, s: State, x: Src) {
    if m.Queued? then (if x == SD then s.rspD.Empty? else s.rspI.Empty?)
    else s.rspD.Empty? && s.rspI.Empty?
  }

  /** Probe the L1s that may hold line a, or none when presence says nobody does. */
  function SendProbes(c: Config, s: State, a: Addr, ret: L2St): State {
    var toD := !c.pres || LineOf(c, s, a).pd;
    var toI := c.l1i && (!c.pres || LineOf(c, s, a).pi);
    s.(pexpD := toD, pexpI := toI,
       prbD := if toD then Full(a) else s.prbD,
       prbI := if toI then Full(a) else s.prbI,
       pa := a, pret := ret,
       probed := s.probed || !(toD || toI),
       l2st := if toD || toI then L2Probe else ret)
  }

  function CoreWrite(s: State, a: Addr): State {
    s.(latest := s.latest[a := At(s.latest, a) + 1], unclean := s.unclean + {a}, incoh := s.incoh + {a})
  }

  /** Where the L1D goes when its response arrives. */
  function RspState(d: DSt): DSt {
    match d
    case DVict => DReload
    case DFill => DIdle
    case DOp => DIdle
    case DUncWb => DUncIssue
    case DUnc => DIdle
    case DFlushWb => DFlushL2
    case _ => d
  }

  /** The L1D's handling of an L2 response: a written-back victim is invalidated, a fill is
      installed and a missing store performed, a flush operation is complete.  */
  function DRsp(s: State, d: Ver): State {
    var store := s.dst == DFill && s.dkind == KStore;
    var next := At(s.latest, s.da) + 1;
    s.(latest := if store then s.latest[s.da := next] else s.latest,
       unclean := if store then s.unclean + {s.da}
                  else if s.dst == DOp && s.dop == CoChwb then s.unclean - {s.da}
                  else s.unclean,
       incoh := if store then s.incoh + {s.da} else s.incoh,
       l1d := if store then L1Line(LVD, s.da, next)
              else if s.dst == DFill then L1Line(LV, s.da, d)
              else if s.dst in {DVict, DFlushWb} then s.l1d.(st := LI)
              else s.l1d,
       dma := if s.dst == DOp && s.dop == CoXpgInv then DmIdle else s.dma,
       dst := RspState(s.dst))
  }

  /** The L1I fill. */
  function IRsp(s: State, d: Ver): State {
    s.(l1i := L1Line(LV, s.ia, d), ifill := false)
  }

  /** Deliver in this step, or queue in the requester's slot. */
  function Respond(m: Delivery, s: State, x: Src, d: Ver): State {
    if m.Queued? then
      s.(rspD := if x == SD then Full(d) else s.rspD, rspI := if x == SI then Full(d) else s.rspI)
    else if x == SD then DRsp(s, d) else IRsp(s, d)
  }

  function Drop(ln: Line): Line {
    ln.(valid := false, dirty := false, pd := false, pi := false)
  }

  /** Put ln in the set of address a. */
  function SetLine(c: Config, s: State, a: Addr, ln: Line): State {
    s.(l2 := s.l2[c.setOf(a) := ln])
  }

  function SetMem(s: State, a: Addr, d: Ver): State {
    s.(mem := s.mem[a := d])
  }

  /** Drop line a if the L2 holds it, writing it back first if it is dirty. */
  function WriteBackDrop(c: Config, s: State, a: Addr): State {
    var ln := LineOf(c, s, a);
    s.(mem := if L2Hit(c, s, a) && ln.dirty then s.mem[a := ln.d] else s.mem,
       l2 := if L2Hit(c, s, a) then s.l2[c.setOf(a) := Drop(ln)] else s.l2)
  }

  /** Drop line a if the L2 holds it, without writing it back. */
  function DropOnly(c: Config, s: State, a: Addr): State {
    s.(l2 := if L2Hit(c, s, a) then s.l2[c.setOf(a) := Drop(LineOf(c, s, a))] else s.l2)
  }

  /** A writeback of a that the L1D has latched but the L2 has not accepted. */
  predicate Latched(s: State, a: Addr) {
    s.reqD.Full? && s.reqD.v.a == a && s.reqD.v.op in {OpWB, OpSW}
  }

  // ------------------------------------------------------------------ the L2

  predicate CanL2Accept(m: Delivery, s: State, x: Src) {
    (if x == SD then s.reqD.Full? else s.reqI.Full?) && s.l2st == L2Idle && RspFree(m, s, x) && s.snp.Empty?
  }

  function L2Accept(m: Delivery, s: State, x: Src): State
    requires CanL2Accept(m, s, x)
  {
    var r := if x == SD then s.reqD.v else s.reqI.v;
    var t := s.(reqD := if x == SD then Empty else s.reqD, reqI := if x == SI then Empty else s.reqI,
                w := Work(x, r), probed := false);
    var u := if r.op == OpSW then Respond(m, t, x, 0) else t;
    u.(l2st := if r.op in {OpULW, OpUSW} then L2Upurge else L2Check)
  }

  predicate CanL2Purge(s: State) { s.l2st == L2Upurge }

  function L2Purge(c: Config, s: State): State {
    if L2Hit(c, s, s.w.r.a) && !s.probed then SendProbes(c, s, s.w.r.a, L2Upurge)
    else WriteBackDrop(c, s, s.w.r.a).(l2st := L2Unc)
  }

  predicate CanL2Check(m: Delivery, s: State) { s.l2st == L2Check && RspFree(m, s, s.w.src) }

  function L2DoCheck(c: Config, m: Delivery, s: State): State {
    if ProbeDrop(c, s) then SendProbes(c, s, s.w.r.a, L2Check)
    else if ProbeVictim(c, s) then SendProbes(c, s, LineOf(c, s, s.w.r.a).tag, L2Check)
    else L2Serve(c, m, s)
  }

  /** The request drops a line that has not been probed. */
  predicate ProbeDrop(c: Config, s: State) {
    s.w.r.op in {OpINVL, OpPGDROP, OpWB, OpSnpWbinv, OpSnpDrop} && L2Hit(c, s, s.w.r.a) && !s.probed
  }

  /** The request evicts a victim that has not been probed. */
  predicate ProbeVictim(c: Config, s: State) {
    s.w.r.op in {OpLW, OpSW} && !L2Hit(c, s, s.w.r.a) && LineOf(c, s, s.w.r.a).valid && !s.probed
  }

  /** The tag-check step once no probe is needed (any more). */
  function L2Serve(c: Config, m: Delivery, s: State): State {
    var a := s.w.r.a;
    match s.w.r.op
    case OpINVL => Respond(m, WriteBackDrop(c, s, a), s.w.src, 0).(l2st := L2Idle)
    case OpPGDROP => Respond(m, DropOnly(c, s, a), s.w.src, 0).(l2st := L2Idle)
    case OpSnpWbinv =>
      if Latched(s, a) then FinishWbinv(c, Absorb(c, m, s, a)) else FinishWbinv(c, s)
    case OpSnpDrop =>
      var t := DropOnly(c, s, a);
      t.(dma := if t.dma == DmInDrop then DmIdle else t.dma, l2st := L2Idle)
    case OpWB =>
      var ln := LineOf(c, s, a).(valid := false, pd := false, pi := false);
      var t := SetMem(s, a, s.w.r.d).(l2 := if L2Hit(c, s, a) then s.l2[c.setOf(a) := ln] else s.l2);
      Respond(m, t, s.w.src, 0).(l2st := L2Idle)
    case OpLW =>
      if L2Hit(c, s, a) then
        var ln := LineOf(c, s, a);
        var held := ln.(pd := ln.pd || (c.pres && s.w.src == SD), pi := ln.pi || (c.pres && s.w.src == SI));
        Respond(m, SetLine(c, s, a, held), s.w.src, ln.d).(l2st := L2Idle)
      else EvictDirty(c, s).(l2st := L2Reload)
    case OpSW =>
      if L2Hit(c, s, a) then
        var ln := LineOf(c, s, a);
        SetLine(c, s, a, ln.(d := s.w.r.d, dirty := true, pd := ln.pd && s.w.src != SD)).(l2st := L2Idle)
      else EvictDirty(c, s).(l2st := L2Reload)
    case _ => s
  }

  /** The miss victim goes to memory if it is valid and dirty. */
  function EvictDirty(c: Config, s: State): State {
    var ln := LineOf(c, s, s.w.r.a);
    s.(mem := if ln.valid && ln.dirty then s.mem[ln.tag := ln.d] else s.mem)
  }

  /** A snoop takes over a writeback of its line that is still latched in the arbiter. */
  function Absorb(c: Config, m: Delivery, s: State, a: Addr): State
    requires Latched(s, a)
  {
    var d := s.reqD.v.d;
    var ln := LineOf(c, s, a).(d := d, dirty := true);
    var t := s.(l2 := if L2Hit(c, s, a) then s.l2[c.setOf(a) := ln] else s.l2,
                mem := if L2Hit(c, s, a) then s.mem else s.mem[a := d],
                reqD := Empty);
    Respond(m, t, SD, 0)
  }

  function FinishWbinv(c: Config, s: State): State {
    WriteBackDrop(c, s, s.w.r.a).(
      dma := if s.dma == DmInPre then DmInArmed else if s.dma == DmOutPre then DmOutArmed else s.dma,
      l2st := L2Idle)
  }

  predicate CanL2Reload(s: State) { s.l2st == L2Reload }

  function L2DoReload(c: Config, s: State): State {
    SetLine(c, s, s.w.r.a, Line(true, false, s.w.r.a, At(s.mem, s.w.r.a), false, false)).(l2st := L2Check)
  }

  predicate CanL2Uncached(m: Delivery, s: State) { s.l2st == L2Unc && RspFree(m, s, s.w.src) }

  function L2Uncached(m: Delivery, s: State): State {
    var t := if s.w.r.op == OpUSW then Respond(m, SetMem(s, s.w.r.a, s.w.r.d), s.w.src, 0)
             else Respond(m, s, s.w.src, At(s.mem, s.w.r.a));
    t.(l2st := L2Idle)
  }

  predicate CanAcceptSnoop(m: Delivery, s: State) {
    s.snp.Full? && s.l2st == L2Idle && RspFree(m, s, SD) && RspFree(m, s, SI)
  }

  function AcceptSnoop(s: State): State
    requires s.snp.Full?
  {
    s.(w := Work(SD, Req(s.snp.v.op, s.snp.v.a, 0)), snp := Empty, probed := false, l2st := L2Check)
  }

  predicate CanProbeAcks(s: State) {
    s.l2st == L2Probe && (!s.pexpD || s.packD.Full?) && (!s.pexpI || s.packI.Full?)
  }

  /** All answers are in: merge a dirty L1D copy and resume. */
  function ProbeAcks(c: Config, s: State): State {
    var ln := LineOf(c, s, s.pa);
    var merged := if s.packD.Full? && s.packD.v.dirty then ln.(d := s.packD.v.d, dirty := true) else ln;
    SetLine(c, s, s.pa, merged.(pd := false, pi := false)).(
      packD := Empty, packI := Empty, pexpD := false, pexpI := false, probed := true, l2st := s.pret)
  }

  predicate CanFlushStart(m: Delivery, s: State) {
    s.dst == DFlushL2 && s.l2st == L2Idle && RspFree(m, s, SD) && RspFree(m, s, SI)
  }

  function FlushStart(s: State): State {
    s.(fset := 0, probed := false, l2st := L2Flush)
  }

  predicate CanFlushSet(s: State) { s.l2st == L2Flush }

  function FlushSet(c: Config, s: State): State {
    var ln := LineAt(s.l2, s.fset);
    if ln.valid && !s.probed then SendProbes(c, s, ln.tag, L2Flush)
    else
      var last := s.fset + 1 == c.sets;
      s.(mem := if ln.valid && ln.dirty then s.mem[ln.tag := ln.d] else s.mem,
         l2 := s.l2[s.fset := Drop(ln)],
         probed := false,
         l2st := if last then L2Idle else L2Flush,
         dst := if last then DIdle else s.dst,
         fset := if last then s.fset else s.fset + 1)
  }

  // ------------------------------------------------------------------ the L1D

  predicate CanStoreHit(s: State, a: Addr) {
    s.dst == DIdle && DHit(s, a) && !InWindow(s, a) && !OutWindow(s, a)
  }

  function StoreHit(s: State, a: Addr): State {
    var t := CoreWrite(s, a);
    t.(l1d := L1Line(LVD, s.l1d.tag, At(t.latest, a)))
  }

  predicate CanDMiss(c: Config, s: State, k: DKind, a: Addr) {
    && s.dst == DIdle && !DHit(s, a) && s.reqD.Empty?
    && (if k == KSpec then c.specFill && InWindow(s, a) else !InWindow(s, a))
    && !(k == KStore && OutWindow(s, a))
  }

  function DMiss(s: State, k: DKind, a: Addr): State {
    var victim := s.l1d.st == LVD;
    s.(dkind := k, da := a,
       l1d := if victim then s.l1d else s.l1d.(st := LI),
       reqD := Full(if victim then Req(OpSW, s.l1d.tag, s.l1d.d) else Req(OpLW, a, 0)),
       dst := if victim then DVict else DFill)
  }

  /** The L1D gives up line a if it holds it. */
  function L1Drop(s: State, a: Addr): State {
    s.(l1d := if DHit(s, a) then s.l1d.(st := LI) else s.l1d)
  }

  predicate DDirty(s: State, a: Addr) { DHit(s, a) && s.l1d.st == LVD }

  predicate CanCacheOp(s: State, o: COp, a: Addr) {
    && s.dst == DIdle && s.reqD.Empty? && o in {CoChwb, CoChinv} && !InWindow(s, a)
    && !(o == CoChinv && DHit(s, a) && s.l1d.st == LVD)
  }

  function CacheOp(s: State, o: COp, a: Addr): State {
    L1Drop(s, a).(
      dop := o, da := a,
      reqD := Full(if o == CoChwb && DDirty(s, a) then Req(OpWB, a, s.l1d.d) else Req(OpINVL, a, 0)),
      dst := DOp)
  }

  predicate CanULoad(s: State, a: Addr) {
    s.dst == DIdle && s.reqD.Empty? && !InWindow(s, a)
  }

  function ULoad(s: State, a: Addr): State {
    L1Drop(s, a).(
      dop := CoUload, da := a,
      reqD := Full(if DDirty(s, a) then Req(OpSW, a, s.l1d.d) else Req(OpULW, a, 0)),
      dst := if DDirty(s, a) then DUncWb else DUnc)
  }

  predicate CanUStore(s: State, a: Addr) {
    s.dst == DIdle && s.reqD.Empty? && !InWindow(s, a) && !OutWindow(s, a)
  }

  function UStore(s: State, a: Addr): State {
    var d := At(s.latest, a) + 1;
    L1Drop(CoreWrite(s, a), a).(
      dop := CoUstore, da := a, dsd := d,
      reqD := Full(if DDirty(s, a) then Req(OpSW, a, s.l1d.d) else Req(OpUSW, a, d)),
      dst := if DDirty(s, a) then DUncWb else DUnc)
  }

  predicate CanDResponse(s: State) { s.rspD.Full? }

  function DResponse(s: State): State
    requires CanDResponse(s)
  {
    DRsp(s.(rspD := Empty), s.rspD.v)
  }

  predicate CanDReload(s: State) { s.dst == DReload && s.reqD.Empty? }

  function DoDReload(s: State): State {
    s.(reqD := Full(Req(OpLW, s.da, 0)), dst := DFill)
  }

  predicate CanDUncIssue(s: State) { s.dst == DUncIssue && s.reqD.Empty? }

  function DoDUncIssue(s: State): State {
    s.(reqD := Full(if s.dop == CoUstore then Req(OpUSW, s.da, s.dsd) else Req(OpULW, s.da, 0)), dst := DUnc)
  }

  predicate CanL1Walk(s: State) { s.dst == DIdle && s.reqD.Empty? && !s.ifill }

  function L1Walk(s: State): State {
    var victim := s.l1d.st == LVD;
    s.(l1i := s.l1i.(st := LI),
       l1d := if victim then s.l1d else s.l1d.(st := LI),
       reqD := if victim then Full(Req(OpSW, s.l1d.tag, s.l1d.d)) else s.reqD,
       dst := if victim then DFlushWb else DFlushL2)
  }

  // ------------------------------------------------------------------ the L1I

  predicate CanIMiss(c: Config, s: State, a: Addr) {
    c.l1i && !s.ifill && !IHit(s, a) && s.reqI.Empty? && (!InWindow(s, a) || c.specFill)
  }

  function IMiss(s: State, a: Addr): State {
    s.(l1i := s.l1i.(st := LI), ifill := true, ia := a, reqI := Full(Req(OpLW, a, 0)))
  }

  predicate CanIFill(s: State) { s.rspI.Full? }

  function IFill(s: State): State
    requires CanIFill(s)
  {
    IRsp(s.(rspI := Empty), s.rspI.v)
  }

  predicate CanISync(c: Config, s: State) { c.l1i && !s.ifill }

  function ISync(s: State): State {
    s.(l1i := s.l1i.(st := LI), incoh := s.unclean + (if InWindow(s, s.daddr) then {s.daddr} else {}))
  }

  // ------------------------------------------------------------------ probes

  predicate CanDProbe(s: State) { s.prbD.Full? && s.packD.Empty? && s.rspD.Empty? }

  function DProbe(s: State): State
    requires CanDProbe(s)
  {
    var a := s.prbD.v;
    L1Drop(s, a).(packD := Full(if DDirty(s, a) then Ack(true, s.l1d.d) else Ack(false, 0)),
                  prbD := Empty)
  }

  predicate CanIProbe(s: State) { s.prbI.Full? && s.packI.Empty? && s.rspI.Empty? }

  function IProbe(s: State): State
    requires CanIProbe(s)
  {
    s.(l1i := if IHit(s, s.prbI.v) then s.l1i.(st := LI) else s.l1i, packI := Full(Ack(false, 0)), prbI := Empty)
  }

  // ------------------------------------------------------------------ DMA

  predicate CanXpgPre(c: Config, s: State, a: Addr) {
    c.dma && !c.snoop && s.dma == DmIdle && s.dst == DIdle && s.reqD.Empty?
  }

  function XpgPre(s: State, a: Addr, into: bool): State {
    L1Drop(s, a).(
      dop := CoXpgWbinv, da := a,
      reqD := Full(if DDirty(s, a) then Req(OpWB, a, s.l1d.d) else Req(OpINVL, a, 0)),
      dst := DOp, dma := if into then DmInArmed else DmOutArmed, daddr := a)
  }

  predicate CanDevWrite(c: Config, s: State) { s.dma == DmInArmed && (c.snoop || s.dst == DIdle) }

  function DevWrite(s: State): State {
    var v := At(s.latest, s.daddr) + 1;
    s.(latest := s.latest[s.daddr := v], mem := s.mem[s.daddr := v],
       unclean := s.unclean - {s.daddr}, incoh := s.incoh + {s.daddr}, dma := DmInDone)
  }

  predicate CanXpgDrop(c: Config, s: State) {
    !c.snoop && s.dma == DmInDone && s.dst == DIdle && s.reqD.Empty?
  }

  function XpgDrop(s: State): State {
    L1Drop(s, s.daddr).(
      dop := CoXpgInv, da := s.daddr, reqD := Full(Req(OpPGDROP, s.daddr, 0)), dst := DOp, dma := DmInDrop)
  }

  predicate CanDevRead(c: Config, s: State) { s.dma == DmOutArmed && (c.snoop || s.dst == DIdle) }

  function DevRead(s: State): State { s.(dma := DmIdle) }

  predicate CanSnpPre(c: Config, s: State) {
    c.dma && c.snoop && s.dma == DmIdle && s.snp.Empty? && s.dst == DIdle
  }

  function SnpPre(s: State, a: Addr, into: bool): State {
    s.(daddr := a, snp := Full(Snp(OpSnpWbinv, a)), dma := if into then DmInPre else DmOutPre)
  }

  predicate CanSnpPost(c: Config, s: State) { c.snoop && s.dma == DmInDone && s.snp.Empty? }

  function SnpPost(s: State): State {
    s.(snp := Full(Snp(OpSnpDrop, s.daddr)), dma := DmInDrop)
  }

  // ------------------------------------------------------------------ the whole system

  datatype Step =
    | StL2Accept(x: Src) | StL2Purge | StL2Check | StL2Reload | StL2Uncached | StAcceptSnoop | StProbeAcks
    | StFlushStart | StFlushSet
    | StLoadHit(a: Addr) | StStoreHit(a: Addr) | StDMiss(k: DKind, a: Addr) | StCacheOp(o: COp, a: Addr)
    | StULoad(a: Addr) | StUStore(a: Addr) | StDResponse | StDReload | StDUncIssue | StL1Walk
    | StFetchHit(a: Addr) | StIMiss(a: Addr) | StIFill | StISync | StDProbe | StIProbe
    | StXpgPre(a: Addr, into: bool) | StDevWrite | StXpgDrop | StDevRead
    | StSnpPre(a: Addr, into: bool) | StSnpPost

  predicate Enabled(c: Config, m: Delivery, s: State, e: Step) {
    match e
    case StL2Accept(x) => CanL2Accept(m, s, x)
    case StL2Purge => CanL2Purge(s)
    case StL2Check => CanL2Check(m, s)
    case StL2Reload => CanL2Reload(s)
    case StL2Uncached => CanL2Uncached(m, s)
    case StAcceptSnoop => CanAcceptSnoop(m, s)
    case StProbeAcks => CanProbeAcks(s)
    case StFlushStart => CanFlushStart(m, s)
    case StFlushSet => CanFlushSet(s)
    case StLoadHit(a) => s.dst == DIdle && DHit(s, a) && !InWindow(s, a)
    case StStoreHit(a) => CanStoreHit(s, a)
    case StDMiss(k, a) => CanDMiss(c, s, k, a)
    case StCacheOp(o, a) => CanCacheOp(s, o, a)
    case StULoad(a) => CanULoad(s, a)
    case StUStore(a) => CanUStore(s, a)
    case StDResponse => CanDResponse(s)
    case StDReload => CanDReload(s)
    case StDUncIssue => CanDUncIssue(s)
    case StL1Walk => CanL1Walk(s)
    case StFetchHit(a) => IHit(s, a) && a !in s.incoh && !InWindow(s, a)
    case StIMiss(a) => CanIMiss(c, s, a)
    case StIFill => CanIFill(s)
    case StISync => CanISync(c, s)
    case StDProbe => CanDProbe(s)
    case StIProbe => CanIProbe(s)
    case StXpgPre(a, _) => CanXpgPre(c, s, a)
    case StDevWrite => CanDevWrite(c, s)
    case StXpgDrop => CanXpgDrop(c, s)
    case StDevRead => CanDevRead(c, s)
    case StSnpPre(_, _) => CanSnpPre(c, s)
    case StSnpPost => CanSnpPost(c, s)
  }

  function Next(c: Config, m: Delivery, s: State, e: Step): State
    requires Enabled(c, m, s, e)
  {
    match e
    case StL2Accept(x) => L2Accept(m, s, x)
    case StL2Purge => L2Purge(c, s)
    case StL2Check => L2DoCheck(c, m, s)
    case StL2Reload => L2DoReload(c, s)
    case StL2Uncached => L2Uncached(m, s)
    case StAcceptSnoop => AcceptSnoop(s)
    case StProbeAcks => ProbeAcks(c, s)
    case StFlushStart => FlushStart(s)
    case StFlushSet => FlushSet(c, s)
    case StLoadHit(_) => s
    case StStoreHit(a) => StoreHit(s, a)
    case StDMiss(k, a) => DMiss(s, k, a)
    case StCacheOp(o, a) => CacheOp(s, o, a)
    case StULoad(a) => ULoad(s, a)
    case StUStore(a) => UStore(s, a)
    case StDResponse => DResponse(s)
    case StDReload => DoDReload(s)
    case StDUncIssue => DoDUncIssue(s)
    case StL1Walk => L1Walk(s)
    case StFetchHit(_) => s
    case StIMiss(a) => IMiss(s, a)
    case StIFill => IFill(s)
    case StISync => ISync(s)
    case StDProbe => DProbe(s)
    case StIProbe => IProbe(s)
    case StXpgPre(a, into) => XpgPre(s, a, into)
    case StDevWrite => DevWrite(s)
    case StXpgDrop => XpgDrop(s)
    case StDevRead => DevRead(s)
    case StSnpPre(a, into) => SnpPre(s, a, into)
    case StSnpPost => SnpPost(s)
  }

  function Start(): State {
    State(map[], {}, {}, map[],
          Empty, Empty, Empty, Empty, Empty, Empty, Empty, Empty, false, false, Empty,
          map[], L2Idle, Work(SD, Req(OpLW, 0, 0)), false, 0, L2Idle, 0,
          L1Line(LI, 0, 0), DIdle, KLoad, 0, CoNone, 0,
          L1Line(LI, 0, 0), false, 0,
          DmIdle, 0)
  }

  /** s' is what the steps in es lead to from s, each of them enabled when it is taken. */
  ghost predicate Run(c: Config, m: Delivery, s: State, es: seq<Step>, s': State)
    decreases |es|
  {
    if es == [] then s == s'
    else Enabled(c, m, s, es[0]) && Run(c, m, Next(c, m, s, es[0]), es[1..], s')
  }

  ghost predicate Reachable(c: Config, m: Delivery, s: State) {
    exists es :: Run(c, m, Start(), es, s)
  }
}

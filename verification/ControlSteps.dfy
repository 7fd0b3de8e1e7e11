/** Every rule keeps the control part of the invariant, with responses queued in slots. */
module ControlSteps {
  import opened Protocol
  import opened Invariant

  lemma ControlSendProbes(c: Config, s: State, a: Addr)
    requires Control(c, s) && ToProbe(c, s, a)
    ensures Control(c, SendProbes(c, s, a, s.l2st))
  {
    var t := SendProbes(c, s, a, s.l2st);
    assert Working(t) == Working(s) && Walking(t) == Walking(s);
    assert Serving(t) == Serving(s) && Snooping(t) == Snooping(s);
  }

  lemma ControlAcceptEarly(c: Config, s: State)
    requires Control(c, s) && CanL2Accept(Queued, s, SD) && s.reqD.v.op == OpSW
    ensures Control(c, L2Accept(Queued, s, SD))
  {}

  lemma ControlAcceptD(c: Config, s: State)
    requires Control(c, s) && CanL2Accept(Queued, s, SD) && s.reqD.v.op != OpSW
    ensures Control(c, L2Accept(Queued, s, SD))
  {}

  lemma ControlAcceptI(c: Config, s: State)
    requires Control(c, s) && CanL2Accept(Queued, s, SI)
    ensures Control(c, L2Accept(Queued, s, SI))
  {}

  lemma ControlPurge(c: Config, s: State)
    requires Control(c, s) && CanL2Purge(s) && !(L2Hit(c, s, s.w.r.a) && !s.probed)
    ensures Control(c, L2Purge(c, s))
  {
    var t := L2Purge(c, s);
    assert t.l2st == L2Unc && t.w == s.w && t.dma == s.dma && t.dst == s.dst;
  }

  lemma ControlServeINVL(c: Config, s: State)
    requires Control(c, s) && Serves(c, s) && s.w.r.op == OpINVL
    ensures Control(c, L2Serve(c, Queued, s))
  {}

  lemma ControlServePGDROP(c: Config, s: State)
    requires Control(c, s) && Serves(c, s) && s.w.r.op == OpPGDROP
    ensures Control(c, L2Serve(c, Queued, s))
  {}

  lemma ControlServeSnpDrop(c: Config, s: State)
    requires Control(c, s) && Serves(c, s) && s.w.r.op == OpSnpDrop
    ensures Control(c, L2Serve(c, Queued, s))
  {}

  lemma ControlServeWB(c: Config, s: State)
    requires Control(c, s) && Serves(c, s) && s.w.r.op == OpWB
    ensures Control(c, L2Serve(c, Queued, s))
  {}

  lemma ControlServeAbsorb(c: Config, s: State)
    requires Control(c, s) && Serves(c, s) && s.w.r.op == OpSnpWbinv && Latched(s, s.w.r.a)
    ensures Control(c, L2Serve(c, Queued, s))
  {}

  lemma ControlServeWbinv(c: Config, s: State)
    requires Control(c, s) && Serves(c, s) && s.w.r.op == OpSnpWbinv && !Latched(s, s.w.r.a)
    ensures Control(c, L2Serve(c, Queued, s))
  {}

  lemma ControlServeFillSD(c: Config, s: State)
    requires Control(c, s) && Serves(c, s) && s.w.r.op == OpLW && L2Hit(c, s, s.w.r.a) && s.w.src == SD
    ensures Control(c, L2Serve(c, Queued, s))
  {}

  lemma ControlServeFillSI(c: Config, s: State)
    requires Control(c, s) && Serves(c, s) && s.w.r.op == OpLW && L2Hit(c, s, s.w.r.a) && s.w.src == SI
    ensures Control(c, L2Serve(c, Queued, s))
  {}

  lemma ControlServeWrite(c: Config, s: State)
    requires Control(c, s) && Serves(c, s) && s.w.r.op == OpSW && L2Hit(c, s, s.w.r.a)
    ensures Control(c, L2Serve(c, Queued, s))
  {}

  lemma ControlServeMiss(c: Config, s: State)
    requires Control(c, s) && Serves(c, s) && s.w.r.op in {OpLW, OpSW} && !L2Hit(c, s, s.w.r.a)
    ensures Control(c, L2Serve(c, Queued, s))
  {}

  lemma ControlL2Reload(c: Config, s: State)
    requires Control(c, s) && CanL2Reload(s)
    ensures Control(c, L2DoReload(c, s))
  {}

  lemma ControlUncachedLoad(c: Config, s: State)
    requires Control(c, s) && CanL2Uncached(Queued, s) && s.w.r.op == OpULW
    ensures Control(c, L2Uncached(Queued, s))
  {}

  lemma ControlUncachedStore(c: Config, s: State)
    requires Control(c, s) && CanL2Uncached(Queued, s) && s.w.r.op == OpUSW
    ensures Control(c, L2Uncached(Queued, s))
  {}

  lemma ControlAcceptSnoop(c: Config, s: State)
    requires Control(c, s) && CanAcceptSnoop(Queued, s)
    ensures Control(c, AcceptSnoop(s))
  {}

  lemma ControlProbeAcks(c: Config, s: State)
    requires Control(c, s) && CanProbeAcks(s)
    ensures Control(c, ProbeAcks(c, s))
  {}

  lemma ControlFlushStart(c: Config, s: State)
    requires c.Valid() && Control(c, s) && CanFlushStart(Queued, s)
    ensures Control(c, FlushStart(s))
  {
    assert c.setOf(0) < c.sets;
  }

  lemma ControlFlushSet(c: Config, s: State)
    requires Control(c, s) && CanFlushSet(s) && (LineAt(s.l2, s.fset).valid ==> s.probed)
    ensures Control(c, FlushSet(c, s))
  {}

  lemma ControlStoreHit(c: Config, s: State, a: Addr)
    requires Control(c, s) && CanStoreHit(s, a)
    ensures Control(c, StoreHit(s, a))
  {}

  lemma ControlDMiss(c: Config, s: State, k: DKind, a: Addr)
    requires Control(c, s) && CanDMiss(c, s, k, a)
    ensures Control(c, DMiss(s, k, a))
  {}

  lemma ControlCacheOp(c: Config, s: State, o: COp, a: Addr)
    requires Control(c, s) && CanCacheOp(s, o, a)
    ensures Control(c, CacheOp(s, o, a))
  {}

  lemma ControlULoad(c: Config, s: State, a: Addr)
    requires Control(c, s) && CanULoad(s, a)
    ensures Control(c, ULoad(s, a))
  {}

  lemma ControlUStore(c: Config, s: State, a: Addr)
    requires Control(c, s) && CanUStore(s, a)
    ensures Control(c, UStore(s, a))
  {}

  lemma ControlFillResponse(c: Config, s: State)
    requires Control(c, s) && CanDResponse(s) && s.dst == DFill
    ensures Control(c, DResponse(s))
  {}

  lemma ControlOtherResponse(c: Config, s: State)
    requires Control(c, s) && CanDResponse(s) && s.dst != DFill
    ensures Control(c, DResponse(s))
  {}

  lemma ControlDReload(c: Config, s: State)
    requires Control(c, s) && CanDReload(s)
    ensures Control(c, DoDReload(s))
  {}

  lemma ControlDUncIssue(c: Config, s: State)
    requires Control(c, s) && CanDUncIssue(s)
    ensures Control(c, DoDUncIssue(s))
  {}

  lemma ControlL1Walk(c: Config, s: State)
    requires Control(c, s) && CanL1Walk(s)
    ensures Control(c, L1Walk(s))
  {}

  lemma ControlIMiss(c: Config, s: State, a: Addr)
    requires Control(c, s) && CanIMiss(c, s, a)
    ensures Control(c, IMiss(s, a))
  {}

  lemma ControlIFill(c: Config, s: State)
    requires Control(c, s) && CanIFill(s)
    ensures Control(c, IFill(s))
  {}

  lemma ControlISync(c: Config, s: State)
    requires Control(c, s) && CanISync(c, s)
    ensures Control(c, ISync(s))
  {}

  lemma ControlDProbe(c: Config, s: State)
    requires Control(c, s) && CanDProbe(s)
    ensures Control(c, DProbe(s))
  {}

  lemma ControlIProbe(c: Config, s: State)
    requires Control(c, s) && CanIProbe(s)
    ensures Control(c, IProbe(s))
  {}

  lemma ControlXpgPre(c: Config, s: State, a: Addr, into: bool)
    requires Control(c, s) && CanXpgPre(c, s, a)
    ensures Control(c, XpgPre(s, a, into))
  {}

  lemma ControlDevWrite(c: Config, s: State)
    requires Control(c, s) && CanDevWrite(c, s)
    ensures Control(c, DevWrite(s))
  {}

  lemma ControlXpgDrop(c: Config, s: State)
    requires Control(c, s) && CanXpgDrop(c, s)
    ensures Control(c, XpgDrop(s))
  {}

  lemma ControlDevRead(c: Config, s: State)
    requires Control(c, s) && CanDevRead(c, s)
    ensures Control(c, DevRead(s))
  {}

  lemma ControlSnpPre(c: Config, s: State, a: Addr, into: bool)
    requires Control(c, s) && CanSnpPre(c, s)
    ensures Control(c, SnpPre(s, a, into))
  {}

  lemma ControlSnpPost(c: Config, s: State)
    requires Control(c, s) && CanSnpPost(c, s)
    ensures Control(c, SnpPost(s))
  {}
}

/** The L2's rules, with responses queued, look at nothing that an L1 changes when it takes a response:
    whatever that is, they do the same. */
module L2Frame {
  import opened Protocol
  import opened DeliveryOrder

  /** What taking a response reads and may change. */
  datatype Side = Side(latest: map<Addr, Ver>, unclean: set<Addr>, incoh: set<Addr>, l1d: L1Line, l1i: L1Line,
                       ifill: bool, ia: Addr, rspD: Slot<Ver>, rspI: Slot<Ver>,
                       dst: DSt, dkind: DKind, da: Addr, dop: COp, dma: DmaSt)

  function SideOf(s: State): Side {
    Side(s.latest, s.unclean, s.incoh, s.l1d, s.l1i, s.ifill, s.ia, s.rspD, s.rspI, s.dst, s.dkind, s.da, s.dop, s.dma)
  }

  function With(s: State, p: Side): State {
    s.(latest := p.latest, unclean := p.unclean, incoh := p.incoh, l1d := p.l1d, l1i := p.l1i, ifill := p.ifill,
       ia := p.ia, rspD := p.rspD, rspI := p.rspI, dst := p.dst, dkind := p.dkind, da := p.da, dop := p.dop,
       dma := p.dma)
  }

  function Reply(p: Side, x: Src, d: Ver): Side {
    p.(rspD := if x == SD then Full(d) else p.rspD, rspI := if x == SI then Full(d) else p.rspI)
  }

  lemma RespondWith(s: State, x: Src, d: Ver, p: Side)
    ensures Respond(Queued, With(s, p), x, d) == With(Respond(Queued, s, x, d), Reply(p, x, d))
  {}

  lemma DropsWith(c: Config, s: State, a: Addr, p: Side)
    ensures WriteBackDrop(c, With(s, p), a) == With(WriteBackDrop(c, s, a), p)
    ensures DropOnly(c, With(s, p), a) == With(DropOnly(c, s, a), p)
  {}

  /** What the tag check does to that side: it answers, or moves the DMA agent on. */
  function Answer(c: Config, s: State, p: Side): Side {
    match s.w.r.op
    case OpINVL => Reply(p, s.w.src, 0)
    case OpPGDROP => Reply(p, s.w.src, 0)
    case OpWB => Reply(p, s.w.src, 0)
    case OpLW => if L2Hit(c, s, s.w.r.a) then Reply(p, s.w.src, LineOf(c, s, s.w.r.a).d) else p
    case OpSnpDrop => p.(dma := if p.dma == DmInDrop then DmIdle else p.dma)
    case OpSnpWbinv =>
      (if Latched(s, s.w.r.a) then Reply(p, SD, 0) else p).(
        dma := if p.dma == DmInPre then DmInArmed else if p.dma == DmOutPre then DmOutArmed else p.dma)
    case _ => p
  }

  ghost predicate ServesWith(c: Config, s: State, p: Side) {
    L2Serve(c, Queued, With(s, p)) == With(L2Serve(c, Queued, s), Answer(c, s, p))
  }

  lemma ServeInvlWith(c: Config, s: State, p: Side)
    requires s.w.r.op in {OpINVL, OpPGDROP}
    ensures ServesWith(c, s, p)
  {
    var a := s.w.r.a;
    DropsWith(c, s, a, p);
    RespondWith(WriteBackDrop(c, s, a), s.w.src, 0, p);
    RespondWith(DropOnly(c, s, a), s.w.src, 0, p);
  }

  lemma ServeSnpDropWith(c: Config, s: State, p: Side)
    requires s.w.r.op == OpSnpDrop
    ensures ServesWith(c, s, p)
  {
    DropsWith(c, s, s.w.r.a, p);
  }

  lemma ServeWBWith(c: Config, s: State, p: Side)
    requires s.w.r.op == OpWB
    ensures ServesWith(c, s, p)
  {
    ServeWBIs(c, Queued, s);
    ServeWBIs(c, Queued, With(s, p));
    assert WrittenBack(c, With(s, p)) == With(WrittenBack(c, s), p);
    RespondWith(WrittenBack(c, s), s.w.src, 0, p);
  }

  lemma ServeFillWith(c: Config, s: State, p: Side)
    requires s.w.r.op == OpLW && L2Hit(c, s, s.w.r.a)
    ensures ServesWith(c, s, p)
  {
    ServeFillIs(c, Queued, s);
    ServeFillIs(c, Queued, With(s, p));
    var t := SetLine(c, s, s.w.r.a, Granted(c, s));
    assert SetLine(c, With(s, p), s.w.r.a, Granted(c, With(s, p))) == With(t, p);
    RespondWith(t, s.w.src, LineOf(c, s, s.w.r.a).d, p);
  }

  lemma ServeMissWith(c: Config, s: State, p: Side)
    requires s.w.r.op in {OpLW, OpSW} && !L2Hit(c, s, s.w.r.a)
    ensures ServesWith(c, s, p)
  {
    assert EvictDirty(c, With(s, p)) == With(EvictDirty(c, s), p);
  }

  lemma ServeWriteWith(c: Config, s: State, p: Side)
    requires s.w.r.op == OpSW && L2Hit(c, s, s.w.r.a)
    ensures ServesWith(c, s, p)
  {
    var ln := LineOf(c, s, s.w.r.a);
    var held := ln.(d := s.w.r.d, dirty := true, pd := ln.pd && s.w.src != SD);
    assert SetLine(c, With(s, p), s.w.r.a, held) == With(SetLine(c, s, s.w.r.a, held), p);
  }

  /** The state in which a latched writeback is taken over, before it is answered. */
  function Absorbed(c: Config, s: State, a: Addr): State
    requires Latched(s, a)
  {
    var ln := LineOf(c, s, a).(d := s.reqD.v.d, dirty := true);
    s.(l2 := if L2Hit(c, s, a) then s.l2[c.setOf(a) := ln] else s.l2,
       mem := if L2Hit(c, s, a) then s.mem else s.mem[a := s.reqD.v.d],
       reqD := Empty)
  }

  lemma AbsorbIs(c: Config, s: State, a: Addr)
    requires Latched(s, a)
    ensures Absorb(c, Queued, s, a) == Respond(Queued, Absorbed(c, s, a), SD, 0)
  {}

  lemma AbsorbedWith(c: Config, s: State, a: Addr, p: Side)
    requires Latched(s, a)
    ensures Absorbed(c, With(s, p), a) == With(Absorbed(c, s, a), p)
  {}

  lemma AbsorbWith(c: Config, s: State, a: Addr, p: Side)
    requires Latched(s, a)
    ensures Absorb(c, Queued, With(s, p), a) == With(Absorb(c, Queued, s, a), Reply(p, SD, 0))
  {
    AbsorbIs(c, s, a);
    AbsorbIs(c, With(s, p), a);
    AbsorbedWith(c, s, a, p);
    RespondWith(Absorbed(c, s, a), SD, 0, p);
  }

  lemma FinishWith(c: Config, s: State, p: Side)
    ensures FinishWbinv(c, With(s, p))
         == With(FinishWbinv(c, s),
                 p.(dma := if p.dma == DmInPre then DmInArmed else if p.dma == DmOutPre then DmOutArmed else p.dma))
  {
    DropsWith(c, s, s.w.r.a, p);
  }

  lemma ServeWbinvWith(c: Config, s: State, p: Side)
    requires s.w.r.op == OpSnpWbinv
    ensures ServesWith(c, s, p)
  {
    if Latched(s, s.w.r.a) {
      AbsorbWith(c, s, s.w.r.a, p);
      FinishWith(c, Absorb(c, Queued, s, s.w.r.a), Reply(p, SD, 0));
    } else {
      FinishWith(c, s, p);
    }
  }

  lemma ServeWith(c: Config, s: State, p: Side)
    requires s.w.r.op !in {OpULW, OpUSW}
    ensures ServesWith(c, s, p)
  {
    match s.w.r.op
    case OpLW => if L2Hit(c, s, s.w.r.a) { ServeFillWith(c, s, p); } else { ServeMissWith(c, s, p); }
    case OpSW => if L2Hit(c, s, s.w.r.a) { ServeWriteWith(c, s, p); } else { ServeMissWith(c, s, p); }
    case OpSnpWbinv => ServeWbinvWith(c, s, p);
    case OpSnpDrop => ServeSnpDropWith(c, s, p);
    case OpWB => ServeWBWith(c, s, p);
    case _ => ServeInvlWith(c, s, p);
  }

  lemma SendProbesWith(c: Config, s: State, a: Addr, ret: L2St, p: Side)
    ensures SendProbes(c, With(s, p), a, ret) == With(SendProbes(c, s, a, ret), p)
  {}

  /** The side after each of the L2's steps. */
  function After(c: Config, s: State, e: Step, p: Side): Side {
    match e
    case StL2Accept(x) =>
      if (if x == SD then s.reqD.Full? && s.reqD.v.op == OpSW else s.reqI.Full? && s.reqI.v.op == OpSW)
      then Reply(p, x, 0) else p
    case StL2Check => if ProbeDrop(c, s) || ProbeVictim(c, s) then p else Answer(c, s, p)
    case StL2Uncached => Reply(p, s.w.src, if s.w.r.op == OpUSW then 0 else At(s.mem, s.w.r.a))
    case StFlushSet =>
      if (LineAt(s.l2, s.fset).valid && !s.probed) || s.fset + 1 != c.sets then p else p.(dst := DIdle)
    case _ => p
  }

  predicate L2Step(e: Step) {
    || e.StL2Accept? || e.StL2Purge? || e.StL2Check? || e.StL2Reload? || e.StL2Uncached? || e.StAcceptSnoop?
    || e.StProbeAcks? || e.StFlushStart? || e.StFlushSet?
  }

  lemma CheckWith(c: Config, s: State, p: Side)
    requires s.w.r.op !in {OpULW, OpUSW}
    ensures L2DoCheck(c, Queued, With(s, p)) == With(L2DoCheck(c, Queued, s), After(c, s, StL2Check, p))
  {
    if ProbeDrop(c, s) {
      SendProbesWith(c, s, s.w.r.a, L2Check, p);
    } else if ProbeVictim(c, s) {
      SendProbesWith(c, s, LineOf(c, s, s.w.r.a).tag, L2Check, p);
    } else {
      ServeWith(c, s, p);
    }
  }

  lemma PurgeWith(c: Config, s: State, p: Side)
    ensures L2Purge(c, With(s, p)) == With(L2Purge(c, s), p)
  {
    SendProbesWith(c, s, s.w.r.a, L2Upurge, p);
    DropsWith(c, s, s.w.r.a, p);
  }

  lemma FlushSetWith(c: Config, s: State, p: Side)
    ensures FlushSet(c, With(s, p)) == With(FlushSet(c, s), After(c, s, StFlushSet, p))
  {
    if LineAt(s.l2, s.fset).valid && !s.probed { SendProbesWith(c, s, LineAt(s.l2, s.fset).tag, L2Flush, p); }
  }

  lemma AcksWith(c: Config, s: State, p: Side)
    ensures ProbeAcks(c, With(s, p)) == With(ProbeAcks(c, s), p)
    ensures L2DoReload(c, With(s, p)) == With(L2DoReload(c, s), p)
  {}

  lemma UncachedWith(c: Config, s: State, p: Side)
    ensures L2Uncached(Queued, With(s, p)) == With(L2Uncached(Queued, s), After(c, s, StL2Uncached, p))
  {
    if s.w.r.op == OpUSW {
      RespondWith(SetMem(s, s.w.r.a, s.w.r.d), s.w.src, 0, p);
    } else {
      RespondWith(s, s.w.src, At(s.mem, s.w.r.a), p);
    }
  }

  lemma AcceptEarlyWith(c: Config, s: State, x: Src, p: Side)
    requires CanL2Accept(Queued, s, x) && RspFree(Queued, With(s, p), x)
    requires (if x == SD then s.reqD.v else s.reqI.v).op == OpSW
    ensures L2Accept(Queued, With(s, p), x) == With(L2Accept(Queued, s, x), Reply(p, x, 0))
  {
    var r := if x == SD then s.reqD.v else s.reqI.v;
    var t := s.(reqD := if x == SD then Empty else s.reqD, reqI := if x == SI then Empty else s.reqI,
                w := Work(x, r), probed := false);
    assert L2Accept(Queued, s, x) == Respond(Queued, t, x, 0).(l2st := L2Check);
    assert L2Accept(Queued, With(s, p), x) == Respond(Queued, With(t, p), x, 0).(l2st := L2Check);
    RespondWith(t, x, 0, p);
  }

  lemma AcceptPlainWith(c: Config, s: State, x: Src, p: Side)
    requires CanL2Accept(Queued, s, x) && RspFree(Queued, With(s, p), x)
    requires (if x == SD then s.reqD.v else s.reqI.v).op != OpSW
    ensures L2Accept(Queued, With(s, p), x) == With(L2Accept(Queued, s, x), p)
  {}

  lemma AcceptWith(c: Config, s: State, x: Src, p: Side)
    requires CanL2Accept(Queued, s, x) && RspFree(Queued, With(s, p), x)
    ensures L2Accept(Queued, With(s, p), x) == With(L2Accept(Queued, s, x), After(c, s, StL2Accept(x), p))
  {
    if (if x == SD then s.reqD.v else s.reqI.v).op == OpSW {
      AcceptEarlyWith(c, s, x, p);
    } else {
      AcceptPlainWith(c, s, x, p);
    }
  }

  /** An L2 step whatever the L1s have taken. */
  lemma L2StepWith(c: Config, s: State, e: Step, p: Side)
    requires L2Step(e) && Enabled(c, Queued, s, e) && Enabled(c, Queued, With(s, p), e)
    requires e.StL2Check? ==> s.w.r.op !in {OpULW, OpUSW}
    ensures Next(c, Queued, With(s, p), e) == With(Next(c, Queued, s, e), After(c, s, e, p))
  {
    match e
    case StL2Accept(x) => AcceptWith(c, s, x, p);
    case StL2Purge => PurgeWith(c, s, p);
    case StL2Check => CheckWith(c, s, p);
    case StL2Reload => AcksWith(c, s, p);
    case StL2Uncached => UncachedWith(c, s, p);
    case StAcceptSnoop =>
    case StProbeAcks => AcksWith(c, s, p);
    case StFlushStart =>
    case StFlushSet => FlushSetWith(c, s, p);
  }
}

/** Presence bits only save probes.  The protocol that probes just the L1s whose bit is set is
    simulated by the one that always probes both: what it leaves out is a probe of an L1 that does not
    have the line, answered on the spot.  An L1 answers on the spot unless a response waits in its
    slot; `QueuedReduces` and `PresenceLimits` say what becomes of the simulation then.  */
module Presence {
  import opened Protocol
  import opened Invariant
  import opened DeliveryOrder
  import opened Safety

  function NoBits(c: Config): Config { c.(pres := false) }

  function EraseLine(ln: Line): Line { ln.(pd := false, pi := false) }

  function Erase(m: map<nat, Line>): map<nat, Line> {
    map i | i in m :: EraseLine(m[i])
  }

  const NotHere := Full(Ack(false, 0))

  // ------------------------------------------------------------------ what the other system is in

  /** The part of a state that presence bits and the answers to probes make. */
  datatype Part = Part(l2: map<nat, Line>, pexpD: bool, packD: Slot<Ack>, pexpI: bool, packI: Slot<Ack>)

  function PartOf(s: State): Part { Part(s.l2, s.pexpD, s.packD, s.pexpI, s.packI) }

  function Graft(s: State, p: Part): State {
    s.(l2 := p.l2, pexpD := p.pexpD, packD := p.packD, pexpI := p.pexpI, packI := p.packI)
  }

  function LiftPart(c: Config, p: Part, probing: bool): Part {
    Part(Erase(p.l2),
         probing || p.pexpD, if probing && !p.pexpD then NotHere else p.packD,
         (probing && c.l1i) || p.pexpI, if probing && c.l1i && !p.pexpI then NotHere else p.packI)
  }

  /** The state of the protocol without presence bits that s stands for: an L1 that was not asked
      has been asked and has answered that it does not have the line. */
  function Lift(c: Config, s: State): State {
    Graft(s, LiftPart(c, PartOf(s), s.l2st == L2Probe))
  }

  lemma EraseAt(m: map<nat, Line>, i: nat)
    ensures LineAt(Erase(m), i) == EraseLine(LineAt(m, i))
  {}

  lemma EraseUpdate(m: map<nat, Line>, i: nat, ln: Line)
    ensures Erase(m[i := ln]) == Erase(m)[i := EraseLine(ln)]
  {}

  // ------------------------------------------------------------------ steps that do not touch lines or answers

  /** The steps that neither look at that part nor change it. */
  predicate Blind(e: Step) {
    || e.StLoadHit? || e.StStoreHit? || e.StDMiss? || e.StCacheOp? || e.StULoad? || e.StUStore?
    || e.StDReload? || e.StDUncIssue? || e.StL1Walk? || e.StFetchHit? || e.StIMiss? || e.StISync?
    || e.StXpgPre? || e.StDevWrite? || e.StXpgDrop? || e.StDevRead? || e.StSnpPre? || e.StSnpPost?
    || e.StL2Accept? || e.StL2Uncached? || e.StAcceptSnoop? || e.StFlushStart? || e.StDResponse? || e.StIFill?
  }

  lemma StoreBlind(s: State, a: Addr, p: Part)
    ensures StoreHit(Graft(s, p), a) == Graft(StoreHit(s, a), p)
  {}

  lemma MissBlind(s: State, k: DKind, a: Addr, p: Part)
    ensures DMiss(Graft(s, p), k, a) == Graft(DMiss(s, k, a), p)
  {}

  lemma CacheOpBlind(s: State, o: COp, a: Addr, p: Part)
    ensures CacheOp(Graft(s, p), o, a) == Graft(CacheOp(s, o, a), p)
  {}

  lemma UncachedBlind(s: State, a: Addr, p: Part)
    ensures ULoad(Graft(s, p), a) == Graft(ULoad(s, a), p)
    ensures UStore(Graft(s, p), a) == Graft(UStore(s, a), p)
  {}

  lemma IssueBlind(s: State, p: Part)
    ensures DoDReload(Graft(s, p)) == Graft(DoDReload(s), p)
    ensures DoDUncIssue(Graft(s, p)) == Graft(DoDUncIssue(s), p)
    ensures L1Walk(Graft(s, p)) == Graft(L1Walk(s), p)
  {}

  lemma FetchBlind(s: State, a: Addr, p: Part)
    ensures IMiss(Graft(s, p), a) == Graft(IMiss(s, a), p)
    ensures ISync(Graft(s, p)) == Graft(ISync(s), p)
  {}

  lemma PageFlushBlind(s: State, a: Addr, into: bool, p: Part)
    ensures XpgPre(Graft(s, p), a, into) == Graft(XpgPre(s, a, into), p)
    ensures XpgDrop(Graft(s, p)) == Graft(XpgDrop(s), p)
  {}

  lemma DeviceBlind(s: State, a: Addr, into: bool, p: Part)
    ensures DevWrite(Graft(s, p)) == Graft(DevWrite(s), p)
    ensures DevRead(Graft(s, p)) == Graft(DevRead(s), p)
    ensures SnpPre(Graft(s, p), a, into) == Graft(SnpPre(s, a, into), p)
    ensures SnpPost(Graft(s, p)) == Graft(SnpPost(s), p)
  {}

  lemma BlindGuard(c: Config, m: Delivery, s: State, e: Step, p: Part)
    requires Enabled(c, m, s, e) && Blind(e)
    ensures Enabled(NoBits(c), m, Graft(s, p), e)
  {}

  lemma ResponseBlind(s: State, d: Ver, p: Part)
    ensures DRsp(Graft(s, p), d) == Graft(DRsp(s, d), p)
    ensures IRsp(Graft(s, p), d) == Graft(IRsp(s, d), p)
  {}

  lemma TakeDBlind(s: State, p: Part)
    requires CanDResponse(s)
    ensures DResponse(Graft(s, p)) == Graft(DResponse(s), p)
  {
    ResponseBlind(s.(rspD := Empty), s.rspD.v, p);
  }

  lemma TakeIBlind(s: State, p: Part)
    requires CanIFill(s)
    ensures IFill(Graft(s, p)) == Graft(IFill(s), p)
  {
    ResponseBlind(s.(rspI := Empty), s.rspI.v, p);
  }

  ghost predicate PartKept(s: State, t: State) {
    PartOf(t) == PartOf(s) && (t.l2st == L2Probe) == (s.l2st == L2Probe)
  }

  lemma RespondBlind(m: Delivery, s: State, x: Src, d: Ver, p: Part)
    ensures PartKept(s, Respond(m, s, x, d))
    ensures Respond(m, Graft(s, p), x, d) == Graft(Respond(m, s, x, d), p)
  {
    ResponseBlind(s, d, p);
  }

  lemma AcceptPlainBlind(m: Delivery, s: State, x: Src, p: Part)
    requires CanL2Accept(m, s, x) && (if x == SD then s.reqD.v else s.reqI.v).op != OpSW
    ensures L2Accept(m, Graft(s, p), x) == Graft(L2Accept(m, s, x), p)
    ensures PartKept(s, L2Accept(m, s, x))
  {}

  lemma AcceptEarlyBlind(m: Delivery, s: State, x: Src, p: Part)
    requires CanL2Accept(m, s, x) && (if x == SD then s.reqD.v else s.reqI.v).op == OpSW
    ensures L2Accept(m, Graft(s, p), x) == Graft(L2Accept(m, s, x), p)
    ensures PartKept(s, L2Accept(m, s, x))
  {
    var r := if x == SD then s.reqD.v else s.reqI.v;
    RespondBlind(m, s.(reqD := if x == SD then Empty else s.reqD, reqI := if x == SI then Empty else s.reqI,
                    w := Work(x, r), probed := false), x, 0, p);
  }

  lemma UncachedAccessBlind(m: Delivery, s: State, p: Part)
    requires s.l2st == L2Unc
    ensures PartKept(s, L2Uncached(m, s))
    ensures L2Uncached(m, Graft(s, p)) == Graft(L2Uncached(m, s), p)
  {
    if s.w.r.op == OpUSW {
      RespondBlind(m, SetMem(s, s.w.r.a, s.w.r.d), s.w.src, 0, p);
    } else {
      RespondBlind(m, s, s.w.src, At(s.mem, s.w.r.a), p);
    }
  }

  lemma HitStepBlind(c: Config, m: Delivery, s: State, e: Step, p: Part)
    requires Enabled(c, m, s, e) && Blind(e) && Enabled(NoBits(c), m, Graft(s, p), e)
    requires e.StLoadHit? || e.StStoreHit? || e.StDMiss? || e.StFetchHit?
    ensures Next(NoBits(c), m, Graft(s, p), e) == Graft(Next(c, m, s, e), p)
  {
    match e
    case StLoadHit(_) =>
    case StStoreHit(a) => StoreBlind(s, a, p);
    case StDMiss(k, a) => MissBlind(s, k, a, p);
    case StFetchHit(_) =>
  }

  lemma UncachedStepBlind(c: Config, m: Delivery, s: State, e: Step, p: Part)
    requires Enabled(c, m, s, e) && Blind(e) && Enabled(NoBits(c), m, Graft(s, p), e) && (e.StULoad? || e.StUStore?)
    ensures Next(NoBits(c), m, Graft(s, p), e) == Graft(Next(c, m, s, e), p)
  {
    UncachedBlind(s, e.a, p);
  }

  lemma CacheOpStepBlind(c: Config, m: Delivery, s: State, e: Step, p: Part)
    requires Enabled(c, m, s, e) && Blind(e) && Enabled(NoBits(c), m, Graft(s, p), e)
    requires e.StCacheOp? || e.StULoad? || e.StUStore?
    ensures Next(NoBits(c), m, Graft(s, p), e) == Graft(Next(c, m, s, e), p)
  {
    if e.StCacheOp? { CacheOpBlind(s, e.o, e.a, p); } else { UncachedStepBlind(c, m, s, e, p); }
  }

  lemma CacheStepBlind(c: Config, m: Delivery, s: State, e: Step, p: Part)
    requires Enabled(c, m, s, e) && Blind(e) && Enabled(NoBits(c), m, Graft(s, p), e)
    requires e.StDReload? || e.StDUncIssue? || e.StL1Walk?
    ensures Next(NoBits(c), m, Graft(s, p), e) == Graft(Next(c, m, s, e), p)
  {
    match e
    case StDReload => IssueBlind(s, p);
    case StDUncIssue => IssueBlind(s, p);
    case StL1Walk => IssueBlind(s, p);
  }

  lemma FetchStepBlind(c: Config, m: Delivery, s: State, e: Step, p: Part)
    requires Enabled(c, m, s, e) && Blind(e) && Enabled(NoBits(c), m, Graft(s, p), e)
    requires e.StIMiss? || e.StISync?
    ensures Next(NoBits(c), m, Graft(s, p), e) == Graft(Next(c, m, s, e), p)
  {
    match e
    case StIMiss(a) => FetchBlind(s, a, p);
    case StISync => FetchBlind(s, 0, p);
  }

  lemma PageFlushStepBlind(c: Config, m: Delivery, s: State, e: Step, p: Part)
    requires Enabled(c, m, s, e) && Blind(e) && Enabled(NoBits(c), m, Graft(s, p), e)
    requires e.StXpgPre? || e.StXpgDrop?
    ensures Next(NoBits(c), m, Graft(s, p), e) == Graft(Next(c, m, s, e), p)
  {
    match e
    case StXpgPre(a, into) => PageFlushBlind(s, a, into, p);
    case StXpgDrop => PageFlushBlind(s, 0, false, p);
  }

  lemma DeviceStepBlind(c: Config, m: Delivery, s: State, e: Step, p: Part)
    requires Enabled(c, m, s, e) && Blind(e) && Enabled(NoBits(c), m, Graft(s, p), e)
    requires e.StDevWrite? || e.StDevRead?
    ensures Next(NoBits(c), m, Graft(s, p), e) == Graft(Next(c, m, s, e), p)
  {
    match e
    case StDevWrite => DeviceBlind(s, 0, false, p);
    case StDevRead => DeviceBlind(s, 0, false, p);
  }

  lemma SnoopStepBlind(c: Config, m: Delivery, s: State, e: Step, p: Part)
    requires Enabled(c, m, s, e) && Blind(e) && Enabled(NoBits(c), m, Graft(s, p), e)
    requires e.StSnpPre? || e.StSnpPost?
    ensures Next(NoBits(c), m, Graft(s, p), e) == Graft(Next(c, m, s, e), p)
  {
    if e.StSnpPre? { SnoopPreBlind(c, m, s, e.a, e.into, p); } else { DeviceBlind(s, 0, false, p); }
  }

  lemma SnoopPreBlind(c: Config, m: Delivery, s: State, a: Addr, into: bool, p: Part)
    requires Enabled(c, m, s, StSnpPre(a, into)) && Enabled(NoBits(c), m, Graft(s, p), StSnpPre(a, into))
    ensures Next(NoBits(c), m, Graft(s, p), StSnpPre(a, into)) == Graft(Next(c, m, s, StSnpPre(a, into)), p)
  {
    DeviceBlind(s, a, into, p);
  }

  lemma TakenStepBlind(c: Config, m: Delivery, s: State, e: Step, p: Part)
    requires Enabled(c, m, s, e) && (e.StDResponse? || e.StIFill?) && Enabled(NoBits(c), m, Graft(s, p), e)
    ensures Next(NoBits(c), m, Graft(s, p), e) == Graft(Next(c, m, s, e), p)
    ensures PartKept(s, Next(c, m, s, e))
  {
    if e.StDResponse? { TakeDBlind(s, p); } else { TakeIBlind(s, p); }
  }

  lemma RequestStepBlind(c: Config, m: Delivery, s: State, e: Step, p: Part)
    requires Enabled(c, m, s, e) && Blind(e) && Enabled(NoBits(c), m, Graft(s, p), e)
    requires e.StL2Accept? || e.StL2Uncached? || e.StAcceptSnoop? || e.StFlushStart?
    ensures Next(NoBits(c), m, Graft(s, p), e) == Graft(Next(c, m, s, e), p)
    ensures PartKept(s, Next(c, m, s, e))
  {
    match e
    case StL2Accept(x) =>
      if (if x == SD then s.reqD.v else s.reqI.v).op == OpSW {
        AcceptEarlyBlind(m, s, x, p);
      } else {
        AcceptPlainBlind(m, s, x, p);
      }
    case StL2Uncached => UncachedAccessBlind(m, s, p);
    case StAcceptSnoop =>
    case StFlushStart =>
  }

  lemma BlindStep(c: Config, m: Delivery, s: State, e: Step, p: Part)
    requires Enabled(c, m, s, e) && Blind(e) && Enabled(NoBits(c), m, Graft(s, p), e)
    ensures Next(NoBits(c), m, Graft(s, p), e) == Graft(Next(c, m, s, e), p)
  {
    if e.StLoadHit? || e.StStoreHit? || e.StDMiss? || e.StFetchHit? { HitStepBlind(c, m, s, e, p); }
    else if e.StCacheOp? || e.StULoad? || e.StUStore? { CacheOpStepBlind(c, m, s, e, p); }
    else if e.StDReload? || e.StDUncIssue? || e.StL1Walk? { CacheStepBlind(c, m, s, e, p); }
    else if e.StIMiss? || e.StISync? { FetchStepBlind(c, m, s, e, p); }
    else if e.StXpgPre? || e.StXpgDrop? { PageFlushStepBlind(c, m, s, e, p); }
    else if e.StDevWrite? || e.StDevRead? { DeviceStepBlind(c, m, s, e, p); }
    else if e.StSnpPre? || e.StSnpPost? { SnoopStepBlind(c, m, s, e, p); }
    else if e.StDResponse? || e.StIFill? { TakenStepBlind(c, m, s, e, p); }
    else { RequestStepBlind(c, m, s, e, p); }
  }

  /** The steps of the core and the L1D. */
  predicate DataSideStep(e: Step) {
    || e.StLoadHit? || e.StStoreHit? || e.StDMiss? || e.StCacheOp? || e.StULoad? || e.StUStore?
    || e.StDReload? || e.StDUncIssue? || e.StL1Walk?
  }

  lemma CoreKeepsPart(c: Config, m: Delivery, s: State, e: Step)
    requires Enabled(c, m, s, e) && DataSideStep(e)
    ensures PartKept(s, Next(c, m, s, e))
  {}

  lemma BlindKeepsPart(c: Config, m: Delivery, s: State, e: Step)
    requires Enabled(c, m, s, e) && Blind(e)
    ensures PartKept(s, Next(c, m, s, e))
  {
    if e.StL2Accept? || e.StL2Uncached? || e.StAcceptSnoop? || e.StFlushStart? {
      BlindGuard(c, m, s, e, PartOf(s));
      RequestStepBlind(c, m, s, e, PartOf(s));
    } else if e.StDResponse? || e.StIFill? {
      BlindGuard(c, m, s, e, PartOf(s));
      TakenStepBlind(c, m, s, e, PartOf(s));
    } else if DataSideStep(e) {
      CoreKeepsPart(c, m, s, e);
    }
  }

  // ------------------------------------------------------------------ steps that do, outside a probe

  function Bare(s: State): State { s.(l2 := Erase(s.l2)) }

  lemma LiftIdle(c: Config, s: State)
    requires s.l2st != L2Probe
    ensures Lift(c, s) == Bare(s)
  {}

  lemma RespondBare(m: Delivery, s: State, x: Src, d: Ver)
    ensures Respond(m, Bare(s), x, d) == Bare(Respond(m, s, x, d))
  {
    RespondBlind(m, s, x, d, PartOf(s).(l2 := Erase(s.l2)));
  }

  lemma HitBare(c: Config, s: State, a: Addr)
    ensures LineOf(NoBits(c), Bare(s), a) == EraseLine(LineOf(c, s, a))
    ensures L2Hit(NoBits(c), Bare(s), a) == L2Hit(c, s, a)
  {
    EraseAt(s.l2, c.setOf(a));
  }

  lemma DropsBare(c: Config, s: State, a: Addr)
    ensures WriteBackDrop(NoBits(c), Bare(s), a) == Bare(WriteBackDrop(c, s, a))
    ensures DropOnly(NoBits(c), Bare(s), a) == Bare(DropOnly(c, s, a))
  {
    HitBare(c, s, a);
    EraseUpdate(s.l2, c.setOf(a), Drop(LineOf(c, s, a)));
  }

  lemma ReloadBare(c: Config, s: State)
    ensures L2DoReload(NoBits(c), Bare(s)) == Bare(L2DoReload(c, s))
  {
    EraseUpdate(s.l2, c.setOf(s.w.r.a), Line(true, false, s.w.r.a, At(s.mem, s.w.r.a), false, false));
  }

  lemma ServeInvlBare(c: Config, m: Delivery, s: State)
    requires s.w.r.op == OpINVL
    ensures L2Serve(NoBits(c), m, Bare(s)) == Bare(L2Serve(c, m, s))
  {
    DropsBare(c, s, s.w.r.a);
    RespondBare(m, WriteBackDrop(c, s, s.w.r.a), s.w.src, 0);
  }

  lemma ServeDropBare(c: Config, m: Delivery, s: State)
    requires s.w.r.op in {OpINVL, OpPGDROP, OpSnpDrop}
    ensures L2Serve(NoBits(c), m, Bare(s)) == Bare(L2Serve(c, m, s))
  {
    if s.w.r.op == OpINVL {
      ServeInvlBare(c, m, s);
    } else {
      DropsBare(c, s, s.w.r.a);
      RespondBare(m, DropOnly(c, s, s.w.r.a), s.w.src, 0);
    }
  }

  lemma WrittenBackBare(c: Config, s: State)
    ensures WrittenBack(NoBits(c), Bare(s)) == Bare(WrittenBack(c, s))
  {
    var a := s.w.r.a;
    HitBare(c, s, a);
    EraseUpdate(s.l2, c.setOf(a), LineOf(c, s, a).(valid := false, pd := false, pi := false));
  }

  lemma ServeWBBare(c: Config, m: Delivery, s: State)
    requires s.w.r.op == OpWB
    ensures L2Serve(NoBits(c), m, Bare(s)) == Bare(L2Serve(c, m, s))
  {
    ServeWBIs(c, m, s);
    ServeWBIs(NoBits(c), m, Bare(s));
    WrittenBackBare(c, s);
    RespondBare(m, WrittenBack(c, s), s.w.src, 0);
  }

  lemma SetLineBare(c: Config, s: State, a: Addr, ln: Line)
    ensures SetLine(NoBits(c), Bare(s), a, EraseLine(ln)) == Bare(SetLine(c, s, a, ln))
  {
    EraseUpdate(s.l2, c.setOf(a), ln);
  }

  lemma EvictBare(c: Config, s: State)
    ensures EvictDirty(NoBits(c), Bare(s)) == Bare(EvictDirty(c, s))
  {
    HitBare(c, s, s.w.r.a);
  }

  lemma ServeMissBare(c: Config, m: Delivery, s: State)
    requires s.w.r.op in {OpLW, OpSW} && !L2Hit(c, s, s.w.r.a)
    ensures L2Serve(NoBits(c), m, Bare(s)) == Bare(L2Serve(c, m, s))
  {
    HitBare(c, s, s.w.r.a);
    EvictBare(c, s);
  }

  lemma ServeFillBare(c: Config, m: Delivery, s: State)
    requires s.w.r.op == OpLW && L2Hit(c, s, s.w.r.a)
    ensures L2Serve(NoBits(c), m, Bare(s)) == Bare(L2Serve(c, m, s))
  {
    HitBare(c, s, s.w.r.a);
    ServeFillIs(c, m, s);
    ServeFillIs(NoBits(c), m, Bare(s));
    SetLineBare(c, s, s.w.r.a, Granted(c, s));
    RespondBare(m, SetLine(c, s, s.w.r.a, Granted(c, s)), s.w.src, LineOf(c, s, s.w.r.a).d);
  }

  lemma ServeWriteBare(c: Config, m: Delivery, s: State)
    requires s.w.r.op == OpSW && L2Hit(c, s, s.w.r.a)
    ensures L2Serve(NoBits(c), m, Bare(s)) == Bare(L2Serve(c, m, s))
  {
    var ln := LineOf(c, s, s.w.r.a);
    HitBare(c, s, s.w.r.a);
    SetLineBare(c, s, s.w.r.a, ln.(d := s.w.r.d, dirty := true, pd := ln.pd && s.w.src != SD));
  }

  lemma ServeCachedBare(c: Config, m: Delivery, s: State)
    requires s.w.r.op in {OpLW, OpSW}
    ensures L2Serve(NoBits(c), m, Bare(s)) == Bare(L2Serve(c, m, s))
  {
    if !L2Hit(c, s, s.w.r.a) { ServeMissBare(c, m, s); }
    else if s.w.r.op == OpLW { ServeFillBare(c, m, s); }
    else { ServeWriteBare(c, m, s); }
  }

  lemma AbsorbBare(c: Config, m: Delivery, s: State, a: Addr)
    requires Latched(s, a)
    ensures Absorb(NoBits(c), m, Bare(s), a) == Bare(Absorb(c, m, s, a))
  {
    var ln := LineOf(c, s, a).(d := s.reqD.v.d, dirty := true);
    HitBare(c, s, a);
    EraseUpdate(s.l2, c.setOf(a), ln);
    var t := s.(l2 := if L2Hit(c, s, a) then s.l2[c.setOf(a) := ln] else s.l2,
                mem := if L2Hit(c, s, a) then s.mem else s.mem[a := s.reqD.v.d],
                reqD := Empty);
    RespondBare(m, t, SD, 0);
  }

  lemma ServeWbinvBare(c: Config, m: Delivery, s: State)
    requires s.w.r.op == OpSnpWbinv
    ensures L2Serve(NoBits(c), m, Bare(s)) == Bare(L2Serve(c, m, s))
  {
    if Latched(s, s.w.r.a) { ServeAbsorbBare(c, m, s); } else { DropsBare(c, s, s.w.r.a); }
  }

  lemma ServeAbsorbBare(c: Config, m: Delivery, s: State)
    requires s.w.r.op == OpSnpWbinv && Latched(s, s.w.r.a)
    ensures L2Serve(NoBits(c), m, Bare(s)) == Bare(L2Serve(c, m, s))
  {
    var t := Absorb(c, m, s, s.w.r.a);
    AbsorbBare(c, m, s, s.w.r.a);
    DropsBare(c, t, t.w.r.a);
  }

  lemma ServeBare(c: Config, m: Delivery, s: State)
    requires s.w.r.op !in {OpULW, OpUSW}
    ensures L2Serve(NoBits(c), m, Bare(s)) == Bare(L2Serve(c, m, s))
  {
    if s.w.r.op in {OpLW, OpSW} { ServeCachedBare(c, m, s); }
    else if s.w.r.op == OpWB { ServeWBBare(c, m, s); }
    else if s.w.r.op == OpSnpWbinv { ServeWbinvBare(c, m, s); }
    else { ServeDropBare(c, m, s); }
  }

  /** A step that needs no probe is the same step in both systems. */
  ghost predicate Mirrored(c: Config, m: Delivery, s: State, e: Step) {
    && Enabled(c, m, s, e) && Enabled(NoBits(c), m, Lift(c, s), e)
    && Next(NoBits(c), m, Lift(c, s), e) == Lift(c, Next(c, m, s, e))
  }

  lemma LiftKept(c: Config, s: State, t: State)
    requires PartKept(s, t)
    ensures Lift(c, t) == Graft(t, LiftPart(c, PartOf(s), s.l2st == L2Probe))
  {}

  lemma MirrorBlind(c: Config, m: Delivery, s: State, e: Step)
    requires Enabled(c, m, s, e) && Blind(e)
    ensures Mirrored(c, m, s, e)
  {
    var p := LiftPart(c, PartOf(s), s.l2st == L2Probe);
    BlindGuard(c, m, s, e, p);
    BlindStep(c, m, s, e, p);
    BlindKeepsPart(c, m, s, e);
    LiftKept(c, s, Next(c, m, s, e));
  }

  // ------------------------------------------------------------------ probes

  /** The state of the protocol without bits that has probed both L1s for line a; those not in toD
      and toI have answered. */
  function Asked(c: Config, s: State, a: Addr, toD: bool, toI: bool): State {
    Bare(s).(pexpD := true, prbD := if toD then Full(a) else Empty, packD := if toD then Empty else NotHere,
             pexpI := c.l1i, prbI := if c.l1i && toI then Full(a) else Empty,
             packI := if c.l1i && !toI then NotHere else Empty,
             pa := a, pret := s.l2st, l2st := L2Probe)
  }

  /** Nothing about a probe is left over. */
  predicate NoProbe(s: State) {
    && s.l2st in {L2Check, L2Upurge, L2Flush} && !s.probed
    && !s.pexpD && s.prbD.Empty? && s.packD.Empty? && !s.pexpI && s.prbI.Empty? && s.packI.Empty?
  }

  predicate ToD(c: Config, s: State, a: Addr) { !c.pres || LineOf(c, s, a).pd }
  predicate ToI(c: Config, s: State, a: Addr) { c.l1i && (!c.pres || LineOf(c, s, a).pi) }

  lemma AskedAll(c: Config, s: State, a: Addr)
    requires NoProbe(s)
    ensures SendProbes(NoBits(c), Bare(s), a, s.l2st) == Asked(c, s, a, true, true)
  {}

  lemma AskedSome(c: Config, s: State, a: Addr)
    requires NoProbe(s) && (ToD(c, s, a) || ToI(c, s, a))
    ensures Lift(c, SendProbes(c, s, a, s.l2st)) == Asked(c, s, a, ToD(c, s, a), ToI(c, s, a))
  {}

  lemma DataAnswers(c: Config, s: State, a: Addr, toI: bool)
    requires NoProbe(s) && !DHit(s, a) && s.rspD.Empty?
    ensures CanDProbe(Asked(c, s, a, true, toI))
    ensures DProbe(Asked(c, s, a, true, toI)) == Asked(c, s, a, false, toI)
  {}

  lemma FetchAnswers(c: Config, s: State, a: Addr, toD: bool)
    requires NoProbe(s) && !IHit(s, a) && c.l1i && s.rspI.Empty?
    ensures CanIProbe(Asked(c, s, a, toD, true))
    ensures IProbe(Asked(c, s, a, toD, true)) == Asked(c, s, a, toD, false)
  {}

  lemma AskedNone(c: Config, s: State, a: Addr)
    requires NoProbe(s) && L2Hit(c, s, a) && !ToD(c, s, a) && !ToI(c, s, a)
    ensures CanProbeAcks(Asked(c, s, a, false, false))
    ensures ProbeAcks(NoBits(c), Asked(c, s, a, false, false)) == Lift(c, SendProbes(c, s, a, s.l2st))
  {
    var t := Asked(c, s, a, false, false);
    EraseAt(s.l2, c.setOf(a));
    assert t.l2[c.setOf(a) := LineOf(NoBits(c), t, a).(pd := false, pi := false)] == Erase(s.l2);
  }

  lemma AcksFollow(c: Config, m: Delivery, s: State, a: Addr) returns (es: seq<Step>)
    requires NoProbe(s) && L2Hit(c, s, a)
    ensures Run(NoBits(c), m, Asked(c, s, a, ToD(c, s, a), ToI(c, s, a)), es, Lift(c, SendProbes(c, s, a, s.l2st)))
  {
    if ToD(c, s, a) || ToI(c, s, a) {
      AskedSome(c, s, a);
      es := [];
    } else {
      AskedNone(c, s, a);
      RunOne(NoBits(c), m, Asked(c, s, a, false, false), StProbeAcks);
      es := [StProbeAcks];
    }
  }

  lemma FetchFollows(c: Config, m: Delivery, s: State, a: Addr, u: State, es: seq<Step>) returns (fs: seq<Step>)
    requires NoProbe(s) && (c.l1i && !ToI(c, s, a) ==> !IHit(s, a) && s.rspI.Empty?)
    requires Run(NoBits(c), m, Asked(c, s, a, ToD(c, s, a), ToI(c, s, a)), es, u)
    ensures Run(NoBits(c), m, Asked(c, s, a, ToD(c, s, a), true), fs, u)
  {
    if c.l1i && !ToI(c, s, a) {
      FetchAnswers(c, s, a, ToD(c, s, a));
      RunCons(NoBits(c), m, Asked(c, s, a, ToD(c, s, a), true), StIProbe, es, u);
      fs := [StIProbe] + es;
    } else {
      assert Asked(c, s, a, ToD(c, s, a), true) == Asked(c, s, a, ToD(c, s, a), ToI(c, s, a));
      fs := es;
    }
  }

  lemma DataFollows(c: Config, m: Delivery, s: State, a: Addr, u: State, es: seq<Step>) returns (fs: seq<Step>)
    requires NoProbe(s) && (!ToD(c, s, a) ==> !DHit(s, a) && s.rspD.Empty?)
    requires Run(NoBits(c), m, Asked(c, s, a, ToD(c, s, a), true), es, u)
    ensures Run(NoBits(c), m, Asked(c, s, a, true, true), fs, u)
  {
    if ToD(c, s, a) {
      fs := es;
    } else {
      DataAnswers(c, s, a, true);
      RunCons(NoBits(c), m, Asked(c, s, a, true, true), StDProbe, es, u);
      fs := [StDProbe] + es;
    }
  }

  /** An L1 that is not asked about line a has no response waiting, so it can answer at once. */
  predicate AtOnce(c: Config, s: State, a: Addr) {
    (ToD(c, s, a) || s.rspD.Empty?) && (!c.l1i || ToI(c, s, a) || s.rspI.Empty?)
  }

  /** It never has, in a system with responses delivered in the L2's step, without an L1I or without
      presence bits. */
  predicate Strict(c: Config, m: Delivery) { m.SameStep? || !c.l1i || !c.pres }

  lemma StrictIsAtOnce(c: Config, m: Delivery, s: State, a: Addr)
    requires Good(c, m, s) && ToProbe(c, s, a) && (Strict(c, m) || Clear(s))
    ensures AtOnce(c, s, a)
  {
    if !c.l1i && s.l2st == L2Check { assert s.w.src == SD; }
  }

  /** Probing only the flagged L1s is probing both: the others answer at once. */
  lemma ProbesFollow(c: Config, m: Delivery, s: State, a: Addr) returns (es: seq<Step>)
    requires Good(c, m, s) && ToProbe(c, s, a) && AtOnce(c, s, a)
    ensures Run(NoBits(c), m, SendProbes(NoBits(c), Bare(s), a, s.l2st), es, Lift(c, SendProbes(c, s, a, s.l2st)))
  {
    var u := Lift(c, SendProbes(c, s, a, s.l2st));
    AskedAll(c, s, a);
    es := AcksFollow(c, m, s, a);
    es := FetchFollows(c, m, s, a, u, es);
    es := DataFollows(c, m, s, a, u, es);
  }

  /** The probed line with the answers merged in. */
  function Merged(c: Config, s: State): Line {
    var ln := LineOf(c, s, s.pa);
    (if s.packD.Full? && s.packD.v.dirty then ln.(d := s.packD.v.d, dirty := true) else ln).(pd := false, pi := false)
  }

  function Resumed(c: Config, s: State, ln: Line): State {
    SetLine(c, s, s.pa, ln).(
      packD := Empty, packI := Empty, pexpD := false, pexpI := false, probed := true, l2st := s.pret)
  }

  lemma AcksAre(c: Config, s: State)
    ensures ProbeAcks(c, s) == Resumed(c, s, Merged(c, s))
  {}

  lemma SameMerged(c: Config, s: State)
    requires Channels(c, s)
    ensures Merged(NoBits(c), Lift(c, s)) == EraseLine(Merged(c, s))
  {
    EraseAt(s.l2, c.setOf(s.pa));
  }

  lemma SameResumed(c: Config, s: State, ln: Line)
    requires Engine(c, s) && s.l2st == L2Probe
    ensures Resumed(NoBits(c), Lift(c, s), EraseLine(ln)) == Lift(c, Resumed(c, s, ln))
  {
    EraseUpdate(s.l2, c.setOf(s.pa), ln);
  }

  lemma MirrorAcks(c: Config, s: State)
    requires Channels(c, s) && Engine(c, s) && CanProbeAcks(s)
    ensures CanProbeAcks(Lift(c, s)) && ProbeAcks(NoBits(c), Lift(c, s)) == Lift(c, ProbeAcks(c, s))
  {
    AcksAre(c, s);
    AcksAre(NoBits(c), Lift(c, s));
    SameMerged(c, s);
    SameResumed(c, s, Merged(c, s));
  }

  lemma MirrorDProbe(c: Config, s: State)
    requires Channels(c, s) && CanDProbe(s)
    ensures CanDProbe(Lift(c, s)) && DProbe(Lift(c, s)) == Lift(c, DProbe(s))
  {}

  lemma MirrorIProbe(c: Config, s: State)
    requires Channels(c, s) && CanIProbe(s)
    ensures CanIProbe(Lift(c, s)) && IProbe(Lift(c, s)) == Lift(c, IProbe(s))
  {}

  lemma MirrorReload(c: Config, s: State)
    requires CanL2Reload(s)
    ensures CanL2Reload(Lift(c, s)) && L2DoReload(NoBits(c), Lift(c, s)) == Lift(c, L2DoReload(c, s))
  {
    LiftIdle(c, s);
    ReloadBare(c, s);
    LiftIdle(c, L2DoReload(c, s));
  }

  /** t in the first system is followed, in a few steps of the second, by its image. */
  ghost predicate Follows(c: Config, m: Delivery, s: State, e: Step, es: seq<Step>) {
    && Enabled(c, m, s, e)
    && Run(NoBits(c), m, Lift(c, s), es, Lift(c, Next(c, m, s, e)))
  }

  lemma MirroredFollows(c: Config, m: Delivery, s: State, e: Step)
    requires Mirrored(c, m, s, e)
    ensures Follows(c, m, s, e, [e])
  {
    RunOne(NoBits(c), m, Lift(c, s), e);
  }

  /** The step probes for line a, in both systems. */
  ghost predicate Probes(c: Config, m: Delivery, s: State, e: Step, a: Addr) {
    && Enabled(c, m, s, e) && Enabled(NoBits(c), m, Bare(s), e)
    && Next(c, m, s, e) == SendProbes(c, s, a, s.l2st)
    && Next(NoBits(c), m, Bare(s), e) == SendProbes(NoBits(c), Bare(s), a, s.l2st)
  }

  lemma ProbingFollows(c: Config, m: Delivery, s: State, e: Step, a: Addr) returns (es: seq<Step>)
    requires Good(c, m, s) && ToProbe(c, s, a) && Probes(c, m, s, e, a) && (Strict(c, m) || Clear(s))
    ensures Follows(c, m, s, e, es)
  {
    StrictIsAtOnce(c, m, s, a);
    LiftIdle(c, s);
    var fs := ProbesFollow(c, m, s, a);
    RunCons(NoBits(c), m, Lift(c, s), e, fs, Lift(c, Next(c, m, s, e)));
    es := [e] + fs;
  }

  lemma ServeSettles(c: Config, m: Delivery, s: State)
    requires CanL2Check(m, s)
    ensures L2Serve(c, m, s).l2st != L2Probe
  {}

  lemma MirrorServe(c: Config, m: Delivery, s: State)
    requires Engine(c, s) && CanL2Check(m, s) && !ProbeDrop(c, s) && !ProbeVictim(c, s)
    ensures Mirrored(c, m, s, StL2Check)
  {
    LiftIdle(c, s);
    HitBare(c, s, s.w.r.a);
    ServeBare(c, m, s);
    ServeSettles(c, m, s);
    LiftIdle(c, L2Serve(c, m, s));
  }

  lemma CheckFollows(c: Config, m: Delivery, s: State) returns (es: seq<Step>)
    requires c.Valid() && Good(c, m, s) && (Strict(c, m) || Clear(s)) && CanL2Check(m, s)
    ensures Follows(c, m, s, StL2Check, es)
  {
    HitBare(c, s, s.w.r.a);
    if ProbeDrop(c, s) {
      es := ProbingFollows(c, m, s, StL2Check, s.w.r.a);
    } else if ProbeVictim(c, s) {
      assert Placed(c, s, c.setOf(s.w.r.a));
      es := ProbingFollows(c, m, s, StL2Check, LineOf(c, s, s.w.r.a).tag);
    } else {
      MirrorServe(c, m, s);
      MirroredFollows(c, m, s, StL2Check);
      es := [StL2Check];
    }
  }

  lemma PurgeFollows(c: Config, m: Delivery, s: State) returns (es: seq<Step>)
    requires c.Valid() && Good(c, m, s) && (Strict(c, m) || Clear(s)) && CanL2Purge(s)
    ensures Follows(c, m, s, StL2Purge, es)
  {
    HitBare(c, s, s.w.r.a);
    if L2Hit(c, s, s.w.r.a) && !s.probed {
      es := ProbingFollows(c, m, s, StL2Purge, s.w.r.a);
    } else {
      LiftIdle(c, s);
      DropsBare(c, s, s.w.r.a);
      LiftIdle(c, L2Purge(c, s));
      MirroredFollows(c, m, s, StL2Purge);
      es := [StL2Purge];
    }
  }

  lemma FlushSetBare(c: Config, s: State)
    requires CanFlushSet(s) && !(LineAt(s.l2, s.fset).valid && !s.probed)
    ensures FlushSet(NoBits(c), Bare(s)) == Bare(FlushSet(c, s))
  {
    EraseAt(s.l2, s.fset);
    EraseUpdate(s.l2, s.fset, Drop(LineAt(s.l2, s.fset)));
  }

  lemma MirrorFlushSet(c: Config, m: Delivery, s: State)
    requires CanFlushSet(s) && !(LineAt(s.l2, s.fset).valid && !s.probed)
    ensures Mirrored(c, m, s, StFlushSet)
  {
    LiftIdle(c, s);
    FlushSetBare(c, s);
    LiftIdle(c, FlushSet(c, s));
  }

  lemma FlushProbeFollows(c: Config, m: Delivery, s: State) returns (es: seq<Step>)
    requires c.Valid() && Good(c, m, s) && (Strict(c, m) || Clear(s)) && CanFlushSet(s)
    requires LineAt(s.l2, s.fset).valid && !s.probed
    ensures Follows(c, m, s, StFlushSet, es)
  {
    EraseAt(s.l2, s.fset);
    assert Placed(c, s, s.fset);
    es := ProbingFollows(c, m, s, StFlushSet, LineAt(s.l2, s.fset).tag);
  }

  lemma FlushSetFollows(c: Config, m: Delivery, s: State) returns (es: seq<Step>)
    requires c.Valid() && Good(c, m, s) && (Strict(c, m) || Clear(s)) && CanFlushSet(s)
    ensures Follows(c, m, s, StFlushSet, es)
  {
    if LineAt(s.l2, s.fset).valid && !s.probed {
      es := FlushProbeFollows(c, m, s);
    } else {
      EraseAt(s.l2, s.fset);
      MirrorFlushSet(c, m, s);
      MirroredFollows(c, m, s, StFlushSet);
      es := [StFlushSet];
    }
  }

  lemma AnswerFollows(c: Config, m: Delivery, s: State, e: Step)
    requires c.Valid() && Good(c, m, s) && Enabled(c, m, s, e)
    requires e.StL2Reload? || e.StProbeAcks? || e.StDProbe? || e.StIProbe?
    ensures Mirrored(c, m, s, e)
  {
    match e
    case StL2Reload => MirrorReload(c, s);
    case StProbeAcks => MirrorAcks(c, s);
    case StDProbe => MirrorDProbe(c, s);
    case StIProbe => MirrorIProbe(c, s);
  }

  /** Every step of the protocol with presence bits is one or a few steps of the one without. */
  lemma StepFollows(c: Config, m: Delivery, s: State, e: Step) returns (es: seq<Step>)
    requires c.Valid() && Good(c, m, s) && Enabled(c, m, s, e) && (Strict(c, m) || Clear(s))
    ensures Follows(c, m, s, e, es)
  {
    if e.StL2Check? {
      es := CheckFollows(c, m, s);
    } else if e.StL2Purge? {
      es := PurgeFollows(c, m, s);
    } else if e.StFlushSet? {
      es := FlushSetFollows(c, m, s);
    } else {
      if Blind(e) { MirrorBlind(c, m, s, e); } else { AnswerFollows(c, m, s, e); }
      MirroredFollows(c, m, s, e);
      es := [e];
    }
  }

  // ------------------------------------------------------------------ runs

  lemma {:induction false} RunFollows(c: Config, m: Delivery, s: State, es: seq<Step>, t: State) returns (fs: seq<Step>)
    requires c.Valid() && Good(c, m, s) && Strict(c, m) && Run(c, m, s, es, t)
    ensures Run(NoBits(c), m, Lift(c, s), fs, Lift(c, t))
    decreases |es|
  {
    if es == [] { return []; }
    var n := Next(c, m, s, es[0]);
    StepGood(c, m, s, es[0]);
    var first := StepFollows(c, m, s, es[0]);
    var rest := RunFollows(c, m, n, es[1..], t);
    RunAppend(NoBits(c), m, Lift(c, s), first, Lift(c, n), rest, Lift(c, t));
    fs := first + rest;
  }

  /** Whatever the protocol with presence bits reaches, the one that always probes both L1s reaches
      too, with the same memory, the same lines and the same values everywhere. */
  lemma PresenceRefines(c: Config, m: Delivery, s: State)
    requires c.Valid() && Strict(c, m) && Reachable(c, m, s)
    ensures Reachable(NoBits(c), m, Lift(c, s))
  {
    var es :| Run(c, m, Start(), es, s);
    StartGood(c, m);
    var fs := RunFollows(c, m, Start(), es, s);
    assert Erase(Start().l2) == Start().l2;
    assert Lift(c, Start()) == Start();
  }
}

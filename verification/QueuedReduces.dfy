/** Queued responses are same-step responses that an L1 has not taken yet.  Whatever queued delivery
    reaches, same-step delivery reaches with the waiting responses taken, up to the ghost set `incoh`
    of the instruction side: taking a response never enables, disables or changes what another step
    does.  With `SameStepReachable` the two systems are the same up to that.  */
module QueuedReduces {
  import opened Protocol
  import opened Invariant
  import opened DeliveryOrder
  import opened L2Frame
  import opened Safety

  function TakeD(s: State): State { if s.rspD.Full? then DResponse(s) else s }
  function TakeI(s: State): State { if s.rspI.Full? then IFill(s) else s }

  /** s with every waiting response taken. */
  function Taken(s: State): State { TakeD(TakeI(s)) }

  /** s and t differ in the ghost set only. */
  ghost predicate Alike(s: State, t: State) { t == s.(incoh := t.incoh) }

  // ------------------------------------------------------------------ what is taken, on the L1s' side

  /** The fill of the L1I, and the response to the L1D. */
  function FillSide(p: Side): Side
    requires p.rspI.Full?
  {
    p.(l1i := L1Line(LV, p.ia, p.rspI.v), ifill := false, rspI := Empty)
  }

  function TakeSide(p: Side): Side
    requires p.rspD.Full?
  {
    var store := p.dst == DFill && p.dkind == KStore;
    var next := At(p.latest, p.da) + 1;
    p.(latest := if store then p.latest[p.da := next] else p.latest,
       unclean := if store then p.unclean + {p.da}
                  else if p.dst == DOp && p.dop == CoChwb then p.unclean - {p.da}
                  else p.unclean,
       incoh := if store then p.incoh + {p.da} else p.incoh,
       l1d := if store then L1Line(LVD, p.da, next)
              else if p.dst == DFill then L1Line(LV, p.da, p.rspD.v)
              else if p.dst in {DVict, DFlushWb} then p.l1d.(st := LI)
              else p.l1d,
       dma := if p.dst == DOp && p.dop == CoXpgInv then DmIdle else p.dma,
       dst := RspState(p.dst), rspD := Empty)
  }

  lemma FillIs(s: State)
    requires CanIFill(s)
    ensures IFill(s) == With(s, FillSide(SideOf(s)))
  {}

  lemma TakeIs(s: State)
    requires CanDResponse(s)
    ensures DResponse(s) == With(s, TakeSide(SideOf(s)))
  {}

  lemma WithSelf(s: State, p: Side)
    ensures With(s, SideOf(s)) == s && SideOf(With(s, p)) == p
  {}

  lemma AnswerFill(c: Config, s: State, p: Side)
    requires p.rspI.Full? && Answer(c, s, p).rspI == p.rspI && Answer(c, s, FillSide(p)).rspI.Empty?
    ensures Answer(c, s, FillSide(p)) == FillSide(Answer(c, s, p))
  {}

  /** What an L2 step does to the side is independent of a response that is waiting. */
  lemma AfterFill(c: Config, s: State, e: Step, p: Side)
    requires p.rspI.Full? && After(c, s, e, p).rspI == p.rspI && After(c, s, e, FillSide(p)).rspI.Empty?
    ensures After(c, s, e, FillSide(p)) == FillSide(After(c, s, e, p))
  {
    if e.StL2Check? && !ProbeDrop(c, s) && !ProbeVictim(c, s) { AnswerFill(c, s, p); }
  }

  lemma AfterTake(c: Config, s: State, e: Step, p: Side)
    requires p.rspD.Full? && (e.StL2Accept? || e.StL2Check? || e.StL2Reload? || e.StProbeAcks?)
    requires e.StL2Check? ==> s.w.r.op == OpLW && s.w.src == SI
    requires e.StL2Accept? ==> e.x == SI
    ensures After(c, s, e, p).rspD == p.rspD && After(c, s, e, TakeSide(p)) == TakeSide(After(c, s, e, p))
  {}

  lemma AnswerAlike(c: Config, s: State, p: Side, x: set<Addr>)
    ensures Answer(c, s, p.(incoh := x)) == Answer(c, s, p).(incoh := x)
  {
    if s.w.r.op == OpSnpWbinv {
    } else if s.w.r.op == OpLW {
    }
  }

  lemma AfterAlike(c: Config, s: State, e: Step, p: Side, x: set<Addr>)
    ensures After(c, s, e, p.(incoh := x)) == After(c, s, e, p).(incoh := x)
  {
    AnswerAlike(c, s, p, x);
  }

  lemma SideAfter(c: Config, s: State, e: Step)
    requires L2Step(e) && Enabled(c, Queued, s, e) && (e.StL2Check? ==> s.w.r.op !in {OpULW, OpUSW})
    ensures SideOf(Next(c, Queued, s, e)) == After(c, s, e, SideOf(s))
  {
    WithSelf(s, SideOf(s));
    L2StepWith(c, s, e, SideOf(s));
    WithSelf(Next(c, Queued, s, e), After(c, s, e, SideOf(s)));
  }

  // ------------------------------------------------------------------ the ghost set matters to nothing else

  function Recoh(s: State, x: set<Addr>): State { s.(incoh := x) }

  lemma L2StepAlike(c: Config, s: State, e: Step, x: set<Addr>)
    requires Engine(c, s) && L2Step(e) && Enabled(c, Queued, s, e) && Enabled(c, Queued, Recoh(s, x), e)
    ensures Next(c, Queued, Recoh(s, x), e) == Recoh(Next(c, Queued, s, e), x)
  {
    var p := SideOf(s);
    L2StepWith(c, s, e, p.(incoh := x));
    SideAfter(c, s, e);
    AfterAlike(c, s, e, p, x);
  }

  lemma RequestRecoh(s: State, o: COp, a: Addr, x: set<Addr>)
    ensures CacheOp(Recoh(s, x), o, a) == Recoh(CacheOp(s, o, a), x)
    ensures ULoad(Recoh(s, x), a) == Recoh(ULoad(s, a), x)
  {}

  lemma MissRecoh(s: State, k: DKind, a: Addr, x: set<Addr>)
    ensures DMiss(Recoh(s, x), k, a) == Recoh(DMiss(s, k, a), x)
    ensures L1Walk(Recoh(s, x)) == Recoh(L1Walk(s), x)
  {}

  lemma WriteAlike(s: State, a: Addr, x: set<Addr>)
    ensures Alike(StoreHit(Recoh(s, x), a), StoreHit(s, a))
    ensures Alike(UStore(Recoh(s, x), a), UStore(s, a))
  {}

  lemma IssueRecoh(s: State, x: set<Addr>)
    ensures DoDReload(Recoh(s, x)) == Recoh(DoDReload(s), x)
    ensures DoDUncIssue(Recoh(s, x)) == Recoh(DoDUncIssue(s), x)
  {}

  lemma PageFlushRecoh(s: State, a: Addr, into: bool, x: set<Addr>)
    ensures XpgPre(Recoh(s, x), a, into) == Recoh(XpgPre(s, a, into), x)
    ensures XpgDrop(Recoh(s, x)) == Recoh(XpgDrop(s), x)
  {}

  lemma AnswerRecoh(s: State, x: set<Addr>)
    ensures CanDProbe(s) ==> DProbe(Recoh(s, x)) == Recoh(DProbe(s), x)
    ensures CanIProbe(s) ==> IProbe(Recoh(s, x)) == Recoh(IProbe(s), x)
  {}

  lemma TakeAlike(s: State, x: set<Addr>)
    ensures CanDResponse(s) ==> Alike(DResponse(Recoh(s, x)), DResponse(s))
    ensures CanIFill(s) ==> IFill(Recoh(s, x)) == Recoh(IFill(s), x)
  {}

  lemma TakenAlike(s: State, t: State)
    requires Alike(s, t)
    ensures Alike(Taken(s), Taken(t))
  {
    TakeAlike(s, t.incoh);
    TakeAlike(TakeI(s), t.incoh);
  }

  /** A step that changes no state. */
  predicate Idles(e: Step) { e.StLoadHit? || e.StFetchHit? }

  /** The steps of the core and the L1D that change a state. */
  predicate DataSideChange(e: Step) {
    || e.StStoreHit? || e.StDMiss? || e.StCacheOp? || e.StULoad? || e.StUStore? || e.StDReload? || e.StDUncIssue?
    || e.StL1Walk?
  }

  lemma RecohGuard(c: Config, s: State, e: Step, x: set<Addr>)
    requires Enabled(c, Queued, s, e) && !Idles(e)
    ensures Enabled(c, Queued, Recoh(s, x), e)
  {}

  lemma StoreStepAlike(c: Config, s: State, e: Step, x: set<Addr>)
    requires Enabled(c, Queued, s, e) && Enabled(c, Queued, Recoh(s, x), e)
    requires e.StStoreHit? || e.StUStore? || e.StDReload? || e.StDUncIssue?
    ensures Alike(Next(c, Queued, Recoh(s, x), e), Next(c, Queued, s, e))
  {
    match e
    case StStoreHit(a) => WriteAlike(s, a, x);
    case StUStore(a) => WriteAlike(s, a, x);
    case StDReload => IssueRecoh(s, x);
    case StDUncIssue => IssueRecoh(s, x);
  }

  lemma MissStepAlike(c: Config, s: State, e: Step, x: set<Addr>)
    requires Enabled(c, Queued, s, e) && Enabled(c, Queued, Recoh(s, x), e)
    requires e.StDMiss? || e.StCacheOp? || e.StULoad? || e.StL1Walk?
    ensures Alike(Next(c, Queued, Recoh(s, x), e), Next(c, Queued, s, e))
  {
    if e.StDMiss? {
      MissRecoh(s, e.k, e.a, x);
    } else if e.StL1Walk? {
      MissRecoh(s, KLoad, 0, x);
    } else {
      RequestStepAlike(c, s, e, x);
    }
  }

  lemma RequestStepAlike(c: Config, s: State, e: Step, x: set<Addr>)
    requires Enabled(c, Queued, s, e) && Enabled(c, Queued, Recoh(s, x), e) && (e.StCacheOp? || e.StULoad?)
    ensures Alike(Next(c, Queued, Recoh(s, x), e), Next(c, Queued, s, e))
  {
    if e.StCacheOp? { RequestRecoh(s, e.o, e.a, x); } else { RequestRecoh(s, CoNone, e.a, x); }
  }

  lemma OtherStepAlike(c: Config, s: State, e: Step, x: set<Addr>)
    requires Enabled(c, Queued, s, e) && Enabled(c, Queued, Recoh(s, x), e)
    requires !L2Step(e) && !DataSideChange(e) && !Idles(e)
    ensures Alike(Next(c, Queued, Recoh(s, x), e), Next(c, Queued, s, e))
  {
    if e.StDResponse? || e.StIFill? {
      TakeAlike(s, x);
    } else if e.StDProbe? || e.StIProbe? {
      AnswerRecoh(s, x);
    } else if e.StXpgPre? {
      PageFlushRecoh(s, e.a, e.into, x);
    } else if e.StXpgDrop? {
      PageFlushRecoh(s, 0, false, x);
    } else if e.StIMiss? || e.StISync? {
      FetchStepAlike(c, s, e, x);
    } else {
      DmaStepAlike(c, s, e, x);
    }
  }

  lemma FetchStepAlike(c: Config, s: State, e: Step, x: set<Addr>)
    requires Enabled(c, Queued, s, e) && Enabled(c, Queued, Recoh(s, x), e) && (e.StIMiss? || e.StISync?)
    ensures Alike(Next(c, Queued, Recoh(s, x), e), Next(c, Queued, s, e))
  {
    if e.StIMiss? { FetchAlike(s, e.a, x); } else { FetchAlike(s, 0, x); }
  }

  lemma FetchAlike(s: State, a: Addr, x: set<Addr>)
    ensures Alike(IMiss(Recoh(s, x), a), IMiss(s, a)) && Alike(ISync(Recoh(s, x)), ISync(s))
  {}

  lemma DeviceAlike(s: State, x: set<Addr>)
    ensures Alike(DevWrite(Recoh(s, x)), DevWrite(s)) && Alike(DevRead(Recoh(s, x)), DevRead(s))
  {}

  lemma SnoopAlike(s: State, a: Addr, into: bool, x: set<Addr>)
    ensures Alike(SnpPre(Recoh(s, x), a, into), SnpPre(s, a, into)) && Alike(SnpPost(Recoh(s, x)), SnpPost(s))
  {}

  lemma DmaStepAlike(c: Config, s: State, e: Step, x: set<Addr>)
    requires Enabled(c, Queued, s, e) && Enabled(c, Queued, Recoh(s, x), e)
    requires e.StDevWrite? || e.StDevRead? || e.StSnpPre? || e.StSnpPost?
    ensures Alike(Next(c, Queued, Recoh(s, x), e), Next(c, Queued, s, e))
  {
    match e
    case StSnpPre(a, into) => SnoopAlike(s, a, into, x);
    case StSnpPost => SnoopAlike(s, 0, false, x);
    case _ => DeviceAlike(s, x);
  }

  /** States that differ in the ghost set only have the same steps, which lead to such states again. */
  lemma StepAlike(c: Config, s: State, t: State, e: Step)
    requires Engine(c, s) && Alike(s, t) && Enabled(c, Queued, s, e) && !Idles(e)
    ensures Enabled(c, Queued, t, e) && Alike(Next(c, Queued, s, e), Next(c, Queued, t, e))
  {
    var x := t.incoh;
    assert t == Recoh(s, x);
    RecohGuard(c, s, e, x);
    if L2Step(e) { L2StepAlike(c, s, e, x); }
    else if e.StStoreHit? || e.StUStore? || e.StDReload? || e.StDUncIssue? { StoreStepAlike(c, s, e, x); }
    else if DataSideChange(e) { MissStepAlike(c, s, e, x); }
    else { OtherStepAlike(c, s, e, x); }
  }

  // ------------------------------------------------------------------ taking the L1I's fill first

  /** e can be taken before the fill or after it, with the same result. */
  ghost predicate FillCommutes(c: Config, s: State, e: Step) {
    && Enabled(c, Queued, s, e) && CanIFill(s) && Enabled(c, Queued, IFill(s), e)
    && CanIFill(Next(c, Queued, s, e)) && Next(c, Queued, IFill(s), e) == IFill(Next(c, Queued, s, e))
  }

  /** The steps that look at what a fill changes. */
  predicate FetchStep(e: Step) { e.StL1Walk? || e.StIMiss? || e.StISync? || e.StIProbe? || e.StIFill? }

  lemma FillGuard(c: Config, s: State, e: Step)
    requires CanIFill(s) && Enabled(c, Queued, s, e) && !Idles(e) && !FetchStep(e)
    ensures Enabled(c, Queued, IFill(s), e)
  {}

  /** While a fill waits nothing else happens to the L1I. */
  lemma FillWaits(c: Config, s: State, e: Step)
    requires FetchPort(c, s) && CanIFill(s) && Enabled(c, Queued, s, e) && !e.StIFill?
    ensures !FetchStep(e)
  {}

  /** While a fill waits the L2 works for the L1D. */
  lemma L2FillGuard(c: Config, s: State, e: Step)
    requires Ready(c, s) && CanIFill(s) && Enabled(c, Queued, s, e) && L2Step(e)
    ensures !(e.StL2Accept? && e.x == SI) && !e.StAcceptSnoop? && !e.StFlushStart?
    ensures e.StL2Check? || e.StL2Uncached? ==> s.w.src == SD
  {}

  lemma L2FillCommutes(c: Config, s: State, e: Step)
    requires Ready(c, s) && CanIFill(s) && Enabled(c, Queued, s, e) && L2Step(e) && Enabled(c, Queued, IFill(s), e)
    ensures FillCommutes(c, s, e)
  {
    L2FillGuard(c, s, e);
    FillIs(s);
    var n, p := Next(c, Queued, s, e), SideOf(s);
    L2StepWith(c, s, e, FillSide(p));
    SideAfter(c, s, e);
    SlotKept(c, s, e, p);
    SlotKept(c, s, e, FillSide(p));
    AfterFill(c, s, e, p);
    FillIs(n);
  }

  /** The step answers the L1D, or nobody. */
  lemma SlotKept(c: Config, s: State, e: Step, p: Side)
    requires e.StL2Accept? ==> e.x == SD
    requires e.StL2Check? || e.StL2Uncached? ==> s.w.src == SD
    ensures After(c, s, e, p).rspI == p.rspI
  {}

  lemma WriteFill(s: State, a: Addr)
    requires CanIFill(s)
    ensures StoreHit(IFill(s), a) == IFill(StoreHit(s, a)) && UStore(IFill(s), a) == IFill(UStore(s, a))
  {}

  lemma IssueFill(s: State)
    requires CanIFill(s)
    ensures DoDReload(IFill(s)) == IFill(DoDReload(s)) && DoDUncIssue(IFill(s)) == IFill(DoDUncIssue(s))
  {}

  lemma MissFill(s: State, k: DKind, o: COp, a: Addr)
    requires CanIFill(s)
    ensures DMiss(IFill(s), k, a) == IFill(DMiss(s, k, a))
    ensures CacheOp(IFill(s), o, a) == IFill(CacheOp(s, o, a)) && ULoad(IFill(s), a) == IFill(ULoad(s, a))
  {}

  lemma PageFlushFill(s: State, a: Addr, into: bool)
    requires CanIFill(s)
    ensures XpgPre(IFill(s), a, into) == IFill(XpgPre(s, a, into)) && XpgDrop(IFill(s)) == IFill(XpgDrop(s))
  {}

  lemma DeviceFill(s: State)
    requires CanIFill(s)
    ensures DevWrite(IFill(s)) == IFill(DevWrite(s)) && DevRead(IFill(s)) == IFill(DevRead(s))
  {}

  lemma SnoopFill(s: State, a: Addr, into: bool)
    requires CanIFill(s)
    ensures SnpPre(IFill(s), a, into) == IFill(SnpPre(s, a, into)) && SnpPost(IFill(s)) == IFill(SnpPost(s))
  {}

  lemma ResponseFill(s: State)
    requires CanIFill(s)
    ensures CanDResponse(s) ==> DResponse(IFill(s)) == IFill(DResponse(s))
    ensures CanDProbe(s) ==> DProbe(IFill(s)) == IFill(DProbe(s))
  {}

  lemma StoreFillCommutes(c: Config, s: State, e: Step)
    requires CanIFill(s) && Enabled(c, Queued, s, e) && Enabled(c, Queued, IFill(s), e)
    requires e.StStoreHit? || e.StUStore? || e.StDReload? || e.StDUncIssue?
    ensures FillCommutes(c, s, e)
  {
    match e
    case StStoreHit(a) => WriteFill(s, a);
    case StUStore(a) => WriteFill(s, a);
    case StDReload => IssueFill(s);
    case StDUncIssue => IssueFill(s);
  }

  lemma MissFillCommutes(c: Config, s: State, e: Step)
    requires CanIFill(s) && Enabled(c, Queued, s, e) && Enabled(c, Queued, IFill(s), e)
    requires e.StDMiss? || e.StCacheOp? || e.StULoad?
    ensures FillCommutes(c, s, e)
  {
    match e
    case StDMiss(k, a) => MissFill(s, k, CoNone, a);
    case StCacheOp(o, a) => MissFill(s, KLoad, o, a);
    case StULoad(a) => MissFill(s, KLoad, CoNone, a);
  }

  lemma CoreFillCommutes(c: Config, s: State, e: Step)
    requires CanIFill(s) && Enabled(c, Queued, s, e) && Enabled(c, Queued, IFill(s), e)
    requires DataSideChange(e) && !FetchStep(e)
    ensures FillCommutes(c, s, e)
  {
    if e.StStoreHit? || e.StUStore? || e.StDReload? || e.StDUncIssue? {
      StoreFillCommutes(c, s, e);
    } else {
      MissFillCommutes(c, s, e);
    }
  }

  lemma DeviceFillCommutes(c: Config, s: State, e: Step)
    requires CanIFill(s) && Enabled(c, Queued, s, e) && Enabled(c, Queued, IFill(s), e)
    requires e.StDevWrite? || e.StDevRead?
    ensures FillCommutes(c, s, e)
  {
    DeviceFill(s);
  }

  lemma SnoopFillCommutes(c: Config, s: State, e: Step)
    requires CanIFill(s) && Enabled(c, Queued, s, e) && Enabled(c, Queued, IFill(s), e)
    requires e.StSnpPre? || e.StSnpPost?
    ensures FillCommutes(c, s, e)
  {
    match e
    case StSnpPre(a, into) => SnoopFill(s, a, into);
    case StSnpPost => SnoopFill(s, 0, false);
  }

  lemma ResponseFillCommutes(c: Config, s: State, e: Step)
    requires CanIFill(s) && Enabled(c, Queued, s, e) && Enabled(c, Queued, IFill(s), e)
    requires e.StDResponse? || e.StDProbe?
    ensures FillCommutes(c, s, e)
  {
    ResponseFill(s);
  }

  lemma PageFlushFillCommutes(c: Config, s: State, e: Step)
    requires CanIFill(s) && Enabled(c, Queued, s, e) && Enabled(c, Queued, IFill(s), e)
    requires e.StXpgPre? || e.StXpgDrop?
    ensures FillCommutes(c, s, e)
  {
    match e
    case StXpgPre(a, into) => PageFlushFill(s, a, into);
    case StXpgDrop => PageFlushFill(s, 0, false);
  }

  lemma FillFirst(c: Config, s: State, e: Step)
    requires Ready(c, s) && CanIFill(s) && Enabled(c, Queued, s, e) && !Idles(e) && !e.StIFill?
    ensures FillCommutes(c, s, e)
  {
    FillWaits(c, s, e);
    FillGuard(c, s, e);
    if L2Step(e) { L2FillCommutes(c, s, e); }
    else if DataSideChange(e) { CoreFillCommutes(c, s, e); }
    else if e.StDevWrite? || e.StDevRead? { DeviceFillCommutes(c, s, e); }
    else if e.StSnpPre? || e.StSnpPost? { SnoopFillCommutes(c, s, e); }
    else if e.StXpgPre? || e.StXpgDrop? { PageFlushFillCommutes(c, s, e); }
    else { ResponseFillCommutes(c, s, e); }
  }

  // ------------------------------------------------------------------ taking the L1D's response first

  ghost predicate TakeCommutes(c: Config, s: State, e: Step) {
    && Enabled(c, Queued, s, e) && CanDResponse(s) && Enabled(c, Queued, DResponse(s), e)
    && CanDResponse(Next(c, Queued, s, e)) && Alike(Next(c, Queued, DResponse(s), e), DResponse(Next(c, Queued, s, e)))
  }

  lemma TakeKinds(c: Config, s: State, e: Step)
    requires Ready(c, s) && CanDResponse(s) && Enabled(c, Queued, s, e) && !Idles(e) && !e.StDResponse?
    ensures !DataSideChange(e) && !e.StDProbe? && !e.StXpgPre? && !e.StXpgDrop? && !e.StSnpPre?
    ensures e.StDevWrite? || e.StDevRead? || e.StSnpPost? ==> c.snoop
  {}

  lemma TakeL2Kinds(c: Config, s: State, e: Step)
    requires Ready(c, s) && CanDResponse(s) && Enabled(c, Queued, s, e) && L2Step(e)
    ensures e.StL2Accept? || e.StL2Check? || e.StL2Reload? || e.StProbeAcks?
    ensures e.StL2Accept? ==> e.x == SI
    ensures e.StL2Check? ==> s.w.src == SI && s.w.r.op == OpLW
  {}

  /** While the L1D waits with its response the core does nothing and the L2 works for the L1I. */
  lemma TakeGuard(c: Config, s: State, e: Step)
    requires Ready(c, s) && CanDResponse(s) && Enabled(c, Queued, s, e) && !Idles(e) && !e.StDResponse?
    ensures Enabled(c, Queued, DResponse(s), e)
    ensures !DataSideChange(e) && !e.StDProbe? && !e.StXpgPre? && !e.StXpgDrop? && !e.StSnpPre?
    ensures L2Step(e) ==> e.StL2Accept? || e.StL2Check? || e.StL2Reload? || e.StProbeAcks?
    ensures e.StL2Accept? ==> e.x == SI
    ensures e.StL2Check? ==> s.w.src == SI && s.w.r.op == OpLW
    ensures e.StDevWrite? || e.StDevRead? || e.StSnpPost? ==> c.snoop
  {
    TakeKinds(c, s, e);
    if L2Step(e) { TakeL2Kinds(c, s, e); }
  }

  lemma L2TakeCommutes(c: Config, s: State, e: Step)
    requires Ready(c, s) && CanDResponse(s) && Enabled(c, Queued, s, e) && L2Step(e)
    ensures TakeCommutes(c, s, e)
  {
    TakeGuard(c, s, e);
    TakeIs(s);
    var n, p := Next(c, Queued, s, e), SideOf(s);
    L2StepWith(c, s, e, TakeSide(p));
    SideAfter(c, s, e);
    AfterTake(c, s, e, p);
    TakeIs(n);
  }

  lemma MissTake(s: State, a: Addr)
    requires CanDResponse(s)
    ensures IMiss(DResponse(s), a) == DResponse(IMiss(s, a))
  {}

  lemma SyncTake(s: State)
    requires CanDResponse(s)
    ensures Alike(ISync(DResponse(s)), DResponse(ISync(s)))
  {}

  lemma IProbeTake(s: State)
    requires CanDResponse(s) && CanIProbe(s)
    ensures IProbe(DResponse(s)) == DResponse(IProbe(s))
  {}

  /** The response does not end a window that a snoop opened, and a missing store is not to its buffer. */
  predicate ApartFromDma(s: State) {
    && !(s.dst == DOp && s.dop == CoXpgInv)
    && (s.dst == DFill && s.dkind == KStore ==> !InWindow(s, s.da))
  }

  lemma IsApart(c: Config, s: State)
    requires Ready(c, s) && CanDResponse(s) && c.snoop
    ensures ApartFromDma(s)
  {}

  lemma SwapUpdates(m: map<Addr, Ver>, a: Addr, v: Ver, b: Addr, w: Ver)
    requires a != b
    ensures m[a := v][b := w] == m[b := w][a := v]
  {}

  /** The store of a fill and the device's write are of different addresses. */
  lemma DeviceWriteVersions(s: State)
    requires CanDResponse(s) && s.dma == DmInArmed && ApartFromDma(s) && s.dst == DFill && s.dkind == KStore
    ensures DevWrite(DResponse(s)).latest == DResponse(DevWrite(s)).latest
  {
    SwapUpdates(s.latest, s.da, At(s.latest, s.da) + 1, s.daddr, At(s.latest, s.daddr) + 1);
  }

  lemma DeviceWriteUnclean(s: State)
    requires CanDResponse(s) && s.dma == DmInArmed && ApartFromDma(s) && s.dst == DFill && s.dkind == KStore
    ensures DevWrite(DResponse(s)).unclean == DResponse(DevWrite(s)).unclean
  {
    assert DevWrite(DResponse(s)).unclean == s.unclean + {s.da} - {s.daddr};
    assert DResponse(DevWrite(s)).unclean == s.unclean - {s.daddr} + {s.da};
  }

  lemma DeviceWriteStore(s: State)
    requires CanDResponse(s) && s.dma == DmInArmed && ApartFromDma(s) && s.dst == DFill && s.dkind == KStore
    ensures Alike(DevWrite(DResponse(s)), DResponse(DevWrite(s)))
  {
    DeviceWriteVersions(s);
    DeviceWriteUnclean(s);
  }

  lemma DeviceWriteTake(s: State)
    requires CanDResponse(s) && s.dma == DmInArmed && ApartFromDma(s)
    ensures Alike(DevWrite(DResponse(s)), DResponse(DevWrite(s)))
  {
    if s.dst == DFill && s.dkind == KStore { DeviceWriteStore(s); }
  }

  lemma DeviceReadTake(s: State)
    requires CanDResponse(s) && ApartFromDma(s)
    ensures DevRead(DResponse(s)) == DResponse(DevRead(s))
    ensures SnpPost(DResponse(s)) == DResponse(SnpPost(s))
  {}

  lemma OtherTakeCommutes(c: Config, s: State, e: Step)
    requires Ready(c, s) && CanDResponse(s) && Enabled(c, Queued, s, e)
    requires !L2Step(e) && !Idles(e) && !e.StDResponse?
    ensures TakeCommutes(c, s, e)
  {
    TakeGuard(c, s, e);
    match e
    case StIMiss(a) => MissTake(s, a);
    case StISync => SyncTake(s);
    case StIProbe => IProbeTake(s);
    case StIFill => ResponseFill(s);
    case StDevWrite => IsApart(c, s); DeviceWriteTake(s);
    case StDevRead => IsApart(c, s); DeviceReadTake(s);
    case StSnpPost => IsApart(c, s); DeviceReadTake(s);
  }

  lemma TakeFirst(c: Config, s: State, e: Step)
    requires Ready(c, s) && CanDResponse(s) && Enabled(c, Queued, s, e) && !Idles(e) && !e.StDResponse?
    ensures TakeCommutes(c, s, e)
  {
    if L2Step(e) { L2TakeCommutes(c, s, e); } else { OtherTakeCommutes(c, s, e); }
  }

  // ------------------------------------------------------------------ taking everything first

  predicate Takes(e: Step) { e.StDResponse? || e.StIFill? }

  lemma FillsFirst(c: Config, s: State, e: Step)
    requires Ready(c, s) && Enabled(c, Queued, s, e) && !Idles(e) && !Takes(e)
    ensures Inv(c, TakeI(s)) && Enabled(c, Queued, TakeI(s), e)
    ensures Taken(Next(c, Queued, TakeI(s), e)) == Taken(Next(c, Queued, s, e))
  {
    if s.rspI.Full? {
      CacheFillKeeps(c, s);
      FillFirst(c, s, e);
    }
  }

  lemma TakenAnyway(n: State)
    requires CanDResponse(n)
    ensures Taken(DResponse(n)) == Taken(n)
  {
    if n.rspI.Full? { ResponseFill(n); }
  }

  lemma NothingLeft(s: State)
    ensures Clear(Taken(s))
  {}

  lemma ResponsesFirst(c: Config, s: State, e: Step)
    requires Ready(c, s) && Enabled(c, Queued, s, e) && !Idles(e) && !Takes(e)
    ensures Inv(c, TakeD(s)) && Enabled(c, Queued, TakeD(s), e)
    ensures Alike(Taken(Next(c, Queued, TakeD(s), e)), Taken(Next(c, Queued, s, e)))
  {
    if s.rspD.Full? {
      ResponseKeeps(c, s);
      TakeFirst(c, s, e);
      TakenAlike(Next(c, Queued, DResponse(s), e), DResponse(Next(c, Queued, s, e)));
      TakenAnyway(Next(c, Queued, s, e));
    }
  }

  /** e, taken in u, does what it does in s, up to responses that are waiting. */
  ghost predicate SameStepFrom(c: Config, s: State, u: State, e: Step) {
    && Inv(c, u) && Enabled(c, Queued, s, e) && Enabled(c, Queued, u, e)
    && Alike(Taken(Next(c, Queued, u, e)), Taken(Next(c, Queued, s, e)))
  }

  lemma FillsFirstSame(c: Config, s: State, e: Step)
    requires Ready(c, s) && Enabled(c, Queued, s, e) && !Idles(e) && !Takes(e)
    ensures SameStepFrom(c, s, TakeI(s), e)
  {
    FillsFirst(c, s, e);
  }

  lemma ResponsesFirstSame(c: Config, s: State, e: Step)
    requires Ready(c, s) && Enabled(c, Queued, s, e) && !Idles(e) && !Takes(e)
    ensures SameStepFrom(c, s, TakeD(s), e)
  {
    ResponsesFirst(c, s, e);
  }

  lemma SameStepThen(c: Config, s: State, u: State, v: State, e: Step)
    requires SameStepFrom(c, s, u, e) && SameStepFrom(c, u, v, e)
    ensures SameStepFrom(c, s, v, e)
  {}

  /** A step of s is a step of s with all responses taken, and leads to the same. */
  lemma TakenFirst(c: Config, s: State, e: Step)
    requires Ready(c, s) && Enabled(c, Queued, s, e) && !Idles(e) && !Takes(e)
    ensures SameStepFrom(c, s, Taken(s), e)
  {
    FillsFirstSame(c, s, e);
    ResponsesFirstSame(c, TakeI(s), e);
    SameStepThen(c, s, TakeI(s), Taken(s), e);
  }

  // ------------------------------------------------------------------ runs

  lemma GuardNow(c: Config, s: State, e: Step)
    requires Clear(s) && Enabled(c, Queued, s, e)
    ensures Enabled(c, SameStep, s, e)
  {}

  lemma DeliveredIsTaken(n: State, t: State)
    requires Delivers(n, t)
    ensures t == Taken(n)
  {}

  lemma StepReduces(c: Config, s: State, e: Step, t: State)
    requires Ready(c, s) && Enabled(c, Queued, s, e) && !Idles(e) && !Takes(e)
    requires Calm(c, t) && Alike(Taken(s), t)
    ensures Enabled(c, SameStep, t, e) && Alike(Taken(Next(c, Queued, s, e)), Next(c, SameStep, t, e))
  {
    TakenFirst(c, s, e);
    NothingLeft(s);
    StepAlike(c, Taken(s), t, e);
    GuardNow(c, t, e);
    StepLater(c, t, e);
    DeliveredIsTaken(Next(c, Queued, t, e), Next(c, SameStep, t, e));
    TakenAlike(Next(c, Queued, Taken(s), e), Next(c, Queued, t, e));
  }

  /** Taking a response, or only looking, is nothing to the other system. */
  lemma QuietStep(c: Config, s: State, e: Step)
    requires Enabled(c, Queued, s, e) && (Idles(e) || Takes(e))
    ensures Taken(Next(c, Queued, s, e)) == Taken(s)
  {
    if e.StDResponse? { TakenAnyway(s); }
  }

  /** One step of the queued system is one step of the other, or none. */
  lemma StepFollowed(c: Config, s: State, e: Step, t: State) returns (fs: seq<Step>, t': State)
    requires Ready(c, s) && Enabled(c, Queued, s, e) && Calm(c, t) && Alike(Taken(s), t)
    ensures Run(c, SameStep, t, fs, t') && Calm(c, t') && Alike(Taken(Next(c, Queued, s, e)), t')
  {
    if Idles(e) || Takes(e) {
      QuietStep(c, s, e);
      fs, t' := [], t;
    } else {
      StepReduces(c, s, e, t);
      CalmStepKeeps(c, t, e);
      RunOne(c, SameStep, t, e);
      fs, t' := [e], Next(c, SameStep, t, e);
    }
  }

  lemma {:induction false} RunReduces(c: Config, s: State, es: seq<Step>, s': State, t: State)
    returns (fs: seq<Step>, t': State)
    requires Ready(c, s) && Run(c, Queued, s, es, s') && Calm(c, t) && Alike(Taken(s), t)
    ensures Run(c, SameStep, t, fs, t') && Alike(Taken(s'), t')
    decreases |es|
  {
    if es == [] { return [], t; }
    StepKeeps(c, s, es[0]);
    var first, u := StepFollowed(c, s, es[0], t);
    var rest;
    rest, t' := RunReduces(c, Next(c, Queued, s, es[0]), es[1..], s', u);
    RunAppend(c, SameStep, t, first, u, rest, t');
    fs := first + rest;
  }

  /** Whatever queued delivery reaches, same-step delivery reaches with the waiting responses taken. */
  lemma QueuedReachable(c: Config, s: State) returns (t: State)
    requires c.Valid() && Reachable(c, Queued, s)
    ensures Reachable(c, SameStep, t) && Alike(Taken(s), t)
  {
    var es :| Run(c, Queued, Start(), es, s);
    StartGood(c, Queued);
    var fs;
    fs, t := RunReduces(c, Start(), es, s, Start());
  }
}

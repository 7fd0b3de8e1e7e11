/** What the core's operations and the device's writes do, told by states and steps: which steps make a
    new version of an address, which mark it written or synchronised, and that what the L1D has begun
    it carries through.  */
module Operations {
  import opened Protocol
  import opened Invariant
  import opened DeliveryOrder
  import opened Safety
  import opened Coherence

  // ------------------------------------------------------------------ versions

  /** The L1D receives, in the step from s to t, the line it missed for a store to x. */
  predicate StoreFilled(s: State, t: State, x: Addr) {
    s.dst == DFill && s.dkind == KStore && s.da == x && t.dst == DIdle
  }

  /** The core writes x: a store hit, an uncached store, or a store miss whose line arrives. */
  predicate CoreStores(s: State, e: Step, t: State, x: Addr) {
    e == StStoreHit(x) || e == StUStore(x) || StoreFilled(s, t, x)
  }

  predicate DeviceStores(s: State, e: Step, x: Addr) { e.StDevWrite? && s.daddr == x }

  /** A write back of x that the core asked for has been completed. */
  predicate WrittenBack(s: State, t: State, x: Addr) {
    s.dst == DOp && s.dop == CoChwb && s.da == x && t.dst == DIdle
  }

  /** What the step e from s to t does to what software may rely on about x. */
  ghost predicate Moves(s: State, e: Step, t: State, x: Addr) {
    && At(t.latest, x) == (if CoreStores(s, e, t, x) || DeviceStores(s, e, x) then At(s.latest, x) + 1
                           else At(s.latest, x))
    && (x in t.unclean <==>
          CoreStores(s, e, t, x) || (x in s.unclean && !DeviceStores(s, e, x) && !WrittenBack(s, t, x)))
    && (x in t.incoh <==>
          if e.StISync? then x in s.unclean || InWindow(s, x)
          else CoreStores(s, e, t, x) || DeviceStores(s, e, x) || x in s.incoh)
  }

  /** What a step leaves alone that neither the core nor the device writes in. */
  ghost predicate SameVersions(s: State, t: State) {
    t.latest == s.latest && t.unclean == s.unclean && t.incoh == s.incoh
  }

  /** What the L1D is doing. */
  ghost predicate SameWork(s: State, t: State) {
    t.dst == s.dst && t.dkind == s.dkind && t.da == s.da && t.dop == s.dop && t.dsd == s.dsd
  }

  ghost predicate Silent(s: State, t: State) { SameVersions(s, t) && SameWork(s, t) && t.l1d == s.l1d }

  ghost predicate SameTransfer(s: State, t: State) { t.dma == s.dma && t.daddr == s.daddr }

  /** A queued response only fills a slot. */
  lemma AnswerSilent(s: State, u: State, x: Src, d: Ver, z: L2St)
    requires Silent(s, u) && SameTransfer(s, u)
    ensures Silent(s, Respond(Queued, u, x, d).(l2st := z)) && SameTransfer(s, Respond(Queued, u, x, d).(l2st := z))
  {}

  lemma ServeDropSilent(c: Config, s: State)
    requires s.w.r.op in {OpINVL, OpPGDROP, OpULW, OpUSW}
    ensures Silent(s, L2Serve(c, Queued, s)) && SameTransfer(s, L2Serve(c, Queued, s))
  {
    if s.w.r.op == OpINVL {
      AnswerSilent(s, WriteBackDrop(c, s, s.w.r.a), s.w.src, 0, L2Idle);
    } else if s.w.r.op == OpPGDROP {
      AnswerSilent(s, DropOnly(c, s, s.w.r.a), s.w.src, 0, L2Idle);
    }
  }

  lemma SnoopDropSilent(c: Config, s: State)
    requires s.w.r.op == OpSnpDrop
    ensures Silent(s, L2Serve(c, Queued, s))
    ensures var t := L2Serve(c, Queued, s);
            t.l2st == L2Idle && t.daddr == s.daddr && t.dma == (if s.dma == DmInDrop then DmIdle else s.dma)
  {}

  lemma ServeWriteBackSilent(c: Config, s: State)
    requires s.w.r.op == OpWB
    ensures Silent(s, L2Serve(c, Queued, s)) && SameTransfer(s, L2Serve(c, Queued, s))
  {
    ServeWBIs(c, Queued, s);
    AnswerSilent(s, DeliveryOrder.WrittenBack(c, s), s.w.src, 0, L2Idle);
  }

  lemma ServeMergeSilent(c: Config, s: State)
    requires s.w.r.op == OpSW && L2Hit(c, s, s.w.r.a)
    ensures Silent(s, L2Serve(c, Queued, s)) && SameTransfer(s, L2Serve(c, Queued, s))
  {}

  lemma ServeMissSilent(c: Config, s: State)
    requires s.w.r.op in {OpLW, OpSW} && !L2Hit(c, s, s.w.r.a)
    ensures Silent(s, L2Serve(c, Queued, s)) && SameTransfer(s, L2Serve(c, Queued, s))
  {}

  lemma ServeFillSilent(c: Config, s: State)
    requires s.w.r.op == OpLW && L2Hit(c, s, s.w.r.a)
    ensures Silent(s, L2Serve(c, Queued, s)) && SameTransfer(s, L2Serve(c, Queued, s))
  {
    ServeFillIs(c, Queued, s);
    AnswerSilent(s, SetLine(c, s, s.w.r.a, Granted(c, s)), s.w.src, LineOf(c, s, s.w.r.a).d, L2Idle);
  }

  lemma ServeLineSilent(c: Config, s: State)
    requires s.w.r.op in {OpLW, OpSW}
    ensures Silent(s, L2Serve(c, Queued, s)) && SameTransfer(s, L2Serve(c, Queued, s))
  {
    if !L2Hit(c, s, s.w.r.a) { ServeMissSilent(c, s); }
    else if s.w.r.op == OpLW { ServeFillSilent(c, s); }
    else { ServeMergeSilent(c, s); }
  }

  lemma ServeSnoopSilent(c: Config, s: State)
    requires s.w.r.op == OpSnpWbinv
    ensures Silent(s, L2Serve(c, Queued, s))
  {
    if Latched(s, s.w.r.a) { assert Silent(s, Absorb(c, Queued, s, s.w.r.a)); }
  }

  lemma ServeSilently(c: Config, s: State)
    ensures Silent(s, L2Serve(c, Queued, s))
    ensures s.w.r.op !in {OpSnpWbinv, OpSnpDrop} ==> SameTransfer(s, L2Serve(c, Queued, s))
  {
    if s.w.r.op == OpWB { ServeWriteBackSilent(c, s); }
    else if s.w.r.op in {OpLW, OpSW} { ServeLineSilent(c, s); }
    else if s.w.r.op == OpSnpWbinv { ServeSnoopSilent(c, s); }
    else if s.w.r.op == OpSnpDrop { SnoopDropSilent(c, s); }
    else { ServeDropSilent(c, s); }
  }

  lemma CheckSilent(c: Config, s: State)
    ensures Silent(s, L2DoCheck(c, Queued, s))
  {
    if !ProbeDrop(c, s) && !ProbeVictim(c, s) { ServeSilently(c, s); }
  }

  lemma PurgeSilent(c: Config, s: State)
    ensures Silent(s, L2Purge(c, s))
  {}

  lemma LineSilent(c: Config, s: State)
    ensures Silent(s, L2DoReload(c, s)) && Silent(s, ProbeAcks(c, s)) && Silent(s, FlushStart(s))
  {}

  lemma AcceptSilent(s: State, x: Src)
    requires CanL2Accept(Queued, s, x)
    ensures Silent(s, L2Accept(Queued, s, x))
  {
    var r := if x == SD then s.reqD.v else s.reqI.v;
    var t := s.(reqD := if x == SD then Empty else s.reqD, reqI := if x == SI then Empty else s.reqI,
                w := Work(x, r), probed := false);
    AnswerSilent(s, t, x, 0, L2Check);
  }

  lemma UncachedSilent(s: State)
    ensures Silent(s, L2Uncached(Queued, s))
  {
    AnswerSilent(s, SetMem(s, s.w.r.a, s.w.r.d), s.w.src, 0, L2Idle);
    AnswerSilent(s, s, s.w.src, At(s.mem, s.w.r.a), L2Idle);
  }

  /** The steps of the L2, and the steps that only look. */
  predicate OutsideL1D(e: Step) {
    || e.StL2Accept? || e.StL2Purge? || e.StL2Check? || e.StL2Reload? || e.StL2Uncached? || e.StAcceptSnoop?
    || e.StProbeAcks? || e.StFlushStart? || e.StLoadHit? || e.StFetchHit? || e.StIMiss? || e.StIFill? || e.StIProbe?
    || e.StSnpPre? || e.StSnpPost? || e.StDevRead?
  }

  lemma RespondingSilent(c: Config, s: State, e: Step)
    requires Enabled(c, Queued, s, e) && Responds(e)
    ensures Silent(s, Next(c, Queued, s, e))
  {
    if e.StL2Accept? { AcceptSilent(s, e.x); }
    else if e.StL2Check? { CheckSilent(c, s); }
    else { UncachedSilent(s); }
  }

  lemma LineStepSilent(c: Config, s: State, e: Step)
    requires Enabled(c, Queued, s, e) && (e.StL2Purge? || e.StL2Reload? || e.StProbeAcks? || e.StFlushStart?)
    ensures Silent(s, Next(c, Queued, s, e))
  {
    if e.StL2Purge? { PurgeSilent(c, s); } else { LineSilent(c, s); }
  }

  lemma L2Silent(c: Config, s: State, e: Step)
    requires Enabled(c, Queued, s, e) && OutsideL1D(e)
    ensures Silent(s, Next(c, Queued, s, e))
  {
    if Responds(e) { RespondingSilent(c, s, e); }
    else if e.StL2Purge? || e.StL2Reload? || e.StProbeAcks? || e.StFlushStart? { LineStepSilent(c, s, e); }
  }

  lemma StoreMoves(s: State, a: Addr, x: Addr)
    requires CanStoreHit(s, a)
    ensures Moves(s, StStoreHit(a), StoreHit(s, a), x)
    ensures StoreHit(s, a).l1d == L1Line(LVD, a, At(s.latest, a) + 1)
  {}

  lemma UStoreMoves(s: State, a: Addr, x: Addr)
    requires CanUStore(s, a)
    ensures Moves(s, StUStore(a), UStore(s, a), x)
  {}

  lemma ResponseMoves(s: State, x: Addr)
    requires CanDResponse(s) && Waiting(s)
    ensures Moves(s, StDResponse, DResponse(s), x)
  {}

  lemma DeviceMoves(c: Config, s: State, x: Addr)
    requires CanDevWrite(c, s)
    ensures Moves(s, StDevWrite, DevWrite(s), x)
  {}

  lemma SyncMoves(c: Config, s: State, x: Addr)
    requires CanISync(c, s)
    ensures Moves(s, StISync, ISync(s), x)
  {
    assert InWindow(s, x) ==> x == s.daddr;
  }

  lemma DeviceOrSyncMoves(c: Config, s: State, e: Step, x: Addr)
    requires Enabled(c, Queued, s, e) && (e.StDevWrite? || e.StISync?)
    ensures Moves(s, e, Next(c, Queued, s, e), x)
  {
    if e.StDevWrite? { DeviceMoves(c, s, x); } else { SyncMoves(c, s, x); }
  }

  predicate GoesOn(e: Step) { e.StDReload? || e.StDUncIssue? || e.StDProbe? || e.StFlushSet? }

  predicate Begins(e: Step) {
    e.StDMiss? || e.StCacheOp? || e.StULoad? || e.StUStore? || e.StL1Walk? || e.StXpgPre? || e.StXpgDrop?
  }

  lemma BeginsQuietly(c: Config, s: State, e: Step)
    requires Enabled(c, Queued, s, e) && Begins(e) && !e.StUStore?
    ensures SameVersions(s, Next(c, Queued, s, e)) && s.dst == DIdle
  {}

  lemma IssueQuietly(s: State)
    ensures SameVersions(s, DoDReload(s)) && SameVersions(s, DoDUncIssue(s))
  {}

  lemma AnswerProbeQuietly(s: State)
    requires CanDProbe(s)
    ensures SameVersions(s, DProbe(s)) && SameWork(s, DProbe(s))
  {}

  lemma FlushQuietly(c: Config, s: State)
    requires Control(c, s) && CanFlushSet(s)
    ensures SameVersions(s, FlushSet(c, s)) && s.dst == DFlushL2
  {}

  lemma RestQuietly(c: Config, s: State, e: Step)
    requires Control(c, s) && Enabled(c, Queued, s, e) && GoesOn(e)
    ensures SameVersions(s, Next(c, Queued, s, e)) && (s.dst in {DFill, DOp} ==> Next(c, Queued, s, e).dst == s.dst)
  {
    match e
    case StDProbe => AnswerProbeQuietly(s);
    case StFlushSet => FlushQuietly(c, s);
    case _ => IssueQuietly(s);
  }

  /** The step is none that writes or synchronises, and completes nothing. */
  lemma QuietMoves(s: State, e: Step, t: State, x: Addr)
    requires SameVersions(s, t) && (s.dst in {DFill, DOp} ==> t.dst == s.dst)
    requires !e.StStoreHit? && !e.StUStore? && !e.StDevWrite? && !e.StISync?
    ensures Moves(s, e, t, x)
  {}

  lemma QuietStepMoves(c: Config, s: State, e: Step, x: Addr)
    requires Ready(c, s) && Enabled(c, Queued, s, e) && (OutsideL1D(e) || Begins(e) || GoesOn(e)) && !e.StUStore?
    ensures Moves(s, e, Next(c, Queued, s, e), x)
  {
    if OutsideL1D(e) { L2Silent(c, s, e); }
    else if Begins(e) { BeginsQuietly(c, s, e); }
    else { RestQuietly(c, s, e); }
    QuietMoves(s, e, Next(c, Queued, s, e), x);
  }

  lemma QueuedMoves(c: Config, s: State, e: Step, x: Addr)
    requires Ready(c, s) && Enabled(c, Queued, s, e)
    ensures Moves(s, e, Next(c, Queued, s, e), x)
  {
    if e.StStoreHit? { StoreMoves(s, e.a, x); }
    else if e.StUStore? { UStoreMoves(s, e.a, x); }
    else if e.StDResponse? { ResponseMoves(s, x); }
    else if e.StDevWrite? || e.StISync? { DeviceOrSyncMoves(c, s, e, x); }
    else { QuietStepMoves(c, s, e, x); }
  }

  /** A step that sends a response, and the L1 that takes it in the same step. */
  lemma DeliveredMoves(s: State, e: Step, n: State, t: State, x: Addr)
    requires Silent(s, n) && Responds(e) && Delivers(n, t) && (n.rspD.Full? ==> Waiting(n))
    ensures Moves(s, e, t, x)
  {
    if n.rspD.Full? { ResponseMoves(n, x); } else { QuietMoves(s, e, t, x); }
  }

  lemma ResponseMovesAtOnce(c: Config, s: State, e: Step, x: Addr)
    requires c.Valid() && Calm(c, s) && Enabled(c, SameStep, s, e) && Responds(e)
    ensures Moves(s, e, Next(c, SameStep, s, e), x)
  {
    ResponseLater(c, s, e);
    StepKeeps(c, s, e);
    RespondingSilent(c, s, e);
    DeliveredMoves(s, e, Next(c, Queued, s, e), Next(c, SameStep, s, e), x);
  }

  lemma StepMoves(c: Config, m: Delivery, s: State, e: Step, x: Addr)
    requires c.Valid() && Good(c, m, s) && Enabled(c, m, s, e)
    ensures Moves(s, e, Next(c, m, s, e), x)
  {
    if m.Queued? {
      QueuedMoves(c, s, e, x);
    } else if Responds(e) {
      ResponseMovesAtOnce(c, s, e, x);
    } else {
      GuardLater(c, s, e);
      NoResponse(c, s, e);
      QueuedMoves(c, s, e, x);
    }
  }

  /** In every reachable state and for every step: an address has a new version exactly when the core
      or the device writes it, and is written (not synchronised) exactly as long as software must
      take it to be.  */
  lemma VersionsMove(c: Config, m: Delivery, s: State, e: Step, x: Addr)
    requires c.Valid() && Reachable(c, m, s) && Enabled(c, m, s, e)
    ensures Moves(s, e, Next(c, m, s, e), x)
  {
    ReachableGood(c, m, s);
    StepMoves(c, m, s, e, x);
  }

  // ------------------------------------------------------------------ what is begun is carried through

  /** What the L1D turns to when step e finds it idle. */
  ghost predicate TurnsTo(s: State, e: Step, t: State) {
    match e
    case StDMiss(k, a) => t.dkind == k && t.da == a && t.dst == (if s.l1d.st == LVD then DVict else DFill)
    case StCacheOp(o, a) => t.dop == o && t.da == a && t.dst == DOp
    case StULoad(a) => t.dop == CoUload && t.da == a && t.dst in {DUncWb, DUnc}
    case StUStore(a) => t.dop == CoUstore && t.da == a && t.dst in {DUncWb, DUnc} && t.dsd == At(s.latest, a) + 1
    case StXpgPre(a, _) => t.dop == CoXpgWbinv && t.da == a && t.dst == DOp
    case StXpgDrop => t.dop == CoXpgInv && t.da == s.daddr && t.dst == DOp
    case StL1Walk => t.dst == (if s.l1d.st == LVD then DFlushWb else DFlushL2)
    case _ => t.dst == DIdle
  }

  /** From one part of its work to the next: the victim first, then what was asked for. */
  predicate Follows(d: DSt, e: DSt) {
    match d
    case DVict => e == DReload
    case DReload => e == DFill
    case DUncWb => e == DUncIssue
    case DUncIssue => e == DUnc
    case DFlushWb => e == DFlushL2
    case _ => false
  }

  /** The L1D's work is done: a missed line is there, with the store in it if it was for one. */
  ghost predicate Ends(s: State, t: State) {
    && s.dst in {DFill, DOp, DUnc, DFlushL2} && t.dst == DIdle
    && (s.dst == DFill && s.dkind == KStore ==> t.l1d == L1Line(LVD, s.da, At(s.latest, s.da) + 1))
    && (s.dst == DFill && s.dkind != KStore ==> t.l1d == L1Line(LV, s.da, t.l1d.d))
  }

  ghost predicate CarriesOn(s: State, t: State) {
    || Ends(s, t)
    || (t.dkind == s.dkind && t.da == s.da && t.dop == s.dop && t.dsd == s.dsd
        && (t.dst == s.dst || Follows(s.dst, t.dst)))
  }

  ghost predicate Works(s: State, e: Step, t: State) {
    if s.dst == DIdle then TurnsTo(s, e, t) else CarriesOn(s, t)
  }

  lemma BeginsWork(c: Config, s: State, e: Step)
    requires Enabled(c, Queued, s, e) && Begins(e)
    ensures Works(s, e, Next(c, Queued, s, e))
  {}

  lemma ResponseWorks(s: State)
    requires CanDResponse(s) && Waiting(s)
    ensures CarriesOn(s, DResponse(s))
  {}

  lemma IssueWorks(s: State)
    ensures s.dst == DReload ==> CarriesOn(s, DoDReload(s))
    ensures s.dst == DUncIssue ==> CarriesOn(s, DoDUncIssue(s))
  {}

  lemma FlushWorks(c: Config, s: State)
    requires Control(c, s) && CanFlushSet(s)
    ensures CarriesOn(s, FlushSet(c, s)) && s.dst != DIdle
  {}

  lemma RestWorks(c: Config, s: State, e: Step)
    requires Control(c, s) && Enabled(c, Queued, s, e) && GoesOn(e)
    ensures Works(s, e, Next(c, Queued, s, e))
  {
    match e
    case StDProbe => AnswerProbeQuietly(s);
    case StFlushSet => FlushWorks(c, s);
    case _ => IssueWorks(s);
  }

  lemma SilentWorks(c: Config, s: State, e: Step)
    requires Enabled(c, Queued, s, e) && OutsideL1D(e)
    ensures Works(s, e, Next(c, Queued, s, e))
  {
    L2Silent(c, s, e);
  }

  lemma QueuedWorks(c: Config, s: State, e: Step)
    requires Ready(c, s) && Enabled(c, Queued, s, e)
    ensures Works(s, e, Next(c, Queued, s, e))
  {
    if OutsideL1D(e) { SilentWorks(c, s, e); }
    else if Begins(e) { BeginsWork(c, s, e); }
    else if GoesOn(e) { RestWorks(c, s, e); }
    else if e.StDResponse? { ResponseWorks(s); }
  }

  lemma DeliveredWorks(s: State, e: Step, n: State, t: State)
    requires Silent(s, n) && Responds(e) && Delivers(n, t) && (n.rspD.Full? ==> Waiting(n))
    ensures Works(s, e, t)
  {
    if n.rspD.Full? { ResponseWorks(n); }
  }

  lemma ResponseWorksAtOnce(c: Config, s: State, e: Step)
    requires c.Valid() && Calm(c, s) && Enabled(c, SameStep, s, e) && Responds(e)
    ensures Works(s, e, Next(c, SameStep, s, e))
  {
    ResponseLater(c, s, e);
    StepKeeps(c, s, e);
    RespondingSilent(c, s, e);
    DeliveredWorks(s, e, Next(c, Queued, s, e), Next(c, SameStep, s, e));
  }

  lemma StepWorks(c: Config, m: Delivery, s: State, e: Step)
    requires c.Valid() && Good(c, m, s) && Enabled(c, m, s, e)
    ensures Works(s, e, Next(c, m, s, e))
  {
    if m.Queued? {
      QueuedWorks(c, s, e);
    } else if Responds(e) {
      ResponseWorksAtOnce(c, s, e);
    } else {
      GuardLater(c, s, e);
      NoResponse(c, s, e);
      QueuedWorks(c, s, e);
    }
  }

  /** In every reachable state and for every step: an idle L1D turns to what the core asks, and then
      goes through the parts of this work, for this address, until it is done; a missed line is then
      there, and a store that missed is in it.  A store hit is in the line at once.  */
  lemma WorkIsCarriedThrough(c: Config, m: Delivery, s: State, e: Step)
    requires c.Valid() && Reachable(c, m, s) && Enabled(c, m, s, e)
    ensures Works(s, e, Next(c, m, s, e))
    ensures e.StStoreHit? ==> Next(c, m, s, e).l1d == L1Line(LVD, e.a, At(s.latest, e.a) + 1)
  {
    ReachableGood(c, m, s);
    StepWorks(c, m, s, e);
    if e.StStoreHit? { StoreMoves(s, e.a, e.a); }
  }

  // ------------------------------------------------------------------ the L1D's line

  /** The steps that take the L1D's line from it: a miss or a flush, if the line is clean, what uses the line
      otherwise than cached, a probe of it, and the acceptance of its data as a victim.  */
  predicate LosesLine(s: State, e: Step, t: State) {
    match e
    case StDMiss(_, _) => s.l1d.st != LVD
    case StL1Walk => s.l1d.st != LVD
    case StCacheOp(_, a) => DHit(s, a)
    case StULoad(a) => DHit(s, a)
    case StUStore(a) => DHit(s, a)
    case StXpgPre(a, _) => DHit(s, a)
    case StXpgDrop => DHit(s, s.daddr)
    case StDProbe => s.prbD.Full? && DHit(s, s.prbD.v)
    case _ => s.dst in {DVict, DFlushWb} && t.dst != s.dst
  }

  /** What step e does to the L1D's line, but for a store hit and the arrival of a line. */
  ghost predicate KeepsLine(s: State, e: Step, t: State) {
    e.StStoreHit? || (s.dst == DFill && t.dst != DFill)
    || t.l1d == if LosesLine(s, e, t) then s.l1d.(st := LI) else s.l1d
  }

  lemma MissKeepsLine(s: State, k: DKind, a: Addr)
    requires s.dst == DIdle
    ensures KeepsLine(s, StDMiss(k, a), DMiss(s, k, a)) && KeepsLine(s, StL1Walk, L1Walk(s))
  {}

  lemma UseKeepsLine(s: State, o: COp, a: Addr)
    requires s.dst == DIdle
    ensures KeepsLine(s, StCacheOp(o, a), CacheOp(s, o, a)) && KeepsLine(s, StULoad(a), ULoad(s, a))
    ensures KeepsLine(s, StUStore(a), UStore(s, a))
  {}

  lemma PageKeepsLine(s: State, a: Addr, into: bool)
    requires s.dst == DIdle
    ensures KeepsLine(s, StXpgPre(a, into), XpgPre(s, a, into)) && KeepsLine(s, StXpgDrop, XpgDrop(s))
  {}

  lemma BeginsKeepLine(c: Config, s: State, e: Step)
    requires Enabled(c, Queued, s, e) && Begins(e)
    ensures KeepsLine(s, e, Next(c, Queued, s, e))
  {
    match e
    case StDMiss(k, a) => MissKeepsLine(s, k, a);
    case StL1Walk => MissKeepsLine(s, KLoad, 0);
    case StCacheOp(o, a) => UseKeepsLine(s, o, a);
    case StULoad(a) => UseKeepsLine(s, CoNone, a);
    case StUStore(a) => UseKeepsLine(s, CoNone, a);
    case StXpgPre(a, into) => PageKeepsLine(s, a, into);
    case StXpgDrop => PageKeepsLine(s, 0, false);
  }

  lemma ResponseKeepsLine(s: State)
    requires CanDResponse(s) && Waiting(s)
    ensures KeepsLine(s, StDResponse, DResponse(s))
  {}

  lemma IssueKeepsLine(c: Config, s: State)
    ensures s.dst == DReload ==> KeepsLine(s, StDReload, DoDReload(s))
    ensures s.dst == DUncIssue ==> KeepsLine(s, StDUncIssue, DoDUncIssue(s))
    ensures s.dst == DFlushL2 ==> KeepsLine(s, StFlushSet, FlushSet(c, s))
  {}

  lemma ProbeKeepsLine(s: State)
    requires CanDProbe(s)
    ensures KeepsLine(s, StDProbe, DProbe(s))
  {}

  lemma RestKeepsLine(c: Config, s: State, e: Step)
    requires Control(c, s) && Enabled(c, Queued, s, e) && GoesOn(e)
    ensures KeepsLine(s, e, Next(c, Queued, s, e))
  {
    if e.StDProbe? { ProbeKeepsLine(s); } else { IssueKeepsLine(c, s); }
  }

  lemma SilentKeepsLine(s: State, e: Step, t: State)
    requires OutsideL1D(e) && Silent(s, t)
    ensures KeepsLine(s, e, t)
  {}

  lemma QueuedKeepsLine(c: Config, s: State, e: Step)
    requires Ready(c, s) && Enabled(c, Queued, s, e)
    ensures KeepsLine(s, e, Next(c, Queued, s, e))
  {
    if OutsideL1D(e) {
      L2Silent(c, s, e);
      SilentKeepsLine(s, e, Next(c, Queued, s, e));
    } else if Begins(e) {
      BeginsKeepLine(c, s, e);
    } else if GoesOn(e) {
      RestKeepsLine(c, s, e);
    } else if e.StDResponse? {
      ResponseKeepsLine(s);
    }
  }

  lemma DeliveredKeepsLine(s: State, e: Step, n: State, t: State)
    requires Silent(s, n) && Responds(e) && Delivers(n, t) && (n.rspD.Full? ==> Waiting(n))
    ensures KeepsLine(s, e, t)
  {
    if n.rspD.Full? { ResponseKeepsLine(n); }
  }

  lemma ResponseKeepsLineAtOnce(c: Config, s: State, e: Step)
    requires c.Valid() && Calm(c, s) && Enabled(c, SameStep, s, e) && Responds(e)
    ensures KeepsLine(s, e, Next(c, SameStep, s, e))
  {
    ResponseLater(c, s, e);
    StepKeeps(c, s, e);
    RespondingSilent(c, s, e);
    DeliveredKeepsLine(s, e, Next(c, Queued, s, e), Next(c, SameStep, s, e));
  }

  lemma StepKeepsLine(c: Config, m: Delivery, s: State, e: Step)
    requires c.Valid() && Good(c, m, s) && Enabled(c, m, s, e)
    ensures KeepsLine(s, e, Next(c, m, s, e))
  {
    if m.Queued? {
      QueuedKeepsLine(c, s, e);
    } else if Responds(e) {
      ResponseKeepsLineAtOnce(c, s, e);
    } else {
      GuardLater(c, s, e);
      NoResponse(c, s, e);
      QueuedKeepsLine(c, s, e);
    }
  }

  /** In every reachable state and for every step: the L1D loses its line exactly when it must. */
  lemma LineIsKept(c: Config, m: Delivery, s: State, e: Step)
    requires c.Valid() && Reachable(c, m, s) && Enabled(c, m, s, e)
    ensures KeepsLine(s, e, Next(c, m, s, e))
  {
    ReachableGood(c, m, s);
    StepKeepsLine(c, m, s, e);
  }

  // ------------------------------------------------------------------ the fetch side

  /** The steps that take the L1I's line from it: a miss, an I-sync, a flush and a probe of that line. */
  predicate LosesFetchLine(s: State, e: Step) {
    e.StIMiss? || e.StISync? || e.StL1Walk? || (e.StIProbe? && s.prbI.Full? && IHit(s, s.prbI.v))
  }

  /** What step e does to the fetch side: a miss asks for its address, and the wait for it ends with the line
      there; nothing else comes into the L1I, and it keeps its line but for those steps.  */
  ghost predicate Fetches(s: State, e: Step, t: State) {
    && (e.StIMiss? ==> !s.ifill && t.ifill && t.ia == e.a)
    && (!e.StIMiss? && !s.ifill ==> !t.ifill)
    && (if s.ifill && !t.ifill then t.l1i == L1Line(LV, s.ia, t.l1i.d)
        else t.l1i == if LosesFetchLine(s, e) then s.l1i.(st := LI) else s.l1i)
    && (s.ifill && t.ifill ==> t.ia == s.ia)
  }

  ghost predicate SameFetch(s: State, t: State) { t.ifill == s.ifill && t.ia == s.ia && t.l1i == s.l1i }

  predicate FetchStep(e: Step) { e.StIMiss? || e.StIFill? || e.StISync? || e.StIProbe? || e.StL1Walk? }

  lemma AnswerFetch(s: State, u: State, x: Src, d: Ver, z: L2St)
    requires SameFetch(s, u)
    ensures SameFetch(s, Respond(Queued, u, x, d).(l2st := z))
  {}

  lemma ServeDropFetch(c: Config, s: State)
    requires s.w.r.op in {OpINVL, OpPGDROP, OpSnpDrop, OpULW, OpUSW}
    ensures SameFetch(s, L2Serve(c, Queued, s))
  {
    if s.w.r.op == OpINVL {
      AnswerFetch(s, WriteBackDrop(c, s, s.w.r.a), s.w.src, 0, L2Idle);
    } else if s.w.r.op == OpPGDROP {
      AnswerFetch(s, DropOnly(c, s, s.w.r.a), s.w.src, 0, L2Idle);
    }
  }

  lemma ServeLineFetch(c: Config, s: State)
    requires s.w.r.op in {OpLW, OpSW, OpWB}
    ensures SameFetch(s, L2Serve(c, Queued, s))
  {
    if s.w.r.op == OpWB {
      ServeWBIs(c, Queued, s);
      AnswerFetch(s, DeliveryOrder.WrittenBack(c, s), s.w.src, 0, L2Idle);
    } else if s.w.r.op == OpLW && L2Hit(c, s, s.w.r.a) {
      ServeFillIs(c, Queued, s);
      AnswerFetch(s, SetLine(c, s, s.w.r.a, Granted(c, s)), s.w.src, LineOf(c, s, s.w.r.a).d, L2Idle);
    }
  }

  lemma ServeSnoopFetch(c: Config, s: State)
    requires s.w.r.op == OpSnpWbinv
    ensures SameFetch(s, L2Serve(c, Queued, s))
  {
    if Latched(s, s.w.r.a) { assert SameFetch(s, Absorb(c, Queued, s, s.w.r.a)); }
  }

  lemma CheckFetch(c: Config, s: State)
    ensures SameFetch(s, L2DoCheck(c, Queued, s))
  {
    if !ProbeDrop(c, s) && !ProbeVictim(c, s) {
      if s.w.r.op in {OpLW, OpSW, OpWB} { ServeLineFetch(c, s); }
      else if s.w.r.op == OpSnpWbinv { ServeSnoopFetch(c, s); }
      else { ServeDropFetch(c, s); }
    }
  }

  lemma AcceptFetch(s: State, x: Src)
    requires CanL2Accept(Queued, s, x)
    ensures SameFetch(s, L2Accept(Queued, s, x))
  {
    var r := if x == SD then s.reqD.v else s.reqI.v;
    var t := s.(reqD := if x == SD then Empty else s.reqD, reqI := if x == SI then Empty else s.reqI,
                w := Work(x, r), probed := false);
    AnswerFetch(s, t, x, 0, L2Check);
  }

  lemma UncachedFetch(s: State)
    ensures SameFetch(s, L2Uncached(Queued, s))
  {
    AnswerFetch(s, SetMem(s, s.w.r.a, s.w.r.d), s.w.src, 0, L2Idle);
    AnswerFetch(s, s, s.w.src, At(s.mem, s.w.r.a), L2Idle);
  }

  lemma RespondingFetch(c: Config, s: State, e: Step)
    requires Enabled(c, Queued, s, e) && Responds(e)
    ensures SameFetch(s, Next(c, Queued, s, e))
  {
    if e.StL2Accept? { AcceptFetch(s, e.x); }
    else if e.StL2Check? { CheckFetch(c, s); }
    else { UncachedFetch(s); }
  }

  lemma PurgeFetch(c: Config, s: State)
    ensures SameFetch(s, L2Purge(c, s))
  {}

  lemma LineFetch(c: Config, s: State)
    ensures SameFetch(s, L2DoReload(c, s)) && SameFetch(s, ProbeAcks(c, s)) && SameFetch(s, FlushStart(s))
  {}

  lemma FlushSetFetch(c: Config, s: State)
    ensures SameFetch(s, FlushSet(c, s))
  {}

  predicate LineStep(e: Step) { e.StL2Purge? || e.StL2Reload? || e.StProbeAcks? || e.StFlushStart? || e.StFlushSet? }

  lemma LineStepFetch(c: Config, s: State, e: Step)
    requires Enabled(c, Queued, s, e) && LineStep(e)
    ensures SameFetch(s, Next(c, Queued, s, e))
  {
    if e.StL2Purge? { PurgeFetch(c, s); }
    else if e.StFlushSet? { FlushSetFetch(c, s); }
    else { LineFetch(c, s); }
  }

  lemma RequestFetch(s: State, k: DKind, o: COp, a: Addr, into: bool)
    ensures SameFetch(s, DMiss(s, k, a)) && SameFetch(s, CacheOp(s, o, a)) && SameFetch(s, ULoad(s, a))
    ensures SameFetch(s, XpgPre(s, a, into)) && SameFetch(s, XpgDrop(s))
  {}

  lemma StoreFetch(s: State, a: Addr)
    ensures SameFetch(s, StoreHit(s, a)) && SameFetch(s, UStore(s, a))
    ensures CanDResponse(s) ==> SameFetch(s, DResponse(s))
  {}

  lemma CoreFetch(c: Config, s: State, e: Step)
    requires Enabled(c, Queued, s, e) && (e.StStoreHit? || Begins(e) || e.StDResponse?) && !e.StL1Walk?
    ensures SameFetch(s, Next(c, Queued, s, e))
  {
    match e
    case StStoreHit(a) => StoreFetch(s, a);
    case StUStore(a) => StoreFetch(s, a);
    case StDResponse => StoreFetch(s, 0);
    case StDMiss(k, a) => RequestFetch(s, k, CoNone, a, false);
    case StCacheOp(o, a) => RequestFetch(s, KLoad, o, a, false);
    case StULoad(a) => RequestFetch(s, KLoad, CoNone, a, false);
    case StXpgPre(a, into) => RequestFetch(s, KLoad, CoNone, a, into);
    case StXpgDrop => RequestFetch(s, KLoad, CoNone, 0, false);
  }

  lemma IssueFetch(s: State, a: Addr, into: bool)
    ensures SameFetch(s, DoDReload(s)) && SameFetch(s, DoDUncIssue(s)) && SameFetch(s, DevWrite(s))
    ensures SameFetch(s, DevRead(s)) && SameFetch(s, SnpPre(s, a, into)) && SameFetch(s, SnpPost(s))
    ensures CanDProbe(s) ==> SameFetch(s, DProbe(s))
    ensures s.snp.Full? ==> SameFetch(s, AcceptSnoop(s))
  {}

  lemma DataSideFetch(c: Config, s: State, e: Step)
    requires Enabled(c, Queued, s, e) && !Responds(e) && !FetchStep(e) && !LineStep(e)
    requires !e.StStoreHit? && !Begins(e) && !e.StDResponse?
    ensures SameFetch(s, Next(c, Queued, s, e))
  {
    if e.StSnpPre? { IssueFetch(s, e.a, e.into); } else { IssueFetch(s, 0, false); }
  }

  lemma OtherFetch(c: Config, s: State, e: Step)
    requires Enabled(c, Queued, s, e) && !FetchStep(e)
    ensures SameFetch(s, Next(c, Queued, s, e))
  {
    if Responds(e) {
      RespondingFetch(c, s, e);
    } else if LineStep(e) {
      LineStepFetch(c, s, e);
    } else if e.StStoreHit? || Begins(e) || e.StDResponse? {
      CoreFetch(c, s, e);
    } else {
      DataSideFetch(c, s, e);
    }
  }

  lemma QueuedFetches(c: Config, s: State, e: Step)
    requires FetchPort(c, s) && Enabled(c, Queued, s, e)
    ensures Fetches(s, e, Next(c, Queued, s, e))
  {
    if FetchStep(e) {
      FetchStepFetches(c, s, e);
    } else {
      OtherFetch(c, s, e);
      SameFetches(s, e, Next(c, Queued, s, e));
    }
  }

  lemma FetchStepFetches(c: Config, s: State, e: Step)
    requires FetchPort(c, s) && Enabled(c, Queued, s, e) && FetchStep(e)
    ensures Fetches(s, e, Next(c, Queued, s, e))
  {}

  lemma SameFetches(s: State, e: Step, t: State)
    requires SameFetch(s, t) && !FetchStep(e)
    ensures Fetches(s, e, t)
  {}

  lemma DeliveredFetches(s: State, e: Step, n: State, t: State)
    requires SameFetch(s, n) && Responds(e) && Delivers(n, t) && (n.rspI.Full? ==> n.ifill)
    ensures Fetches(s, e, t)
  {}

  lemma ResponseFetchesAtOnce(c: Config, s: State, e: Step)
    requires c.Valid() && Calm(c, s) && Enabled(c, SameStep, s, e) && Responds(e)
    ensures Fetches(s, e, Next(c, SameStep, s, e))
  {
    ResponseLater(c, s, e);
    StepKeeps(c, s, e);
    RespondingFetch(c, s, e);
    DeliveredFetches(s, e, Next(c, Queued, s, e), Next(c, SameStep, s, e));
  }

  lemma StepFetches(c: Config, m: Delivery, s: State, e: Step)
    requires c.Valid() && Good(c, m, s) && Enabled(c, m, s, e)
    ensures Fetches(s, e, Next(c, m, s, e))
  {
    if m.Queued? {
      QueuedFetches(c, s, e);
    } else if Responds(e) {
      ResponseFetchesAtOnce(c, s, e);
    } else {
      GuardLater(c, s, e);
      NoResponse(c, s, e);
      QueuedFetches(c, s, e);
    }
  }

  /** In every reachable state and for every step: a fetch that misses waits for its line, and nothing but
      that line comes into the L1I.  */
  lemma FetchIsCarriedThrough(c: Config, m: Delivery, s: State, e: Step)
    requires c.Valid() && Reachable(c, m, s) && Enabled(c, m, s, e)
    ensures Fetches(s, e, Next(c, m, s, e))
  {
    ReachableGood(c, m, s);
    StepFetches(c, m, s, e);
  }

  // ------------------------------------------------------------------ the core is never refused

  lemma IdleIsFree(c: Config, s: State)
    requires Control(c, s) && s.dst == DIdle
    ensures s.reqD.Empty? && (!s.ifill ==> s.reqI.Empty?)
  {}

  lemma IdleTakesData(c: Config, m: Delivery, s: State, a: Addr)
    requires s.dst == DIdle && s.reqD.Empty? && !InWindow(s, a)
    ensures Enabled(c, m, s, if DHit(s, a) then StLoadHit(a) else StDMiss(KLoad, a))
    ensures Enabled(c, m, s, StULoad(a)) && Enabled(c, m, s, StCacheOp(CoChwb, a))
    ensures !(DHit(s, a) && s.l1d.st == LVD) ==> Enabled(c, m, s, StCacheOp(CoChinv, a))
    ensures !s.ifill ==> Enabled(c, m, s, StL1Walk)
  {}

  lemma IdleTakesStores(c: Config, m: Delivery, s: State, a: Addr)
    requires s.dst == DIdle && s.reqD.Empty? && !InWindow(s, a) && !OutWindow(s, a)
    ensures Enabled(c, m, s, if DHit(s, a) then StStoreHit(a) else StDMiss(KStore, a))
    ensures Enabled(c, m, s, StUStore(a))
  {}

  /** In every reachable state in which the L1D is idle it takes whatever the core does to an address that
      the device is not using: a load, a store, an uncached access, a cache operation or a flush.  */
  lemma IdleTakesAnything(c: Config, m: Delivery, s: State, a: Addr)
    requires c.Valid() && Reachable(c, m, s) && s.dst == DIdle && !InWindow(s, a)
    ensures Enabled(c, m, s, if DHit(s, a) then StLoadHit(a) else StDMiss(KLoad, a))
    ensures Enabled(c, m, s, StULoad(a)) && Enabled(c, m, s, StCacheOp(CoChwb, a))
    ensures !(DHit(s, a) && s.l1d.st == LVD) ==> Enabled(c, m, s, StCacheOp(CoChinv, a))
    ensures !OutWindow(s, a) ==>
              && Enabled(c, m, s, if DHit(s, a) then StStoreHit(a) else StDMiss(KStore, a))
              && Enabled(c, m, s, StUStore(a))
    ensures !s.ifill ==> Enabled(c, m, s, StL1Walk)
  {
    ReachableGood(c, m, s);
    IdleIsFree(c, s);
    IdleTakesData(c, m, s, a);
    if !OutWindow(s, a) { IdleTakesStores(c, m, s, a); }
  }

  /** And the fetch side, when it is not waiting, takes a fetch of such an address, unless its copy has not been
      synchronised, and an I-sync.  */
  lemma FetchIsTaken(c: Config, m: Delivery, s: State, a: Addr)
    requires c.Valid() && Reachable(c, m, s) && c.l1i && !s.ifill && !InWindow(s, a)
    ensures Enabled(c, m, s, StISync)
    ensures !IHit(s, a) ==> Enabled(c, m, s, StIMiss(a))
    ensures IHit(s, a) && a !in s.incoh ==> Enabled(c, m, s, StFetchHit(a))
  {
    ReachableGood(c, m, s);
    assert s.reqI.Empty?;
  }

  // ------------------------------------------------------------------ presence bits and probes

  /** The L2 answers, in the step from s to t, a load of the line in set i for x. */
  predicate Lends(c: Config, s: State, e: Step, t: State, x: Src, i: nat) {
    c.pres && e.StL2Check? && s.w.src == x && s.w.r.op == OpLW && i == c.setOf(s.w.r.a) && t.l2st == L2Idle
  }

  /** The L1D has given up the line in set i, by the writeback that the L2 merges in the step from s to t. */
  predicate GivenUp(c: Config, s: State, e: Step, t: State, i: nat) {
    e.StL2Check? && s.w.src == SD && s.w.r.op == OpSW && i == c.setOf(s.w.r.a) && t.l2st == L2Idle
  }

  predicate ProbeAnswered(c: Config, s: State, e: Step, i: nat) { e.StProbeAcks? && i == c.setOf(s.pa) }

  /** The presence bits of the line in set i, if it stays there. */
  ghost predicate NotesLine(c: Config, s: State, e: Step, t: State, i: nat) {
    var ln, after := LineAt(s.l2, i), LineAt(t.l2, i);
    ln.valid && after.valid && !e.StL2Reload? ==>
      && (after.pd <==> if ProbeAnswered(c, s, e, i) || GivenUp(c, s, e, t, i) then false
                        else ln.pd || Lends(c, s, e, t, SD, i))
      && (after.pi <==> !ProbeAnswered(c, s, e, i) && (ln.pi || Lends(c, s, e, t, SI, i)))
  }

  /** Which presence bits come up and go down, and whom a new probe asks. */
  ghost predicate Notes(c: Config, s: State, e: Step, t: State) {
    && (forall i: nat :: NotesLine(c, s, e, t, i))
    && (forall i: nat :: LineAt(t.l2, i).pd ==> LineAt(s.l2, i).pd || Lends(c, s, e, t, SD, i))
    && (forall i: nat :: LineAt(t.l2, i).pi ==> LineAt(s.l2, i).pi || Lends(c, s, e, t, SI, i))
    && (t.l2st == L2Probe && s.l2st != L2Probe ==>
          && (t.pexpD <==> !c.pres || LineOf(c, s, t.pa).pd)
          && (t.pexpI <==> c.l1i && (!c.pres || LineOf(c, s, t.pa).pi))
          && (t.pexpD ==> t.prbD == Full(t.pa)) && (t.pexpI ==> t.prbI == Full(t.pa)))
  }

  /** A step that takes bits away only with their lines, and probes nobody. */
  ghost predicate Fades(s: State, t: State) {
    && (forall i: nat :: LineAt(s.l2, i).valid && LineAt(t.l2, i).valid ==>
          LineAt(t.l2, i).pd == LineAt(s.l2, i).pd && LineAt(t.l2, i).pi == LineAt(s.l2, i).pi)
    && (forall i: nat :: LineAt(t.l2, i).pd ==> LineAt(s.l2, i).pd)
    && (forall i: nat :: LineAt(t.l2, i).pi ==> LineAt(s.l2, i).pi)
    && (t.l2st == L2Probe ==> s.l2st == L2Probe)
  }

  /** The steps that change the bits of a line that stays. */
  ghost predicate Changes(c: Config, s: State, e: Step) {
    e.StProbeAcks? || (e.StL2Check? && s.w.r.op in {OpLW, OpSW} && L2Hit(c, s, s.w.r.a))
  }

  lemma FadesNotes(c: Config, s: State, e: Step, t: State)
    requires Fades(s, t) && !Changes(c, s, e)
    requires e.StL2Check? && s.w.r.op in {OpLW, OpSW} ==> t.l2st != L2Idle
    ensures Notes(c, s, e, t)
  {
    forall i: nat ensures NotesLine(c, s, e, t, i) { }
  }

  lemma ProbesNote(c: Config, s: State, e: Step, a: Addr, ret: L2St)
    requires ret !in {L2Probe, L2Idle} && !e.StProbeAcks?
    ensures Notes(c, s, e, SendProbes(c, s, a, ret))
  {
    forall i: nat ensures NotesLine(c, s, e, SendProbes(c, s, a, ret), i) { }
  }

  lemma AnswerFades(s: State, u: State, x: Src, d: Ver, z: L2St)
    requires Fades(s, u) && z != L2Probe
    ensures Fades(s, Respond(Queued, u, x, d).(l2st := z))
  {}

  lemma DropFades(c: Config, s: State, a: Addr)
    ensures Fades(s, WriteBackDrop(c, s, a)) && Fades(s, DropOnly(c, s, a))
  {}

  lemma ServeDropNotes(c: Config, s: State)
    requires s.l2st == L2Check && s.w.r.op in {OpINVL, OpPGDROP, OpSnpDrop, OpULW, OpUSW}
    ensures Fades(s, L2Serve(c, Queued, s))
  {
    var a := s.w.r.a;
    DropFades(c, s, a);
    if s.w.r.op == OpINVL { AnswerFades(s, WriteBackDrop(c, s, a), s.w.src, 0, L2Idle); }
    else if s.w.r.op == OpPGDROP { AnswerFades(s, DropOnly(c, s, a), s.w.src, 0, L2Idle); }
  }

  lemma ServeWriteBackNotes(c: Config, s: State)
    requires s.w.r.op == OpWB
    ensures Fades(s, L2Serve(c, Queued, s))
  {
    ServeWBIs(c, Queued, s);
    AnswerFades(s, DeliveryOrder.WrittenBack(c, s), s.w.src, 0, L2Idle);
  }

  lemma ServeWriteNotes(c: Config, s: State)
    requires s.w.r.op in {OpSW, OpLW} && !L2Hit(c, s, s.w.r.a)
    ensures Fades(s, L2Serve(c, Queued, s)) && L2Serve(c, Queued, s).l2st == L2Reload
  {}

  /** What a merged writeback leaves in its set. */
  lemma ServeMergeNotes(c: Config, s: State)
    requires s.l2st == L2Check && s.w.r.op == OpSW && L2Hit(c, s, s.w.r.a)
    ensures Notes(c, s, StL2Check, L2Serve(c, Queued, s))
  {
    var t, ln := L2Serve(c, Queued, s), LineOf(c, s, s.w.r.a);
    assert t.l2st == L2Idle && t.l2 == s.l2[c.setOf(s.w.r.a) := LineOf(c, t, s.w.r.a)];
    assert LineOf(c, t, s.w.r.a).pd == (ln.pd && s.w.src != SD) && LineOf(c, t, s.w.r.a).pi == ln.pi;
    forall i: nat ensures NotesLine(c, s, StL2Check, t, i) { }
  }

  lemma AbsorbFades(c: Config, s: State)
    requires Latched(s, s.w.r.a)
    ensures Fades(s, Absorb(c, Queued, s, s.w.r.a))
    ensures forall i: nat :: LineAt(s.l2, i).valid ==> LineAt(Absorb(c, Queued, s, s.w.r.a).l2, i).valid
  {}

  lemma ServeSnoopNotes(c: Config, s: State)
    requires s.w.r.op == OpSnpWbinv
    ensures Fades(s, L2Serve(c, Queued, s))
  {
    if Latched(s, s.w.r.a) {
      AbsorbFades(c, s);
      FinishFades(c, Absorb(c, Queued, s, s.w.r.a));
      FadesTwice(s, Absorb(c, Queued, s, s.w.r.a), L2Serve(c, Queued, s));
    } else {
      FinishFades(c, s);
    }
  }

  lemma FinishFades(c: Config, s: State)
    ensures Fades(s, FinishWbinv(c, s))
  {
    DropFades(c, s, s.w.r.a);
  }

  lemma FadesTwice(s: State, t: State, u: State)
    requires Fades(s, t) && Fades(t, u) && forall i: nat :: LineAt(s.l2, i).valid ==> LineAt(t.l2, i).valid
    ensures Fades(s, u)
  {}

  /** What an answered load leaves in its set. */
  lemma ServeLoadNotes(c: Config, s: State)
    requires s.l2st == L2Check && s.w.r.op == OpLW && L2Hit(c, s, s.w.r.a)
    ensures Notes(c, s, StL2Check, L2Serve(c, Queued, s))
  {
    var t, ln := L2Serve(c, Queued, s), LineOf(c, s, s.w.r.a);
    assert t.l2st == L2Idle && t.l2 == s.l2[c.setOf(s.w.r.a) := LineOf(c, t, s.w.r.a)];
    assert LineOf(c, t, s.w.r.a).pd == (ln.pd || (c.pres && s.w.src == SD));
    assert LineOf(c, t, s.w.r.a).pi == (ln.pi || (c.pres && s.w.src == SI));
    forall i: nat ensures NotesLine(c, s, StL2Check, t, i) { }
  }

  lemma ServeNotes(c: Config, s: State)
    requires s.l2st == L2Check
    ensures Notes(c, s, StL2Check, L2Serve(c, Queued, s))
  {
    if s.w.r.op == OpLW && L2Hit(c, s, s.w.r.a) {
      ServeLoadNotes(c, s);
    } else if s.w.r.op == OpSW && L2Hit(c, s, s.w.r.a) {
      ServeMergeNotes(c, s);
    } else {
      if s.w.r.op in {OpLW, OpSW} { ServeWriteNotes(c, s); }
      else if s.w.r.op == OpWB { ServeWriteBackNotes(c, s); }
      else if s.w.r.op == OpSnpWbinv { ServeSnoopNotes(c, s); }
      else { ServeDropNotes(c, s); }
      FadesNotes(c, s, StL2Check, L2Serve(c, Queued, s));
    }
  }

  lemma CheckNotes(c: Config, s: State)
    requires s.l2st == L2Check
    ensures Notes(c, s, StL2Check, L2DoCheck(c, Queued, s))
  {
    if ProbeDrop(c, s) {
      ProbesNote(c, s, StL2Check, s.w.r.a, L2Check);
    } else if ProbeVictim(c, s) {
      ProbesNote(c, s, StL2Check, LineOf(c, s, s.w.r.a).tag, L2Check);
    } else {
      ServeNotes(c, s);
    }
  }

  lemma PurgeNotes(c: Config, s: State)
    requires s.l2st == L2Upurge
    ensures Notes(c, s, StL2Purge, L2Purge(c, s))
  {
    if L2Hit(c, s, s.w.r.a) && !s.probed { ProbesNote(c, s, StL2Purge, s.w.r.a, L2Upurge); }
    else { DropFades(c, s, s.w.r.a); }
  }

  lemma FlushSetNotes(c: Config, s: State)
    requires s.l2st == L2Flush
    ensures Notes(c, s, StFlushSet, FlushSet(c, s))
  {
    var ln := LineAt(s.l2, s.fset);
    if ln.valid && !s.probed { ProbesNote(c, s, StFlushSet, ln.tag, L2Flush); }
    else { FadesNotes(c, s, StFlushSet, FlushSet(c, s)); }
  }

  lemma ReloadNotes(c: Config, s: State)
    ensures Notes(c, s, StL2Reload, L2DoReload(c, s))
  {
    forall i: nat ensures NotesLine(c, s, StL2Reload, L2DoReload(c, s), i) { }
  }

  lemma AcksNote(c: Config, s: State)
    requires s.l2st == L2Probe && s.pret != L2Probe
    ensures Notes(c, s, StProbeAcks, ProbeAcks(c, s))
  {
    forall i: nat ensures NotesLine(c, s, StProbeAcks, ProbeAcks(c, s), i) { }
  }

  lemma LineNotes(c: Config, s: State, e: Step)
    requires Engine(c, s) && Enabled(c, Queued, s, e) && (e.StL2Reload? || e.StProbeAcks? || e.StFlushStart?)
    ensures Notes(c, s, e, Next(c, Queued, s, e))
  {
    if e.StL2Reload? { ReloadNotes(c, s); }
    else if e.StProbeAcks? { AcksNote(c, s); }
    else { FadesNotes(c, s, e, FlushStart(s)); }
  }

  lemma AcceptNotes(s: State, x: Src)
    requires CanL2Accept(Queued, s, x)
    ensures Fades(s, L2Accept(Queued, s, x))
  {
    var r := if x == SD then s.reqD.v else s.reqI.v;
    var t := s.(reqD := if x == SD then Empty else s.reqD, reqI := if x == SI then Empty else s.reqI,
                w := Work(x, r), probed := false);
    AnswerFades(s, t, x, 0, L2Check);
    AnswerFades(s, t, x, 0, L2Upurge);
  }

  lemma UncachedNotes(s: State)
    ensures Fades(s, L2Uncached(Queued, s))
  {
    AnswerFades(s, SetMem(s, s.w.r.a, s.w.r.d), s.w.src, 0, L2Idle);
    AnswerFades(s, s, s.w.src, At(s.mem, s.w.r.a), L2Idle);
  }

  lemma L2Notes(c: Config, s: State, e: Step)
    requires Engine(c, s) && Enabled(c, Queued, s, e) && (Responds(e) || LineStep(e))
    ensures Notes(c, s, e, Next(c, Queued, s, e))
  {
    if e.StL2Check? { CheckNotes(c, s); }
    else if e.StL2Purge? { PurgeNotes(c, s); }
    else if e.StFlushSet? { FlushSetNotes(c, s); }
    else if e.StL2Reload? || e.StProbeAcks? || e.StFlushStart? { LineNotes(c, s, e); }
    else {
      if e.StL2Accept? { AcceptNotes(s, e.x); } else { UncachedNotes(s); }
      FadesNotes(c, s, e, Next(c, Queued, s, e));
    }
  }

  ghost predicate SameL2(s: State, t: State) { t.l2 == s.l2 && (t.l2st == L2Probe ==> s.l2st == L2Probe) }

  lemma BeginningKeepsL2(c: Config, s: State, e: Step)
    requires Enabled(c, Queued, s, e) && Begins(e)
    ensures SameL2(s, Next(c, Queued, s, e))
  {}

  lemma CoreKeepsL2(c: Config, s: State, e: Step)
    requires Enabled(c, Queued, s, e) && (e.StStoreHit? || Begins(e) || e.StDResponse?)
    ensures SameL2(s, Next(c, Queued, s, e))
  {
    if Begins(e) { BeginningKeepsL2(c, s, e); }
  }

  lemma RestKeepsL2(c: Config, s: State, e: Step)
    requires Enabled(c, Queued, s, e) && !Responds(e) && !LineStep(e) && !e.StStoreHit? && !Begins(e) && !e.StDResponse?
    ensures SameL2(s, Next(c, Queued, s, e))
  {}

  lemma QueuedNotes(c: Config, s: State, e: Step)
    requires Engine(c, s) && Enabled(c, Queued, s, e)
    ensures Notes(c, s, e, Next(c, Queued, s, e))
  {
    if Responds(e) || LineStep(e) {
      L2Notes(c, s, e);
    } else {
      if e.StStoreHit? || Begins(e) || e.StDResponse? { CoreKeepsL2(c, s, e); } else { RestKeepsL2(c, s, e); }
      FadesNotes(c, s, e, Next(c, Queued, s, e));
    }
  }

  /** What an L1 that takes a response leaves alone. */
  ghost predicate SameEngine(n: State, t: State) {
    && t.l2 == n.l2 && t.l2st == n.l2st && t.pa == n.pa
    && t.pexpD == n.pexpD && t.pexpI == n.pexpI && t.prbD == n.prbD && t.prbI == n.prbI
  }

  lemma ResponseKeepsEngine(n: State)
    ensures CanDResponse(n) ==> SameEngine(n, DResponse(n))
    ensures CanIFill(n) ==> SameEngine(n, IFill(n))
  {}

  lemma SameLineNotes(c: Config, s: State, e: Step, n: State, t: State, i: nat)
    requires NotesLine(c, s, e, n, i) && t.l2 == n.l2 && t.l2st == n.l2st
    ensures NotesLine(c, s, e, t, i)
  {}

  lemma SameEngineNotes(c: Config, s: State, e: Step, n: State, t: State)
    requires Notes(c, s, e, n) && SameEngine(n, t)
    ensures Notes(c, s, e, t)
  {
    forall i: nat ensures NotesLine(c, s, e, t, i) { SameLineNotes(c, s, e, n, t, i); }
  }

  lemma DeliveredNotes(c: Config, s: State, e: Step, n: State, t: State)
    requires Notes(c, s, e, n) && Delivers(n, t)
    ensures Notes(c, s, e, t)
  {
    ResponseKeepsEngine(n);
    SameEngineNotes(c, s, e, n, t);
  }

  lemma StepNotes(c: Config, m: Delivery, s: State, e: Step)
    requires c.Valid() && Good(c, m, s) && Enabled(c, m, s, e)
    ensures Notes(c, s, e, Next(c, m, s, e))
  {
    if m.Queued? {
      QueuedNotes(c, s, e);
    } else {
      StepLater(c, s, e);
      QueuedNotes(c, s, e);
      DeliveredNotes(c, s, e, Next(c, Queued, s, e), Next(c, m, s, e));
    }
  }

  /** In every reachable state and for every step: a presence bit comes up when the L2 answers a load of
      that line for that L1, stays until the L1s have answered a probe of the line, the L1D has given it up by
      a writeback, or the line goes, and a probe asks exactly the L1s whose bit is up (all of them without bits).  */
  lemma PresenceIsNoted(c: Config, m: Delivery, s: State, e: Step)
    requires c.Valid() && Reachable(c, m, s) && Enabled(c, m, s, e)
    ensures Notes(c, s, e, Next(c, m, s, e))
  {
    ReachableGood(c, m, s);
    StepNotes(c, m, s, e);
  }

  // ------------------------------------------------------------------ the device's transfers

  /** The L2 completes, in the step from s to t, a snoop that it ran for the device. */
  predicate SnoopDone(s: State, t: State, op: Op) {
    s.l2st == L2Check && s.w.r.op == op && t.l2st == L2Idle
  }

  /** The core's page drop after a transfer into memory is complete. */
  predicate PageDropped(s: State, t: State) { s.dst == DOp && s.dop == CoXpgInv && t.dst == DIdle }

  /** How the step e from s to t moves a transfer on. */
  ghost predicate Transfers(s: State, e: Step, t: State) {
    match e
    case StXpgPre(a, into) =>
      s.dma == DmIdle && t.dma == (if into then DmInArmed else DmOutArmed) && t.daddr == a
    case StSnpPre(a, into) =>
      s.dma == DmIdle && t.dma == (if into then DmInPre else DmOutPre) && t.daddr == a
      && t.snp == Full(Snp(OpSnpWbinv, a))
    case StDevWrite =>
      s.dma == DmInArmed && t.dma == DmInDone && t.daddr == s.daddr && At(t.mem, s.daddr) == At(s.latest, s.daddr) + 1
    case StXpgDrop => s.dma == DmInDone && t.dma == DmInDrop && t.daddr == s.daddr
    case StSnpPost =>
      s.dma == DmInDone && t.dma == DmInDrop && t.daddr == s.daddr && t.snp == Full(Snp(OpSnpDrop, s.daddr))
    case StDevRead => s.dma == DmOutArmed && t.dma == DmIdle && t.daddr == s.daddr
    case _ =>
      t.daddr == s.daddr
      && t.dma == (if SnoopDone(s, t, OpSnpWbinv) then (if s.dma == DmInPre then DmInArmed else DmOutArmed)
                   else if SnoopDone(s, t, OpSnpDrop) || PageDropped(s, t) then DmIdle
                   else s.dma)
  }

  lemma AgentTransfers(c: Config, s: State, e: Step)
    requires Enabled(c, Queued, s, e) && DmaStep(e)
    ensures Transfers(s, e, Next(c, Queued, s, e))
  {}

  lemma SnoopArms(c: Config, s: State)
    requires Snoops(c, s) && s.l2st == L2Check && s.w.r.op == OpSnpWbinv
    ensures Transfers(s, StL2Check, L2Serve(c, Queued, s))
  {
    assert Snooping(s);
    ServeSnoopSilent(c, s);
    if Latched(s, s.w.r.a) { assert SameTransfer(s, Absorb(c, Queued, s, s.w.r.a)); }
  }

  lemma SnoopDropTransfers(s: State, t: State)
    requires s.l2st == L2Check && s.w.r.op == OpSnpDrop && s.dma == DmInDrop
    requires Silent(s, t) && t.l2st == L2Idle && t.daddr == s.daddr && t.dma == DmIdle
    ensures Transfers(s, StL2Check, t)
  {}

  lemma SnoopTransfers(c: Config, s: State)
    requires Snoops(c, s) && s.l2st == L2Check && s.w.r.op in {OpSnpWbinv, OpSnpDrop}
    ensures Transfers(s, StL2Check, L2Serve(c, Queued, s))
  {
    if s.w.r.op == OpSnpWbinv { SnoopArms(c, s); } else {
      assert Snooping(s);
      SnoopDropSilent(c, s);
      SnoopDropTransfers(s, L2Serve(c, Queued, s));
    }
  }

  lemma CheckTransfers(c: Config, s: State)
    requires Snoops(c, s) && CanL2Check(Queued, s)
    ensures Transfers(s, StL2Check, L2DoCheck(c, Queued, s))
  {
    if ProbeDrop(c, s) || ProbeVictim(c, s) {
    } else if s.w.r.op in {OpSnpWbinv, OpSnpDrop} {
      SnoopTransfers(c, s);
    } else {
      ServeSilently(c, s);
    }
  }

  lemma ResponseTransfers(s: State)
    requires CanDResponse(s) && Waiting(s)
    ensures Transfers(s, StDResponse, DResponse(s))
  {}

  lemma WriteTransfers(c: Config, s: State, e: Step)
    requires Ready(c, s) && Enabled(c, Queued, s, e) && Writes(e)
    ensures Transfers(s, e, Next(c, Queued, s, e))
  {
    if e.StDResponse? { ResponseTransfers(s); }
  }

  lemma NoneCompleted(c: Config, s: State, e: Step)
    requires Ready(c, s) && Enabled(c, Queued, s, e) && !e.StL2Check? && !DmaStep(e) && !Writes(e)
    ensures !PageDropped(s, Next(c, Queued, s, e))
    ensures s.l2st == L2Check ==> Next(c, Queued, s, e).l2st == L2Check
  {
    if OutsideL1D(e) { L2Silent(c, s, e); }
    else if Begins(e) { BeginsQuietly(c, s, e); }
    else if GoesOn(e) { RestQuietly(c, s, e); }
  }

  /** A step that moves no transfer on completes none. */
  lemma SilentTransfers(c: Config, s: State, e: Step)
    requires Ready(c, s) && Enabled(c, Queued, s, e) && !e.StL2Check? && !DmaStep(e) && !Writes(e)
    ensures Transfers(s, e, Next(c, Queued, s, e))
  {
    SilentFrame(c, s, e);
    QueuedWorks(c, s, e);
    NoneCompleted(c, s, e);
  }

  lemma QueuedTransfers(c: Config, s: State, e: Step)
    requires Ready(c, s) && Enabled(c, Queued, s, e)
    ensures Transfers(s, e, Next(c, Queued, s, e))
  {
    if DmaStep(e) { AgentTransfers(c, s, e); }
    else if e.StL2Check? { CheckTransfers(c, s); }
    else if Writes(e) { WriteTransfers(c, s, e); }
    else { SilentTransfers(c, s, e); }
  }

  /** Taking a response moves no transfer on but by completing a page drop, and no snoop is running then. */
  lemma DeliveredTransfers(c: Config, s: State, e: Step, n: State, t: State)
    requires Responds(e) && Transfers(s, e, n) && Silent(s, n) && Delivers(n, t)
    requires PageOps(c, s) && Snoops(c, s) && (n.rspD.Full? ==> Waiting(n))
    ensures Transfers(s, e, t)
  {
    if n.rspD.Full? { ResponseTransfers(n); }
  }

  lemma ResponseTransfersAtOnce(c: Config, s: State, e: Step)
    requires c.Valid() && Calm(c, s) && Enabled(c, SameStep, s, e) && Responds(e)
    ensures Transfers(s, e, Next(c, SameStep, s, e))
  {
    ResponseLater(c, s, e);
    StepKeeps(c, s, e);
    RespondingSilent(c, s, e);
    QueuedTransfers(c, s, e);
    DeliveredTransfers(c, s, e, Next(c, Queued, s, e), Next(c, SameStep, s, e));
  }

  lemma StepTransfers(c: Config, m: Delivery, s: State, e: Step)
    requires c.Valid() && Good(c, m, s) && Enabled(c, m, s, e)
    ensures Transfers(s, e, Next(c, m, s, e))
  {
    if m.Queued? {
      QueuedTransfers(c, s, e);
    } else if Responds(e) {
      ResponseTransfersAtOnce(c, s, e);
    } else {
      GuardLater(c, s, e);
      NoResponse(c, s, e);
      QueuedTransfers(c, s, e);
    }
  }

  /** In every reachable state and for every step: a transfer begins, is armed, written or read, dropped
      and completed by the steps that stand for this, in this order, and by no other.  */
  lemma TransfersInOrder(c: Config, m: Delivery, s: State, e: Step)
    requires c.Valid() && Reachable(c, m, s) && Enabled(c, m, s, e)
    ensures Transfers(s, e, Next(c, m, s, e))
  {
    ReachableGood(c, m, s);
    StepTransfers(c, m, s, e);
  }

  // ------------------------------------------------------------------ what an operation on a line leaves

  /** The L2 is at the step that drops the line it was asked to drop. */
  predicate Drops(c: Config, m: Delivery, s: State) {
    && CanL2Check(m, s) && !ProbeDrop(c, s)
    && s.w.r.op in {OpINVL, OpWB, OpPGDROP, OpSnpWbinv, OpSnpDrop}
  }

  /** What the L2's answer does to what is on its way down. */
  ghost predicate Answered(c: Config, s: State, t: State) {
    && t.l2st == L2Idle && t.packD == s.packD && (t.reqD == s.reqD || t.reqD.Empty?)
    && (s.w.r.op == OpSnpWbinv && Latched(s, s.w.r.a) ==> t.reqD.Empty?)
    && (s.w.src == SD ==> t.rspI == s.rspI)
    && (t.rspD.Full? && s.rspD.Empty? ==> s.w.r.op !in {OpSnpWbinv, OpSnpDrop} || Latched(s, s.w.r.a))
    && !L2Hit(c, t, s.w.r.a)
  }

  lemma CoreDropAnswered(c: Config, s: State)
    requires s.w.r.op in {OpINVL, OpPGDROP, OpSnpDrop}
    ensures Answered(c, s, L2Serve(c, Queued, s))
  {}

  lemma WriteBackAnswered(c: Config, s: State)
    requires s.w.r.op == OpWB
    ensures Answered(c, s, L2Serve(c, Queued, s))
  {
    ServeWBIs(c, Queued, s);
  }

  lemma SnoopAnswered(c: Config, s: State)
    requires s.w.r.op == OpSnpWbinv
    ensures Answered(c, s, L2Serve(c, Queued, s))
  {
    if Latched(s, s.w.r.a) {
      assert L2Serve(c, Queued, s) == FinishWbinv(c, Absorb(c, Queued, s, s.w.r.a));
    }
  }

  lemma DropAnswered(c: Config, s: State)
    requires Drops(c, Queued, s)
    ensures Answered(c, s, L2DoCheck(c, Queued, s))
  {
    if s.w.r.op == OpWB { WriteBackAnswered(c, s); }
    else if s.w.r.op == OpSnpWbinv { SnoopAnswered(c, s); }
    else { CoreDropAnswered(c, s); }
  }

  /** Before the drop the L1D does not have the line, nor is a newer value of it on its way but one
      that a snoop takes over.  */
  lemma NothingHeld(c: Config, s: State)
    requires Ready(c, s) && Drops(c, Queued, s)
    ensures !DHit(s, s.w.r.a) && s.packD.Empty? && s.w.src == SD
    ensures s.w.r.op !in {OpSnpWbinv, OpSnpDrop} || Latched(s, s.w.r.a) ==> s.dst != DFill
    ensures s.w.r.op != OpSnpWbinv ==> !Latched(s, s.w.r.a)
    ensures !(s.dop == CoUstore && s.da == s.w.r.a && s.dst in {DUncWb, DUncIssue, DUnc})
  {}

  lemma NothingAbove(c: Config, s: State, t: State)
    requires Ready(c, s) && Drops(c, Queued, s) && Answered(c, s, t) && Silent(s, t)
    ensures !Above(t, s.w.r.a) && !Pending(t, s.w.r.a)
  {
    NothingHeld(c, s);
  }

  lemma QueuedDropLeavesNothing(c: Config, s: State)
    requires Ready(c, s) && Drops(c, Queued, s)
    ensures Flushed(c, L2DoCheck(c, Queued, s), s.w.r.a)
  {
    var t := L2DoCheck(c, Queued, s);
    DropAnswered(c, s);
    CheckSilent(c, s);
    NothingAbove(c, s, t);
    StepKeeps(c, s, StL2Check);
    assert Below(c, t, s.w.r.a);
  }

  lemma DeliveredDrop(c: Config, s: State, n: State, t: State)
    requires Ready(c, s) && Clear(s) && Drops(c, Queued, s) && Answered(c, s, n) && Silent(s, n)
    requires Delivers(n, t) && Flushed(c, n, s.w.r.a)
    ensures Flushed(c, t, s.w.r.a)
  {
    NothingHeld(c, s);
  }

  /** A write back, an invalidation, a page drop or a snoop, when the L2 carries it out: no cache has the
      line then, and memory has its latest version.  */
  lemma DropLeavesNothing(c: Config, m: Delivery, s: State)
    requires c.Valid() && Reachable(c, m, s) && Drops(c, m, s)
    ensures Flushed(c, L2DoCheck(c, m, s), s.w.r.a)
  {
    ReachableGood(c, m, s);
    QueuedDropLeavesNothing(c, s);
    if m.SameStep? {
      CheckLater(c, s);
      CheckSilent(c, s);
      DropAnswered(c, s);
      DeliveredDrop(c, s, L2DoCheck(c, Queued, s), L2DoCheck(c, m, s));
    }
  }

  /** While the L2 makes an uncached access no cache has the line. */
  lemma UncachedIsAlone(c: Config, m: Delivery, s: State)
    requires c.Valid() && Reachable(c, m, s) && s.l2st == L2Unc
    ensures !L2Hit(c, s, s.w.r.a) && !DHit(s, s.w.r.a) && !IHit(s, s.w.r.a)
  {
    ReachableGood(c, m, s);
  }
}

/** What holds in every state that any run of the protocol reaches, with either way of delivering
    responses, any number of addresses and L2 sets, and unbounded versions. */
module Safety {
  import opened Protocol
  import opened Invariant
  import opened ControlSteps
  import opened DataSteps
  import opened DeliveryOrder

  // ------------------------------------------------------------------ one step

  lemma SendProbesKeeps(c: Config, s: State, a: Addr)
    requires Ready(c, s) && ToProbe(c, s, a)
    ensures Inv(c, SendProbes(c, s, a, s.l2st))
  {
    ControlSendProbes(c, s, a);
    HoldingSendProbes(c, s, a);
    UpperSendProbes(c, s, a);
    LowerSendProbes(c, s, a);
  }

  lemma AcceptKeeps(c: Config, s: State, x: Src)
    requires Ready(c, s) && CanL2Accept(Queued, s, x)
    ensures Inv(c, L2Accept(Queued, s, x))
  {
    if x == SI {
      ControlAcceptI(c, s); DataAcceptI(c, s);
    } else if s.reqD.v.op == OpSW {
      ControlAcceptEarly(c, s); DataAcceptEarly(c, s);
    } else {
      ControlAcceptD(c, s); DataAcceptD(c, s);
    }
  }

  lemma PurgeKeeps(c: Config, s: State)
    requires Ready(c, s) && CanL2Purge(s)
    ensures Inv(c, L2Purge(c, s))
  {
    if L2Hit(c, s, s.w.r.a) && !s.probed {
      SendProbesKeeps(c, s, s.w.r.a);
    } else {
      ControlPurge(c, s);
      HoldingPurge(c, s);
      DataPurge(c, s);
    }
  }

  lemma ServeFillKeeps(c: Config, s: State)
    requires Ready(c, s) && Serves(c, s) && s.w.r.op == OpLW
    ensures Inv(c, L2Serve(c, Queued, s))
  {
    if !L2Hit(c, s, s.w.r.a) {
      ControlServeMiss(c, s);
      HoldingServeMiss(c, s);
      UpperServeMiss(c, s);
      LowerServeMiss(c, s);
    } else if s.w.src == SD {
      ControlServeFillSD(c, s);
      HoldingServeFillSD(c, s);
      DataServeFillSD(c, s);
    } else {
      ControlServeFillSI(c, s);
      HoldingServeFillSI(c, s);
      DataServeFillSI(c, s);
    }
  }

  lemma ServeWriteKeeps(c: Config, s: State)
    requires Ready(c, s) && Serves(c, s) && s.w.r.op == OpSW
    ensures Inv(c, L2Serve(c, Queued, s))
  {
    if L2Hit(c, s, s.w.r.a) {
      ControlServeWrite(c, s); DataServeWrite(c, s);
    } else {
      ControlServeMiss(c, s);
      HoldingServeMiss(c, s);
      UpperServeMiss(c, s);
      LowerServeMiss(c, s);
    }
  }

  lemma ServeSnoopKeeps(c: Config, s: State)
    requires Ready(c, s) && Serves(c, s)
    requires s.w.r.op in {OpSnpWbinv, OpSnpDrop}
    ensures Inv(c, L2Serve(c, Queued, s))
  {
    if s.w.r.op == OpSnpDrop {
      ControlServeSnpDrop(c, s);
      HoldingServeSnpDrop(c, s);
      DataServeSnpDrop(c, s);
    } else if Latched(s, s.w.r.a) {
      ControlServeAbsorb(c, s);
      HoldingServeAbsorb(c, s);
      UpperServeAbsorb(c, s);
      LowerServeAbsorb(c, s);
    } else {
      ControlServeWbinv(c, s);
      HoldingServeWbinv(c, s);
      DataServeWbinv(c, s);
    }
  }

  lemma ServeKeeps(c: Config, s: State)
    requires Ready(c, s) && Serves(c, s)
    ensures Inv(c, L2Serve(c, Queued, s))
  {
    match s.w.r.op
    case OpINVL =>
      ControlServeINVL(c, s);
      HoldingServeINVL(c, s);
      UpperServeINVL(c, s);
      LowerServeINVL(c, s);
    case OpPGDROP =>
      ControlServePGDROP(c, s);
      HoldingServePGDROP(c, s);
      UpperServePGDROP(c, s);
      LowerServePGDROP(c, s);
    case OpWB =>
      ControlServeWB(c, s);
      HoldingServeWB(c, s);
      UpperServeWB(c, s);
      LowerServeWB(c, s);
    case OpSnpWbinv => ServeSnoopKeeps(c, s);
    case OpSnpDrop => ServeSnoopKeeps(c, s);
    case OpLW => ServeFillKeeps(c, s);
    case OpSW => ServeWriteKeeps(c, s);
    case OpULW => assert false;
    case OpUSW => assert false;
  }

  lemma CheckKeeps(c: Config, s: State)
    requires Ready(c, s) && CanL2Check(Queued, s)
    ensures Inv(c, L2DoCheck(c, Queued, s))
  {
    if ProbeDrop(c, s) {
      SendProbesKeeps(c, s, s.w.r.a);
    } else if ProbeVictim(c, s) {
      assert Placed(c, s, c.setOf(s.w.r.a));
      SendProbesKeeps(c, s, LineOf(c, s, s.w.r.a).tag);
    } else {
      ServeKeeps(c, s);
    }
  }

  lemma UncachedKeeps(c: Config, s: State)
    requires Ready(c, s) && CanL2Uncached(Queued, s)
    ensures Inv(c, L2Uncached(Queued, s))
  {
    if s.w.r.op == OpUSW {
      ControlUncachedStore(c, s);
      HoldingUncachedStore(c, s);
      DataUncachedStore(c, s);
    } else {
      ControlUncachedLoad(c, s);
      HoldingUncachedLoad(c, s);
      DataUncachedLoad(c, s);
    }
  }

  lemma FlushSetKeeps(c: Config, s: State)
    requires Ready(c, s) && CanFlushSet(s)
    ensures Inv(c, FlushSet(c, s))
  {
    assert Placed(c, s, s.fset);
    if LineAt(s.l2, s.fset).valid && !s.probed {
      SendProbesKeeps(c, s, LineAt(s.l2, s.fset).tag);
    } else {
      ControlFlushSet(c, s);
      HoldingFlushSet(c, s);
      DataFlushSet(c, s);
    }
  }

  lemma ResponseKeeps(c: Config, s: State)
    requires Ready(c, s) && CanDResponse(s)
    ensures Inv(c, DResponse(s))
  {
    if s.dst == DFill {
      ControlFillResponse(c, s); DataFillResponse(c, s);
    } else {
      ControlOtherResponse(c, s);
      HoldingOtherResponse(c, s);
      UpperOtherResponse(c, s);
      LowerOtherResponse(c, s);
    }
  }

  lemma CacheOpKeeps(c: Config, s: State, o: COp, a: Addr)
    requires Ready(c, s) && CanCacheOp(s, o, a)
    ensures Inv(c, CacheOp(s, o, a))
  {
    ControlCacheOp(c, s, o, a);
    if DDirty(s, a) {
      DataCacheOpDirty(c, s, o, a);
    } else {
      QuietKeepsHolding(c, s, CacheOp(s, o, a));
      UpperCacheOpClean(c, s, o, a);
      LowerCacheOpClean(c, s, o, a);
    }
  }

  lemma RequestStepKeeps(c: Config, s: State, e: Step)
    requires Ready(c, s) && Enabled(c, Queued, s, e)
    requires e.StL2Accept? || e.StL2Purge? || e.StL2Check? || e.StL2Reload? || e.StL2Uncached? || e.StAcceptSnoop?
    ensures Inv(c, Next(c, Queued, s, e))
  {
    match e
    case StL2Accept(x) => AcceptKeeps(c, s, x);
    case StL2Purge => PurgeKeeps(c, s);
    case StL2Check => CheckKeeps(c, s);
    case StL2Reload =>
      ControlL2Reload(c, s);
      HoldingL2Reload(c, s);
      UpperL2Reload(c, s);
      LowerL2Reload(c, s);
    case StL2Uncached => UncachedKeeps(c, s);
    case StAcceptSnoop => ControlAcceptSnoop(c, s); DataAcceptSnoop(c, s);
  }

  lemma ProbeStepKeeps(c: Config, s: State, e: Step)
    requires Ready(c, s) && Enabled(c, Queued, s, e)
    requires e.StProbeAcks? || e.StFlushStart? || e.StFlushSet? || e.StDProbe? || e.StIProbe?
    ensures Inv(c, Next(c, Queued, s, e))
  {
    match e
    case StProbeAcks =>
      ControlProbeAcks(c, s);
      HoldingProbeAcks(c, s);
      UpperProbeAcks(c, s);
      LowerProbeAcks(c, s);
    case StFlushStart => ControlFlushStart(c, s); DataFlushStart(c, s);
    case StFlushSet => FlushSetKeeps(c, s);
    case StDProbe =>
      ControlDProbe(c, s);
      HoldingDProbe(c, s);
      UpperDProbe(c, s);
      LowerDProbe(c, s);
    case StIProbe => ControlIProbe(c, s); DataIProbe(c, s);
  }

  lemma UncachedStepKeeps(c: Config, s: State, e: Step)
    requires Ready(c, s) && Enabled(c, Queued, s, e) && (e.StULoad? || e.StUStore?)
    ensures Inv(c, Next(c, Queued, s, e))
  {
    match e
    case StULoad(a) =>
      ControlULoad(c, s, a);
      HoldingULoad(c, s, a);
      UpperULoad(c, s, a);
      LowerULoad(c, s, a);
    case StUStore(a) =>
      ControlUStore(c, s, a);
      HoldingUStore(c, s, a);
      UpperUStore(c, s, a);
      LowerUStore(c, s, a);
  }

  lemma CoreStepKeeps(c: Config, s: State, e: Step)
    requires Ready(c, s) && Enabled(c, Queued, s, e) && (e.StLoadHit? || e.StStoreHit? || e.StDMiss? || e.StCacheOp?)
    ensures Inv(c, Next(c, Queued, s, e))
  {
    match e
    case StLoadHit(_) =>
    case StStoreHit(a) => ControlStoreHit(c, s, a); DataStoreHit(c, s, a);
    case StDMiss(k, a) => ControlDMiss(c, s, k, a); DataDMiss(c, s, k, a);
    case StCacheOp(o, a) => CacheOpKeeps(c, s, o, a);
  }

  lemma CacheStepKeeps(c: Config, s: State, e: Step)
    requires Ready(c, s) && Enabled(c, Queued, s, e)
    requires e.StDResponse? || e.StDReload? || e.StDUncIssue? || e.StL1Walk?
    ensures Inv(c, Next(c, Queued, s, e))
  {
    match e
    case StDResponse => ResponseKeeps(c, s);
    case StDReload => ControlDReload(c, s); DataDReload(c, s);
    case StDUncIssue => ControlDUncIssue(c, s); DataDUncIssue(c, s);
    case StL1Walk => ControlL1Walk(c, s); DataL1Walk(c, s);
  }

  lemma FetchStepKeeps(c: Config, s: State, e: Step)
    requires Ready(c, s) && Enabled(c, Queued, s, e) && (e.StFetchHit? || e.StIMiss? || e.StIFill? || e.StISync?)
    ensures Inv(c, Next(c, Queued, s, e))
  {
    match e
    case StFetchHit(_) =>
    case StIMiss(a) => ControlIMiss(c, s, a); DataIMiss(c, s, a);
    case StIFill => ControlIFill(c, s); DataIFill(c, s);
    case StISync => ControlISync(c, s); DataISync(c, s);
  }

  lemma PageFlushKeeps(c: Config, s: State, e: Step)
    requires Ready(c, s) && Enabled(c, Queued, s, e) && (e.StXpgPre? || e.StXpgDrop?)
    ensures Inv(c, Next(c, Queued, s, e))
  {
    match e
    case StXpgPre(a, into) =>
      ControlXpgPre(c, s, a, into);
      HoldingXpgPre(c, s, a, into);
      UpperXpgPre(c, s, a, into);
      LowerXpgPre(c, s, a, into);
    case StXpgDrop =>
      ControlXpgDrop(c, s);
      HoldingXpgDrop(c, s);
      UpperXpgDrop(c, s);
      LowerXpgDrop(c, s);
  }

  lemma SnoopRequestKeeps(c: Config, s: State, e: Step)
    requires Ready(c, s) && Enabled(c, Queued, s, e) && (e.StSnpPre? || e.StSnpPost?)
    ensures Inv(c, Next(c, Queued, s, e))
  {
    match e
    case StSnpPre(a, into) => ControlSnpPre(c, s, a, into); DataSnpPre(c, s, a, into);
    case StSnpPost => ControlSnpPost(c, s); DataSnpPost(c, s);
  }

  lemma DeviceStepKeeps(c: Config, s: State, e: Step)
    requires Ready(c, s) && Enabled(c, Queued, s, e) && (e.StDevWrite? || e.StDevRead?)
    ensures Inv(c, Next(c, Queued, s, e))
  {
    match e
    case StDevWrite =>
      ControlDevWrite(c, s);
      HoldingDevWrite(c, s);
      UpperDevWrite(c, s);
      LowerDevWrite(c, s);
    case StDevRead => ControlDevRead(c, s); DataDevRead(c, s);
  }

  /** Every step of the system with queued responses keeps the invariant. */
  lemma StepKeeps(c: Config, s: State, e: Step)
    requires Ready(c, s) && Enabled(c, Queued, s, e)
    ensures Inv(c, Next(c, Queued, s, e))
  {
    if e.StL2Accept? || e.StL2Purge? || e.StL2Check? || e.StL2Reload? || e.StL2Uncached? || e.StAcceptSnoop? {
      RequestStepKeeps(c, s, e);
    } else if e.StProbeAcks? || e.StFlushStart? || e.StFlushSet? || e.StDProbe? || e.StIProbe? {
      ProbeStepKeeps(c, s, e);
    } else if e.StLoadHit? || e.StStoreHit? || e.StDMiss? || e.StCacheOp? {
      CoreStepKeeps(c, s, e);
    } else if e.StULoad? || e.StUStore? {
      UncachedStepKeeps(c, s, e);
    } else if e.StXpgPre? || e.StXpgDrop? {
      PageFlushKeeps(c, s, e);
    } else if e.StSnpPre? || e.StSnpPost? {
      SnoopRequestKeeps(c, s, e);
    } else if e.StDevWrite? || e.StDevRead? {
      DeviceStepKeeps(c, s, e);
    } else if e.StFetchHit? || e.StIMiss? || e.StIFill? || e.StISync? {
      FetchStepKeeps(c, s, e);
    } else {
      CacheStepKeeps(c, s, e);
    }
  }

  /** A step of the same-step system keeps the invariant and leaves nothing in a slot. */
  lemma CalmStepKeeps(c: Config, s: State, e: Step)
    requires c.Valid() && Calm(c, s) && Enabled(c, SameStep, s, e)
    ensures Calm(c, Next(c, SameStep, s, e))
  {
    StepLater(c, s, e);
    var n := Next(c, Queued, s, e);
    StepKeeps(c, s, e);
    if n.rspD.Full? {
      ResponseKeeps(c, n);
    } else if n.rspI.Full? {
      CacheFillKeeps(c, n);
    }
  }

  lemma CacheFillKeeps(c: Config, s: State)
    requires Ready(c, s) && CanIFill(s)
    ensures Inv(c, IFill(s))
  {
    FetchStepKeeps(c, s, StIFill);
  }

  // ------------------------------------------------------------------ whole runs

  ghost predicate Good(c: Config, m: Delivery, s: State) {
    Inv(c, s) && (m.SameStep? ==> Clear(s))
  }

  lemma StepGood(c: Config, m: Delivery, s: State, e: Step)
    requires c.Valid() && Good(c, m, s) && Enabled(c, m, s, e)
    ensures Good(c, m, Next(c, m, s, e))
  {
    if m.SameStep? { CalmStepKeeps(c, s, e); } else { StepKeeps(c, s, e); }
  }

  lemma StartGood(c: Config, m: Delivery)
    requires c.Valid()
    ensures Good(c, m, Start())
  {}

  lemma {:induction false} RunKeeps(c: Config, m: Delivery, s: State, es: seq<Step>, s': State)
    requires c.Valid() && Good(c, m, s) && Run(c, m, s, es, s')
    ensures Good(c, m, s')
    decreases |es|
  {
    if es != [] {
      StepGood(c, m, s, es[0]);
      RunKeeps(c, m, Next(c, m, s, es[0]), es[1..], s');
    }
  }

  lemma ReachableGood(c: Config, m: Delivery, s: State)
    requires c.Valid() && Reachable(c, m, s)
    ensures Good(c, m, s)
  {
    var es :| Run(c, m, Start(), es, s);
    StartGood(c, m);
    RunKeeps(c, m, Start(), es, s);
  }

  lemma RunCons(c: Config, m: Delivery, s: State, e: Step, es: seq<Step>, s': State)
    requires Enabled(c, m, s, e) && Run(c, m, Next(c, m, s, e), es, s')
    ensures Run(c, m, s, [e] + es, s')
  {
    assert ([e] + es)[1..] == es;
  }

  lemma RunOne(c: Config, m: Delivery, s: State, e: Step)
    requires Enabled(c, m, s, e)
    ensures Run(c, m, s, [e], Next(c, m, s, e))
  {
    assert [e][1..] == [];
  }

  lemma {:induction false} RunAppend(c: Config, m: Delivery, s: State, es: seq<Step>, t: State, fs: seq<Step>, u: State)
    requires Run(c, m, s, es, t) && Run(c, m, t, fs, u)
    ensures Run(c, m, s, es + fs, u)
    decreases |es|
  {
    if es == [] {
      assert es + fs == fs;
    } else {
      RunAppend(c, m, Next(c, m, s, es[0]), es[1..], t, fs, u);
      assert (es + fs)[1..] == es[1..] + fs;
    }
  }

  /** A run from t is a run from n when t is n with its response taken. */
  lemma RunDelivered(c: Config, n: State, t: State, es: seq<Step>, s': State) returns (fs: seq<Step>)
    requires Delivers(n, t) && Run(c, Queued, t, es, s')
    ensures Run(c, Queued, n, fs, s')
  {
    if n.rspD.Full? {
      RunCons(c, Queued, n, StDResponse, es, s');
      fs := [StDResponse] + es;
    } else if n.rspI.Full? {
      RunCons(c, Queued, n, StIFill, es, s');
      fs := [StIFill] + es;
    } else {
      fs := es;
    }
  }

  lemma StepSplits(c: Config, s: State, es: seq<Step>, s': State) returns (n: State, t: State)
    requires c.Valid() && Calm(c, s) && es != [] && Run(c, SameStep, s, es, s')
    ensures Enabled(c, Queued, s, es[0]) && n == Next(c, Queued, s, es[0])
    ensures Delivers(n, t) && Calm(c, t) && Run(c, SameStep, t, es[1..], s')
  {
    StepLater(c, s, es[0]);
    CalmStepKeeps(c, s, es[0]);
    n, t := Next(c, Queued, s, es[0]), Next(c, SameStep, s, es[0]);
  }

  /** The runs of the same-step system are runs of the one with response slots. */
  lemma {:induction false} SameStepRunsAreQueuedRuns(c: Config, s: State, es: seq<Step>, s': State)
    returns (fs: seq<Step>)
    requires c.Valid() && Calm(c, s) && Run(c, SameStep, s, es, s')
    ensures Run(c, Queued, s, fs, s')
    decreases |es|
  {
    if es == [] { return []; }
    var n, t := StepSplits(c, s, es, s');
    var rest := SameStepRunsAreQueuedRuns(c, t, es[1..], s');
    var more := RunDelivered(c, n, t, rest, s');
    RunCons(c, Queued, s, es[0], more, s');
    fs := [es[0]] + more;
  }

  /** So whatever same-step delivery reaches, queued delivery reaches too. */
  lemma SameStepReachable(c: Config, s: State)
    requires c.Valid() && Reachable(c, SameStep, s)
    ensures Reachable(c, Queued, s)
  {
    var es :| Run(c, SameStep, Start(), es, s);
    StartGood(c, SameStep);
    var fs := SameStepRunsAreQueuedRuns(c, Start(), es, s);
  }
}

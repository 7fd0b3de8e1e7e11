/** The main results about the protocol: where the latest value of an address is, that no check the
    model makes ever fails, inclusion, what a completed DMA transfer and a completed flush leave. */
module Coherence {
  import opened Protocol
  import opened Invariant
  import opened DeliveryOrder
  import opened Safety

  // ------------------------------------------------------------------ the latest value

  /** The value of a in the one place that has authority over it: a committed uncached store, a
      dirty L1D line, a latched writeback, a writeback being processed, a dirty probe answer, a
      dirty L2 line, and memory when there is none of these. */
  function Authority(c: Config, s: State, a: Addr): Ver {
    if Pending(s, a) then s.dsd
    else if s.l1d.st == LVD && s.l1d.tag == a then s.l1d.d
    else if Latched(s, a) then s.reqD.v.d
    else if Working(s) && s.w.r.op in {OpSW, OpWB} && s.w.r.a == a then s.w.r.d
    else if s.packD.Full? && s.packD.v.dirty && s.pa == a then s.packD.v.d
    else if L2Hit(c, s, a) && LineOf(c, s, a).dirty then LineOf(c, s, a).d
    else At(s.mem, a)
  }

  lemma InvAuthority(c: Config, s: State, a: Addr)
    requires Inv(c, s)
    ensures Authority(c, s, a) == At(s.latest, a)
  {
    assert Below(c, s, a);
    assert Stale(s, a) ==> !PreFlushing(s);
  }

  /** In every reachable state, DMA window or not, the authoritative place has the latest value. */
  lemma AuthorityIsLatest(c: Config, m: Delivery, s: State, a: Addr)
    requires c.Valid() && Reachable(c, m, s)
    ensures Authority(c, s, a) == At(s.latest, a)
  {
    ReachableGood(c, m, s);
    InvAuthority(c, s, a);
  }

  /** Outside a DMA-in window no copy of a that can be used is out of date: not the L1D's, not one
      on its way to the L1D or, uncached, to the core, not the L2's unless something newer is above it,
      and not the L1I's or one on its way there once software has synchronised the instruction side. */
  lemma CopiesAreLatest(c: Config, m: Delivery, s: State, a: Addr)
    requires c.Valid() && Reachable(c, m, s) && !InWindow(s, a)
    ensures DHit(s, a) ==> s.l1d.d == At(s.latest, a)
    ensures s.rspD.Full? && s.da == a && (s.dst == DFill || (s.dst == DUnc && s.dop == CoUload)) ==>
              s.rspD.v == At(s.latest, a)
    ensures s.rspI.Full? && s.ia == a && a !in s.incoh ==> s.rspI.v == At(s.latest, a)
    ensures L2Hit(c, s, a) && !Above(s, a) && !Pending(s, a) ==> LineOf(c, s, a).d == At(s.latest, a)
    ensures IHit(s, a) && a !in s.incoh ==> s.l1i.d == At(s.latest, a)
  {
    ReachableGood(c, m, s);
    assert Below(c, s, a);
  }

  // ------------------------------------------------------------------ inclusion and presence

  /** A line in an L1 is in the L2, and the L2 knows which L1 may have it. */
  lemma L1LinesAreInL2(c: Config, m: Delivery, s: State, a: Addr)
    requires c.Valid() && Reachable(c, m, s)
    ensures DHit(s, a) ==> L2Hit(c, s, a) && (c.pres ==> LineOf(c, s, a).pd)
    ensures IHit(s, a) ==> L2Hit(c, s, a) && (c.pres ==> LineOf(c, s, a).pi)
  {
    ReachableGood(c, m, s);
  }

  // ------------------------------------------------------------------ the model's own checks

  /** What the L1D asserts when it takes response d. */
  predicate DRspChecks(s: State, d: Ver) {
    && Waiting(s)
    && (s.dst == DFill && s.dkind == KLoad ==> d == At(s.latest, s.da))
    && (s.dst == DUnc && s.dop == CoUload ==> d == At(s.latest, s.da))
  }

  predicate RespondChecks(m: Delivery, s: State, x: Src, d: Ver) {
    if m.Queued? then (if x == SD then s.rspD.Empty? else s.rspI.Empty?)
    else if x == SD then DRspChecks(s, d) else s.ifill
  }

  predicate ServeChecks(c: Config, m: Delivery, s: State) {
    var a := s.w.r.a;
    match s.w.r.op
    case OpINVL => RespondChecks(m, s, s.w.src, 0)
    case OpPGDROP => (L2Hit(c, s, a) ==> !LineOf(c, s, a).dirty) && RespondChecks(m, s, s.w.src, 0)
    case OpSnpWbinv => Latched(s, a) ==> RespondChecks(m, s, SD, 0)
    case OpSnpDrop => !Latched(s, a) && (L2Hit(c, s, a) ==> !LineOf(c, s, a).dirty)
    case OpWB => RespondChecks(m, s, s.w.src, 0)
    case OpLW => L2Hit(c, s, a) ==> RespondChecks(m, s, s.w.src, LineOf(c, s, a).d)
    case OpSW => true
    case OpULW => false
    case OpUSW => false
  }

  /** The assertions that the rules make when step e is taken: loads (cached, missing, uncached),
      fetches after an I-sync and device reads see the latest value; no request slot or response
      slot is overrun, no response comes unexpected, no L2 operation is unknown; a probed line stays
      in the L2, the L1I has no dirty data; the page drop and the snoop drop find no dirty data of
      the buffer in the L2 nor a writeback of it in flight.  */
  predicate Checks(c: Config, m: Delivery, s: State, e: Step) {
    match e
    case StL2Accept(x) =>
      var r := if x == SD then s.reqD else s.reqI;
      r.Full? && r.v.op == OpSW ==> RespondChecks(m, s, x, 0)
    case StL2Check => ProbeDrop(c, s) || ProbeVictim(c, s) || ServeChecks(c, m, s)
    case StL2Uncached => RespondChecks(m, s, s.w.src, if s.w.r.op == OpUSW then 0 else At(s.mem, s.w.r.a))
    case StProbeAcks => L2Hit(c, s, s.pa) && (s.packI.Full? ==> !s.packI.v.dirty)
    case StLoadHit(a) => s.l1d.d == At(s.latest, a)
    case StFetchHit(a) => s.l1i.d == At(s.latest, a)
    case StDResponse => s.rspD.Full? && DRspChecks(s, s.rspD.v)
    case StIFill => s.ifill
    case StL1Walk => s.reqD.Empty?
    case StDevRead => At(s.mem, s.daddr) == At(s.latest, s.daddr)
    case StDMiss(_, _) => s.reqD.Empty?
    case StCacheOp(_, _) => s.reqD.Empty?
    case StULoad(_) => s.reqD.Empty?
    case StUStore(_) => s.reqD.Empty?
    case StDReload => s.reqD.Empty?
    case StDUncIssue => s.reqD.Empty?
    case StIMiss(_) => s.reqI.Empty?
    case StXpgPre(_, _) => s.reqD.Empty?
    case StXpgDrop => s.reqD.Empty?
    case _ => true
  }

  lemma ServeCheckHolds(c: Config, m: Delivery, s: State)
    requires c.Valid() && Good(c, m, s) && CanL2Check(m, s) && !ProbeDrop(c, s) && !ProbeVictim(c, s)
    ensures ServeChecks(c, m, s)
  {
    assert Below(c, s, s.w.r.a);
  }

  lemma L2CheckHolds(c: Config, m: Delivery, s: State, e: Step)
    requires c.Valid() && Good(c, m, s) && Enabled(c, m, s, e)
    requires e.StL2Accept? || e.StL2Check? || e.StL2Uncached? || e.StProbeAcks? || e.StDResponse?
    ensures Checks(c, m, s, e)
  {
    match e
    case StL2Check => if !ProbeDrop(c, s) && !ProbeVictim(c, s) { ServeCheckHolds(c, m, s); }
    case StL2Uncached => assert Below(c, s, s.w.r.a);
    case _ =>
  }

  lemma CheckHolds(c: Config, m: Delivery, s: State, e: Step)
    requires c.Valid() && Good(c, m, s) && Enabled(c, m, s, e)
    ensures Checks(c, m, s, e)
  {
    match e
    case StL2Accept(_) => L2CheckHolds(c, m, s, e);
    case StL2Check => L2CheckHolds(c, m, s, e);
    case StL2Uncached => L2CheckHolds(c, m, s, e);
    case StProbeAcks => L2CheckHolds(c, m, s, e);
    case StDResponse => L2CheckHolds(c, m, s, e);
    case StDevRead => assert Below(c, s, s.daddr);
    case _ =>
  }

  /** In no run does any assertion of the model fail. */
  lemma NoCheckFails(c: Config, m: Delivery, s: State, e: Step)
    requires c.Valid() && Reachable(c, m, s) && Enabled(c, m, s, e)
    ensures Checks(c, m, s, e)
  {
    ReachableGood(c, m, s);
    CheckHolds(c, m, s, e);
  }

  // ------------------------------------------------------------------ DMA into memory

  /** The device has written the buffer and the transfer is not complete. */
  predicate Transferring(s: State) { s.dma in {DmInDone, DmInDrop} }

  /** How a step may move the DMA agent while the transfer is not complete. */
  ghost predicate StaysInTransfer(s: State, t: State) {
    t.daddr == s.daddr && (Transferring(t) || t.dma == DmIdle) && At(t.latest, s.daddr) == At(s.latest, s.daddr)
  }

  predicate Writes(e: Step) { e.StStoreHit? || e.StUStore? || e.StDResponse? }

  ghost predicate DmaFrame(s: State, t: State) {
    t.latest == s.latest && t.daddr == s.daddr && t.dma == s.dma
  }

  /** What the tag-check step leaves alone. */
  ghost predicate CheckFrame(s: State, t: State) {
    && t.latest == s.latest && t.daddr == s.daddr
    && (Transferring(s) ==>
          t.dma == s.dma
          || (t.dma == DmIdle && t.rspD == s.rspD && t.rspI == s.rspI && s.w.r.op == OpSnpDrop))
  }

  lemma InvlFrame(c: Config, s: State)
    requires s.w.r.op == OpINVL
    ensures CheckFrame(s, L2Serve(c, Queued, s))
  {}

  lemma PageDropFrame(c: Config, s: State)
    requires s.w.r.op == OpPGDROP
    ensures CheckFrame(s, L2Serve(c, Queued, s))
  {}

  lemma WriteBackFrame(c: Config, s: State)
    requires s.w.r.op == OpWB
    ensures CheckFrame(s, L2Serve(c, Queued, s))
  {}

  lemma FillFrame(c: Config, s: State)
    requires s.w.r.op == OpLW && L2Hit(c, s, s.w.r.a)
    ensures CheckFrame(s, L2Serve(c, Queued, s))
  {}

  lemma WriteFrame(c: Config, s: State)
    requires s.w.r.op == OpSW && L2Hit(c, s, s.w.r.a)
    ensures CheckFrame(s, L2Serve(c, Queued, s))
  {}

  lemma MissFrame(c: Config, s: State)
    requires s.w.r.op in {OpLW, OpSW} && !L2Hit(c, s, s.w.r.a)
    ensures CheckFrame(s, L2Serve(c, Queued, s))
  {}

  lemma NoFrame(c: Config, s: State)
    requires s.w.r.op in {OpULW, OpUSW}
    ensures CheckFrame(s, L2Serve(c, Queued, s))
  {}

  lemma SnoopDropFrame(c: Config, s: State)
    requires s.w.r.op == OpSnpDrop
    ensures CheckFrame(s, L2Serve(c, Queued, s))
  {}

  lemma SnoopFrame(c: Config, s: State)
    requires s.w.r.op == OpSnpWbinv
    ensures CheckFrame(s, L2Serve(c, Queued, s))
  {
    if Latched(s, s.w.r.a) { assert CheckFrame(s, Absorb(c, Queued, s, s.w.r.a)); }
  }

  lemma FillOrWriteFrame(c: Config, s: State)
    requires s.w.r.op in {OpLW, OpSW}
    ensures CheckFrame(s, L2Serve(c, Queued, s))
  {
    if !L2Hit(c, s, s.w.r.a) {
      MissFrame(c, s);
    } else if s.w.r.op == OpLW {
      FillFrame(c, s);
    } else {
      WriteFrame(c, s);
    }
  }

  lemma CheckStepFrame(c: Config, s: State)
    ensures CheckFrame(s, L2DoCheck(c, Queued, s))
  {
    if ProbeDrop(c, s) || ProbeVictim(c, s) {
    } else if s.w.r.op == OpINVL {
      InvlFrame(c, s);
    } else if s.w.r.op == OpPGDROP {
      PageDropFrame(c, s);
    } else if s.w.r.op == OpWB {
      WriteBackFrame(c, s);
    } else if s.w.r.op in {OpLW, OpSW} {
      FillOrWriteFrame(c, s);
    } else if s.w.r.op == OpSnpWbinv {
      SnoopFrame(c, s);
    } else if s.w.r.op == OpSnpDrop {
      SnoopDropFrame(c, s);
    } else {
      NoFrame(c, s);
    }
  }

  predicate Early(s: State, x: Src)
    requires CanL2Accept(Queued, s, x)
  {
    (if x == SD then s.reqD.v.op else s.reqI.v.op) == OpSW
  }

  lemma EarlyAcceptFrame(s: State, x: Src)
    requires CanL2Accept(Queued, s, x) && Early(s, x)
    ensures DmaFrame(s, L2Accept(Queued, s, x))
  {}

  lemma AcceptFrame(s: State, x: Src)
    requires CanL2Accept(Queued, s, x) && !Early(s, x)
    ensures DmaFrame(s, L2Accept(Queued, s, x))
  {}

  lemma UncachedFrame(s: State)
    requires CanL2Uncached(Queued, s)
    ensures DmaFrame(s, L2Uncached(Queued, s))
  {}

  lemma AnswerFrame(c: Config, s: State, e: Step)
    requires Enabled(c, Queued, s, e) && (e.StL2Accept? || e.StL2Uncached?)
    ensures DmaFrame(s, Next(c, Queued, s, e))
  {
    match e
    case StL2Accept(x) => if Early(s, x) { EarlyAcceptFrame(s, x); } else { AcceptFrame(s, x); }
    case StL2Uncached => UncachedFrame(s);
  }

  predicate DmaStep(e: Step) {
    e.StXpgPre? || e.StDevWrite? || e.StXpgDrop? || e.StDevRead? || e.StSnpPre? || e.StSnpPost?
  }

  /** Steps of the core and of the L1s' requests that write nothing. */
  predicate SilentCoreStep(e: Step) {
    || e.StDMiss? || e.StCacheOp? || e.StULoad? || e.StDReload? || e.StDUncIssue? || e.StL1Walk?
    || e.StIMiss? || e.StISync? || e.StLoadHit? || e.StFetchHit?
  }

  lemma RequestFrame(s: State, k: DKind, o: COp, a: Addr)
    ensures DmaFrame(s, DMiss(s, k, a)) && DmaFrame(s, CacheOp(s, o, a)) && DmaFrame(s, ULoad(s, a))
  {}

  lemma IssueFrame(s: State)
    ensures DmaFrame(s, DoDReload(s)) && DmaFrame(s, DoDUncIssue(s)) && DmaFrame(s, L1Walk(s))
  {}

  lemma DataSideFrame(c: Config, s: State, e: Step)
    requires Enabled(c, Queued, s, e)
    requires e.StDMiss? || e.StCacheOp? || e.StULoad? || e.StDReload? || e.StDUncIssue? || e.StL1Walk?
    ensures DmaFrame(s, Next(c, Queued, s, e))
  {
    match e
    case StDMiss(k, a) => RequestFrame(s, k, CoNone, a);
    case StCacheOp(o, a) => RequestFrame(s, KLoad, o, a);
    case StULoad(a) => RequestFrame(s, KLoad, CoNone, a);
    case _ => IssueFrame(s);
  }

  lemma CoreFrame(c: Config, s: State, e: Step)
    requires Enabled(c, Queued, s, e) && SilentCoreStep(e)
    ensures DmaFrame(s, Next(c, Queued, s, e))
  {
    if !(e.StIMiss? || e.StISync? || e.StLoadHit? || e.StFetchHit?) { DataSideFrame(c, s, e); }
  }

  lemma PurgeFrame(c: Config, s: State)
    ensures DmaFrame(s, L2Purge(c, s))
  {}

  lemma LineFrame(c: Config, s: State)
    ensures DmaFrame(s, L2DoReload(c, s)) && DmaFrame(s, ProbeAcks(c, s))
  {}

  lemma FlushSetFrame(c: Config, s: State)
    ensures DmaFrame(s, FlushSet(c, s))
  {}

  lemma ProbingFrame(c: Config, s: State, e: Step)
    requires Enabled(c, Queued, s, e)
    requires e.StL2Purge? || e.StL2Reload? || e.StProbeAcks? || e.StFlushSet?
    ensures DmaFrame(s, Next(c, Queued, s, e))
  {
    if e.StL2Purge? {
      PurgeFrame(c, s);
    } else if e.StFlushSet? {
      FlushSetFrame(c, s);
    } else {
      LineFrame(c, s);
    }
  }

  lemma CacheFrame(c: Config, s: State, e: Step)
    requires Enabled(c, Queued, s, e) && !SilentCoreStep(e) && !DmaStep(e) && !Writes(e) && !Responds(e)
    ensures DmaFrame(s, Next(c, Queued, s, e))
  {
    if e.StL2Purge? || e.StL2Reload? || e.StProbeAcks? || e.StFlushSet? { ProbingFrame(c, s, e); }
  }

  /** Apart from stores, the tag check and the DMA agent itself no step touches what it works with. */
  lemma SilentFrame(c: Config, s: State, e: Step)
    requires Enabled(c, Queued, s, e) && !e.StL2Check? && !DmaStep(e) && !Writes(e)
    ensures DmaFrame(s, Next(c, Queued, s, e))
  {
    if e.StL2Accept? || e.StL2Uncached? {
      AnswerFrame(c, s, e);
    } else if SilentCoreStep(e) {
      CoreFrame(c, s, e);
    } else {
      CacheFrame(c, s, e);
    }
  }

  lemma TransferSilent(c: Config, s: State, e: Step)
    requires Enabled(c, Queued, s, e) && Transferring(s) && !e.StL2Check? && !Writes(e)
    ensures StaysInTransfer(s, Next(c, Queued, s, e)) && Transferring(Next(c, Queued, s, e))
  {
    if !DmaStep(e) { SilentFrame(c, s, e); }
  }

  lemma TransferStore(s: State, a: Addr)
    requires Transferring(s) && CanStoreHit(s, a)
    ensures StaysInTransfer(s, StoreHit(s, a))
  {
    assert a != s.daddr;
  }

  lemma TransferUStore(s: State, a: Addr)
    requires Transferring(s) && CanUStore(s, a)
    ensures StaysInTransfer(s, UStore(s, a))
  {
    assert a != s.daddr;
  }

  lemma TransferResponse(c: Config, s: State)
    requires Windows(c, s) && CanDResponse(s) && Transferring(s)
    ensures StaysInTransfer(s, DResponse(s))
  {
    assert InWindow(s, s.daddr);
  }

  /** The core does not write the buffer: not by a store, and no store miss to it is pending. */
  lemma TransferWrite(c: Config, s: State, e: Step)
    requires Windows(c, s) && Enabled(c, Queued, s, e) && Transferring(s) && Writes(e)
    ensures StaysInTransfer(s, Next(c, Queued, s, e))
  {
    match e
    case StStoreHit(a) => TransferStore(s, a);
    case StUStore(a) => TransferUStore(s, a);
    case StDResponse => TransferResponse(c, s);
  }

  lemma TransferQueued(c: Config, s: State, e: Step)
    requires Ready(c, s) && Enabled(c, Queued, s, e) && Transferring(s)
    ensures StaysInTransfer(s, Next(c, Queued, s, e))
  {
    if Writes(e) { TransferWrite(c, s, e); }
    else if e.StL2Check? { CheckStepFrame(c, s); }
    else { TransferSilent(c, s, e); }
  }

  /** A step from n that takes the response n carries, when n has just left s. */
  lemma TransferDelivered(c: Config, s: State, n: State, t: State)
    requires c.Valid() && Inv(c, n) && Transferring(s) && StaysInTransfer(s, n) && Delivers(n, t)
    requires n.rspD.Full? ==> Transferring(n)
    ensures StaysInTransfer(s, t)
  {
    if n.rspD.Full? { TransferQueued(c, n, StDResponse); }
  }

  lemma TransferSameStep(c: Config, s: State, e: Step, n: State, t: State)
    requires c.Valid() && Calm(c, s) && Enabled(c, Queued, s, e) && Transferring(s)
    requires n == Next(c, Queued, s, e) && Inv(c, n) && Delivers(n, t)
    ensures StaysInTransfer(s, t)
  {
    TransferQueued(c, s, e);
    if e.StL2Check? { CheckStepFrame(c, s); }
    else if Responds(e) { TransferSilent(c, s, e); }
    else { NoSlotFilled(c, s, e); }
    TransferDelivered(c, s, n, t);
  }

  lemma TransferStep(c: Config, m: Delivery, s: State, e: Step)
    requires c.Valid() && Good(c, m, s) && Enabled(c, m, s, e) && Transferring(s)
    ensures StaysInTransfer(s, Next(c, m, s, e))
  {
    if m.Queued? {
      TransferQueued(c, s, e);
    } else {
      StepLater(c, s, e);
      StepKeeps(c, s, e);
      TransferSameStep(c, s, e, Next(c, Queued, s, e), Next(c, m, s, e));
    }
  }

  /** Every state of the run before its last one is in the transfer. */
  ghost predicate During(c: Config, m: Delivery, s: State, es: seq<Step>)
    decreases |es|
  {
    es == [] || (Transferring(s) && Enabled(c, m, s, es[0]) && During(c, m, Next(c, m, s, es[0]), es[1..]))
  }

  lemma {:induction false} TransferRun(c: Config, m: Delivery, s: State, es: seq<Step>, t: State)
    requires c.Valid() && Good(c, m, s) && Run(c, m, s, es, t) && During(c, m, s, es) && Transferring(s)
    ensures t.daddr == s.daddr && At(t.latest, s.daddr) == At(s.latest, s.daddr)
    ensures Transferring(t) || t.dma == DmIdle
    decreases |es|
  {
    if es != [] {
      var n := Next(c, m, s, es[0]);
      TransferStep(c, m, s, es[0]);
      StepGood(c, m, s, es[0]);
      if Transferring(n) { TransferRun(c, m, n, es[1..], t); }
    }
  }

  /** No copy of a anywhere, none on its way to an L1 or the core, and not memory, is other than v. */
  ghost predicate OnlyValue(c: Config, s: State, a: Addr, v: Ver) {
    && At(s.mem, a) == v && !Above(s, a) && !Pending(s, a)
    && (DHit(s, a) ==> s.l1d.d == v)
    && (IHit(s, a) ==> s.l1i.d == v)
    && (L2Hit(c, s, a) ==> LineOf(c, s, a).d == v)
    && (s.rspD.Full? && s.da == a && (s.dst == DFill || (s.dst == DUnc && s.dop == CoUload)) ==> s.rspD.v == v)
    && (s.rspI.Full? && s.ia == a ==> s.rspI.v == v)
  }

  lemma CompletionResponse(c: Config, s: State)
    requires Ready(c, s) && CanDResponse(s) && s.dma == DmInDrop && DResponse(s).dma == DmIdle
    ensures OnlyValue(c, DResponse(s), s.daddr, At(s.latest, s.daddr))
  {
    assert Below(c, s, s.daddr);
    assert s.dst == DOp && s.dop == CoXpgInv;
  }

  lemma CompletionSnoop(c: Config, s: State)
    requires Ready(c, s) && CanL2Check(Queued, s) && !ProbeDrop(c, s) && !ProbeVictim(c, s) && s.w.r.op == OpSnpDrop
    ensures OnlyValue(c, L2Serve(c, Queued, s), s.daddr, At(s.latest, s.daddr))
  {
    assert Below(c, s, s.daddr);
    ServeSnoopKeeps(c, s);
  }

  lemma ProbingCompletesNothing(c: Config, s: State)
    requires ProbeDrop(c, s) || ProbeVictim(c, s)
    ensures L2DoCheck(c, Queued, s).dma == s.dma
  {}

  lemma CompletionCheck(c: Config, s: State)
    requires Ready(c, s) && CanL2Check(Queued, s) && s.dma == DmInDrop && L2DoCheck(c, Queued, s).dma == DmIdle
    ensures OnlyValue(c, L2DoCheck(c, Queued, s), s.daddr, At(s.latest, s.daddr))
  {
    CheckStepFrame(c, s);
    if ProbeDrop(c, s) || ProbeVictim(c, s) {
      ProbingCompletesNothing(c, s);
      assert false;
    }
    CompletionSnoop(c, s);
  }

  predicate Completes(e: Step) { e.StDResponse? || e.StL2Check? }

  lemma NoOtherCompletion(c: Config, s: State, e: Step)
    requires Enabled(c, Queued, s, e) && s.dma == DmInDrop && !Completes(e)
    ensures Next(c, Queued, s, e).dma == DmInDrop
  {
    if Writes(e) {
    } else if !DmaStep(e) {
      SilentFrame(c, s, e);
    }
  }

  lemma CompletionQueued(c: Config, s: State, e: Step)
    requires Ready(c, s) && Enabled(c, Queued, s, e) && s.dma == DmInDrop && Next(c, Queued, s, e).dma == DmIdle
    ensures OnlyValue(c, Next(c, Queued, s, e), s.daddr, At(s.latest, s.daddr))
  {
    if e.StDResponse? {
      CompletionResponse(c, s);
    } else if e.StL2Check? {
      CompletionCheck(c, s);
    } else {
      NoOtherCompletion(c, s, e);
    }
  }

  lemma CompletionDelivered(c: Config, s: State, n: State, t: State)
    requires c.Valid() && Inv(c, n) && n.dma == DmInDrop && Delivers(n, t) && t.dma == DmIdle
    requires n.daddr == s.daddr && At(n.latest, s.daddr) == At(s.latest, s.daddr)
    ensures OnlyValue(c, t, s.daddr, At(s.latest, s.daddr))
  {
    if n.rspD.Full? { CompletionResponse(c, n); }
  }

  lemma EmptyWhenComplete(c: Config, s: State, e: Step)
    requires Clear(s) && Enabled(c, Queued, s, e) && s.dma == DmInDrop && Next(c, Queued, s, e).dma == DmIdle
    ensures Clear(Next(c, Queued, s, e))
  {
    if e.StL2Check? { CheckStepFrame(c, s); } else { NoOtherCompletion(c, s, e); }
  }

  lemma CompletionSameStep(c: Config, s: State, e: Step, t: State)
    requires c.Valid() && Calm(c, s) && Enabled(c, Queued, s, e) && s.dma == DmInDrop
    requires Inv(c, Next(c, Queued, s, e)) && Delivers(Next(c, Queued, s, e), t) && t.dma == DmIdle
    ensures OnlyValue(c, t, s.daddr, At(s.latest, s.daddr))
  {
    TransferQueued(c, s, e);
    if Next(c, Queued, s, e).dma == DmIdle {
      CompletionQueued(c, s, e);
      EmptyWhenComplete(c, s, e);
    } else {
      CompletionDelivered(c, s, Next(c, Queued, s, e), t);
    }
  }

  /** When the completion of a DMA-in is signalled, nothing has another value than the latest. */
  lemma CompletionStep(c: Config, m: Delivery, s: State, e: Step)
    requires c.Valid() && Good(c, m, s) && Enabled(c, m, s, e) && s.dma == DmInDrop
    requires Next(c, m, s, e).dma == DmIdle
    ensures OnlyValue(c, Next(c, m, s, e), s.daddr, At(s.latest, s.daddr))
  {
    if m.Queued? {
      CompletionQueued(c, s, e);
    } else {
      StepLater(c, s, e);
      StepKeeps(c, s, e);
      CompletionSameStep(c, s, e, Next(c, m, s, e));
    }
  }

  lemma TransferKeeps(c: Config, m: Delivery, s: State, es: seq<Step>, u: State)
    requires c.Valid() && Good(c, m, s) && CanDevWrite(c, s)
    requires Run(c, m, DevWrite(s), es, u) && During(c, m, DevWrite(s), es)
    ensures Good(c, m, u) && u.daddr == s.daddr && At(u.latest, s.daddr) == At(DevWrite(s).mem, s.daddr)
  {
    StepGood(c, m, s, StDevWrite);
    RunKeeps(c, m, DevWrite(s), es, u);
    TransferRun(c, m, DevWrite(s), es, u);
  }

  /** A whole DMA-in: the device writes at s; when, any number of steps later, the completion is
      signalled, memory and every cached copy of the buffer have what the device wrote. */
  lemma DmaInDelivers(c: Config, m: Delivery, s: State, es: seq<Step>, u: State, e: Step)
    requires c.Valid() && Reachable(c, m, s) && CanDevWrite(c, s)
    requires Run(c, m, DevWrite(s), es, u) && During(c, m, DevWrite(s), es)
    requires u.dma == DmInDrop && Enabled(c, m, u, e) && Next(c, m, u, e).dma == DmIdle
    ensures OnlyValue(c, Next(c, m, u, e), s.daddr, At(DevWrite(s).mem, s.daddr))
  {
    ReachableGood(c, m, s);
    TransferKeeps(c, m, s, es, u);
    CompletionStep(c, m, u, e);
  }

  // ------------------------------------------------------------------ the flush

  /** No cache has a and memory has its latest value. */
  ghost predicate Flushed(c: Config, s: State, a: Addr) {
    !L2Hit(c, s, a) && !DHit(s, a) && !IHit(s, a) && At(s.mem, a) == At(s.latest, a)
  }

  lemma LastSetEmpties(c: Config, s: State, a: Addr)
    requires Ready(c, s) && CanFlushSet(s) && FlushSet(c, s).l2st == L2Idle
    ensures !L2Hit(c, FlushSet(c, s), a)
  {
    assert c.setOf(a) < c.sets;
    assert Placed(c, s, c.setOf(a));
  }

  lemma LastSetFlushes(c: Config, s: State, a: Addr)
    requires Ready(c, s) && CanFlushSet(s) && FlushSet(c, s).l2st == L2Idle
    ensures Flushed(c, FlushSet(c, s), a)
  {
    var t := FlushSet(c, s);
    LastSetEmpties(c, s, a);
    FlushSetKeeps(c, s);
    assert t.dst == DIdle;
    assert Below(c, t, a);
  }

  /** The last step of a whole-cache flush leaves every cache empty and memory up to date. */
  lemma FlushLeavesNothing(c: Config, m: Delivery, s: State)
    requires c.Valid() && Reachable(c, m, s) && CanFlushSet(s) && FlushSet(c, s).l2st == L2Idle
    ensures forall a: Addr :: Flushed(c, FlushSet(c, s), a)
  {
    ReachableGood(c, m, s);
    forall a: Addr ensures Flushed(c, FlushSet(c, s), a) { LastSetFlushes(c, s, a); }
  }
}

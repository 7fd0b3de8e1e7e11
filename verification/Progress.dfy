/** Once the L2 has taken a request, a snoop or a flush it finishes: from every reachable state some
    step of its own, of a probe or of a response is possible, each of them lowers a rank, and nothing
    else raises it.  The reason is that an L1 answers a probe whatever it is itself waiting for.  */
module Progress {
  import opened Protocol
  import opened Invariant
  import opened DeliveryOrder
  import opened Safety

  predicate Filling(s: State) { s.w.r.op in {OpLW, OpSW} }

  /** How far the L2 is from idle. */
  function Stage(c: Config, s: State): nat {
    var hit := L2Hit(c, s, s.w.r.a);
    match s.l2st
    case L2Idle => 0
    case L2Unc => 1
    case L2Upurge => if hit && !s.probed then 4 else 2
    case L2Reload => 2
    case L2Check =>
      if Filling(s) then (if hit then 1 else if LineOf(c, s, s.w.r.a).valid && !s.probed then 5 else 3)
      else if hit && !s.probed then 3 else 1
    case L2Probe =>
      if s.pret == L2Flush then SetsLeft(c, s) + 1
      else if s.pret == L2Upurge then 3
      else if Filling(s) then 4 else 2
    case L2Flush => if LineAt(s.l2, s.fset).valid && !s.probed then SetsLeft(c, s) + 2 else SetsLeft(c, s)
  }

  /** Three stages for each set that the flush has still to do, and one for the last step. */
  function SetsLeft(c: Config, s: State): nat {
    if s.fset < c.sets then 3 * (c.sets - s.fset) - 2 else 0
  }

  function Count<T>(x: Slot<T>): nat { if x.Full? then 1 else 0 }

  function Rank(c: Config, s: State): nat {
    4 * Stage(c, s) + Count(s.prbD) + Count(s.prbI) + Count(s.rspD) + Count(s.rspI)
  }

  /** The steps by which the L2 gets on. */
  predicate Advances(e: Step) {
    || e.StL2Purge? || e.StL2Check? || e.StL2Reload? || e.StL2Uncached? || e.StProbeAcks? || e.StFlushSet?
    || e.StDProbe? || e.StIProbe? || e.StDResponse? || e.StIFill?
  }

  // ------------------------------------------------------------------ something is possible

  lemma ProbeAdvances(c: Config, m: Delivery, s: State) returns (e: Step)
    requires c.Valid() && Good(c, m, s) && s.l2st == L2Probe
    ensures Advances(e) && Enabled(c, m, s, e)
  {
    if s.pexpD && s.packD.Empty? {
      e := if s.rspD.Full? then StDResponse else StDProbe;
    } else if s.pexpI && s.packI.Empty? {
      e := if s.rspI.Full? then StIFill else StIProbe;
    } else {
      e := StProbeAcks;
    }
  }

  /** In every reachable state in which the L2 is not idle it can get on. */
  lemma SomethingAdvances(c: Config, m: Delivery, s: State) returns (e: Step)
    requires c.Valid() && Reachable(c, m, s) && s.l2st != L2Idle
    ensures Advances(e) && Enabled(c, m, s, e)
  {
    ReachableGood(c, m, s);
    match s.l2st
    case L2Probe => e := ProbeAdvances(c, m, s);
    case L2Flush => e := StFlushSet;
    case L2Reload => e := StL2Reload;
    case L2Upurge => e := StL2Purge;
    case _ =>
      if s.rspD.Full? { e := StDResponse; }
      else if s.rspI.Full? { e := StIFill; }
      else { e := if s.l2st == L2Check then StL2Check else StL2Uncached; }
  }

  /** The steps by which the L2 takes something on. */
  predicate Starts(e: Step) { e.StL2Accept? || e.StAcceptSnoop? || e.StFlushStart? }

  /** Something is under way: in the L2, in an L1 or in the snoop queue. */
  predicate Busy(s: State) { s.l2st != L2Idle || s.dst != DIdle || s.ifill || s.snp.Full? }

  /** In every reachable state in which something is under way, it gets on. */
  lemma BusyGoesOn(c: Config, m: Delivery, s: State) returns (e: Step)
    requires c.Valid() && Reachable(c, m, s) && Busy(s)
    ensures (Advances(e) || Starts(e) || e.StDReload? || e.StDUncIssue?) && Enabled(c, m, s, e)
  {
    ReachableGood(c, m, s);
    if s.l2st != L2Idle { e := SomethingAdvances(c, m, s); }
    else if s.rspD.Full? { e := StDResponse; }
    else if s.rspI.Full? { e := StIFill; }
    else if s.snp.Full? { e := StAcceptSnoop; }
    else if s.reqD.Full? { e := StL2Accept(SD); }
    else if s.reqI.Full? { e := StL2Accept(SI); }
    else if s.dst == DReload { e := StDReload; }
    else if s.dst == DUncIssue { e := StDUncIssue; }
    else { e := StFlushStart; }
  }

  // ------------------------------------------------------------------ it lowers the rank

  lemma SendProbesLowers(c: Config, s: State, a: Addr)
    requires Ready(c, s) && ToProbe(c, s, a)
    ensures Rank(c, SendProbes(c, s, a, s.l2st)) < Rank(c, s)
  {
    assert Placed(c, s, s.fset);
  }

  /** What a served request leaves behind. */
  ghost predicate Served(c: Config, s: State, t: State) {
    && t.prbD == s.prbD && t.prbI == s.prbI && t.probed == s.probed
    && Count(t.rspD) + Count(t.rspI) <= Count(s.rspD) + Count(s.rspI) + 1
    && (t.l2st == L2Idle
        || (t.l2st == L2Reload && Filling(s) && !L2Hit(c, s, s.w.r.a) && t.rspD == s.rspD && t.rspI == s.rspI))
  }

  lemma ServeDropServed(c: Config, s: State)
    requires s.w.r.op in {OpINVL, OpPGDROP, OpSnpDrop}
    ensures Served(c, s, L2Serve(c, Queued, s))
  {}

  lemma ServeSnoopServed(c: Config, s: State)
    requires s.w.r.op == OpSnpWbinv
    ensures Served(c, s, L2Serve(c, Queued, s))
  {
    if Latched(s, s.w.r.a) { assert L2Serve(c, Queued, s) == FinishWbinv(c, Absorb(c, Queued, s, s.w.r.a)); }
  }

  lemma ServeWBServed(c: Config, s: State)
    requires s.w.r.op == OpWB
    ensures Served(c, s, L2Serve(c, Queued, s))
  {}

  lemma ServeFillServed(c: Config, s: State)
    requires s.w.r.op == OpLW
    ensures Served(c, s, L2Serve(c, Queued, s))
  {}

  lemma ServeWriteServed(c: Config, s: State)
    requires s.w.r.op == OpSW
    ensures Served(c, s, L2Serve(c, Queued, s))
  {}

  lemma ServeServed(c: Config, s: State)
    requires Ready(c, s) && Serves(c, s)
    ensures Served(c, s, L2Serve(c, Queued, s))
  {
    match s.w.r.op
    case OpWB => ServeWBServed(c, s);
    case OpLW => ServeFillServed(c, s);
    case OpSW => ServeWriteServed(c, s);
    case OpSnpWbinv => ServeSnoopServed(c, s);
    case OpULW => assert false;
    case OpUSW => assert false;
    case _ => ServeDropServed(c, s);
  }

  lemma ServedLowers(c: Config, s: State, t: State)
    requires s.l2st == L2Check && !ProbeVictim(c, s) && Served(c, s, t)
    ensures Rank(c, t) < Rank(c, s)
  {}

  lemma CheckLowers(c: Config, s: State)
    requires Ready(c, s) && CanL2Check(Queued, s)
    ensures Rank(c, L2DoCheck(c, Queued, s)) < Rank(c, s)
  {
    if ProbeDrop(c, s) {
      SendProbesLowers(c, s, s.w.r.a);
    } else if ProbeVictim(c, s) {
      assert Placed(c, s, c.setOf(s.w.r.a));
      SendProbesLowers(c, s, LineOf(c, s, s.w.r.a).tag);
    } else {
      ServeServed(c, s);
      ServedLowers(c, s, L2Serve(c, Queued, s));
    }
  }

  lemma PurgeLowers(c: Config, s: State)
    requires Ready(c, s) && CanL2Purge(s)
    ensures Rank(c, L2Purge(c, s)) < Rank(c, s)
  {
    if L2Hit(c, s, s.w.r.a) && !s.probed { SendProbesLowers(c, s, s.w.r.a); }
  }

  lemma FlushSetLowers(c: Config, s: State)
    requires Ready(c, s) && CanFlushSet(s)
    ensures Rank(c, FlushSet(c, s)) < Rank(c, s)
  {
    assert Placed(c, s, s.fset);
    if LineAt(s.l2, s.fset).valid && !s.probed { SendProbesLowers(c, s, LineAt(s.l2, s.fset).tag); }
  }

  lemma AcksLower(c: Config, s: State)
    requires Ready(c, s) && CanProbeAcks(s)
    ensures Rank(c, ProbeAcks(c, s)) < Rank(c, s)
  {}

  /** t has the L2 and the probes of s. */
  ghost predicate SameEngine(s: State, t: State) {
    && t.l2 == s.l2 && t.l2st == s.l2st && t.w == s.w && t.probed == s.probed && t.fset == s.fset && t.pret == s.pret
    && t.prbD == s.prbD && t.prbI == s.prbI
  }

  lemma SameEngineStage(c: Config, s: State, t: State)
    requires SameEngine(s, t)
    ensures Stage(c, t) == Stage(c, s)
  {}

  lemma ResponseLowers(c: Config, s: State)
    requires CanDResponse(s)
    ensures Rank(c, DResponse(s)) < Rank(c, s)
  {
    SameEngineStage(c, s, DResponse(s));
  }

  lemma FillLowers(c: Config, s: State)
    requires CanIFill(s)
    ensures Rank(c, IFill(s)) < Rank(c, s)
  {
    SameEngineStage(c, s, IFill(s));
  }

  lemma ProbeLowers(c: Config, s: State)
    ensures CanDProbe(s) ==> Rank(c, DProbe(s)) < Rank(c, s)
    ensures CanIProbe(s) ==> Rank(c, IProbe(s)) < Rank(c, s)
  {}

  lemma ReloadLowers(c: Config, s: State)
    requires Engine(c, s) && CanL2Reload(s)
    ensures Rank(c, L2DoReload(c, s)) < Rank(c, s)
  {}

  lemma UncachedServed(c: Config, s: State)
    ensures Served(c, s, L2Uncached(Queued, s)) && L2Uncached(Queued, s).l2st == L2Idle
  {
    if s.w.r.op == OpUSW {
      assert L2Uncached(Queued, s) == Respond(Queued, SetMem(s, s.w.r.a, s.w.r.d), s.w.src, 0).(l2st := L2Idle);
    }
  }

  lemma IdleLowers(c: Config, s: State, t: State)
    requires s.l2st == L2Unc && t.l2st == L2Idle && Served(c, s, t)
    ensures Rank(c, t) < Rank(c, s)
  {}

  lemma UncachedLowers(c: Config, s: State)
    requires CanL2Uncached(Queued, s)
    ensures Rank(c, L2Uncached(Queued, s)) < Rank(c, s)
  {
    UncachedServed(c, s);
    IdleLowers(c, s, L2Uncached(Queued, s));
  }

  lemma QueuedLowers(c: Config, s: State, e: Step)
    requires Ready(c, s) && Enabled(c, Queued, s, e) && Advances(e)
    ensures Rank(c, Next(c, Queued, s, e)) < Rank(c, s)
  {
    match e
    case StL2Purge => PurgeLowers(c, s);
    case StL2Check => CheckLowers(c, s);
    case StFlushSet => FlushSetLowers(c, s);
    case StProbeAcks => AcksLower(c, s);
    case StDResponse => ResponseLowers(c, s);
    case StIFill => FillLowers(c, s);
    case StDProbe => ProbeLowers(c, s);
    case StIProbe => ProbeLowers(c, s);
    case StL2Reload => ReloadLowers(c, s);
    case StL2Uncached => UncachedLowers(c, s);
  }

  /** Taking a response costs nothing: it only empties the slot. */
  lemma DeliveryLowers(c: Config, n: State, t: State)
    requires Delivers(n, t)
    ensures Rank(c, t) <= Rank(c, n)
  {
    if n.rspD.Full? { ResponseLowers(c, n); } else if n.rspI.Full? { FillLowers(c, n); }
  }

  lemma StepLowers(c: Config, m: Delivery, s: State, e: Step)
    requires c.Valid() && Good(c, m, s) && Enabled(c, m, s, e) && Advances(e)
    ensures Rank(c, Next(c, m, s, e)) < Rank(c, s)
  {
    if m.SameStep? {
      StepLater(c, s, e);
      DeliveryLowers(c, Next(c, Queued, s, e), Next(c, m, s, e));
    }
    QueuedLowers(c, s, e);
  }

  // ------------------------------------------------------------------ and nothing else matters

  ghost predicate Untouched(s: State, t: State) {
    SameEngine(s, t) && t.rspD == s.rspD && t.rspI == s.rspI
  }

  lemma PageFlushKeepsRank(c: Config, m: Delivery, s: State, e: Step)
    requires Enabled(c, m, s, e) && (e.StXpgPre? || e.StXpgDrop?)
    ensures Untouched(s, Next(c, m, s, e))
  {}

  lemma DeviceKeepsRank(c: Config, m: Delivery, s: State, e: Step)
    requires Enabled(c, m, s, e) && (e.StDevWrite? || e.StDevRead?)
    ensures Untouched(s, Next(c, m, s, e))
  {}

  lemma SnoopKeepsRank(c: Config, m: Delivery, s: State, e: Step)
    requires Enabled(c, m, s, e) && (e.StSnpPre? || e.StSnpPost?)
    ensures Untouched(s, Next(c, m, s, e))
  {}

  lemma CoreKeepsRank(c: Config, m: Delivery, s: State, e: Step)
    requires Enabled(c, m, s, e)
    requires e.StLoadHit? || e.StStoreHit? || e.StDMiss? || e.StCacheOp? || e.StULoad? || e.StUStore?
    ensures Untouched(s, Next(c, m, s, e))
  {}

  lemma OthersKeepRank(c: Config, m: Delivery, s: State, e: Step)
    requires Enabled(c, m, s, e) && !Advances(e) && !Starts(e)
    ensures Untouched(s, Next(c, m, s, e))
  {
    if e.StLoadHit? || e.StStoreHit? || e.StDMiss? || e.StCacheOp? || e.StULoad? || e.StUStore? {
      CoreKeepsRank(c, m, s, e);
    } else if e.StXpgPre? || e.StXpgDrop? {
      PageFlushKeepsRank(c, m, s, e);
    } else if e.StSnpPre? || e.StSnpPost? {
      SnoopKeepsRank(c, m, s, e);
    } else if !(e.StDReload? || e.StDUncIssue? || e.StL1Walk? || e.StFetchHit? || e.StIMiss? || e.StISync?) {
      DeviceKeepsRank(c, m, s, e);
    }
  }

  /** How many steps of es are the L2's own. */
  function Advancing(es: seq<Step>): nat {
    if es == [] then 0 else (if Advances(es[0]) then 1 else 0) + Advancing(es[1..])
  }

  /** The L2 is busy in every state of the run before its last. */
  ghost predicate BusyRun(c: Config, m: Delivery, s: State, es: seq<Step>)
    decreases |es|
  {
    es == [] || (s.l2st != L2Idle && Enabled(c, m, s, es[0]) && BusyRun(c, m, Next(c, m, s, es[0]), es[1..]))
  }

  lemma {:induction false} BusyRunRank(c: Config, m: Delivery, s: State, es: seq<Step>, t: State)
    requires c.Valid() && Good(c, m, s) && Run(c, m, s, es, t) && BusyRun(c, m, s, es)
    ensures Advancing(es) + Rank(c, t) <= Rank(c, s)
    decreases |es|
  {
    if es != [] {
      var n := Next(c, m, s, es[0]);
      StepGood(c, m, s, es[0]);
      BusyRunRank(c, m, n, es[1..], t);
      if Advances(es[0]) {
        StepLowers(c, m, s, es[0]);
      } else {
        OthersKeepRank(c, m, s, es[0]);
        SameEngineStage(c, s, n);
      }
    }
  }

  lemma RankBound(c: Config, m: Delivery, s: State)
    requires Good(c, m, s)
    ensures Rank(c, s) <= 4 * (if Walking(s) then 3 * c.sets else 5) + 4
  {}

  /** A request or a snoop is finished within 24 steps of the L2, the probes and the responses, a
      flush of n sets within 12 n + 4, however the core, the caches and the device interleave. */
  lemma EveryTransactionEnds(c: Config, m: Delivery, s: State, es: seq<Step>, t: State)
    requires c.Valid() && Reachable(c, m, s) && Run(c, m, s, es, t) && BusyRun(c, m, s, es)
    ensures Advancing(es) <= 4 * (if Walking(s) then 3 * c.sets else 5) + 4
  {
    ReachableGood(c, m, s);
    RankBound(c, m, s);
    BusyRunRank(c, m, s, es, t);
  }

  // ------------------------------------------------------------------ no deadlock

  lemma StartChanges(c: Config, m: Delivery, s: State, e: Step)
    requires Enabled(c, m, s, e) && (Starts(e) || e.StDReload? || e.StDUncIssue?)
    ensures Next(c, m, s, e) != s
  {
    assert Starts(e) ==> s.l2st == L2Idle && Next(c, m, s, e).l2st != L2Idle;
  }

  /** No reachable state is a deadlock: some rule can fire that changes it.  With nothing under way the
      core can miss on a line that it does not have, outside the device's buffer.  */
  lemma NoDeadlock(c: Config, m: Delivery, s: State) returns (e: Step)
    requires c.Valid() && Reachable(c, m, s)
    ensures Enabled(c, m, s, e) && Next(c, m, s, e) != s
  {
    ReachableGood(c, m, s);
    if Busy(s) {
      e := BusyGoesOn(c, m, s);
      if Advances(e) { StepLowers(c, m, s, e); } else { StartChanges(c, m, s, e); }
    } else {
      e := StDMiss(KLoad, s.l1d.tag + s.daddr + 1);
      assert Next(c, m, s, e).dst != DIdle;
    }
  }
}

/** When presence bits only save probes: exactly when no response can be waiting for an L1 that is not
    asked.  With queued responses, an L1I and presence bits the L2 can get past a probe that the
    system without bits cannot finish before the L1D takes its response; taking what waits is then
    all that the two differ by.  */
module PresenceLimits {
  import opened Protocol
  import opened Invariant
  import opened Safety
  import opened Progress
  import opened Presence
  import opened QueuedReduces

  // ------------------------------------------------------------------ without bits the L1D is always asked

  /** Once the L2 has probed, the L1D has no response waiting: it has been asked and has answered. */
  predicate DataAsked(s: State) {
    && (s.l2st == L2Probe ==> s.pexpD)
    && (s.probed && s.l2st !in {L2Idle, L2Probe} ==> s.rspD.Empty?)
  }

  lemma SendProbesAsks(c: Config, s: State, a: Addr)
    requires !c.pres
    ensures DataAsked(SendProbes(c, s, a, s.l2st))
  {}

  lemma ServedAsks(c: Config, s: State, t: State)
    requires DataAsked(s) && s.l2st == L2Check && Served(c, s, t)
    ensures DataAsked(t)
  {}

  lemma CheckAsks(c: Config, s: State)
    requires Ready(c, s) && !c.pres && DataAsked(s) && CanL2Check(Queued, s)
    ensures DataAsked(L2DoCheck(c, Queued, s))
  {
    if ProbeDrop(c, s) {
      SendProbesAsks(c, s, s.w.r.a);
    } else if ProbeVictim(c, s) {
      SendProbesAsks(c, s, LineOf(c, s, s.w.r.a).tag);
    } else {
      ServeServed(c, s);
      ServedAsks(c, s, L2Serve(c, Queued, s));
    }
  }

  lemma PurgeAsks(c: Config, s: State)
    requires !c.pres && DataAsked(s) && CanL2Purge(s)
    ensures DataAsked(L2Purge(c, s))
  {
    if L2Hit(c, s, s.w.r.a) && !s.probed { SendProbesAsks(c, s, s.w.r.a); }
  }

  lemma FlushSetAsks(c: Config, s: State)
    requires !c.pres && DataAsked(s) && CanFlushSet(s)
    ensures DataAsked(FlushSet(c, s))
  {
    if LineAt(s.l2, s.fset).valid && !s.probed { SendProbesAsks(c, s, LineAt(s.l2, s.fset).tag); }
  }

  lemma AcksAsk(c: Config, s: State)
    requires Channels(c, s) && Engine(c, s) && DataAsked(s) && CanProbeAcks(s)
    ensures DataAsked(ProbeAcks(c, s))
  {}

  lemma ReloadAsks(c: Config, s: State)
    requires DataAsked(s) && CanL2Reload(s)
    ensures DataAsked(L2DoReload(c, s))
  {}

  lemma AnswersAsk(s: State)
    requires DataAsked(s)
    ensures CanDProbe(s) ==> DataAsked(DProbe(s))
    ensures CanIProbe(s) ==> DataAsked(IProbe(s))
  {}

  lemma TakenAsks(s: State)
    requires DataAsked(s)
    ensures CanDResponse(s) ==> DataAsked(DResponse(s))
    ensures CanIFill(s) ==> DataAsked(IFill(s))
  {}

  lemma AdvanceAsks(c: Config, s: State, e: Step)
    requires Ready(c, s) && !c.pres && DataAsked(s) && Enabled(c, Queued, s, e) && Advances(e)
    ensures DataAsked(Next(c, Queued, s, e))
  {
    match e
    case StL2Purge => PurgeAsks(c, s);
    case StL2Check => CheckAsks(c, s);
    case StFlushSet => FlushSetAsks(c, s);
    case StProbeAcks => AcksAsk(c, s);
    case StDResponse => TakenAsks(s);
    case StIFill => TakenAsks(s);
    case StDProbe => AnswersAsk(s);
    case StIProbe => AnswersAsk(s);
    case StL2Reload => ReloadAsks(c, s);
    case StL2Uncached => UncachedServed(c, s);
  }

  lemma StartAsks(c: Config, s: State, e: Step)
    requires Enabled(c, Queued, s, e) && Starts(e)
    ensures DataAsked(Next(c, Queued, s, e))
  {
    match e
    case StL2Accept(x) => AcceptAsks(s, x);
    case StAcceptSnoop =>
    case StFlushStart =>
  }

  lemma AcceptAsks(s: State, x: Src)
    requires CanL2Accept(Queued, s, x)
    ensures DataAsked(L2Accept(Queued, s, x))
  {}

  lemma OtherAsks(c: Config, s: State, e: Step)
    requires DataAsked(s) && Enabled(c, Queued, s, e) && !Advances(e) && !Starts(e)
    ensures DataAsked(Next(c, Queued, s, e))
  {
    OthersKeepRank(c, Queued, s, e);
    BlindKeepsPart(c, Queued, s, e);
  }

  lemma StepAsks(c: Config, s: State, e: Step)
    requires Ready(c, s) && !c.pres && DataAsked(s) && Enabled(c, Queued, s, e)
    ensures DataAsked(Next(c, Queued, s, e))
  {
    if Advances(e) { AdvanceAsks(c, s, e); } else if Starts(e) { StartAsks(c, s, e); } else { OtherAsks(c, s, e); }
  }

  lemma {:induction false} RunAsks(c: Config, s: State, es: seq<Step>, t: State)
    requires Ready(c, s) && !c.pres && DataAsked(s) && Run(c, Queued, s, es, t)
    ensures DataAsked(t)
    decreases |es|
  {
    if es != [] {
      StepAsks(c, s, es[0]);
      StepKeeps(c, s, es[0]);
      RunAsks(c, Next(c, Queued, s, es[0]), es[1..], t);
    }
  }

  lemma ReachableAsks(c: Config, s: State)
    requires c.Valid() && !c.pres && Reachable(c, Queued, s)
    ensures DataAsked(s)
  {
    var es :| Run(c, Queued, Start(), es, s);
    StartGood(c, Queued);
    RunAsks(c, Start(), es, s);
  }

  // ------------------------------------------------------------------ a run that gets past the L1D

  /** Line a is in the L2 and the L1I. */
  function Filled(c: Config, a: Addr): State {
    Start().(l2 := map[c.setOf(a) := Line(true, false, a, 0, false, true)], w := Work(SI, Req(OpLW, a, 0)),
             l1i := L1Line(LV, a, 0), ia := a)
  }

  /** The L1I has missed on x, and the L1D has a response waiting. */
  function Missed(c: Config, a: Addr, x: Addr): State {
    Filled(c, a).(l1i := L1Line(LI, a, 0), ifill := true, ia := x, reqI := Full(Req(OpLW, x, 0)),
                  dop := CoChinv, da := x, dst := DOp, w := Work(SD, Req(OpINVL, x, 0)), rspD := Full(0))
  }

  /** The L2 has made room for x; the response is still waiting. */
  function Passed(c: Config, a: Addr, x: Addr): State {
    Missed(c, a, x).(l2 := map[c.setOf(a) := Line(true, false, a, 0, false, false)], w := Work(SI, Req(OpLW, x, 0)),
                     reqI := Empty, pa := a, pret := L2Check, probed := true, l2st := L2Check)
  }

  lemma ReachableThen(c: Config, s: State, e: Step)
    requires Reachable(c, Queued, s) && Enabled(c, Queued, s, e)
    ensures Reachable(c, Queued, Next(c, Queued, s, e))
  {
    var es :| Run(c, Queued, Start(), es, s);
    RunOne(c, Queued, s, e);
    RunAppend(c, Queued, Start(), es, s, [e], Next(c, Queued, s, e));
  }

  lemma StartReachable(c: Config)
    ensures Reachable(c, Queued, Start())
  {
    assert Run(c, Queued, Start(), [], Start());
  }

  function Fetching(c: Config, a: Addr): State {
    Start().(ifill := true, ia := a, w := Work(SI, Req(OpLW, a, 0)), l2st := L2Reload)
  }

  lemma ReachFetching(c: Config, a: Addr)
    requires c.l1i
    ensures Reachable(c, Queued, Fetching(c, a))
  {
    var s1 := Start().(ifill := true, ia := a, reqI := Full(Req(OpLW, a, 0)));
    var s2 := Fetching(c, a).(l2st := L2Check);
    StartReachable(c);
    assert IMiss(Start(), a) == s1;
    ReachableThen(c, Start(), StIMiss(a));
    assert L2Accept(Queued, s1, SI) == s2;
    ReachableThen(c, s1, StL2Accept(SI));
    assert L2DoCheck(c, Queued, s2) == Fetching(c, a);
    ReachableThen(c, s2, StL2Check);
  }

  lemma ReachFilled(c: Config, a: Addr)
    requires c.pres && c.l1i
    ensures Reachable(c, Queued, Filled(c, a))
  {
    var s3 := Fetching(c, a);
    var s4 := s3.(l2 := map[c.setOf(a) := Line(true, false, a, 0, false, false)], l2st := L2Check);
    var s5 := s3.(l2 := map[c.setOf(a) := Line(true, false, a, 0, false, true)], rspI := Full(0), l2st := L2Idle);
    ReachFetching(c, a);
    assert L2DoReload(c, s3) == s4;
    ReachableThen(c, s3, StL2Reload);
    assert L2DoCheck(c, Queued, s4) == s5;
    ReachableThen(c, s4, StL2Check);
    assert IFill(s5) == Filled(c, a);
    ReachableThen(c, s5, StIFill);
  }

  /** Both L1s have asked for something. */
  function Asking(c: Config, a: Addr, x: Addr): State {
    Filled(c, a).(l1i := L1Line(LI, a, 0), ifill := true, ia := x, reqI := Full(Req(OpLW, x, 0)),
                  dop := CoChinv, da := x, dst := DOp, reqD := Full(Req(OpINVL, x, 0)))
  }

  lemma ReachAsking(c: Config, a: Addr, x: Addr)
    requires c.pres && c.l1i && x != a
    ensures Reachable(c, Queued, Asking(c, a, x))
  {
    var s0 := Filled(c, a);
    var s1 := s0.(l1i := L1Line(LI, a, 0), ifill := true, ia := x, reqI := Full(Req(OpLW, x, 0)));
    ReachFilled(c, a);
    assert IMiss(s0, x) == s1;
    ReachableThen(c, s0, StIMiss(x));
    assert CacheOp(s1, CoChinv, x) == Asking(c, a, x);
    ReachableThen(c, s1, StCacheOp(CoChinv, x));
  }

  lemma ReachMissed(c: Config, a: Addr, x: Addr)
    requires c.pres && c.l1i && x != a
    ensures Reachable(c, Queued, Missed(c, a, x))
  {
    var s2 := Asking(c, a, x);
    var s3 := s2.(reqD := Empty, w := Work(SD, Req(OpINVL, x, 0)), l2st := L2Check);
    ReachAsking(c, a, x);
    assert L2Accept(Queued, s2, SD) == s3;
    ReachableThen(c, s2, StL2Accept(SD));
    assert L2DoCheck(c, Queued, s3) == Missed(c, a, x);
    ReachableThen(c, s3, StL2Check);
  }

  lemma ReachPassed(c: Config, a: Addr, x: Addr)
    requires c.pres && c.l1i && x != a && c.setOf(x) == c.setOf(a)
    ensures Reachable(c, Queued, Passed(c, a, x))
  {
    var s0 := Missed(c, a, x);
    var s1 := s0.(reqI := Empty, w := Work(SI, Req(OpLW, x, 0)), l2st := L2Check);
    var s2 := s1.(pexpI := true, prbI := Full(a), pa := a, pret := L2Check, l2st := L2Probe);
    var s3 := s2.(packI := Full(Ack(false, 0)), prbI := Empty);
    ReachMissed(c, a, x);
    assert L2Accept(Queued, s0, SI) == s1;
    ReachableThen(c, s0, StL2Accept(SI));
    assert L2DoCheck(c, Queued, s1) == s2;
    ReachableThen(c, s1, StL2Check);
    assert IProbe(s2) == s3;
    ReachableThen(c, s2, StIProbe);
    assert s3.l2[c.setOf(a) := Line(true, false, a, 0, false, false)] == Passed(c, a, x).l2;
    assert ProbeAcks(c, s3) == Passed(c, a, x);
    ReachableThen(c, s3, StProbeAcks);
  }

  /** With queued responses, presence bits and an L1I, and any two lines of one set, the system with
      bits reaches a state that the one without does not. */
  lemma BitsReachMore(c: Config, a: Addr, x: Addr)
    requires c.Valid() && c.pres && c.l1i && x != a && c.setOf(x) == c.setOf(a)
    ensures Reachable(c, Queued, Passed(c, a, x))
    ensures !Reachable(NoBits(c), Queued, Lift(c, Passed(c, a, x)))
  {
    ReachPassed(c, a, x);
    if Reachable(NoBits(c), Queued, Lift(c, Passed(c, a, x))) {
      ReachableAsks(NoBits(c), Lift(c, Passed(c, a, x)));
    }
  }

  // ------------------------------------------------------------------ exactly when

  function FirstSets(c: Config, k: nat): (t: set<nat>)
    ensures forall i: nat :: i < k ==> c.setOf(i) in t
    ensures c.Valid() ==> forall j :: j in t ==> j < c.sets
  {
    set i: nat | i < k :: c.setOf(i)
  }

  lemma {:induction false} Bounded(t: set<nat>, n: nat)
    requires forall j :: j in t ==> j < n
    ensures |t| <= n
    decreases n
  {
    if n > 0 {
      Bounded(t - {n - 1}, n - 1);
    } else {
      assert t == {};
    }
  }

  lemma {:induction false} DistinctSets(c: Config, k: nat)
    requires forall i: nat, j: nat :: i < j < k ==> c.setOf(i) != c.setOf(j)
    ensures |FirstSets(c, k)| == k
  {
    if k > 0 {
      DistinctSets(c, k - 1);
      assert FirstSets(c, k) == FirstSets(c, k - 1) + {c.setOf(k - 1)};
      assert c.setOf(k - 1) !in FirstSets(c, k - 1);
    }
  }

  /** There are more lines than sets. */
  lemma TwoInOneSet(c: Config) returns (a: Addr, x: Addr)
    requires c.Valid()
    ensures a != x && c.setOf(a) == c.setOf(x)
  {
    var k := c.sets + 1;
    if forall i: nat, j: nat :: i < j < k ==> c.setOf(i) != c.setOf(j) {
      DistinctSets(c, k);
      Bounded(FirstSets(c, k), c.sets);
      assert false;
    }
    a, x :| a < x < k && c.setOf(a) == c.setOf(x);
  }

  ghost predicate OnlySaves(c: Config, m: Delivery) {
    forall s :: Reachable(c, m, s) ==> Reachable(NoBits(c), m, Lift(c, s))
  }

  /** Presence bits only save probes exactly when responses are delivered in the L2's step, or there
      is no L1I, or there are no bits. */
  lemma OnlySavesExactlyStrict(c: Config, m: Delivery)
    requires c.Valid()
    ensures OnlySaves(c, m) <==> m.SameStep? || !c.l1i || !c.pres
  {
    if Strict(c, m) {
      forall s | Reachable(c, m, s) ensures Reachable(NoBits(c), m, Lift(c, s)) { PresenceRefines(c, m, s); }
    } else {
      var a, x := TwoInOneSet(c);
      BitsReachMore(c, a, x);
    }
  }

  /** With queued responses the bits still only save probes up to the responses that are waiting: once
      those are taken, the system without bits reaches the same, up to the ghost set `incoh`. */
  lemma PresenceRefinesTaken(c: Config, s: State) returns (t: State)
    requires c.Valid() && Reachable(c, Queued, s)
    ensures Reachable(NoBits(c), Queued, t) && Alike(Lift(c, Taken(s)), t)
  {
    var u := QueuedReachable(c, s);
    PresenceRefines(c, SameStep, u);
    SameStepReachable(NoBits(c), Lift(c, u));
    t := Lift(c, u);
  }
}

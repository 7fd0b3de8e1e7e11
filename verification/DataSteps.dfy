/** Every rule keeps inclusion, presence and the place of the latest values, with responses queued
    in slots. */
module DataSteps {
  import opened Protocol
  import opened Invariant

  /** t differs from s only in what the L1s, the core and the device do on their own: they may give
      up lines but get none, and leave the L2 and the probes alone. */
  ghost predicate Quiet(s: State, t: State) {
    && t.l2 == s.l2 && t.l2st == s.l2st && t.w == s.w && t.probed == s.probed && t.fset == s.fset
    && t.pa == s.pa && t.pret == s.pret && t.rspD == s.rspD && t.rspI == s.rspI
    && t.prbD == s.prbD && t.prbI == s.prbI && t.packD == s.packD && t.packI == s.packI
    && t.pexpD == s.pexpD && t.pexpI == s.pexpI
    && (t.l1d.st != LI ==> s.l1d.st != LI && t.l1d.tag == s.l1d.tag)
    && (t.l1i.st != LI ==> t.l1i == s.l1i)
    && (t.rspD.Full? && t.dst == DFill ==> s.dst == DFill && t.da == s.da)
    && (t.rspI.Full? ==> t.ia == s.ia)
    && (s.l2st == L2Reload ==> t.mem == s.mem)
  }

  lemma QuietKeepsHolding(c: Config, s: State, t: State)
    requires Holding(c, s) && Quiet(s, t)
    ensures Holding(c, t)
  {
    forall i: nat ensures Placed(c, t, i) { assert Placed(c, s, i); }
  }

  lemma HoldingSendProbes(c: Config, s: State, a: Addr)
    requires Control(c, s) && Holding(c, s) && ToProbe(c, s, a)
    ensures Holding(c, SendProbes(c, s, a, s.l2st))
  {
    var t := SendProbes(c, s, a, s.l2st);
    assert Working(t) == Working(s) && Walking(t) == Walking(s);
    forall i: nat ensures Placed(c, t, i) { assert Placed(c, s, i); }
  }

  lemma UpperSendProbes(c: Config, s: State, a: Addr)
    requires Ready(c, s) && ToProbe(c, s, a)
    ensures Upper(c, SendProbes(c, s, a, s.l2st))
  {
    var t := SendProbes(c, s, a, s.l2st);
    assert Working(t) == Working(s) && Walking(t) == Walking(s);
  }

  lemma LowerSendProbes(c: Config, s: State, a: Addr)
    requires Ready(c, s) && ToProbe(c, s, a)
    ensures Lower(c, SendProbes(c, s, a, s.l2st))
  {
    var t := SendProbes(c, s, a, s.l2st);
    assert Working(t) == Working(s) && Walking(t) == Walking(s);
    forall x: Addr ensures Below(c, t, x) && Settled(t, x) { assert Below(c, s, x) && Settled(s, x); }
  }

  lemma DataAcceptEarly(c: Config, s: State)
    requires Ready(c, s) && CanL2Accept(Queued, s, SD) && s.reqD.v.op == OpSW
    ensures Holding(c, L2Accept(Queued, s, SD)) && Data(c, L2Accept(Queued, s, SD))
  {
    var t := L2Accept(Queued, s, SD);
    forall i: nat ensures Placed(c, t, i) { assert Placed(c, s, i); }
    forall x: Addr ensures Below(c, t, x) && Settled(t, x) { assert Below(c, s, x) && Settled(s, x); }
  }

  lemma DataAcceptD(c: Config, s: State)
    requires Ready(c, s) && CanL2Accept(Queued, s, SD) && s.reqD.v.op != OpSW
    ensures Holding(c, L2Accept(Queued, s, SD)) && Data(c, L2Accept(Queued, s, SD))
  {
    var t := L2Accept(Queued, s, SD);
    forall i: nat ensures Placed(c, t, i) { assert Placed(c, s, i); }
    forall x: Addr ensures Below(c, t, x) && Settled(t, x) { assert Below(c, s, x) && Settled(s, x); }
  }

  lemma DataAcceptI(c: Config, s: State)
    requires Ready(c, s) && CanL2Accept(Queued, s, SI)
    ensures Holding(c, L2Accept(Queued, s, SI)) && Data(c, L2Accept(Queued, s, SI))
  {
    var t := L2Accept(Queued, s, SI);
    forall i: nat ensures Placed(c, t, i) { assert Placed(c, s, i); }
    forall x: Addr ensures Below(c, t, x) && Settled(t, x) { assert Below(c, s, x) && Settled(s, x); }
  }

  lemma HoldingPurge(c: Config, s: State)
    requires Control(c, s) && Holding(c, s) && CanL2Purge(s) && !(L2Hit(c, s, s.w.r.a) && !s.probed)
    ensures Holding(c, L2Purge(c, s))
  {
    assert s.dst == DUnc && s.reqD.Empty?;
    var t := L2Purge(c, s);
    forall i: nat ensures Placed(c, t, i) { assert Placed(c, s, i); }
  }

  lemma DataPurge(c: Config, s: State)
    requires Ready(c, s) && CanL2Purge(s) && !(L2Hit(c, s, s.w.r.a) && !s.probed)
    ensures Data(c, L2Purge(c, s))
  {
    assert s.dst == DUnc && s.reqD.Empty?;
    var t := L2Purge(c, s);
    assert Below(c, s, s.w.r.a);
    forall x: Addr ensures Below(c, t, x) && Settled(t, x) { assert Below(c, s, x) && Settled(s, x); }
  }

  function AfterINVL(c: Config, s: State): State {
    WriteBackDrop(c, s, s.w.r.a).(rspD := Full(0), l2st := L2Idle)
  }

  lemma INVLIs(c: Config, s: State)
    requires Control(c, s) && Serves(c, s) && s.w.r.op == OpINVL
    ensures L2Serve(c, Queued, s) == AfterINVL(c, s) && s.dst == DOp && s.reqD.Empty? && s.rspD.Empty?
  {}

  lemma HoldingAfterINVL(c: Config, s: State)
    requires Control(c, s) && Holding(c, s) && Serves(c, s) && s.w.r.op == OpINVL && s.dst == DOp
    ensures Holding(c, AfterINVL(c, s))
  {
    var t := AfterINVL(c, s);
    forall i: nat ensures Placed(c, t, i) { assert Placed(c, s, i); }
  }

  lemma HoldingServeINVL(c: Config, s: State)
    requires Control(c, s) && Holding(c, s) && Serves(c, s) && s.w.r.op == OpINVL
    ensures Holding(c, L2Serve(c, Queued, s))
  {
    INVLIs(c, s);
    HoldingAfterINVL(c, s);
  }

  lemma UpperAfterINVL(c: Config, s: State)
    requires Ready(c, s) && Serves(c, s) && s.w.r.op == OpINVL && s.dst == DOp && s.reqD.Empty?
    ensures Upper(c, AfterINVL(c, s))
  {
    assert Below(c, s, s.w.r.a);
  }

  lemma UpperServeINVL(c: Config, s: State)
    requires Ready(c, s) && Serves(c, s) && s.w.r.op == OpINVL
    ensures Upper(c, L2Serve(c, Queued, s))
  {
    INVLIs(c, s);
    UpperAfterINVL(c, s);
  }

  lemma ValuesAfterINVL(c: Config, s: State)
    requires Ready(c, s) && Serves(c, s) && s.w.r.op == OpINVL && s.dst == DOp && s.reqD.Empty?
    ensures Values(c, AfterINVL(c, s)) && Cleaned(c, AfterINVL(c, s))
  {
    var t := AfterINVL(c, s);
    assert Below(c, s, s.w.r.a);
    forall x: Addr ensures Below(c, t, x) && Settled(t, x) { assert Below(c, s, x) && Settled(s, x); }
  }

  lemma LowerAfterINVL(c: Config, s: State)
    requires Ready(c, s) && Serves(c, s) && s.w.r.op == OpINVL && s.dst == DOp && s.reqD.Empty? && s.rspD.Empty?
    ensures Lower(c, AfterINVL(c, s))
  {
    ValuesAfterINVL(c, s);
  }

  lemma LowerServeINVL(c: Config, s: State)
    requires Ready(c, s) && Serves(c, s) && s.w.r.op == OpINVL
    ensures Lower(c, L2Serve(c, Queued, s))
  {
    INVLIs(c, s);
    LowerAfterINVL(c, s);
  }

  lemma HoldingServePGDROP(c: Config, s: State)
    requires Control(c, s) && Holding(c, s) && Serves(c, s) && s.w.r.op == OpPGDROP
    ensures Holding(c, L2Serve(c, Queued, s))
  {
    assert s.dst == DOp && s.reqD.Empty? && s.packD.Empty?;
    var t := L2Serve(c, Queued, s);
    assert t.l2st == L2Idle;
    forall i: nat ensures Placed(c, t, i) { assert Placed(c, s, i); }
  }

  lemma UpperServePGDROP(c: Config, s: State)
    requires Ready(c, s) && Serves(c, s) && s.w.r.op == OpPGDROP
    ensures Upper(c, L2Serve(c, Queued, s))
  {
    assert L2Serve(c, Queued, s).l2st == L2Idle;
    assert s.dst == DOp && s.reqD.Empty? && s.packD.Empty?;
    assert Below(c, s, s.w.r.a);
  }

  lemma LowerServePGDROP(c: Config, s: State)
    requires Ready(c, s) && Serves(c, s) && s.w.r.op == OpPGDROP
    ensures Lower(c, L2Serve(c, Queued, s))
  {
    assert s.dst == DOp && s.reqD.Empty? && s.packD.Empty?;
    var t := L2Serve(c, Queued, s);
    assert t.l2st == L2Idle && !L2Hit(c, t, s.w.r.a);
    assert Below(c, s, s.w.r.a);
    forall x: Addr ensures Below(c, t, x) && Settled(t, x) { assert Below(c, s, x) && Settled(s, x); }
  }

  lemma HoldingServeSnpDrop(c: Config, s: State)
    requires Control(c, s) && Holding(c, s) && Serves(c, s) && s.w.r.op == OpSnpDrop
    ensures Holding(c, L2Serve(c, Queued, s))
  {
    var t := L2Serve(c, Queued, s);
    forall i: nat ensures Placed(c, t, i) { assert Placed(c, s, i); }
  }

  lemma DataServeSnpDrop(c: Config, s: State)
    requires Ready(c, s) && Serves(c, s) && s.w.r.op == OpSnpDrop
    ensures Data(c, L2Serve(c, Queued, s))
  {
    var t := L2Serve(c, Queued, s);
    assert Below(c, s, s.w.r.a);
    forall x: Addr ensures Below(c, t, x) && Settled(t, x) { assert Below(c, s, x) && Settled(s, x); }
  }

  /** After a writeback, and after a line is dropped for the L1D. */
  function AfterWB(c: Config, s: State): State {
    var ln := LineOf(c, s, s.w.r.a).(valid := false, pd := false, pi := false);
    s.(mem := s.mem[s.w.r.a := s.w.r.d],
       l2 := if L2Hit(c, s, s.w.r.a) then s.l2[c.setOf(s.w.r.a) := ln] else s.l2,
       rspD := Full(0), l2st := L2Idle)
  }

  lemma WBIs(c: Config, s: State)
    requires Control(c, s) && Serves(c, s) && s.w.r.op == OpWB
    ensures L2Serve(c, Queued, s) == AfterWB(c, s) && s.dst == DOp && s.reqD.Empty? && s.rspD.Empty?
  {}

  lemma HoldingAfterWB(c: Config, s: State)
    requires Control(c, s) && Holding(c, s) && Serves(c, s) && s.w.r.op == OpWB && s.dst == DOp
    ensures Holding(c, AfterWB(c, s))
  {
    var t := AfterWB(c, s);
    forall i: nat ensures Placed(c, t, i) { assert Placed(c, s, i); }
  }

  lemma HoldingServeWB(c: Config, s: State)
    requires Control(c, s) && Holding(c, s) && Serves(c, s) && s.w.r.op == OpWB
    ensures Holding(c, L2Serve(c, Queued, s))
  {
    WBIs(c, s);
    HoldingAfterWB(c, s);
  }

  lemma UpperAfterWB(c: Config, s: State)
    requires Ready(c, s) && Serves(c, s) && s.w.r.op == OpWB && s.dst == DOp && s.reqD.Empty?
    ensures Upper(c, AfterWB(c, s))
  {
    assert Below(c, s, s.w.r.a);
  }

  lemma UpperServeWB(c: Config, s: State)
    requires Ready(c, s) && Serves(c, s) && s.w.r.op == OpWB
    ensures Upper(c, L2Serve(c, Queued, s))
  {
    WBIs(c, s);
    UpperAfterWB(c, s);
  }

  lemma ValuesAfterWB(c: Config, s: State)
    requires Ready(c, s) && Serves(c, s) && s.w.r.op == OpWB && s.dst == DOp && s.reqD.Empty?
    ensures Values(c, AfterWB(c, s)) && Cleaned(c, AfterWB(c, s))
  {
    var t := AfterWB(c, s);
    assert !L2Hit(c, t, s.w.r.a) && At(t.mem, s.w.r.a) == s.w.r.d;
    assert Below(c, s, s.w.r.a);
    forall x: Addr ensures Below(c, t, x) && Settled(t, x) { assert Below(c, s, x) && Settled(s, x); }
  }

  lemma LowerAfterWB(c: Config, s: State)
    requires Ready(c, s) && Serves(c, s) && s.w.r.op == OpWB && s.dst == DOp && s.reqD.Empty? && s.rspD.Empty?
    ensures Lower(c, AfterWB(c, s))
  {
    ValuesAfterWB(c, s);
  }

  lemma LowerServeWB(c: Config, s: State)
    requires Ready(c, s) && Serves(c, s) && s.w.r.op == OpWB
    ensures Lower(c, L2Serve(c, Queued, s))
  {
    WBIs(c, s);
    LowerAfterWB(c, s);
  }

  lemma PlacementServeAbsorb(c: Config, s: State)
    requires Control(c, s) && Holding(c, s) && Serves(c, s) && s.w.r.op == OpSnpWbinv && Latched(s, s.w.r.a)
    ensures Placement(c, L2Serve(c, Queued, s))
  {
    var t := L2Serve(c, Queued, s);
    forall i: nat ensures Placed(c, t, i) { assert Placed(c, s, i); }
  }

  lemma HoldingServeAbsorb(c: Config, s: State)
    requires Control(c, s) && Holding(c, s) && Serves(c, s) && s.w.r.op == OpSnpWbinv && Latched(s, s.w.r.a)
    ensures Holding(c, L2Serve(c, Queued, s))
  {
    PlacementServeAbsorb(c, s);
  }

  lemma CopiesServeAbsorb(c: Config, s: State)
    requires Ready(c, s) && Serves(c, s) && s.w.r.op == OpSnpWbinv && Latched(s, s.w.r.a)
    ensures Copies(c, L2Serve(c, Queued, s))
  {
    assert L2Serve(c, Queued, s).l2st == L2Idle;
    assert Below(c, s, s.w.r.a);
  }

  lemma UpperServeAbsorb(c: Config, s: State)
    requires Ready(c, s) && Serves(c, s) && s.w.r.op == OpSnpWbinv && Latched(s, s.w.r.a)
    ensures Upper(c, L2Serve(c, Queued, s))
  {
    assert L2Serve(c, Queued, s).l2st == L2Idle;
    CopiesServeAbsorb(c, s);
  }

  lemma ValuesServeAbsorb(c: Config, s: State)
    requires Ready(c, s) && Serves(c, s) && s.w.r.op == OpSnpWbinv && Latched(s, s.w.r.a)
    ensures Values(c, L2Serve(c, Queued, s))
  {
    var t := FinishWbinv(c, Absorb(c, Queued, s, s.w.r.a));
    assert t == L2Serve(c, Queued, s);
    assert t.l2st == L2Idle && !L2Hit(c, t, s.w.r.a) && At(t.mem, s.w.r.a) == s.reqD.v.d;
    assert Below(c, s, s.w.r.a);
    forall x: Addr ensures Below(c, t, x) { assert Below(c, s, x); }
  }

  lemma LowerServeAbsorb(c: Config, s: State)
    requires Ready(c, s) && Serves(c, s) && s.w.r.op == OpSnpWbinv && Latched(s, s.w.r.a)
    ensures Lower(c, L2Serve(c, Queued, s))
  {
    var t := L2Serve(c, Queued, s);
    ValuesServeAbsorb(c, s);
    assert t.l2st == L2Idle && !L2Hit(c, t, s.w.r.a);
    forall x: Addr ensures Settled(t, x) { assert Settled(s, x); }
  }

  lemma HoldingServeWbinv(c: Config, s: State)
    requires Control(c, s) && Holding(c, s) && Serves(c, s) && s.w.r.op == OpSnpWbinv && !Latched(s, s.w.r.a)
    ensures Holding(c, L2Serve(c, Queued, s))
  {
    var t := L2Serve(c, Queued, s);
    forall i: nat ensures Placed(c, t, i) { assert Placed(c, s, i); }
  }

  lemma ValuesServeWbinv(c: Config, s: State)
    requires Ready(c, s) && Serves(c, s) && s.w.r.op == OpSnpWbinv && !Latched(s, s.w.r.a)
    ensures Values(c, L2Serve(c, Queued, s))
  {
    var t := L2Serve(c, Queued, s);
    assert t.l2st == L2Idle && !L2Hit(c, t, s.w.r.a);
    assert Below(c, s, s.w.r.a);
    forall x: Addr ensures Below(c, t, x) { assert Below(c, s, x); }
  }

  lemma DataServeWbinv(c: Config, s: State)
    requires Ready(c, s) && Serves(c, s) && s.w.r.op == OpSnpWbinv && !Latched(s, s.w.r.a)
    ensures Data(c, L2Serve(c, Queued, s))
  {
    var t := L2Serve(c, Queued, s);
    ValuesServeWbinv(c, s);
    assert t.l2st == L2Idle && !L2Hit(c, t, s.w.r.a);
    forall x: Addr ensures Settled(t, x) { assert Settled(s, x); }
  }

  lemma HoldingServeFillSD(c: Config, s: State)
    requires Control(c, s) && Holding(c, s) && Serves(c, s) && s.w.r.op == OpLW && L2Hit(c, s, s.w.r.a) && s.w.src == SD
    ensures Holding(c, L2Serve(c, Queued, s))
  {
    var t := L2Serve(c, Queued, s);
    forall i: nat ensures Placed(c, t, i) { assert Placed(c, s, i); }
  }

  lemma DataServeFillSD(c: Config, s: State)
    requires Ready(c, s) && Serves(c, s) && s.w.r.op == OpLW && L2Hit(c, s, s.w.r.a) && s.w.src == SD
    ensures Data(c, L2Serve(c, Queued, s))
  {
    var t := L2Serve(c, Queued, s);
    assert Below(c, s, s.w.r.a);
    forall x: Addr ensures Below(c, t, x) && Settled(t, x) { assert Below(c, s, x) && Settled(s, x); }
  }

  lemma HoldingServeFillSI(c: Config, s: State)
    requires Control(c, s) && Holding(c, s) && Serves(c, s) && s.w.r.op == OpLW && L2Hit(c, s, s.w.r.a) && s.w.src == SI
    ensures Holding(c, L2Serve(c, Queued, s))
  {
    var t := L2Serve(c, Queued, s);
    forall i: nat ensures Placed(c, t, i) { assert Placed(c, s, i); }
  }

  lemma DataServeFillSI(c: Config, s: State)
    requires Ready(c, s) && Serves(c, s) && s.w.r.op == OpLW && L2Hit(c, s, s.w.r.a) && s.w.src == SI
    ensures Data(c, L2Serve(c, Queued, s))
  {
    var t := L2Serve(c, Queued, s);
    assert Below(c, s, s.w.r.a);
    assert Settled(s, s.ia);
    forall x: Addr ensures Below(c, t, x) && Settled(t, x) { assert Below(c, s, x) && Settled(s, x); }
  }

  lemma DataServeWrite(c: Config, s: State)
    requires Ready(c, s) && Serves(c, s) && s.w.r.op == OpSW && L2Hit(c, s, s.w.r.a)
    ensures Holding(c, L2Serve(c, Queued, s)) && Data(c, L2Serve(c, Queued, s))
  {
    var t := L2Serve(c, Queued, s);
    forall i: nat ensures Placed(c, t, i) { assert Placed(c, s, i); }
    assert Below(c, s, s.w.r.a);
    forall x: Addr ensures Below(c, t, x) && Settled(t, x) { assert Below(c, s, x) && Settled(s, x); }
  }

  lemma HoldingServeMiss(c: Config, s: State)
    requires Control(c, s) && Holding(c, s) && Serves(c, s) && s.w.r.op in {OpLW, OpSW} && !L2Hit(c, s, s.w.r.a)
    ensures Holding(c, L2Serve(c, Queued, s))
  {
    var t := L2Serve(c, Queued, s);
    forall i: nat ensures Placed(c, t, i) { assert Placed(c, s, i); }
    assert Placed(c, s, c.setOf(s.w.r.a));
  }

  lemma UpperServeMiss(c: Config, s: State)
    requires Ready(c, s) && Serves(c, s) && s.w.r.op in {OpLW, OpSW} && !L2Hit(c, s, s.w.r.a)
    ensures Upper(c, L2Serve(c, Queued, s))
  {}

  lemma LowerServeMiss(c: Config, s: State)
    requires Ready(c, s) && Serves(c, s) && s.w.r.op in {OpLW, OpSW} && !L2Hit(c, s, s.w.r.a)
    ensures Lower(c, L2Serve(c, Queued, s))
  {
    var t := L2Serve(c, Queued, s);
    assert Placed(c, s, c.setOf(s.w.r.a));
    forall x: Addr ensures Below(c, t, x) && Settled(t, x) { assert Below(c, s, x) && Settled(s, x); }
  }

  lemma HoldingL2Reload(c: Config, s: State)
    requires Control(c, s) && Holding(c, s) && CanL2Reload(s)
    ensures Holding(c, L2DoReload(c, s))
  {
    var t := L2DoReload(c, s);
    forall i: nat ensures Placed(c, t, i) { assert Placed(c, s, i); }
  }

  lemma UpperL2Reload(c: Config, s: State)
    requires Ready(c, s) && CanL2Reload(s)
    ensures Upper(c, L2DoReload(c, s))
  {}

  lemma LowerL2Reload(c: Config, s: State)
    requires Ready(c, s) && CanL2Reload(s)
    ensures Lower(c, L2DoReload(c, s))
  {
    var t := L2DoReload(c, s);
    forall x: Addr ensures Below(c, t, x) && Settled(t, x) { assert Below(c, s, x) && Settled(s, x); }
  }

  lemma HoldingUncachedLoad(c: Config, s: State)
    requires Control(c, s) && Holding(c, s) && CanL2Uncached(Queued, s) && s.w.r.op == OpULW
    ensures Holding(c, L2Uncached(Queued, s))
  {
    assert s.dst == DUnc && s.reqD.Empty? && s.packD.Empty?;
    var t := L2Uncached(Queued, s);
    forall i: nat ensures Placed(c, t, i) { assert Placed(c, s, i); }
  }

  lemma DataUncachedLoad(c: Config, s: State)
    requires Ready(c, s) && CanL2Uncached(Queued, s) && s.w.r.op == OpULW
    ensures Data(c, L2Uncached(Queued, s))
  {
    assert s.dst == DUnc && s.reqD.Empty? && s.packD.Empty?;
    var t := L2Uncached(Queued, s);
    assert Below(c, s, s.w.r.a);
    forall x: Addr ensures Below(c, t, x) && Settled(t, x) { assert Below(c, s, x) && Settled(s, x); }
  }

  lemma HoldingUncachedStore(c: Config, s: State)
    requires Control(c, s) && Holding(c, s) && CanL2Uncached(Queued, s) && s.w.r.op == OpUSW
    ensures Holding(c, L2Uncached(Queued, s))
  {
    assert s.dst == DUnc && s.reqD.Empty? && s.packD.Empty?;
    var t := L2Uncached(Queued, s);
    forall i: nat ensures Placed(c, t, i) { assert Placed(c, s, i); }
  }

  lemma DataUncachedStore(c: Config, s: State)
    requires Ready(c, s) && CanL2Uncached(Queued, s) && s.w.r.op == OpUSW
    ensures Data(c, L2Uncached(Queued, s))
  {
    assert s.dst == DUnc && s.reqD.Empty? && s.packD.Empty?;
    var t := L2Uncached(Queued, s);
    assert Below(c, s, s.w.r.a);
    forall x: Addr ensures Below(c, t, x) && Settled(t, x) { assert Below(c, s, x) && Settled(s, x); }
  }

  lemma DataAcceptSnoop(c: Config, s: State)
    requires Ready(c, s) && CanAcceptSnoop(Queued, s)
    ensures Holding(c, AcceptSnoop(s)) && Data(c, AcceptSnoop(s))
  {
    var t := AcceptSnoop(s);
    forall i: nat ensures Placed(c, t, i) { assert Placed(c, s, i); }
    forall x: Addr ensures Below(c, t, x) && Settled(t, x) { assert Below(c, s, x) && Settled(s, x); }
  }

  lemma HoldingProbeAcks(c: Config, s: State)
    requires Control(c, s) && Holding(c, s) && CanProbeAcks(s)
    ensures Holding(c, ProbeAcks(c, s))
  {
    var t := ProbeAcks(c, s);
    forall i: nat ensures Placed(c, t, i) { assert Placed(c, s, i); }
  }

  lemma UpperProbeAcks(c: Config, s: State)
    requires Ready(c, s) && CanProbeAcks(s)
    ensures Upper(c, ProbeAcks(c, s))
  {}

  lemma ValuesProbeAcks(c: Config, s: State)
    requires Ready(c, s) && CanProbeAcks(s)
    ensures Values(c, ProbeAcks(c, s))
  {
    var t := ProbeAcks(c, s);
    forall x: Addr ensures Below(c, t, x) { assert Below(c, s, x); }
  }

  lemma LowerProbeAcks(c: Config, s: State)
    requires Ready(c, s) && CanProbeAcks(s)
    ensures Lower(c, ProbeAcks(c, s))
  {
    var t := ProbeAcks(c, s);
    ValuesProbeAcks(c, s);
    forall x: Addr ensures Settled(t, x) { assert Settled(s, x); }
  }

  lemma DataFlushStart(c: Config, s: State)
    requires Ready(c, s) && CanFlushStart(Queued, s)
    ensures Holding(c, FlushStart(s)) && Data(c, FlushStart(s))
  {
    var t := FlushStart(s);
    forall i: nat ensures Placed(c, t, i) { assert Placed(c, s, i); }
    forall x: Addr ensures Below(c, t, x) && Settled(t, x) { assert Below(c, s, x) && Settled(s, x); }
  }

  lemma HoldingFlushSet(c: Config, s: State)
    requires Control(c, s) && Holding(c, s) && CanFlushSet(s) && (LineAt(s.l2, s.fset).valid ==> s.probed)
    ensures Holding(c, FlushSet(c, s))
  {
    var t := FlushSet(c, s);
    assert Placed(c, s, s.fset);
    forall i: nat ensures Placed(c, t, i) { assert Placed(c, s, i); }
  }

  lemma DataFlushSet(c: Config, s: State)
    requires Ready(c, s) && CanFlushSet(s) && (LineAt(s.l2, s.fset).valid ==> s.probed)
    ensures Data(c, FlushSet(c, s))
  {
    var t := FlushSet(c, s);
    assert Placed(c, s, s.fset);
    forall x: Addr ensures Below(c, t, x) && Settled(t, x) { assert Below(c, s, x) && Settled(s, x); }
  }

  lemma DataStoreHit(c: Config, s: State, a: Addr)
    requires Ready(c, s) && CanStoreHit(s, a)
    ensures Holding(c, StoreHit(s, a)) && Data(c, StoreHit(s, a))
  {
    var t := StoreHit(s, a);
    QuietKeepsHolding(c, s, t);
    forall x: Addr ensures Below(c, t, x) && Settled(t, x) { assert Below(c, s, x) && Settled(s, x); }
  }

  lemma DataDMiss(c: Config, s: State, k: DKind, a: Addr)
    requires Ready(c, s) && CanDMiss(c, s, k, a)
    ensures Holding(c, DMiss(s, k, a)) && Data(c, DMiss(s, k, a))
  {
    var t := DMiss(s, k, a);
    QuietKeepsHolding(c, s, t);
    forall x: Addr ensures Below(c, t, x) && Settled(t, x) { assert Below(c, s, x) && Settled(s, x); }
  }

  lemma DataCacheOpDirty(c: Config, s: State, o: COp, a: Addr)
    requires Ready(c, s) && CanCacheOp(s, o, a) && DDirty(s, a)
    ensures Holding(c, CacheOp(s, o, a)) && Data(c, CacheOp(s, o, a))
  {
    var t := CacheOp(s, o, a);
    QuietKeepsHolding(c, s, t);
    forall x: Addr ensures Below(c, t, x) && Settled(t, x) { assert Below(c, s, x) && Settled(s, x); }
  }

  lemma CopiesCacheOpClean(c: Config, s: State, o: COp, a: Addr)
    requires Ready(c, s) && CanCacheOp(s, o, a) && !DDirty(s, a)
    ensures Copies(c, CacheOp(s, o, a))
  {}

  lemma UpperCacheOpClean(c: Config, s: State, o: COp, a: Addr)
    requires Ready(c, s) && CanCacheOp(s, o, a) && !DDirty(s, a)
    ensures Upper(c, CacheOp(s, o, a))
  {
    CopiesCacheOpClean(c, s, o, a);
  }

  lemma ValuesCacheOpClean(c: Config, s: State, o: COp, a: Addr)
    requires Ready(c, s) && CanCacheOp(s, o, a) && !DDirty(s, a)
    ensures Values(c, CacheOp(s, o, a)) && Cleaned(c, CacheOp(s, o, a))
  {
    var t := CacheOp(s, o, a);
    forall x: Addr ensures Below(c, t, x) && Settled(t, x) { assert Below(c, s, x) && Settled(s, x); }
  }

  lemma LowerCacheOpClean(c: Config, s: State, o: COp, a: Addr)
    requires Ready(c, s) && CanCacheOp(s, o, a) && !DDirty(s, a)
    ensures Lower(c, CacheOp(s, o, a))
  {
    ValuesCacheOpClean(c, s, o, a);
  }

  lemma HoldingULoad(c: Config, s: State, a: Addr)
    requires Control(c, s) && Holding(c, s) && CanULoad(s, a)
    ensures Holding(c, ULoad(s, a))
  {
    var t := ULoad(s, a);
    forall i: nat ensures Placed(c, t, i) { assert Placed(c, s, i); }
  }

  lemma UpperULoad(c: Config, s: State, a: Addr)
    requires Ready(c, s) && CanULoad(s, a)
    ensures Upper(c, ULoad(s, a))
  {
    assert !Serving(ULoad(s, a)) && !DHit(ULoad(s, a), a);
  }

  lemma LowerULoad(c: Config, s: State, a: Addr)
    requires Ready(c, s) && CanULoad(s, a)
    ensures Lower(c, ULoad(s, a))
  {
    var t := ULoad(s, a);
    forall x: Addr ensures Below(c, t, x) && Settled(t, x) { assert Below(c, s, x) && Settled(s, x); }
  }

  lemma HoldingUStore(c: Config, s: State, a: Addr)
    requires Control(c, s) && Holding(c, s) && CanUStore(s, a)
    ensures Holding(c, UStore(s, a))
  {
    var t := UStore(s, a);
    forall i: nat ensures Placed(c, t, i) { assert Placed(c, s, i); }
  }

  lemma CopiesUStore(c: Config, s: State, a: Addr)
    requires Ready(c, s) && CanUStore(s, a)
    ensures Copies(c, UStore(s, a))
  {
    assert !DHit(UStore(s, a), a) && Pending(UStore(s, a), a);
  }

  lemma UpperUStore(c: Config, s: State, a: Addr)
    requires Ready(c, s) && CanUStore(s, a)
    ensures Upper(c, UStore(s, a))
  {
    CopiesUStore(c, s, a);
  }

  lemma ValuesUStore(c: Config, s: State, a: Addr)
    requires Ready(c, s) && CanUStore(s, a)
    ensures Values(c, UStore(s, a))
  {
    var t := UStore(s, a);
    forall x: Addr ensures Below(c, t, x) { assert Below(c, s, x); }
  }

  lemma LowerUStore(c: Config, s: State, a: Addr)
    requires Ready(c, s) && CanUStore(s, a)
    ensures Lower(c, UStore(s, a))
  {
    var t := UStore(s, a);
    ValuesUStore(c, s, a);
    forall x: Addr ensures Settled(t, x) { assert Settled(s, x); }
  }

  lemma LowerFillResponse(c: Config, s: State)
    requires Ready(c, s) && CanDResponse(s) && s.dst == DFill
    ensures Lower(c, DResponse(s))
  {
    var t := DResponse(s);
    forall x: Addr ensures Below(c, t, x) && Settled(t, x) { assert Below(c, s, x) && Settled(s, x); }
  }

  lemma HoldingFillResponse(c: Config, s: State)
    requires Ready(c, s) && CanDResponse(s) && s.dst == DFill
    ensures Holding(c, DResponse(s))
  {
    var t := DResponse(s);
    forall i: nat ensures Placed(c, t, i) { assert Placed(c, s, i); }
  }

  lemma DataFillResponse(c: Config, s: State)
    requires Ready(c, s) && CanDResponse(s) && s.dst == DFill
    ensures Holding(c, DResponse(s)) && Data(c, DResponse(s))
  {
    HoldingFillResponse(c, s);
    LowerFillResponse(c, s);
  }

  lemma HoldingOtherResponse(c: Config, s: State)
    requires Control(c, s) && Holding(c, s) && CanDResponse(s) && s.dst != DFill
    ensures Holding(c, DResponse(s))
  {
    var t := DResponse(s);
    forall i: nat ensures Placed(c, t, i) { assert Placed(c, s, i); }
  }

  lemma UpperOtherResponse(c: Config, s: State)
    requires Ready(c, s) && CanDResponse(s) && s.dst != DFill
    ensures Upper(c, DResponse(s))
  {}

  lemma LowerOtherResponse(c: Config, s: State)
    requires Ready(c, s) && CanDResponse(s) && s.dst != DFill
    ensures Lower(c, DResponse(s))
  {
    var t := DResponse(s);
    forall x: Addr ensures Below(c, t, x) && Settled(t, x) { assert Below(c, s, x) && Settled(s, x); }
  }

  lemma DataDReload(c: Config, s: State)
    requires Ready(c, s) && CanDReload(s)
    ensures Holding(c, DoDReload(s)) && Data(c, DoDReload(s))
  {
    var t := DoDReload(s);
    QuietKeepsHolding(c, s, t);
    forall x: Addr ensures Below(c, t, x) && Settled(t, x) { assert Below(c, s, x) && Settled(s, x); }
  }

  lemma DataDUncIssue(c: Config, s: State)
    requires Ready(c, s) && CanDUncIssue(s)
    ensures Holding(c, DoDUncIssue(s)) && Data(c, DoDUncIssue(s))
  {
    var t := DoDUncIssue(s);
    QuietKeepsHolding(c, s, t);
    forall x: Addr ensures Below(c, t, x) && Settled(t, x) { assert Below(c, s, x) && Settled(s, x); }
  }

  lemma DataL1Walk(c: Config, s: State)
    requires Ready(c, s) && CanL1Walk(s)
    ensures Holding(c, L1Walk(s)) && Data(c, L1Walk(s))
  {
    var t := L1Walk(s);
    QuietKeepsHolding(c, s, t);
    forall x: Addr ensures Below(c, t, x) && Settled(t, x) { assert Below(c, s, x) && Settled(s, x); }
  }

  lemma DataIMiss(c: Config, s: State, a: Addr)
    requires Ready(c, s) && CanIMiss(c, s, a)
    ensures Holding(c, IMiss(s, a)) && Data(c, IMiss(s, a))
  {
    var t := IMiss(s, a);
    QuietKeepsHolding(c, s, t);
    forall x: Addr ensures Below(c, t, x) && Settled(t, x) { assert Below(c, s, x) && Settled(s, x); }
  }

  lemma HoldingIFill(c: Config, s: State)
    requires Ready(c, s) && CanIFill(s)
    ensures Holding(c, IFill(s))
  {
    var t := IFill(s);
    forall i: nat ensures Placed(c, t, i) { assert Placed(c, s, i); }
  }

  lemma LowerIFill(c: Config, s: State)
    requires Ready(c, s) && CanIFill(s)
    ensures Lower(c, IFill(s))
  {
    var t := IFill(s);
    forall x: Addr ensures Below(c, t, x) && Settled(t, x) { assert Below(c, s, x) && Settled(s, x); }
  }

  lemma DataIFill(c: Config, s: State)
    requires Ready(c, s) && CanIFill(s)
    ensures Holding(c, IFill(s)) && Data(c, IFill(s))
  {
    HoldingIFill(c, s);
    LowerIFill(c, s);
  }

  lemma DataISync(c: Config, s: State)
    requires Ready(c, s) && CanISync(c, s)
    ensures Holding(c, ISync(s)) && Data(c, ISync(s))
  {
    var t := ISync(s);
    QuietKeepsHolding(c, s, t);
    forall x: Addr ensures Below(c, t, x) && Settled(t, x) { assert Below(c, s, x) && Settled(s, x); }
  }

  lemma HoldingDProbe(c: Config, s: State)
    requires Control(c, s) && Holding(c, s) && CanDProbe(s)
    ensures Holding(c, DProbe(s))
  {
    var t := DProbe(s);
    forall i: nat ensures Placed(c, t, i) { assert Placed(c, s, i); }
  }

  lemma UpperDProbe(c: Config, s: State)
    requires Ready(c, s) && CanDProbe(s)
    ensures Upper(c, DProbe(s))
  {}

  lemma LowerDProbe(c: Config, s: State)
    requires Ready(c, s) && CanDProbe(s)
    ensures Lower(c, DProbe(s))
  {
    var t := DProbe(s);
    forall x: Addr ensures Below(c, t, x) && Settled(t, x) { assert Below(c, s, x) && Settled(s, x); }
  }

  lemma HoldingIProbe(c: Config, s: State)
    requires Ready(c, s) && CanIProbe(s)
    ensures Holding(c, IProbe(s))
  {
    var t := IProbe(s);
    forall i: nat ensures Placed(c, t, i) { assert Placed(c, s, i); }
  }

  lemma LowerIProbe(c: Config, s: State)
    requires Ready(c, s) && CanIProbe(s)
    ensures Lower(c, IProbe(s))
  {
    var t := IProbe(s);
    forall x: Addr ensures Below(c, t, x) && Settled(t, x) { assert Below(c, s, x) && Settled(s, x); }
  }

  lemma DataIProbe(c: Config, s: State)
    requires Ready(c, s) && CanIProbe(s)
    ensures Holding(c, IProbe(s)) && Data(c, IProbe(s))
  {
    HoldingIProbe(c, s);
    LowerIProbe(c, s);
  }

  lemma HoldingXpgPre(c: Config, s: State, a: Addr, into: bool)
    requires Control(c, s) && Holding(c, s) && CanXpgPre(c, s, a)
    ensures Holding(c, XpgPre(s, a, into))
  {
    QuietKeepsHolding(c, s, XpgPre(s, a, into));
  }

  lemma UpperXpgPre(c: Config, s: State, a: Addr, into: bool)
    requires Ready(c, s) && CanXpgPre(c, s, a)
    ensures Upper(c, XpgPre(s, a, into))
  {}

  lemma LowerXpgPre(c: Config, s: State, a: Addr, into: bool)
    requires Ready(c, s) && CanXpgPre(c, s, a)
    ensures Lower(c, XpgPre(s, a, into))
  {
    var t := XpgPre(s, a, into);
    forall x: Addr ensures Below(c, t, x) && Settled(t, x) { assert Below(c, s, x) && Settled(s, x); }
  }

  /** A dirty line that a reload replaces is not the device's. */
  lemma VictimIsNotTheBuffer(c: Config, s: State)
    requires Ready(c, s) && CanDevWrite(c, s)
    ensures var ln := LineOf(c, s, s.w.r.a); s.l2st == L2Reload && ln.valid && ln.dirty ==> ln.tag != s.daddr
  {
    assert Placed(c, s, c.setOf(s.w.r.a));
  }

  lemma HoldingDevWrite(c: Config, s: State)
    requires Ready(c, s) && CanDevWrite(c, s)
    ensures Holding(c, DevWrite(s))
  {
    var t := DevWrite(s);
    VictimIsNotTheBuffer(c, s);
    forall i: nat ensures Placed(c, t, i) { assert Placed(c, s, i); }
  }

  lemma CopiesDevWrite(c: Config, s: State)
    requires Ready(c, s) && CanDevWrite(c, s)
    ensures Copies(c, DevWrite(s))
  {
    assert !Above(s, s.daddr) && !Pending(s, s.daddr);
  }

  lemma UpperDevWrite(c: Config, s: State)
    requires Ready(c, s) && CanDevWrite(c, s)
    ensures Upper(c, DevWrite(s))
  {
    CopiesDevWrite(c, s);
    assert !Above(s, s.daddr) && !Pending(s, s.daddr);
  }

  lemma LowerDevWrite(c: Config, s: State)
    requires Ready(c, s) && CanDevWrite(c, s)
    ensures Lower(c, DevWrite(s))
  {
    assert !Above(s, s.daddr) && !Pending(s, s.daddr);
    var t := DevWrite(s);
    forall x: Addr ensures Below(c, t, x) && Settled(t, x) { assert Below(c, s, x) && Settled(s, x); }
  }

  lemma HoldingXpgDrop(c: Config, s: State)
    requires Control(c, s) && Holding(c, s) && CanXpgDrop(c, s)
    ensures Holding(c, XpgDrop(s))
  {
    QuietKeepsHolding(c, s, XpgDrop(s));
  }

  lemma CopiesXpgDrop(c: Config, s: State)
    requires Ready(c, s) && CanXpgDrop(c, s)
    ensures Copies(c, XpgDrop(s)) && Responses(c, XpgDrop(s))
  {}

  lemma UpperXpgDrop(c: Config, s: State)
    requires Ready(c, s) && CanXpgDrop(c, s)
    ensures Upper(c, XpgDrop(s))
  {
    CopiesXpgDrop(c, s);
  }

  lemma LowerXpgDrop(c: Config, s: State)
    requires Ready(c, s) && CanXpgDrop(c, s)
    ensures Lower(c, XpgDrop(s))
  {
    var t := XpgDrop(s);
    forall x: Addr ensures Below(c, t, x) && Settled(t, x) { assert Below(c, s, x) && Settled(s, x); }
  }

  lemma DataDevRead(c: Config, s: State)
    requires Ready(c, s) && CanDevRead(c, s)
    ensures Holding(c, DevRead(s)) && Data(c, DevRead(s))
  {
    var t := DevRead(s);
    QuietKeepsHolding(c, s, t);
    forall x: Addr ensures Below(c, t, x) && Settled(t, x) { assert Below(c, s, x) && Settled(s, x); }
  }

  lemma DataSnpPre(c: Config, s: State, a: Addr, into: bool)
    requires Ready(c, s) && CanSnpPre(c, s)
    ensures Holding(c, SnpPre(s, a, into)) && Data(c, SnpPre(s, a, into))
  {
    var t := SnpPre(s, a, into);
    QuietKeepsHolding(c, s, t);
    forall x: Addr ensures Below(c, t, x) && Settled(t, x) { assert Below(c, s, x) && Settled(s, x); }
  }

  lemma LowerSnpPost(c: Config, s: State)
    requires Ready(c, s) && CanSnpPost(c, s)
    ensures Lower(c, SnpPost(s))
  {
    var t := SnpPost(s);
    forall x: Addr ensures Below(c, t, x) && Settled(t, x) { assert Below(c, s, x) && Settled(s, x); }
  }

  lemma DataSnpPost(c: Config, s: State)
    requires Ready(c, s) && CanSnpPost(c, s)
    ensures Holding(c, SnpPost(s)) && Data(c, SnpPost(s))
  {
    QuietKeepsHolding(c, s, SnpPost(s));
    LowerSnpPost(c, s);
  }
}

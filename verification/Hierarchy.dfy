/** The protocol in the form the rules are written in: variables that each rule updates in place.
    Every method is one rule (or a procedure the rules call), in the rules' own order of tests and
    assignments, with the rules' assertions as `assert` statements; its contract is the rule's
    function from state to state.  `Take` runs any enabled rule in a valid system: no assertion
    fails, and the system stays valid.  */
module Hierarchy {
  import opened Protocol
  import opened Invariant
  import opened DeliveryOrder
  import opened Safety
  import opened Coherence

  /** What the rules track about the values themselves. */
  datatype Truth = Truth(latest: map<Addr, Ver>, unclean: set<Addr>, incoh: set<Addr>)

  /** One L1's slots: its request, the response, the probe, the answer, and whether one is due. */
  datatype Port = Port(req: Slot<Req>, rsp: Slot<Ver>, prb: Slot<Addr>, pack: Slot<Ack>, pexp: bool)

  datatype Engine = Engine(st: L2St, w: Work, probed: bool, pa: Addr, pret: L2St, fset: nat)
  datatype DCache = DCache(line: L1Line, st: DSt, kind: DKind, a: Addr, op: COp, sd: Ver)
  datatype ICache = ICache(line: L1Line, fill: bool, a: Addr)
  datatype Agent = Agent(st: DmaSt, a: Addr)

  class Caches {
    const c: Config
    const m: Delivery

    var truth: Truth
    var mem: map<Addr, Ver>
    var portD: Port
    var portI: Port
    var snp: Slot<Snp>
    var l2: map<nat, Line>
    var fsm: Engine
    var l1d: DCache
    var l1i: ICache
    var dma: Agent

    ghost function View(): State
      reads this
    {
      State(truth.latest, truth.unclean, truth.incoh, mem,
            portD.req, portI.req, portD.rsp, portI.rsp, portD.prb, portI.prb, portD.pack, portI.pack,
            portD.pexp, portI.pexp, snp,
            l2, fsm.st, fsm.w, fsm.probed, fsm.pa, fsm.pret, fsm.fset,
            l1d.line, l1d.st, l1d.kind, l1d.a, l1d.op, l1d.sd,
            l1i.line, l1i.fill, l1i.a,
            dma.st, dma.a)
    }

    ghost predicate Valid()
      reads this
    {
      c.Valid() && Good(c, m, View())
    }

    constructor (c: Config, m: Delivery)
      requires c.Valid()
      ensures Valid() && View() == Start() && this.c == c && this.m == m
    {
      this.c, this.m := c, m;
      truth, mem := Truth(map[], {}, {}), map[];
      portD, portI, snp := Port(Empty, Empty, Empty, Empty, false), Port(Empty, Empty, Empty, Empty, false), Empty;
      l2, fsm := map[], Engine(L2Idle, Work(SD, Req(OpLW, 0, 0)), false, 0, L2Idle, 0);
      l1d := DCache(L1Line(LI, 0, 0), DIdle, KLoad, 0, CoNone, 0);
      l1i, dma := ICache(L1Line(LI, 0, 0), false, 0), Agent(DmIdle, 0);
      new;
      StartGood(c, m);
    }

    // ---------------------------------------------------------------- procedures

    predicate HitsD(a: Addr) reads this { l1d.line.st != LI && l1d.line.tag == a }
    predicate HitsI(a: Addr) reads this { l1i.line.st != LI && l1i.line.tag == a }
    function LineFor(a: Addr): Line reads this { LineAt(l2, c.setOf(a)) }
    predicate HitsL2(a: Addr) reads this { LineFor(a).valid && LineFor(a).tag == a }

    /** Latch a request; an L1 never issues a second one. */
    method IssueD(o: Op, a: Addr, d: Ver)
      requires portD.req.Empty?
      modifies this`portD
      ensures portD == old(portD).(req := Full(Req(o, a, d)))
    {
      portD := portD.(req := Full(Req(o, a, d)));
    }

    method CoreWrites(a: Addr)
      modifies `truth
      ensures View() == CoreWrite(old(View()), a)
    {
      truth := Truth(truth.latest[a := At(truth.latest, a) + 1], truth.unclean + {a}, truth.incoh + {a});
    }

    method Probe(a: Addr, ret: L2St)
      modifies this
      ensures View() == SendProbes(c, old(View()), a, ret)
    {
      var toD := !c.pres || LineFor(a).pd;
      var toI := c.l1i && (!c.pres || LineFor(a).pi);
      portD := portD.(pexp := toD, prb := if toD then Full(a) else portD.prb);
      portI := portI.(pexp := toI, prb := if toI then Full(a) else portI.prb);
      if toD || toI {
        fsm := fsm.(pa := a, pret := ret, st := L2Probe);
      } else {
        fsm := fsm.(pa := a, pret := ret, probed := true, st := ret);
      }
    }

    /** The L1D takes a response. */
    method TakeD(d: Ver)
      requires DRspChecks(View(), d)
      modifies this
      ensures View() == DRsp(old(View()), d)
    {
      match l1d.st
      case DVict =>
        l1d := l1d.(line := l1d.line.(st := LI), st := DReload);
      case DFill =>
        l1d := l1d.(line := L1Line(LV, l1d.a, d));
        if l1d.kind == KLoad {
          assert d == At(truth.latest, l1d.a);
        } else if l1d.kind == KStore {
          CoreWrites(l1d.a);
          l1d := l1d.(line := l1d.line.(d := At(truth.latest, l1d.a), st := LVD));
        }
        l1d := l1d.(st := DIdle);
      case DOp =>
        if l1d.op == CoXpgInv { dma := dma.(st := DmIdle); }
        if l1d.op == CoChwb { truth := truth.(unclean := truth.unclean - {l1d.a}); }
        l1d := l1d.(st := DIdle);
      case DUncWb =>
        l1d := l1d.(st := DUncIssue);
      case DUnc =>
        if l1d.op == CoUload { assert d == At(truth.latest, l1d.a); }
        l1d := l1d.(st := DIdle);
      case DFlushWb =>
        l1d := l1d.(line := l1d.line.(st := LI), st := DFlushL2);
      case _ =>
        assert false;
    }

    method TakeI(d: Ver)
      requires l1i.fill
      modifies `l1i
      ensures View() == IRsp(old(View()), d)
    {
      assert l1i.fill;
      l1i := l1i.(line := L1Line(LV, l1i.a, d), fill := false);
    }

    method Answer(x: Src, d: Ver)
      requires RespondChecks(m, View(), x, d)
      modifies this
      ensures View() == Respond(m, old(View()), x, d)
    {
      if m == SameStep {
        if x == SD { TakeD(d); } else { TakeI(d); }
      } else if x == SD {
        assert portD.rsp.Empty?;
        portD := portD.(rsp := Full(d));
      } else {
        assert portI.rsp.Empty?;
        portI := portI.(rsp := Full(d));
      }
    }

    method DropLine(a: Addr)
      requires HitsL2(a)
      modifies `l2
      ensures l2 == old(l2)[c.setOf(a) := Drop(old(LineFor(a)))]
    {
      l2 := l2[c.setOf(a) := LineFor(a).(valid := false, dirty := false, pd := false, pi := false)];
    }

    method Purge(a: Addr)
      modifies `l2, `mem
      ensures View() == WriteBackDrop(c, old(View()), a)
    {
      if HitsL2(a) {
        if LineFor(a).dirty { mem := mem[a := LineFor(a).d]; }
        DropLine(a);
      }
    }

    // ---------------------------------------------------------------- the L2

    method AcceptRequest(x: Src)
      requires CanL2Accept(m, View(), x)
      requires Checks(c, m, View(), StL2Accept(x))
      modifies this
      ensures View() == L2Accept(m, old(View()), x)
    {
      if x == SD {
        fsm, portD := fsm.(w := Work(SD, portD.req.v), probed := false), portD.(req := Empty);
      } else {
        fsm, portI := fsm.(w := Work(SI, portI.req.v), probed := false), portI.(req := Empty);
      }
      if fsm.w.r.op == OpSW { Answer(fsm.w.src, 0); }
      fsm := fsm.(st := if fsm.w.r.op == OpULW || fsm.w.r.op == OpUSW then L2Upurge else L2Check);
    }

    method PurgeUncached()
      requires CanL2Purge(View())
      requires Checks(c, m, View(), StL2Purge)
      modifies this
      ensures View() == L2Purge(c, old(View()))
    {
      if HitsL2(fsm.w.r.a) && !fsm.probed {
        Probe(fsm.w.r.a, L2Upurge);
      } else {
        Purge(fsm.w.r.a);
        fsm := fsm.(st := L2Unc);
      }
    }

    method CheckTag()
      requires CanL2Check(m, View())
      requires Checks(c, m, View(), StL2Check)
      modifies this
      ensures View() == L2DoCheck(c, m, old(View()))
    {
      if fsm.w.r.op in {OpINVL, OpPGDROP, OpWB, OpSnpWbinv, OpSnpDrop} && HitsL2(fsm.w.r.a) && !fsm.probed {
        Probe(fsm.w.r.a, L2Check);
      } else if fsm.w.r.op in {OpLW, OpSW} && !HitsL2(fsm.w.r.a) && LineFor(fsm.w.r.a).valid && !fsm.probed {
        Probe(LineFor(fsm.w.r.a).tag, L2Check);
      } else {
        Serve();
      }
    }

    method Serve()
      requires ServeChecks(c, m, View())
      modifies this
      ensures View() == L2Serve(c, m, old(View()))
    {
      match fsm.w.r.op
      case OpINVL => ServeInvalidate();
      case OpPGDROP => ServePageDrop();
      case OpSnpWbinv => ServeSnoop();
      case OpSnpDrop => ServeSnoopDrop();
      case OpWB => ServeWriteBack();
      case OpLW => ServeLoad();
      case OpSW => ServeWrite();
      case _ => assert false;
    }

    method ServeInvalidate()
      requires fsm.w.r.op == OpINVL && ServeChecks(c, m, View())
      modifies this
      ensures View() == L2Serve(c, m, old(View()))
    {
      Purge(fsm.w.r.a);
      Answer(fsm.w.src, 0);
      fsm := fsm.(st := L2Idle);
    }

    method ServePageDrop()
      requires fsm.w.r.op == OpPGDROP && ServeChecks(c, m, View())
      modifies this
      ensures View() == L2Serve(c, m, old(View()))
    {
      if HitsL2(fsm.w.r.a) {
        assert !LineFor(fsm.w.r.a).dirty;
        DropLine(fsm.w.r.a);
      }
      Answer(fsm.w.src, 0);
      fsm := fsm.(st := L2Idle);
    }

    /** Take over a latched writeback of the snooped line. */
    method AbsorbLatched()
      requires portD.req.Full? && Latched(View(), fsm.w.r.a) && RespondChecks(m, View(), SD, 0)
      modifies this
      ensures View() == Absorb(c, m, old(View()), old(fsm.w.r.a))
    {
      if HitsL2(fsm.w.r.a) {
        l2 := l2[c.setOf(fsm.w.r.a) := LineFor(fsm.w.r.a).(d := portD.req.v.d, dirty := true)];
      } else {
        mem := mem[fsm.w.r.a := portD.req.v.d];
      }
      portD := portD.(req := Empty);
      Answer(SD, 0);
    }

    method ServeSnoop()
      requires fsm.w.r.op == OpSnpWbinv && ServeChecks(c, m, View())
      modifies this
      ensures View() == L2Serve(c, m, old(View()))
    {
      if portD.req.Full? && portD.req.v.a == fsm.w.r.a && (portD.req.v.op == OpWB || portD.req.v.op == OpSW) {
        AbsorbLatched();
      }
      FinishSnoop();
    }

    /** The snooped line goes to memory and the transfer may start. */
    method FinishSnoop()
      modifies this
      ensures View() == FinishWbinv(c, old(View()))
    {
      Purge(fsm.w.r.a);
      if dma.st == DmInPre { dma := dma.(st := DmInArmed); }
      if dma.st == DmOutPre { dma := dma.(st := DmOutArmed); }
      fsm := fsm.(st := L2Idle);
    }

    method ServeSnoopDrop()
      requires fsm.w.r.op == OpSnpDrop && ServeChecks(c, m, View())
      modifies this
      ensures View() == L2Serve(c, m, old(View()))
    {
      assert !(portD.req.Full? && portD.req.v.a == fsm.w.r.a && (portD.req.v.op == OpWB || portD.req.v.op == OpSW));
      if HitsL2(fsm.w.r.a) {
        assert !LineFor(fsm.w.r.a).dirty;
        DropLine(fsm.w.r.a);
      }
      if dma.st == DmInDrop { dma := dma.(st := DmIdle); }
      fsm := fsm.(st := L2Idle);
    }

    method ServeWriteBack()
      requires fsm.w.r.op == OpWB && ServeChecks(c, m, View())
      modifies this
      ensures View() == L2Serve(c, m, old(View()))
    {
      mem := mem[fsm.w.r.a := fsm.w.r.d];
      if HitsL2(fsm.w.r.a) {
        l2 := l2[c.setOf(fsm.w.r.a) := LineFor(fsm.w.r.a).(valid := false, pd := false, pi := false)];
      }
      Answer(fsm.w.src, 0);
      fsm := fsm.(st := L2Idle);
    }

    /** Note which L1 is about to have the line. */
    method MarkPresent()
      requires HitsL2(fsm.w.r.a)
      modifies this`l2
      ensures View() == SetLine(c, old(View()), fsm.w.r.a, Granted(c, old(View())))
    {
      var ln := LineFor(fsm.w.r.a);
      if c.pres && fsm.w.src == SD {
        l2 := l2[c.setOf(fsm.w.r.a) := ln.(pd := true)];
      } else if c.pres {
        l2 := l2[c.setOf(fsm.w.r.a) := ln.(pi := true)];
      }
      assert l2 == old(l2)[c.setOf(fsm.w.r.a) := Granted(c, old(View()))];
    }

    method ServeLoad()
      requires fsm.w.r.op == OpLW && ServeChecks(c, m, View())
      modifies this
      ensures View() == L2Serve(c, m, old(View()))
    {
      if HitsL2(fsm.w.r.a) {
        ServeFillIs(c, m, View());
        MarkPresent();
        Answer(fsm.w.src, LineFor(fsm.w.r.a).d);
        fsm := fsm.(st := L2Idle);
      } else {
        Evict();
      }
    }

    method ServeWrite()
      requires fsm.w.r.op == OpSW
      modifies this
      ensures View() == L2Serve(c, m, old(View()))
    {
      if HitsL2(fsm.w.r.a) {
        var ln := LineFor(fsm.w.r.a).(d := fsm.w.r.d, dirty := true);
        l2 := l2[c.setOf(fsm.w.r.a) := if fsm.w.src == SD then ln.(pd := false) else ln];
        fsm := fsm.(st := L2Idle);
      } else {
        Evict();
      }
    }

    method Evict()
      modifies `mem, `fsm
      ensures View() == EvictDirty(c, old(View())).(l2st := L2Reload)
    {
      var ln := LineFor(fsm.w.r.a);
      if ln.valid && ln.dirty { mem := mem[ln.tag := ln.d]; }
      fsm := fsm.(st := L2Reload);
    }

    method Reload()
      requires CanL2Reload(View())
      requires Checks(c, m, View(), StL2Reload)
      modifies this
      ensures View() == L2DoReload(c, old(View()))
    {
      l2 := l2[c.setOf(fsm.w.r.a) := Line(true, false, fsm.w.r.a, At(mem, fsm.w.r.a), false, false)];
      fsm := fsm.(st := L2Check);
    }

    method AccessUncached()
      requires CanL2Uncached(m, View())
      requires Checks(c, m, View(), StL2Uncached)
      modifies this
      ensures View() == L2Uncached(m, old(View()))
    {
      if fsm.w.r.op == OpUSW {
        mem := mem[fsm.w.r.a := fsm.w.r.d];
        Answer(fsm.w.src, 0);
      } else {
        Answer(fsm.w.src, At(mem, fsm.w.r.a));
      }
      fsm := fsm.(st := L2Idle);
    }

    method TakeSnoop()
      requires CanAcceptSnoop(m, View())
      requires Checks(c, m, View(), StAcceptSnoop)
      modifies this
      ensures View() == AcceptSnoop(old(View()))
    {
      fsm := fsm.(w := Work(SD, Req(snp.v.op, snp.v.a, 0)));
      snp := Empty;
      fsm := fsm.(probed := false, st := L2Check);
    }

    method CollectAnswers()
      requires CanProbeAcks(View())
      requires Checks(c, m, View(), StProbeAcks)
      modifies this
      ensures View() == ProbeAcks(c, old(View()))
    {
      assert HitsL2(fsm.pa);
      assert portI.pack.Full? ==> !portI.pack.v.dirty;
      MergeAnswer();
      portD, portI := portD.(pack := Empty, pexp := false), portI.(pack := Empty, pexp := false);
      fsm := fsm.(probed := true, st := fsm.pret);
    }

    /** The probed line, with the L1D's data if they were dirty, and no L1 that has it. */
    method MergeAnswer()
      modifies `l2
      ensures var ln := old(LineFor(fsm.pa));
              var dirty := portD.pack.Full? && portD.pack.v.dirty;
              var merged := if dirty then ln.(d := portD.pack.v.d, dirty := true) else ln;
              l2 == old(l2)[c.setOf(fsm.pa) := merged.(pd := false, pi := false)]
    {
      var ln := LineFor(fsm.pa);
      if portD.pack.Full? && portD.pack.v.dirty {
        ln := ln.(d := portD.pack.v.d, dirty := true);
      }
      l2 := l2[c.setOf(fsm.pa) := ln.(pd := false, pi := false)];
    }

    method StartFlush()
      requires CanFlushStart(m, View())
      requires Checks(c, m, View(), StFlushStart)
      modifies this
      ensures View() == FlushStart(old(View()))
    {
      fsm := fsm.(fset := 0, probed := false, st := L2Flush);
    }

    method FlushOneSet()
      requires CanFlushSet(View())
      requires Checks(c, m, View(), StFlushSet)
      modifies this
      ensures View() == FlushSet(c, old(View()))
    {
      var ln := LineAt(l2, fsm.fset);
      if ln.valid && !fsm.probed {
        Probe(ln.tag, L2Flush);
      } else {
        if ln.valid && ln.dirty { mem := mem[ln.tag := ln.d]; }
        l2 := l2[fsm.fset := ln.(valid := false, dirty := false, pd := false, pi := false)];
        if fsm.fset + 1 == c.sets {
          fsm, l1d := fsm.(probed := false, st := L2Idle), l1d.(st := DIdle);
        } else {
          fsm := fsm.(probed := false, fset := fsm.fset + 1);
        }
      }
    }

    // ---------------------------------------------------------------- the L1D

    /** The value that a load which hits returns. */
    method LoadHits(a: Addr) returns (d: Ver)
      requires Valid() && Enabled(c, m, View(), StLoadHit(a))
      ensures d == At(truth.latest, a)
    {
      CheckHolds(c, m, View(), StLoadHit(a));
      d := l1d.line.d;
    }

    method StoreHits(a: Addr)
      requires CanStoreHit(View(), a)
      requires Checks(c, m, View(), StStoreHit(a))
      modifies this
      ensures View() == StoreHit(old(View()), a)
    {
      CoreWrites(a);
      l1d := l1d.(line := l1d.line.(d := At(truth.latest, a), st := LVD));
    }

    method MissD(k: DKind, a: Addr)
      requires CanDMiss(c, View(), k, a)
      requires Checks(c, m, View(), StDMiss(k, a))
      modifies this
      ensures View() == DMiss(old(View()), k, a)
    {
      l1d := l1d.(kind := k, a := a);
      if l1d.line.st == LVD {
        IssueD(OpSW, l1d.line.tag, l1d.line.d);
        l1d := l1d.(st := DVict);
      } else {
        l1d := l1d.(line := l1d.line.(st := LI));
        IssueD(OpLW, a, 0);
        l1d := l1d.(st := DFill);
      }
    }

    method OperateOnHit(o: COp, a: Addr)
      requires CanCacheOp(View(), o, a)
      requires Checks(c, m, View(), StCacheOp(o, a))
      modifies this
      ensures View() == CacheOp(old(View()), o, a)
    {
      l1d := l1d.(op := o, a := a);
      if o == CoChwb && HitsD(a) && l1d.line.st == LVD {
        IssueD(OpWB, a, l1d.line.d);
      } else {
        IssueD(OpINVL, a, 0);
      }
      if HitsD(a) { l1d := l1d.(line := l1d.line.(st := LI)); }
      l1d := l1d.(st := DOp);
    }

    /** Give up the line: its dirty data go first, else the uncached access o is issued now. */
    method GiveUpFor(o: Op, a: Addr, d: Ver)
      requires portD.req.Empty?
      modifies this`l1d, this`portD
      ensures var dirty := old(HitsD(a) && l1d.line.st == LVD);
              && portD == old(portD).(req := Full(if dirty then Req(OpSW, a, old(l1d.line.d)) else Req(o, a, d)))
              && l1d == old(l1d).(line := if old(HitsD(a)) then old(l1d.line).(st := LI) else old(l1d.line),
                                  st := if dirty then DUncWb else DUnc)
    {
      if HitsD(a) && l1d.line.st == LVD {
        IssueD(OpSW, a, l1d.line.d);
        l1d := l1d.(line := l1d.line.(st := LI), st := DUncWb);
      } else {
        if HitsD(a) { l1d := l1d.(line := l1d.line.(st := LI)); }
        IssueD(o, a, d);
        l1d := l1d.(st := DUnc);
      }
    }

    method LoadUncached(a: Addr)
      requires CanULoad(View(), a)
      requires Checks(c, m, View(), StULoad(a))
      modifies this
      ensures View() == ULoad(old(View()), a)
    {
      l1d := l1d.(op := CoUload, a := a);
      GiveUpFor(OpULW, a, 0);
    }

    method StoreUncached(a: Addr)
      requires CanUStore(View(), a)
      requires Checks(c, m, View(), StUStore(a))
      modifies this
      ensures View() == UStore(old(View()), a)
    {
      l1d := l1d.(op := CoUstore, a := a);
      CoreWrites(a);
      l1d := l1d.(sd := At(truth.latest, a));
      GiveUpFor(OpUSW, a, l1d.sd);
    }

    method ConsumeD()
      requires CanDResponse(View())
      requires Checks(c, m, View(), StDResponse)
      modifies this
      ensures View() == DResponse(old(View()))
    {
      var d := portD.rsp.v;
      portD := portD.(rsp := Empty);
      TakeD(d);
    }

    method ReloadAfterVictim()
      requires CanDReload(View())
      requires Checks(c, m, View(), StDReload)
      modifies this
      ensures View() == DoDReload(old(View()))
    {
      IssueD(OpLW, l1d.a, 0);
      l1d := l1d.(st := DFill);
    }

    method IssueUncached()
      requires CanDUncIssue(View())
      requires Checks(c, m, View(), StDUncIssue)
      modifies this
      ensures View() == DoDUncIssue(old(View()))
    {
      if l1d.op == CoUstore { IssueD(OpUSW, l1d.a, l1d.sd); } else { IssueD(OpULW, l1d.a, 0); }
      l1d := l1d.(st := DUnc);
    }

    method WalkL1()
      requires CanL1Walk(View())
      requires Checks(c, m, View(), StL1Walk)
      modifies this
      ensures View() == L1Walk(old(View()))
    {
      if l1d.line.st == LVD {
        IssueD(OpSW, l1d.line.tag, l1d.line.d);
        l1d := l1d.(st := DFlushWb);
      } else {
        l1d := l1d.(line := l1d.line.(st := LI), st := DFlushL2);
      }
      l1i := l1i.(line := l1i.line.(st := LI));
    }

    // ---------------------------------------------------------------- the L1I

    /** The value that a fetch which hits, after an I-sync, returns. */
    method FetchHits(a: Addr) returns (d: Ver)
      requires Valid() && Enabled(c, m, View(), StFetchHit(a))
      ensures d == At(truth.latest, a)
    {
      CheckHolds(c, m, View(), StFetchHit(a));
      d := l1i.line.d;
    }

    method MissI(a: Addr)
      requires CanIMiss(c, View(), a)
      requires Checks(c, m, View(), StIMiss(a))
      modifies this
      ensures View() == IMiss(old(View()), a)
    {
      l1i := l1i.(line := l1i.line.(st := LI), fill := true, a := a);
      assert portI.req.Empty?;
      portI := portI.(req := Full(Req(OpLW, a, 0)));
    }

    method ConsumeI()
      requires CanIFill(View())
      requires Checks(c, m, View(), StIFill)
      modifies this
      ensures View() == IFill(old(View()))
    {
      var d := portI.rsp.v;
      portI := portI.(rsp := Empty);
      TakeI(d);
    }

    method SyncI()
      requires CanISync(c, View())
      requires Checks(c, m, View(), StISync)
      modifies this
      ensures View() == ISync(old(View()))
    {
      l1i := l1i.(line := l1i.line.(st := LI));
      var window := dma.st in {DmInPre, DmInArmed, DmInDone, DmInDrop};
      truth := truth.(incoh := truth.unclean + (if window then {dma.a} else {}));
    }

    // ---------------------------------------------------------------- probes

    method AnswerD()
      requires CanDProbe(View())
      requires Checks(c, m, View(), StDProbe)
      modifies this
      ensures View() == DProbe(old(View()))
    {
      portD := portD.(pack := Full(Ack(false, 0)));
      if HitsD(portD.prb.v) {
        if l1d.line.st == LVD { portD := portD.(pack := Full(Ack(true, l1d.line.d))); }
        l1d := l1d.(line := l1d.line.(st := LI));
      }
      portD := portD.(prb := Empty);
    }

    method AnswerI()
      requires CanIProbe(View())
      requires Checks(c, m, View(), StIProbe)
      modifies this
      ensures View() == IProbe(old(View()))
    {
      portI := portI.(pack := Full(Ack(false, 0)));
      if HitsI(portI.prb.v) { l1i := l1i.(line := l1i.line.(st := LI)); }
      portI := portI.(prb := Empty);
    }

    // ---------------------------------------------------------------- DMA

    method PreFlushPage(a: Addr, into: bool)
      requires CanXpgPre(c, View(), a)
      requires Checks(c, m, View(), StXpgPre(a, into))
      modifies this
      ensures View() == XpgPre(old(View()), a, into)
    {
      l1d := l1d.(op := CoXpgWbinv, a := a);
      if HitsD(a) && l1d.line.st == LVD { IssueD(OpWB, a, l1d.line.d); } else { IssueD(OpINVL, a, 0); }
      if HitsD(a) { l1d := l1d.(line := l1d.line.(st := LI)); }
      l1d := l1d.(st := DOp);
      dma := dma.(st := if into then DmInArmed else DmOutArmed, a := a);
    }

    method DeviceWrites()
      requires CanDevWrite(c, View())
      requires Checks(c, m, View(), StDevWrite)
      modifies this
      ensures View() == DevWrite(old(View()))
    {
      truth := Truth(truth.latest[dma.a := At(truth.latest, dma.a) + 1],
                     truth.unclean - {dma.a}, truth.incoh + {dma.a});
      mem := mem[dma.a := At(truth.latest, dma.a)];
      dma := dma.(st := DmInDone);
    }

    method DropPage()
      requires CanXpgDrop(c, View())
      requires Checks(c, m, View(), StXpgDrop)
      modifies this
      ensures View() == XpgDrop(old(View()))
    {
      l1d := l1d.(op := CoXpgInv, a := dma.a);
      if HitsD(dma.a) { l1d := l1d.(line := l1d.line.(st := LI)); }
      IssueD(OpPGDROP, dma.a, 0);
      l1d := l1d.(st := DOp);
      dma := dma.(st := DmInDrop);
    }

    /** The value that the device reads. */
    method DeviceReads() returns (d: Ver)
      requires Valid() && CanDevRead(c, View())
      modifies this
      ensures View() == DevRead(old(View()))
      ensures d == At(truth.latest, dma.a)
    {
      CheckHolds(c, m, View(), StDevRead);
      d := At(mem, dma.a);
      dma := dma.(st := DmIdle);
    }

    method QueuePreSnoop(a: Addr, into: bool)
      requires CanSnpPre(c, View())
      requires Checks(c, m, View(), StSnpPre(a, into))
      modifies this
      ensures View() == SnpPre(old(View()), a, into)
    {
      dma := dma.(a := a);
      snp := Full(Snp(OpSnpWbinv, a));
      dma := dma.(st := if into then DmInPre else DmOutPre);
    }

    method QueuePostDrop()
      requires CanSnpPost(c, View())
      requires Checks(c, m, View(), StSnpPost)
      modifies this
      ensures View() == SnpPost(old(View()))
    {
      snp := Full(Snp(OpSnpDrop, dma.a));
      dma := dma.(st := DmInDrop);
    }

    // ---------------------------------------------------------------- any rule

    method TakeRequestStep(e: Step)
      requires e.StL2Accept? || e.StL2Purge? || e.StL2Check? || e.StL2Reload? || e.StL2Uncached? || e.StAcceptSnoop?
      requires Enabled(c, m, View(), e) && Checks(c, m, View(), e)
      modifies this
      ensures View() == Next(c, m, old(View()), e)
    {
      match e
      case StL2Accept(x) => AcceptRequest(x);
      case StL2Purge => PurgeUncached();
      case StL2Check => CheckTag();
      case StL2Reload => Reload();
      case StL2Uncached => AccessUncached();
      case StAcceptSnoop => TakeSnoop();
    }

    method TakeProbeStep(e: Step)
      requires e.StProbeAcks? || e.StFlushStart? || e.StFlushSet? || e.StDProbe? || e.StIProbe?
      requires Enabled(c, m, View(), e) && Checks(c, m, View(), e)
      modifies this
      ensures View() == Next(c, m, old(View()), e)
    {
      match e
      case StProbeAcks => CollectAnswers();
      case StFlushStart => StartFlush();
      case StFlushSet => FlushOneSet();
      case StDProbe => AnswerD();
      case StIProbe => AnswerI();
    }

    method TakeCoreStep(e: Step)
      requires e.StLoadHit? || e.StStoreHit? || e.StDMiss? || e.StCacheOp? || e.StULoad? || e.StUStore?
      requires Valid() && Enabled(c, m, View(), e) && Checks(c, m, View(), e)
      modifies this
      ensures View() == Next(c, m, old(View()), e)
    {
      match e
      case StLoadHit(a) => var _ := LoadHits(a);
      case StStoreHit(a) => StoreHits(a);
      case StDMiss(k, a) => MissD(k, a);
      case StCacheOp(o, a) => OperateOnHit(o, a);
      case StULoad(a) => LoadUncached(a);
      case StUStore(a) => StoreUncached(a);
    }

    method TakeCacheStep(e: Step)
      requires e.StDResponse? || e.StDReload? || e.StDUncIssue? || e.StL1Walk?
      requires Enabled(c, m, View(), e) && Checks(c, m, View(), e)
      modifies this
      ensures View() == Next(c, m, old(View()), e)
    {
      match e
      case StDResponse => ConsumeD();
      case StDReload => ReloadAfterVictim();
      case StDUncIssue => IssueUncached();
      case StL1Walk => WalkL1();
    }

    method TakeFetchStep(e: Step)
      requires e.StFetchHit? || e.StIMiss? || e.StIFill? || e.StISync?
      requires Valid() && Enabled(c, m, View(), e) && Checks(c, m, View(), e)
      modifies this
      ensures View() == Next(c, m, old(View()), e)
    {
      match e
      case StFetchHit(a) => var _ := FetchHits(a);
      case StIMiss(a) => MissI(a);
      case StIFill => ConsumeI();
      case StISync => SyncI();
    }

    method TakeDeviceStep(e: Step)
      requires e.StXpgPre? || e.StDevWrite? || e.StXpgDrop? || e.StDevRead? || e.StSnpPre? || e.StSnpPost?
      requires Valid() && Enabled(c, m, View(), e) && Checks(c, m, View(), e)
      modifies this
      ensures View() == Next(c, m, old(View()), e)
    {
      match e
      case StXpgPre(a, into) => PreFlushPage(a, into);
      case StDevWrite => DeviceWrites();
      case StXpgDrop => DropPage();
      case StDevRead => var _ := DeviceReads();
      case StSnpPre(a, into) => QueuePreSnoop(a, into);
      case StSnpPost => QueuePostDrop();
    }

    /** A step of the core or of an L1's port. */
    predicate OfCore(e: Step) {
      || e.StLoadHit? || e.StStoreHit? || e.StDMiss? || e.StCacheOp? || e.StULoad? || e.StUStore?
      || e.StDResponse? || e.StDReload? || e.StDUncIssue? || e.StL1Walk?
      || e.StFetchHit? || e.StIMiss? || e.StIFill? || e.StISync?
    }

    method RunCore(e: Step)
      requires OfCore(e) && Valid() && Enabled(c, m, View(), e) && Checks(c, m, View(), e)
      modifies this
      ensures View() == Next(c, m, old(View()), e)
    {
      if e.StLoadHit? || e.StStoreHit? || e.StDMiss? || e.StCacheOp? || e.StULoad? || e.StUStore? {
        TakeCoreStep(e);
      } else if e.StDResponse? || e.StDReload? || e.StDUncIssue? || e.StL1Walk? {
        TakeCacheStep(e);
      } else {
        TakeFetchStep(e);
      }
    }

    method Run(e: Step)
      requires Valid() && Enabled(c, m, View(), e) && Checks(c, m, View(), e)
      modifies this
      ensures View() == Next(c, m, old(View()), e)
    {
      if e.StL2Accept? || e.StL2Purge? || e.StL2Check? || e.StL2Reload? || e.StL2Uncached? || e.StAcceptSnoop? {
        TakeRequestStep(e);
      } else if e.StProbeAcks? || e.StFlushStart? || e.StFlushSet? || e.StDProbe? || e.StIProbe? {
        TakeProbeStep(e);
      } else if OfCore(e) {
        RunCore(e);
      } else {
        TakeDeviceStep(e);
      }
    }

    /** Any rule whose guard holds can be run: its assertions hold, and so does the invariant after. */
    method Take(e: Step)
      requires Valid() && Enabled(c, m, View(), e)
      modifies this
      ensures Valid() && View() == Next(c, m, old(View()), e)
    {
      CheckHolds(c, m, View(), e);
      StepGood(c, m, View(), e);
      Run(e);
    }
  }
}

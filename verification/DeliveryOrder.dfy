/** Delivering a response in the L2's own step is queueing it and letting the L1 take it at once:
    the system with same-step delivery does nothing that the one with response slots cannot do. */
module DeliveryOrder {
  import opened Protocol
  import opened Invariant

  predicate Clear(s: State) { s.rspD.Empty? && s.rspI.Empty? }

  /** What the same-step system can be in: nothing is ever left in a slot. */
  ghost predicate Calm(c: Config, s: State) { Inv(c, s) && Clear(s) }

  /** t is what becomes of n when the L1 that n sends a response to takes it. */
  ghost predicate Delivers(n: State, t: State) {
    if n.rspD.Full? then n.rspI.Empty? && t == DResponse(n)
    else if n.rspI.Full? then t == IFill(n)
    else t == n
  }

  lemma RespondLater(u: State, x: Src, d: Ver, z: L2St)
    requires Clear(u)
    ensures Delivers(Respond(Queued, u, x, d).(l2st := z), Respond(SameStep, u, x, d).(l2st := z))
  {
    if x == SD {
      assert DResponse(Respond(Queued, u, x, d).(l2st := z)) == DRsp(u, d).(l2st := z);
    }
  }

  lemma AbsorbedLater(c: Config, s: State, a: Addr)
    requires Clear(s) && Latched(s, a)
    ensures Absorb(c, Queued, s, a).rspD.Full? && Absorb(c, Queued, s, a).rspI.Empty?
    ensures Absorb(c, SameStep, s, a) == DResponse(Absorb(c, Queued, s, a))
  {
    var ln := LineOf(c, s, a).(d := s.reqD.v.d, dirty := true);
    var t := s.(l2 := if L2Hit(c, s, a) then s.l2[c.setOf(a) := ln] else s.l2,
                mem := if L2Hit(c, s, a) then s.mem else s.mem[a := s.reqD.v.d],
                reqD := Empty);
    RespondLater(t, SD, 0, t.l2st);
  }

  lemma FinishLater(c: Config, n: State)
    requires n.rspD.Full? && !(n.dst == DOp && n.dop == CoXpgInv)
    ensures FinishWbinv(c, DResponse(n)) == DResponse(FinishWbinv(c, n))
  {}

  lemma AbsorbLater(c: Config, s: State)
    requires Control(c, s) && Clear(s) && CanL2Check(SameStep, s) && s.w.r.op == OpSnpWbinv && Latched(s, s.w.r.a)
    ensures Delivers(L2Serve(c, Queued, s), L2Serve(c, SameStep, s))
  {
    AbsorbedLater(c, s, s.w.r.a);
    FinishLater(c, Absorb(c, Queued, s, s.w.r.a));
  }

  /** The line as a load leaves it in the L2. */
  function Granted(c: Config, s: State): Line {
    var ln := LineOf(c, s, s.w.r.a);
    ln.(pd := ln.pd || (c.pres && s.w.src == SD), pi := ln.pi || (c.pres && s.w.src == SI))
  }

  lemma ServeFillIs(c: Config, m: Delivery, s: State)
    requires s.w.r.op == OpLW && L2Hit(c, s, s.w.r.a)
    ensures L2Serve(c, m, s)
         == Respond(m, SetLine(c, s, s.w.r.a, Granted(c, s)), s.w.src, LineOf(c, s, s.w.r.a).d).(l2st := L2Idle)
  {}

  lemma FillLater(c: Config, s: State)
    requires Clear(s) && CanL2Check(SameStep, s) && s.w.r.op == OpLW && L2Hit(c, s, s.w.r.a)
    ensures Delivers(L2Serve(c, Queued, s), L2Serve(c, SameStep, s))
  {
    ServeFillIs(c, Queued, s);
    ServeFillIs(c, SameStep, s);
    RespondLater(SetLine(c, s, s.w.r.a, Granted(c, s)), s.w.src, LineOf(c, s, s.w.r.a).d, L2Idle);
  }

  /** The state in which a writeback is acknowledged. */
  function WrittenBack(c: Config, s: State): State {
    var a := s.w.r.a;
    var dropped := LineOf(c, s, a).(valid := false, pd := false, pi := false);
    SetMem(s, a, s.w.r.d).(l2 := if L2Hit(c, s, a) then s.l2[c.setOf(a) := dropped] else s.l2)
  }

  lemma ServeWBIs(c: Config, m: Delivery, s: State)
    requires s.w.r.op == OpWB
    ensures L2Serve(c, m, s) == Respond(m, WrittenBack(c, s), s.w.src, 0).(l2st := L2Idle)
  {}

  lemma WriteBackLater(c: Config, s: State)
    requires Clear(s) && CanL2Check(SameStep, s) && s.w.r.op == OpWB
    ensures Delivers(L2Serve(c, Queued, s), L2Serve(c, SameStep, s))
  {
    ServeWBIs(c, Queued, s);
    ServeWBIs(c, SameStep, s);
    RespondLater(WrittenBack(c, s), s.w.src, 0, L2Idle);
  }

  lemma DropLater(c: Config, s: State)
    requires Clear(s) && CanL2Check(SameStep, s) && s.w.r.op in {OpINVL, OpPGDROP}
    ensures Delivers(L2Serve(c, Queued, s), L2Serve(c, SameStep, s))
  {
    if s.w.r.op == OpINVL {
      RespondLater(WriteBackDrop(c, s, s.w.r.a), s.w.src, 0, L2Idle);
    } else {
      RespondLater(DropOnly(c, s, s.w.r.a), s.w.src, 0, L2Idle);
    }
  }

  /** The check steps that answer nobody are the same in both systems. */
  lemma ServeSilent(c: Config, s: State)
    requires Clear(s) && CanL2Check(SameStep, s) && s.w.r.op !in {OpINVL, OpPGDROP, OpWB}
    requires s.w.r.op == OpLW ==> !L2Hit(c, s, s.w.r.a)
    requires s.w.r.op == OpSnpWbinv ==> !Latched(s, s.w.r.a)
    ensures L2Serve(c, Queued, s) == L2Serve(c, SameStep, s) && Clear(L2Serve(c, Queued, s))
  {
    if s.w.r.op == OpSnpWbinv {
      assert L2Serve(c, Queued, s) == FinishWbinv(c, s) == L2Serve(c, SameStep, s);
    }
  }

  lemma ServeLater(c: Config, s: State)
    requires Calm(c, s) && CanL2Check(SameStep, s)
    ensures Delivers(L2Serve(c, Queued, s), L2Serve(c, SameStep, s))
  {
    match s.w.r.op
    case OpINVL => DropLater(c, s);
    case OpPGDROP => DropLater(c, s);
    case OpWB => WriteBackLater(c, s);
    case OpLW => if L2Hit(c, s, s.w.r.a) { FillLater(c, s); } else { ServeSilent(c, s); }
    case OpSnpWbinv => if Latched(s, s.w.r.a) { AbsorbLater(c, s); } else { ServeSilent(c, s); }
    case _ => ServeSilent(c, s);
  }

  lemma CheckLater(c: Config, s: State)
    requires Calm(c, s) && CanL2Check(SameStep, s)
    ensures CanL2Check(Queued, s) && Delivers(L2DoCheck(c, Queued, s), L2DoCheck(c, SameStep, s))
  {
    if !ProbeDrop(c, s) && !ProbeVictim(c, s) { ServeLater(c, s); }
  }

  lemma EarlyAcceptLater(s: State, x: Src)
    requires Clear(s) && CanL2Accept(SameStep, s, x) && (if x == SD then s.reqD.v else s.reqI.v).op == OpSW
    ensures Delivers(L2Accept(Queued, s, x), L2Accept(SameStep, s, x))
  {
    var r := if x == SD then s.reqD.v else s.reqI.v;
    var t := s.(reqD := if x == SD then Empty else s.reqD, reqI := if x == SI then Empty else s.reqI,
                w := Work(x, r), probed := false);
    RespondLater(t, x, 0, L2Check);
  }

  lemma PlainAcceptLater(s: State, x: Src)
    requires Clear(s) && CanL2Accept(SameStep, s, x) && (if x == SD then s.reqD.v else s.reqI.v).op != OpSW
    ensures L2Accept(Queued, s, x) == L2Accept(SameStep, s, x) && Clear(L2Accept(Queued, s, x))
  {}

  lemma AcceptLater(s: State, x: Src)
    requires Clear(s) && CanL2Accept(SameStep, s, x)
    ensures CanL2Accept(Queued, s, x) && Delivers(L2Accept(Queued, s, x), L2Accept(SameStep, s, x))
  {
    if (if x == SD then s.reqD.v else s.reqI.v).op == OpSW { EarlyAcceptLater(s, x); } else { PlainAcceptLater(s, x); }
  }

  lemma UncachedLater(c: Config, s: State)
    requires Clear(s) && CanL2Uncached(SameStep, s)
    ensures CanL2Uncached(Queued, s) && Delivers(L2Uncached(Queued, s), L2Uncached(SameStep, s))
  {
    if s.w.r.op == OpUSW {
      RespondLater(SetMem(s, s.w.r.a, s.w.r.d), s.w.src, 0, L2Idle);
    } else {
      RespondLater(s, s.w.src, At(s.mem, s.w.r.a), L2Idle);
    }
  }

  predicate Responds(e: Step) { e.StL2Accept? || e.StL2Check? || e.StL2Uncached? }

  lemma NoResponse(c: Config, s: State, e: Step)
    requires Clear(s) && Enabled(c, Queued, s, e) && Enabled(c, SameStep, s, e) && !Responds(e)
    ensures Next(c, Queued, s, e) == Next(c, SameStep, s, e)
  {}

  lemma NoSlotFilled(c: Config, s: State, e: Step)
    requires Clear(s) && Enabled(c, Queued, s, e) && !Responds(e)
    ensures Clear(Next(c, Queued, s, e))
  {}

  lemma GuardLater(c: Config, s: State, e: Step)
    requires Clear(s) && Enabled(c, SameStep, s, e)
    ensures Enabled(c, Queued, s, e)
  {}

  lemma ResponseLater(c: Config, s: State, e: Step)
    requires Calm(c, s) && Enabled(c, SameStep, s, e) && Responds(e)
    ensures Enabled(c, Queued, s, e)
    ensures Delivers(Next(c, Queued, s, e), Next(c, SameStep, s, e))
  {
    match e
    case StL2Accept(x) => AcceptLater(s, x);
    case StL2Check => CheckLater(c, s);
    case StL2Uncached => UncachedLater(c, s);
  }

  /** Every step of the same-step system is a queueing step followed by the delivery. */
  lemma StepLater(c: Config, s: State, e: Step)
    requires Calm(c, s) && Enabled(c, SameStep, s, e)
    ensures Enabled(c, Queued, s, e)
    ensures Delivers(Next(c, Queued, s, e), Next(c, SameStep, s, e))
  {
    GuardLater(c, s, e);
    if Responds(e) {
      ResponseLater(c, s, e);
    } else {
      NoResponse(c, s, e);
      NoSlotFilled(c, s, e);
    }
  }
}

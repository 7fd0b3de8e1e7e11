/** The generator as the program it is: a body that grows, branches waiting for their targets, a
    label counter.  Whatever it chooses, the finished body is a well-formed program. */
module Generator {
  import opened RandomProgram

  /** A finished program: cut into units, every branch goes forward past its delay slot to the one
      place of its label, which starts a unit. */
  ghost predicate WellFormed(body: seq<Item>, mask: nat, cuts: seq<nat>, units: seq<Unit>, lbl: nat) {
    && CutInto(body, mask, cuts, units) && LabelsPlaced(body, cuts, lbl)
    && LabelsOpen(body, [], [], lbl) && Forward(body, [], [], lbl)
  }

  /** The offset mask: multiples of 8, with headroom for an unaligned access. */
  function OffMask(bufsz: nat): nat
    requires bufsz >= 16
  {
    (bufsz - 16) / 8 * 8
  }

  lemma {:induction false} DueIs(pending: seq<Pending>, idx: nat)
    ensures forall l :: l in Due(pending, idx)
              <==> exists k :: 0 <= k < |pending| && pending[k].lab == l && pending[k].from <= idx
    ensures forall p :: p in NotDue(pending, idx) <==> p in pending && p.from > idx
    decreases |pending|
  {
    if pending != [] { DueIs(pending[..|pending| - 1], idx); }
  }

  ghost predicate Distinct(pending: seq<Pending>) {
    forall i, j :: 0 <= i < j < |pending| ==> pending[i].lab != pending[j].lab
  }

  /** last comes after init, and has its own label. */
  lemma LastIsNew(pending: seq<Pending>, idx: nat)
    requires pending != [] && Distinct(pending)
    ensures var init, last := pending[..|pending| - 1], pending[|pending| - 1];
            Distinct(init) && last.lab !in Due(init, idx)
            && forall k :: 0 <= k < |NotDue(init, idx)| ==> NotDue(init, idx)[k].lab != last.lab
  {
    var init, last := pending[..|pending| - 1], pending[|pending| - 1];
    DueIs(init, idx);
    forall p | p in init ensures p.lab != last.lab {
      var k :| 0 <= k < |init| && init[k] == p;
      assert pending[k] == p;
    }
    forall k | 0 <= k < |NotDue(init, idx)| ensures NotDue(init, idx)[k].lab != last.lab {
      assert NotDue(init, idx)[k] in init;
    }
  }

  lemma {:induction false} DueFresh(pending: seq<Pending>, idx: nat)
    requires Distinct(pending)
    ensures NoRepeats(Due(pending, idx)) && Distinct(NotDue(pending, idx))
    ensures forall k :: 0 <= k < |NotDue(pending, idx)| ==> NotDue(pending, idx)[k].lab !in Due(pending, idx)
    decreases |pending|
  {
    if pending != [] {
      LastIsNew(pending, idx);
      DueFresh(pending[..|pending| - 1], idx);
    }
  }

  /** Taking the due labels out of `pending` into the hand loses none. */
  lemma HandOver(body: seq<Item>, pending: seq<Pending>, lbl: nat, idx: nat)
    requires LabelsOpen(body, pending, [], lbl) && Forward(body, pending, [], lbl) && idx == |body|
    ensures LabelsOpen(body, NotDue(pending, idx), Due(pending, idx), lbl)
    ensures Forward(body, NotDue(pending, idx), Due(pending, idx), lbl)
  {
    DueIs(pending, idx);
    DueFresh(pending, idx);
    var rest := NotDue(pending, idx);
    forall k | 0 <= k < |rest| ensures rest[k] in pending && rest[k].from > idx { assert rest[k] in rest; }
    forall l | 1 <= l <= lbl ensures IsPending(rest, l) || l in Due(pending, idx) || IsPlaced(body, l) {
      if IsPending(pending, l) {
        var k :| 0 <= k < |pending| && pending[k].lab == l;
        if pending[k].from > idx { assert pending[k] in rest; }
      }
    }
  }

  /** A new label, pending from `target` on. */
  lemma Promise(body: seq<Item>, pending: seq<Pending>, hand: seq<nat>, lbl: nat, cuts: seq<nat>, target: nat)
    requires LabelsPlaced(body, cuts, lbl) && LabelsOpen(body, pending, hand, lbl) && Forward(body, pending, hand, lbl)
    ensures LabelsPlaced(body, cuts, lbl + 1)
    ensures LabelsOpen(body, pending + [Pending(lbl + 1, target)], hand, lbl + 1)
    ensures Forward(body, pending + [Pending(lbl + 1, target)], hand, lbl + 1)
  {
    var more := pending + [Pending(lbl + 1, target)];
    forall l | 1 <= l <= lbl + 1 ensures IsPending(more, l) || l in hand || IsPlaced(body, l) {
      if l == lbl + 1 {
        assert more[|pending|].lab == l;
      } else if IsPending(pending, l) {
        var k :| 0 <= k < |pending| && pending[k].lab == l;
        assert more[k].lab == l;
      }
    }
  }

  /** At the end every waiting label is taken in hand; a branch has its slot after it in the body. */
  lemma PlaceRest(body: seq<Item>, pending: seq<Pending>, lbl: nat)
    requires LabelsOpen(body, pending, [], lbl) && Forward(body, pending, [], lbl)
    ensures LabelsOpen(body, [], Labels(pending), lbl) && Forward(body, [], Labels(pending), lbl)
  {
    forall l | IsPending(pending, l) ensures l in Labels(pending) {
      var k :| 0 <= k < |pending| && pending[k].lab == l;
      assert Labels(pending)[k] == l;
    }
  }

  /** Branches begin at least 8 instructions before the end asked for. */
  ghost predicate BranchesEarly(units: seq<Unit>, cuts: seq<nat>, n: nat) {
    |cuts| == |units| + 1 && forall k :: 0 <= k < |units| && units[k].BranchUnit? ==> cuts[k] <= n - 8
  }

  ghost predicate Unfinished(units: seq<Unit>, cuts: seq<nat>, n: nat) {
    BranchesEarly(units, cuts, n) && forall k :: 0 <= k < |units| ==> !units[k].NopUnit?
  }

  /** The extra `nop` is the last instruction, after n others or more. */
  ghost predicate Finished(units: seq<Unit>, cuts: seq<nat>, n: nat) {
    && BranchesEarly(units, cuts, n)
    && forall k :: 0 <= k < |units| && units[k].NopUnit? ==> k == |units| - 1 && cuts[k] >= n
  }

  lemma UnfinishedOn(units: seq<Unit>, cuts: seq<nat>, n: nat, u: Unit, end: nat)
    requires Unfinished(units, cuts, n) && !u.NopUnit? && (u.BranchUnit? ==> cuts[|units|] <= n - 8)
    ensures Unfinished(units + [u], cuts + [end], n)
  {}

  lemma FinishedNow(units: seq<Unit>, cuts: seq<nat>, n: nat)
    requires Unfinished(units, cuts, n)
    ensures Finished(units, cuts, n)
  {}

  lemma LastNop(units: seq<Unit>, cuts: seq<nat>, n: nat, end: nat)
    requires Unfinished(units, cuts, n) && cuts[|units|] >= n
    ensures Finished(units + [NopUnit], cuts + [end], n)
  {}

  class Gen {
    const n: nat
    const mask: nat     // the scratch buffer's offset mask
    var body: seq<Item>
    var pending: seq<Pending>
    var lbl: nat
    ghost var cuts: seq<nat>
    ghost var units: seq<Unit>

    /** Between units, with the labels `hand` taken from `pending` but not placed yet. */
    ghost predicate Holds(hand: seq<nat>)
      reads this
    {
      && CutInto(body, mask, cuts, units) && LabelsPlaced(body, cuts, lbl)
      && LabelsOpen(body, pending, hand, lbl) && Forward(body, pending, hand, lbl)
    }

    constructor (n: nat, bufsz: nat)
      requires bufsz >= 16
      ensures InProgress() && this.n == n && mask == OffMask(bufsz) && body == [] && pending == [] && lbl == 0
    {
      this.n, mask := n, OffMask(bufsz);
      body, pending, lbl, cuts, units := [], [], 0, [0], [];
    }

    /** The labels of the branches whose targets have been reached; a unit starts here. */
    method StartUnit() returns (here: seq<nat>)
      requires Holds([])
      modifies this`pending
      ensures Holds(here) && here == Due(old(pending), |body|) && pending == NotDue(old(pending), |body|)
    {
      var idx := |body|;
      here := Due(pending, idx);
      HandOver(body, pending, lbl, idx);
      pending := NotDue(pending, idx);
    }

    /** Emit lines, with the labels on the first. */
    method EmitLines(lines: seq<Instr>, labs: seq<nat>)
      modifies this`body
      ensures body == old(body) + Items(lines, labs)
    {
      var k := 0;
      while k < |lines|
        invariant k <= |lines|
        invariant body == old(body) + Items(lines, labs)[..k]
      {
        body := body + [Item(if k == 0 then labs else [], lines[k])];
        k := k + 1;
      }
    }

    /** Emit the lines of unit u. */
    method EmitUnit(lines: seq<Instr>, labs: seq<nat>, ghost u: Unit)
      requires Holds(labs) && lines == Text(u, mask) && IsUnit(u)
      requires u.BranchUnit? ==>
                 exists k :: 0 <= k < |pending| && pending[k].lab == u.br.to && pending[k].from >= |body| + 2
      modifies this`body, this`cuts, this`units
      ensures Holds([]) && body == old(body) + Items(lines, labs)
      ensures units == old(units) + [u] && cuts == old(cuts) + [|body|]
    {
      AppendCut(body, mask, cuts, units, u, labs);
      AppendPlaced(body, cuts, lbl, pending, labs, lines);
      AppendOpen(body, lbl, pending, labs, lines);
      AppendForward(body, lbl, pending, labs, lines);
      EmitLines(lines, labs);
      cuts := cuts + [|body|];
      units := units + [u];
    }

    // ---------------------------------------------------------------- random choices

    method Dest() returns (r: Reg)
      ensures InPool(r)
    {
      assert InPool(2);
      r :| InPool(r);
    }

    method Source() returns (r: Reg)
      ensures IsSource(r)
    {
      assert IsSource(0);
      r :| IsSource(r);
    }

    method Choose(menu: set<Mnemonic>) returns (op: Mnemonic)
      requires menu != {}
      ensures op in menu
    {
      op :| op in menu;
    }

    method Between(lo: int, hi: int) returns (x: int)
      requires lo <= hi
      ensures lo <= x <= hi
    {
      assert lo <= lo <= hi;
      x :| lo <= x <= hi;
    }

    /** One ALU instruction, a 64-bit one only if allowed. */
    method AluText(allow64: bool) returns (i: Instr)
      ensures IsAlu(i) && (Wide(i) ==> allow64)
    {
      var kind := Between(0, if allow64 then 8 else 4);
      var rd := Dest();
      var rs := Source();
      var rt := Source();
      var s16 := Between(-32768, 32767);
      var u16 := Between(0, 65535);
      var sa := Between(0, 31);
      assert ADDU in ALU_R && ADDIU in ALU_I && SLLV in SHIFTV && SLL in SHIFTI;
      assert DADDU in D_ALU_R && DSLLV in D_SHIFTV && DSLL in D_SHIFTI;
      match kind
      case 0 => var op := Choose(ALU_R); i := Reg3(op, rd, rs, rt);
      case 1 => var op := Choose(ALU_I); i := RegImm(op, rd, rs, if op in {ANDI, ORI, XORI} then u16 else s16);
      case 2 => var op := Choose(SHIFTV); i := Reg3(op, rd, rs, rt);
      case 3 => var op := Choose(SHIFTI); i := RegImm(op, rd, rs, sa);
      case 4 => i := Lui(rd, u16);
      case 5 => var op := Choose(D_ALU_R); i := Reg3(op, rd, rs, rt);
      case 6 => i := RegImm(DADDIU, rd, rs, s16);
      case 7 => var op := Choose(D_SHIFTV); i := Reg3(op, rd, rs, rt);
      case _ => var op := Choose(D_SHIFTI); i := RegImm(op, rd, rs, sa);
    }

    // ---------------------------------------------------------------- units

    method AluOne(labs: seq<nat>) returns (ghost u: Unit)
      requires Holds(labs)
      modifies this`body, this`cuts, this`units
      ensures Holds([]) && IsUnit(u) && (u.AluUnit?)
      ensures body == old(body) + Items(Text(u, mask), labs)
      ensures units == old(units) + [u] && cuts == old(cuts) + [|body|]
    {
      var i := AluText(true);
      u := AluUnit(i);
      EmitUnit([i], labs, u);
    }

    method MulOrDiv(labs: seq<nat>) returns (ghost u: Unit)
      requires Holds(labs)
      modifies this`body, this`cuts, this`units
      ensures Holds([]) && IsUnit(u) && (u.MulUnit? || u.DivUnit?)
      ensures body == old(body) + Items(Text(u, mask), labs)
      ensures units == old(units) + [u] && cuts == old(cuts) + [|body|]
    {
      var a := Source();
      var b := Source();
      var dst := Dest();
      var rdop := Choose({MFHI, MFLO});
      if * {
        var op := Choose({MULT, MULTU});
        var lines := [RegImm(SLL, a, a, 0), RegImm(SLL, b, b, 0), MulDiv(op, a, b), FromHiLo(rdop, dst)];
        u := MulUnit(op, a, b, rdop, dst);
        EmitUnit(lines, labs, u);
      } else {
        var op := Choose({DIV, DIVU});
        var lines := [RegImm(SLL, a, a, 0), RegImm(SLL, AT, b, 0), RegImm(ORI, AT, AT, 1),
                      MulDiv(op, a, AT), FromHiLo(rdop, dst)];
        u := DivUnit(op, a, b, rdop, dst);
        EmitUnit(lines, labs, u);
      }
    }

    method Memory(labs: seq<nat>) returns (ghost u: Unit)
      requires Holds(labs)
      modifies this`body, this`cuts, this`units
      ensures Holds([]) && IsUnit(u) && (u.MemUnit? && u.op !in FP_MEM)
      ensures body == old(body) + Items(Text(u, mask), labs)
      ensures units == old(units) + [u] && cuts == old(cuts) + [|body|]
    {
      var base := Source();
      var kind := Between(0, 3);
      var op, off := LB, 0;
      assert LWL in MEM_UNW && LDL in MEM_UND && LB in MEM_LD && SB_ in MEM_ST;
      match kind {
        case 0 => op := Choose(MEM_UNW); off := Between(0, 3);
        case 1 => op := Choose(MEM_UND); off := Between(0, 7);
        case 2 => op := Choose(MEM_LD);
        case _ => op := Choose(MEM_ST);
      }
      var reg;
      if WritesReg(op) { reg := Dest(); } else { reg := Source(); }
      var lines := [RegImm(ANDI, AT, base, mask), Reg3(DADDU, AT, SB, AT), Mem(op, reg, off, AT)];
      u := MemUnit(op, base, reg, off);
      EmitUnit(lines, labs, u);
    }

    method Fp(labs: seq<nat>) returns (ghost u: Unit)
      requires Holds(labs)
      modifies this`body, this`cuts, this`units
      ensures Holds([]) && IsUnit(u) && (u.FpMove? || (u.MemUnit? && u.op in FP_MEM))
      ensures body == old(body) + Items(Text(u, mask), labs)
      ensures units == old(units) + [u] && cuts == old(cuts) + [|body|]
    {
      var f := Between(0, 15);
      var kind := Between(0, 2);
      match kind {
        case 0 =>
          var rs := Source();
          u := FpMove(ToFp(rs, 2 * f));
          EmitUnit([ToFp(rs, 2 * f)], labs, u);
        case 1 =>
          var rd := Dest();
          u := FpMove(FromFp(rd, 2 * f));
          EmitUnit([FromFp(rd, 2 * f)], labs, u);
        case _ =>
          var base := Source();
          assert LWC1 in FP_MEM;
          var op := Choose(FP_MEM);
          var lines := [RegImm(ANDI, AT, base, mask), Reg3(DADDU, AT, SB, AT), Mem(op, 2 * f, 0, AT)];
          u := MemUnit(op, base, 2 * f, 0);
          EmitUnit(lines, labs, u);
      }
    }

    method NewLabel() returns (l: nat)
      modifies this`lbl
      ensures lbl == old(lbl) + 1 && l == lbl
    {
      lbl := lbl + 1;
      l := lbl;
    }

    /** A branch to label l, of any kind. */
    method BranchText(l: nat) returns (br: Instr)
      ensures br.Br? && br.to == l && br.op in {BEQ, BNE, BLEZ, BGTZ, BLTZ, BGEZ, J}
    {
      var likely: bool := *;
      var rs := Source();
      var rt := Source();
      var op := Choose({BEQ, BNE, BLEZ, BGTZ, BLTZ, BGEZ, J});
      br := Br(op, likely && op != J, rs, rt, l);
    }

    /** A forward branch to a label that is placed later, after the delay slot at the earliest. */
    method Branch(labs: seq<nat>) returns (ghost u: Unit)
      requires Holds(labs)
      modifies this`body, this`pending, this`lbl, this`cuts, this`units
      ensures Holds([]) && IsUnit(u) && u.BranchUnit? && u.br.to == lbl == old(lbl) + 1
      ensures body == old(body) + Items(Text(u, mask), labs)
      ensures units == old(units) + [u] && cuts == old(cuts) + [|body|]
      ensures exists target ::
                old(|body|) + 2 <= target <= old(|body|) + 7 && pending == old(pending) + [Pending(lbl, target)]
    {
      var k := Between(0, 5);
      var l := Await(|body| + 2 + k, labs);
      assert pending[|pending| - 1].lab == l;
      var br := BranchText(l);
      var slot := AluText(false);
      u := BranchUnit(br, slot);
      EmitUnit([br, slot], labs, u);
    }

    /** A new label that waits for its place, from index `target` on. */
    method Await(target: nat, labs: seq<nat>) returns (l: nat)
      requires Holds(labs)
      modifies this`pending, this`lbl
      ensures Holds(labs) && l == lbl == old(lbl) + 1 && pending == old(pending) + [Pending(l, target)]
    {
      Promise(body, pending, labs, lbl, cuts, target);
      l := NewLabel();
      pending := pending + [Pending(l, target)];
    }

    method Hazard(labs: seq<nat>) returns (ghost u: Unit)
      requires Holds(labs)
      modifies this`body, this`cuts, this`units
      ensures Holds([]) && IsUnit(u) && (u.HazardUnit?)
      ensures body == old(body) + Items(Text(u, mask), labs)
      ensures units == old(units) + [u] && cuts == old(cuts) + [|body|]
    {
      var lines := [FromStatus(AT), Reg3(AND, AT, AT, GP), ToStatus(AT), RegImm(ORI, AT, AT, 0x80), ToStatus(AT), Ehb];
      var first := AluText(true);
      var tail := [first];
      if * {
        var second := AluText(true);
        tail := tail + [second];
      }
      u := HazardUnit(tail);
      EmitUnit(lines + tail, labs, u);
    }

    /** Between units, of which none is the last `nop` and no branch is late. */
    ghost predicate InProgress()
      reads this
    {
      Holds([]) && Unfinished(units, cuts, n)
    }

    /** One unit of any kind, but no branch near the end. */
    method OneUnit()
      requires InProgress()
      modifies this`body, this`pending, this`lbl, this`cuts, this`units
      ensures InProgress() && |body| > old(|body|)
    {
      var labs := StartUnit();
      var nearEnd := |body| > n - 8;
      var c := Between(0, if nearEnd then 4 else 5);
      ghost var u;
      match c {
        case 0 => u := AluOne(labs);
        case 1 => u := MulOrDiv(labs);
        case 2 => u := Memory(labs);
        case 3 => u := Fp(labs);
        case 4 => u := Hazard(labs);
        case _ => u := Branch(labs);
      }
      UnfinishedOn(old(units), old(cuts), n, u, |body|);
    }

    /** Units until the body is long enough, and a last `nop` for the branches still waiting. */
    method Generate()
      requires InProgress()
      modifies this`body, this`pending, this`lbl, this`cuts, this`units
      ensures |body| >= n && WellFormed(body, mask, cuts, units, lbl) && Finished(units, cuts, n)
    {
      while |body| < n
        invariant InProgress()
      {
        OneUnit();
      }
      FinishedNow(units, cuts, n);
      if pending != [] {
        var leftover := Labels(pending);
        ghost var before, places := units, cuts;
        PlaceRest(body, pending, lbl);
        pending := [];
        EmitUnit([Nop], leftover, NopUnit);
        LastNop(before, places, n, |body|);
      }
    }
  }
}

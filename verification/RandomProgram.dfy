/** The random program generator.  A program is a list of instructions with labels; it is made of
    units (an ALU instruction, a multiply or divide with its set-up, a masked memory access, ...).
    Every random choice is an arbitrary one.  */
module RandomProgram {

  type Reg = r: nat | r < 32

  const AT: Reg := 1      // address and macro temporary
  const GP: Reg := 28     // the mask that clears Status.KX
  const SB: Reg := 30     // base of the scratch buffer

  predicate InPool(r: Reg) { 2 <= r < 25 }
  predicate IsSource(r: Reg) { InPool(r) || r == 0 }

  datatype Mnemonic =
    | ADDU | SUBU | AND | OR | XOR | NOR | SLT | SLTU
    | ADDIU | ANDI | ORI | XORI | SLTI | SLTIU
    | SLLV | SRLV | SRAV | SLL | SRL | SRA
    | DADDU | DSUBU | DADDIU | DSLLV | DSRLV | DSRAV | DSLL | DSRL | DSRA | DSLL32 | DSRL32 | DSRA32
    | MULT | MULTU | DIV | DIVU | MFHI | MFLO
    | LB | LBU | LH | LHU | LW | LWU | LD | SB_ | SH | SW | SD
    | LWL | LWR | SWL | SWR | LDL | LDR | SDL | SDR
    | LWC1 | LDC1 | SWC1 | SDC1
    | BEQ | BNE | BLEZ | BGTZ | BLTZ | BGEZ | J

  const ALU_R := {ADDU, SUBU, AND, OR, XOR, NOR, SLT, SLTU}
  const ALU_I := {ADDIU, ANDI, ORI, XORI, SLTI, SLTIU}
  const SHIFTV := {SLLV, SRLV, SRAV}
  const SHIFTI := {SLL, SRL, SRA}
  const D_ALU_R := {DADDU, DSUBU}
  const D_SHIFTV := {DSLLV, DSRLV, DSRAV}
  const D_SHIFTI := {DSLL, DSRL, DSRA, DSLL32, DSRL32, DSRA32}
  const MEM_LD := {LB, LBU, LH, LHU, LW, LWU, LD}
  const MEM_ST := {SB_, SH, SW, SD}
  const MEM_UNW := {LWL, LWR, SWL, SWR}
  const MEM_UND := {LDL, LDR, SDL, SDR}
  const FP_MEM := {LWC1, LDC1, SWC1, SDC1}

  datatype Instr =
    | Reg3(op: Mnemonic, rd: Reg, rs: Reg, rt: Reg)
    | RegImm(op: Mnemonic, rd: Reg, rs: Reg, imm: int)
    | Lui(rd: Reg, upper: nat)
    | MulDiv(op: Mnemonic, rs: Reg, rt: Reg)
    | FromHiLo(op: Mnemonic, rd: Reg)
    | Mem(op: Mnemonic, reg: Reg, off: nat, base: Reg)
    | ToFp(rs: Reg, f: nat) | FromFp(rd: Reg, f: nat)
    | FromStatus(rd: Reg) | ToStatus(rs: Reg) | Ehb | Nop
    | Br(op: Mnemonic, likely: bool, rs: Reg, rt: Reg, to: nat)

  /** 64-bit arithmetic. */
  predicate Wide(i: Instr) {
    || (i.Reg3? && (i.op in D_ALU_R || i.op in D_SHIFTV))
    || (i.RegImm? && (i.op == DADDIU || i.op in D_SHIFTI))
  }

  /** What `alu` makes: it reads and writes pool registers. */
  predicate IsAlu(i: Instr) {
    match i
    case Reg3(op, rd, rs, rt) =>
      InPool(rd) && IsSource(rs) && IsSource(rt) && (op in ALU_R || op in SHIFTV || op in D_ALU_R || op in D_SHIFTV)
    case RegImm(op, rd, rs, imm) =>
      && InPool(rd) && IsSource(rs)
      && (if op in {ANDI, ORI, XORI} then 0 <= imm < 0x1_0000
          else if op in SHIFTI || op in D_SHIFTI then 0 <= imm < 32
          else (op in ALU_I || op == DADDIU) && -0x8000 <= imm < 0x8000)
    case Lui(rd, _) => InPool(rd)
    case _ => false
  }

  // ------------------------------------------------------------------ units

  datatype Unit =
    | AluUnit(i: Instr)
    | MulUnit(op: Mnemonic, a: Reg, b: Reg, rdop: Mnemonic, dst: Reg)
    | DivUnit(op: Mnemonic, a: Reg, b: Reg, rdop: Mnemonic, dst: Reg)
    | MemUnit(op: Mnemonic, base: Reg, reg: Reg, off: nat)
    | FpMove(i: Instr)
    | BranchUnit(br: Instr, slot: Instr)
    | HazardUnit(tail: seq<Instr>)
    | NopUnit

  /** The instructions of a unit; `mask` is the buffer's offset mask. */
  function Text(u: Unit, mask: nat): (s: seq<Instr>)
    ensures s != []
  {
    match u
    case AluUnit(i) => [i]
    case MulUnit(op, a, b, rdop, dst) =>
      [RegImm(SLL, a, a, 0), RegImm(SLL, b, b, 0), MulDiv(op, a, b), FromHiLo(rdop, dst)]
    case DivUnit(op, a, b, rdop, dst) =>
      [RegImm(SLL, a, a, 0), RegImm(SLL, AT, b, 0), RegImm(ORI, AT, AT, 1), MulDiv(op, a, AT), FromHiLo(rdop, dst)]
    case MemUnit(op, base, reg, off) =>
      [RegImm(ANDI, AT, base, mask), Reg3(DADDU, AT, SB, AT), Mem(op, reg, off, AT)]
    case FpMove(i) => [i]
    case BranchUnit(br, slot) => [br, slot]
    case HazardUnit(tail) =>
      [FromStatus(AT), Reg3(AND, AT, AT, GP), ToStatus(AT), RegImm(ORI, AT, AT, 0x80), ToStatus(AT), Ehb] + tail
    case NopUnit => [Nop]
  }

  predicate MemShape(op: Mnemonic, reg: Reg, off: nat) {
    || (op in MEM_UNW && off <= 3)
    || (op in MEM_UND && off <= 7)
    || ((op in MEM_LD || op in MEM_ST || op in FP_MEM) && off == 0)
  }

  predicate WritesReg(op: Mnemonic) { op in MEM_LD || op in {LWL, LWR, LDL, LDR} }

  /** The units that the generator makes. */
  predicate IsUnit(u: Unit) {
    match u
    case AluUnit(i) => IsAlu(i)
    case MulUnit(op, a, b, rdop, dst) =>
      op in {MULT, MULTU} && IsSource(a) && IsSource(b) && rdop in {MFHI, MFLO} && InPool(dst)
    case DivUnit(op, a, b, rdop, dst) =>
      op in {DIV, DIVU} && IsSource(a) && IsSource(b) && rdop in {MFHI, MFLO} && InPool(dst)
    case MemUnit(op, base, reg, off) =>
      && IsSource(base) && MemShape(op, reg, off)
      && (WritesReg(op) ==> InPool(reg)) && (op in FP_MEM ==> reg % 2 == 0)
    case FpMove(i) => ((i.ToFp? && IsSource(i.rs)) || (i.FromFp? && InPool(i.rd))) && i.f % 2 == 0 && i.f < 32
    case BranchUnit(br, slot) => br.Br? && br.op in {BEQ, BNE, BLEZ, BGTZ, BLTZ, BGEZ, J} && IsAlu(slot) && !Wide(slot)
    case HazardUnit(tail) => 1 <= |tail| <= 2 && forall k :: 0 <= k < |tail| ==> IsAlu(tail[k])
    case NopUnit => true
  }

  // ------------------------------------------------------------------ the program

  datatype Item = Item(labels: seq<nat>, ins: Instr)
  datatype Pending = Pending(lab: nat, from: nat)

  function Texts(body: seq<Item>): (s: seq<Instr>)
    ensures |s| == |body| && forall k :: 0 <= k < |body| ==> s[k] == body[k].ins
  {
    seq(|body|, k requires 0 <= k < |body| => body[k].ins)
  }

  predicate NoRepeats(s: seq<nat>) { forall i, j :: 0 <= i < j < |s| ==> s[i] != s[j] }

  predicate IsPending(pending: seq<Pending>, l: nat) { exists k :: 0 <= k < |pending| && pending[k].lab == l }
  predicate IsPlaced(body: seq<Item>, l: nat) { exists i :: 0 <= i < |body| && l in body[i].labels }

  /** The part of body from i to j is the unit u. */
  ghost predicate UnitAt(body: seq<Item>, mask: nat, u: Unit, i: nat, j: nat) {
    IsUnit(u) && i <= j <= |body| && Texts(body[i..j]) == Text(u, mask)
  }

  /** body is cut into units at `cuts`. */
  ghost predicate CutInto(body: seq<Item>, mask: nat, cuts: seq<nat>, units: seq<Unit>) {
    && |cuts| == |units| + 1 && cuts[0] == 0 && cuts[|units|] == |body|
    && forall k :: 0 <= k < |units| ==> UnitAt(body, mask, units[k], cuts[k], cuts[k + 1])
  }

  /** Labels are on unit starts, no label twice. */
  ghost predicate LabelsPlaced(body: seq<Item>, cuts: seq<nat>, lbl: nat) {
    && (forall i :: 0 <= i < |body| ==> NoRepeats(body[i].labels) && (body[i].labels != [] ==> i in cuts))
    && (forall i, l :: 0 <= i < |body| && l in body[i].labels ==> 1 <= l <= lbl)
    && (forall i, j, l :: 0 <= i < |body| && 0 <= j < |body| && l in body[i].labels && l in body[j].labels ==> i == j)
  }

  /** Labels in hand and labels pending are fresh, and every label is somewhere. */
  ghost predicate LabelsOpen(body: seq<Item>, pending: seq<Pending>, hand: seq<nat>, lbl: nat) {
    && NoRepeats(hand)
    && (forall i, j :: 0 <= i < j < |pending| ==> pending[i].lab != pending[j].lab)
    && (forall k :: 0 <= k < |pending| ==>
          1 <= pending[k].lab <= lbl && pending[k].lab !in hand && !IsPlaced(body, pending[k].lab))
    && (forall l :: l in hand ==> 1 <= l <= lbl && !IsPlaced(body, l))
    && (forall l :: 1 <= l <= lbl ==> IsPending(pending, l) || l in hand || IsPlaced(body, l))
  }

  /** The label of a branch can only come after its delay slot. */
  ghost predicate Forward(body: seq<Item>, pending: seq<Pending>, hand: seq<nat>, lbl: nat) {
    forall i :: 0 <= i < |body| && body[i].ins.Br? ==>
      var l := body[i].ins.to;
      && 1 <= l <= lbl && i + 2 <= |body|
      && (forall k :: 0 <= k < |pending| && pending[k].lab == l ==> i + 2 <= pending[k].from)
      && (l in hand ==> i + 2 <= |body|)
      && (forall p :: 0 <= p < |body| && l in body[p].labels ==> i + 2 <= p)
  }

  // ------------------------------------------------------------------ the labels that are due

  function Due(pending: seq<Pending>, idx: nat): seq<nat> {
    if pending == [] then []
    else Due(pending[..|pending| - 1], idx)
         + (if pending[|pending| - 1].from <= idx then [pending[|pending| - 1].lab] else [])
  }

  function NotDue(pending: seq<Pending>, idx: nat): seq<Pending> {
    if pending == [] then []
    else NotDue(pending[..|pending| - 1], idx)
         + (if pending[|pending| - 1].from <= idx then [] else [pending[|pending| - 1]])
  }

  function Labels(pending: seq<Pending>): (s: seq<nat>)
    ensures |s| == |pending| && forall k :: 0 <= k < |pending| ==> s[k] == pending[k].lab
  {
    seq<nat>(|pending|, k requires 0 <= k < |pending| => pending[k].lab)
  }

  /** Lines as items, with the labels on the first. */
  function Items(lines: seq<Instr>, labs: seq<nat>): (s: seq<Item>)
    ensures |s| == |lines| && Texts(s) == lines
    ensures forall k :: 0 <= k < |lines| ==> s[k].labels == if k == 0 then labs else []
  {
    seq(|lines|, k requires 0 <= k < |lines| => Item(if k == 0 then labs else [], lines[k]))
  }

  // ------------------------------------------------------------------ adding a unit

  lemma UnitStays(body: seq<Item>, more: seq<Item>, mask: nat, u: Unit, i: nat, j: nat)
    requires UnitAt(body, mask, u, i, j)
    ensures UnitAt(body + more, mask, u, i, j)
  {
    assert (body + more)[i..j] == body[i..j];
  }

  lemma UnitAdded(body: seq<Item>, mask: nat, u: Unit, labs: seq<nat>)
    requires IsUnit(u)
    ensures UnitAt(body + Items(Text(u, mask), labs), mask, u, |body|, |body| + |Text(u, mask)|)
  {
    var more := Items(Text(u, mask), labs);
    assert (body + more)[|body|..|body| + |more|] == more;
  }

  lemma AppendCut(body: seq<Item>, mask: nat, cuts: seq<nat>, units: seq<Unit>, u: Unit, labs: seq<nat>)
    requires CutInto(body, mask, cuts, units) && IsUnit(u)
    ensures CutInto(body + Items(Text(u, mask), labs), mask, cuts + [|body| + |Text(u, mask)|], units + [u])
  {
    var more := Items(Text(u, mask), labs);
    var c, us := cuts + [|body| + |more|], units + [u];
    UnitAdded(body, mask, u, labs);
    forall k | 0 <= k < |units| ensures UnitAt(body + more, mask, us[k], c[k], c[k + 1]) {
      assert us[k] == units[k] && c[k] == cuts[k] && c[k + 1] == cuts[k + 1];
      UnitStays(body, more, mask, units[k], cuts[k], cuts[k + 1]);
    }
    assert us[|units|] == u && c[|units|] == |body| && c[|units| + 1] == |body| + |more|;
  }

  lemma AppendPlaced(body: seq<Item>, cuts: seq<nat>, lbl: nat, pending: seq<Pending>, labs: seq<nat>,
                     lines: seq<Instr>)
    requires LabelsPlaced(body, cuts, lbl) && LabelsOpen(body, pending, labs, lbl) && lines != []
    requires cuts != [] && cuts[|cuts| - 1] == |body|
    ensures LabelsPlaced(body + Items(lines, labs), cuts + [|body| + |lines|], lbl)
  {
    var b := body + Items(lines, labs);
    forall i, j, l | 0 <= i < |b| && 0 <= j < |b| && l in b[i].labels && l in b[j].labels ensures i == j {
      if i < |body| && j >= |body| { assert IsPlaced(body, l); }
      if j < |body| && i >= |body| { assert IsPlaced(body, l); }
    }
  }

  lemma AppendOpen(body: seq<Item>, lbl: nat, pending: seq<Pending>, labs: seq<nat>, lines: seq<Instr>)
    requires LabelsOpen(body, pending, labs, lbl) && lines != []
    ensures LabelsOpen(body + Items(lines, labs), pending, [], lbl)
  {
    var b := body + Items(lines, labs);
    forall l ensures IsPlaced(b, l) <==> IsPlaced(body, l) || l in labs {
      if IsPlaced(body, l) {
        var i :| 0 <= i < |body| && l in body[i].labels;
        assert l in b[i].labels;
      }
      if l in labs { assert l in b[|body|].labels; }
    }
  }

  lemma AppendForward(body: seq<Item>, lbl: nat, pending: seq<Pending>, labs: seq<nat>, lines: seq<Instr>)
    requires Forward(body, pending, labs, lbl) && LabelsOpen(body, pending, labs, lbl) && lines != []
    requires forall k :: 0 < k < |lines| ==> !lines[k].Br?
    requires lines[0].Br? ==>
               && |lines| == 2
               && exists k :: 0 <= k < |pending| && pending[k].lab == lines[0].to && pending[k].from >= |body| + 2
    ensures Forward(body + Items(lines, labs), pending, [], lbl)
  {}
}

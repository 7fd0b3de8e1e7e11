/** Every run of a well-formed program is safe and ends.  What an instruction computes is arbitrary,
    except for the few whose results the program's safety rests on; so is every branch's outcome.  */
module RandomRuns {
  import opened Bits
  import opened RandomProgram
  import opened Generator
  import T = Tlb

  const KX: nat := 0x80
  const CU1: nat := 0x2000_0000

  /** Registers and the Status register. */
  datatype Cpu = Cpu(regs: seq<u64>, status: u32)

  /** As the pipeline sees it: the instruction at pc runs, then the one at npc. */
  datatype State = State(pc: nat, npc: nat, cpu: Cpu)

  /** The scratch buffer. */
  datatype Buffer = Buffer(base: u64, size: nat)

  // ------------------------------------------------------------------ instructions

  function SetReg(c: Cpu, r: Reg, v: u64): Cpu
    requires |c.regs| == 32
  {
    if r == 0 then c else c.(regs := c.regs[r := v])
  }

  /** v may be what the instruction computes. */
  predicate Computes(i: Instr, c: Cpu, v: u64)
    requires |c.regs| == 32
  {
    match i
    case Reg3(op, _, rs, rt) =>
      && (op == AND ==> v == And(c.regs[rs], c.regs[rt]))
      && (op == DADDU ==> v == (c.regs[rs] + c.regs[rt]) % W64)
    case RegImm(op, _, rs, imm) =>
      && (op == ANDI && imm >= 0 ==> v == And(c.regs[rs], imm))
      && (op == ORI && imm >= 0 ==> v == Or(c.regs[rs], imm))
      && (op == SLL && imm == 0 ==> v == T.SignExtend(c.regs[rs] % W32))
    case FromStatus(_) => v == T.SignExtend(c.status)
    case _ => true
  }

  function Result(i: Instr, c: Cpu, v: u64): Cpu
    requires |c.regs| == 32
  {
    match i
    case Reg3(_, rd, _, _) => SetReg(c, rd, v)
    case RegImm(_, rd, _, _) => SetReg(c, rd, v)
    case Lui(rd, _) => SetReg(c, rd, v)
    case FromHiLo(_, rd) => SetReg(c, rd, v)
    case FromFp(rd, _) => SetReg(c, rd, v)
    case FromStatus(rd) => SetReg(c, rd, v)
    case Mem(op, reg, _, _) => if WritesReg(op) then SetReg(c, reg, v) else c
    case ToStatus(rs) => c.(status := c.regs[rs] % W32)
    case _ => c
  }

  ghost predicate Executes(i: Instr, c: Cpu, d: Cpu) {
    |c.regs| == 32 && exists v: u64 :: Computes(i, c, v) && d == Result(i, c, v)
  }

  predicate LabelAt(body: seq<Item>, l: nat, p: nat) { p < |body| && l in body[p].labels }

  /** One step: a branch goes to its label after the instruction at npc, or falls through; a likely
      branch that falls through skips that instruction. */
  ghost predicate Moves(body: seq<Item>, s: State, t: State) {
    && s.pc < |body|
    && var i := body[s.pc].ins;
       if i.Br? then
         && t.cpu == s.cpu
         && (|| (t.pc == s.npc && LabelAt(body, i.to, t.npc))
             || (i.op != J && !i.likely && t.pc == s.npc && t.npc == s.npc + 1)
             || (i.op != J && i.likely && t.pc == s.npc + 1 && t.npc == s.npc + 2))
       else t.pc == s.npc && t.npc == s.npc + 1 && Executes(i, s.cpu, t.cpu)
  }

  /** A run of the program, from its first instruction. */
  ghost predicate IsRun(body: seq<Item>, ss: seq<State>) {
    && ss != [] && ss[0].pc == 0 && ss[0].npc == 1
    && forall k :: 0 <= k < |ss| - 1 ==> Moves(body, ss[k], ss[k + 1])
  }

  // ------------------------------------------------------------------ what is safe

  predicate HasKx(c: Cpu) { c.status / KX % 2 == 1 }
  predicate HasCu1(c: Cpu) { c.status / CU1 % 2 == 1 }

  predicate IsFp(i: Instr) { i.ToFp? || i.FromFp? || (i.Mem? && i.op in FP_MEM) }

  function Size(op: Mnemonic): (n: nat)
    ensures n in {1, 2, 4, 8}
  {
    if op in {LB, LBU, SB_} then 1
    else if op in {LH, LHU, SH} then 2
    else if op in {LD, SD, LDL, LDR, SDL, SDR, LDC1, SDC1} then 8 else 4
  }

  predicate Unaligned(op: Mnemonic) { op in MEM_UNW || op in MEM_UND }

  /** The access is aligned, or of the kind that need not be, and within the buffer: an unaligned one
      touches the aligned group around its address. */
  predicate InBuffer(b: Buffer, op: Mnemonic, ea: u64) {
    var n := Size(op);
    var first := ea / n * n;
    && (Unaligned(op) || first == ea)
    && b.base <= first && first + n <= b.base + b.size
  }

  /** A 32-bit number as a register holds it. */
  predicate Signed(v: u64) { v == T.SignExtend(v % W32) }

  /** Nothing about the instruction can fault or is undefined: 64-bit operations and 64-bit addresses find
      KX set, floating point finds CU1 set and for a doubleword an even register, multiplication and
      division find 32-bit numbers and a divisor, and an access its buffer. */
  predicate Safe(b: Buffer, i: Instr, c: Cpu)
    requires |c.regs| == 32
  {
    && (RandomProgram.Wide(i) || i.Mem? ==> HasKx(c))
    && (IsFp(i) ==> HasCu1(c))
    && (i.MulDiv? ==> Signed(c.regs[i.rs]) && Signed(c.regs[i.rt]))
    && (i.MulDiv? && i.op in {DIV, DIVU} ==> c.regs[i.rt] % W32 != 0)
    && (i.Mem? && i.op in FP_MEM ==> i.reg % 2 == 0)
    && (i.Mem? ==> InBuffer(b, i.op, (c.regs[i.base] + i.off) % W64))
  }

  /** How the preamble leaves the machine: 64-bit mode, floating point usable, the mask that clears KX
      and the buffer's address in their registers. */
  predicate Entered(b: Buffer, c: Cpu) {
    && |c.regs| == 32 && c.regs[0] == 0 && c.regs[SB] == b.base && c.regs[GP] == W64 - 1 - KX
    && HasKx(c) && HasCu1(c)
  }

  predicate ValidBuffer(b: Buffer) {
    16 <= b.size && OffMask(b.size) < 0x1_0000 && b.base % 8 == 0 && b.base + b.size <= W64
  }

  // ------------------------------------------------------------------ bits

  lemma Split8(x: nat)
    ensures Hi(x, 8) == x / 256 && Lo(x, 8) == x % 256
  {
    HiLo(x, 8);
    UpIsTimes(Hi(x, 8), 8);
    Powers();
    QuotRem(Hi(x, 8), 256, Lo(x, 8));
  }

  lemma Split7(x: nat)
    ensures Hi(x, 7) == x / 128 && Lo(x, 7) == x % 128
  {
    HiLo(x, 7);
    UpIsTimes(Hi(x, 7), 7);
    Powers();
    QuotRem(Hi(x, 7), 128, Lo(x, 7));
  }

  lemma HighBytes(h: nat)
    requires h < 0x100_0000_0000_0000
    ensures And(h, 0x100_0000_0000_0000 - 1) == h
  {
    WidePowers();
    Ones(h, 56);
  }

  lemma LowBits(l: nat)
    ensures And(l, 0x7f) == l % 128
  {
    Powers();
    AndOnes(l, 7);
    Split7(l);
  }

  lemma MaskParts()
    ensures (W64 - 1 - KX) / 256 == 0x100_0000_0000_0000 - 1 && (W64 - 1 - KX) % 256 == 0x7f
  {}

  lemma Masked(x: u64)
    ensures And(x, W64 - 1 - KX) == x / 256 * 256 + x % 256 % 128
  {
    AndSplit(x, W64 - 1 - KX, 8);
    Split8(x);
    Split8(W64 - 1 - KX);
    MaskParts();
    HighBytes(x / 256);
    LowBits(x % 256);
    UpIsTimes(x / 256, 8);
    Powers();
  }

  /** The mask clears bit 7 ... */
  lemma ClearsKx(x: u64)
    ensures And(x, W64 - 1 - KX) == x - (if x / KX % 2 == 1 then KX else 0)
  {
    var h, l := x / 256, x % 256;
    Masked(x);
    QuotRem(h * 2 + l / 128, 128, l % 128);
    QuotRem(h, 2, l / 128);
  }

  /** ... and ORI puts it back. */
  lemma SetsKx(x: u64)
    ensures Or(x, KX) == x + (if x / KX % 2 == 1 then 0 else KX)
  {
    OrSplit(x, KX, 7);
    Split7(x);
    Split7(KX);
    OrZero(x % 128);
    OrStep(x / 128, 1);
    OrZero(x / 128 / 2);
    UpIsTimes(Or(x / 128, 1), 7);
    Powers();
  }

  lemma OrOneIsOdd(x: nat)
    ensures Or(x, 1) % 2 == 1
  {
    OrStep(x, 1);
    QuotRem(Or(x / 2, 0), 2, 1);
  }

  lemma LowThree(m: nat)
    ensures Lo(m, 3) == m % 8
  {
    HiLo(m, 3);
    UpIsTimes(Hi(m, 3), 3);
    assert Pow2(3) == 8;
    QuotRem(Hi(m, 3), 8, Lo(m, 3));
  }

  /** An offset is a multiple of 8, up to the mask. */
  lemma Offsets(x: nat, mask: nat)
    requires mask % 8 == 0
    ensures And(x, mask) <= mask && And(x, mask) % 8 == 0
  {
    var h := And(Hi(x, 3), Hi(mask, 3));
    AndBound(x, mask);
    AndSplit(x, mask, 3);
    LowThree(mask);
    UpIsTimes(h, 3);
    assert Pow2(3) == 8;
    QuotRem(h, 8, 0);
  }

  // ------------------------------------------------------------------ inside a unit

  /** i is instruction j of unit u. */
  predicate IsText(u: Unit, mask: nat, j: nat, i: Instr) { j < |Text(u, mask)| && Text(u, mask)[j] == i }

  /** What every instruction may rely on. */
  predicate Kept(b: Buffer, c: Cpu) {
    |c.regs| == 32 && c.regs[0] == 0 && c.regs[SB] == b.base && c.regs[GP] == W64 - 1 - KX
  }

  /** Where a unit starts, Status is as the preamble left it. */
  predicate Settled(b: Buffer, st: u32, c: Cpu) { Kept(b, c) && c.status == st }

  /** After j instructions of u. */
  predicate Phase(b: Buffer, st: u32, u: Unit, j: nat, c: Cpu)
    requires |c.regs| == 32 && b.size >= 16
  {
    var at := c.regs[AT];
    match u
    case MemUnit(_, _, _, _) =>
      && c.status == st
      && (j == 1 ==> at <= OffMask(b.size) && at % 8 == 0)
      && (j == 2 ==> b.base <= at <= b.base + OffMask(b.size) && at % 8 == 0)
    case MulUnit(_, x, y, _, _) =>
      c.status == st && (j in {1, 2} ==> Signed(c.regs[x])) && (j == 2 ==> Signed(c.regs[y]))
    case DivUnit(_, x, _, _, _) =>
      && c.status == st
      && (j in {1, 2, 3} ==> Signed(c.regs[x])) && (j in {2, 3} ==> Signed(at)) && (j == 3 ==> at % 2 == 1)
    case HazardUnit(_) =>
      && (j <= 2 || j >= 5 ==> c.status == st)
      && (j == 1 ==> at == T.SignExtend(st))
      && (j in {2, 3} ==> at == T.SignExtend(st) - KX)
      && (j == 4 ==> at == T.SignExtend(st))
      && (j in {3, 4} ==> c.status == st - KX)
    case _ => c.status == st
  }

  predicate Within(b: Buffer, st: u32, u: Unit, j: nat, c: Cpu)
    requires b.size >= 16
  {
    Kept(b, c) && Phase(b, st, u, j, c)
  }

  predicate Usable(st: u32) { st / KX % 2 == 1 && st / CU1 % 2 == 1 }

  lemma Sevenths(h: nat, e: nat, l: nat)
    requires l < KX
    ensures var x := (2 * h + 1 + 2 * e) * KX + l;
            x / KX % 2 == 1 && (x - KX) / KX % 2 == 0
  {
    QuotRem(2 * h + 1 + 2 * e, KX, l);
    QuotRem(2 * h + 2 * e, KX, l);
    QuotRem(h + e, 2, 1);
    QuotRem(h + e, 2, 0);
  }

  lemma StatusRound(st: u32)
    requires st / KX % 2 == 1
    ensures T.SignExtend(st) / KX % 2 == 1 && T.SignExtend(st) % W32 == st
    ensures var x := T.SignExtend(st) - KX; Or(x, KX) == T.SignExtend(st)
  {
    var h, l := st / KX / 2, st % KX;
    var e := if st < 0x8000_0000 then 0 else 0xff_ffff_ff00_0000;
    assert T.SignExtend(st) == (2 * h + 1 + 2 * e) * KX + l;
    Sevenths(h, e, l);
    SetsKx(T.SignExtend(st) - KX);
    QuotRem(if st < 0x8000_0000 then 0 else 0xffff_ffff, W32, st);
  }

  lemma Begins(b: Buffer, st: u32, u: Unit, c: Cpu)
    requires Settled(b, st, c) && b.size >= 16
    ensures Within(b, st, u, 0, c)
  {}

  /** The instructions with free results keep the fixed registers. */
  lemma WritesPool(b: Buffer, i: Instr, c: Cpu, d: Cpu)
    requires Kept(b, c) && Executes(i, c, d)
    requires IsAlu(i) || i.MulDiv? || i.ToFp? || i.Nop? || i.Ehb? || ((i.FromHiLo? || i.FromFp?) && InPool(i.rd))
    ensures Kept(b, d) && d.status == c.status && d.regs[AT] == c.regs[AT]
  {}

  lemma OffsetPhase(b: Buffer, st: u32, u: Unit, c: Cpu, d: Cpu)
    requires ValidBuffer(b) && IsUnit(u) && u.MemUnit? && Within(b, st, u, 0, c)
    requires Executes(Text(u, OffMask(b.size))[0], c, d)
    ensures Within(b, st, u, 1, d)
  {
    Offsets(c.regs[u.base], OffMask(b.size));
  }

  lemma AddressPhase(b: Buffer, st: u32, u: Unit, c: Cpu, d: Cpu)
    requires ValidBuffer(b) && IsUnit(u) && u.MemUnit? && Within(b, st, u, 1, c)
    requires Executes(Reg3(DADDU, AT, SB, AT), c, d)
    ensures Within(b, st, u, 2, d)
  {
    InTheBuffer(b.base, c.regs[AT], OffMask(b.size));
  }

  lemma InTheBuffer(base: u64, off: nat, mask: nat)
    requires base % 8 == 0 && off % 8 == 0 && off <= mask && base + mask < W64
    ensures (base + off) % W64 == base + off && (base + off) % 8 == 0
  {
    QuotRem(base / 8 + off / 8, 8, 0);
  }

  lemma AccessPhase(b: Buffer, st: u32, u: Unit, c: Cpu, d: Cpu)
    requires ValidBuffer(b) && IsUnit(u) && u.MemUnit? && Within(b, st, u, 2, c)
    requires Executes(Mem(u.op, u.reg, u.off, AT), c, d)
    ensures Within(b, st, u, 3, d)
  {}

  lemma MemPhase(b: Buffer, st: u32, u: Unit, j: nat, c: Cpu, d: Cpu)
    requires ValidBuffer(b) && IsUnit(u) && u.MemUnit? && j < 3 && Within(b, st, u, j, c)
    requires Executes(Text(u, OffMask(b.size))[j], c, d)
    ensures Within(b, st, u, j + 1, d)
  {
    if j == 0 { OffsetPhase(b, st, u, c, d); }
    else if j == 1 { AddressPhase(b, st, u, c, d); }
    else { AccessPhase(b, st, u, c, d); }
  }

  lemma SllSigns(x: u64)
    ensures Signed(T.SignExtend(x % W32))
  {
    SignedLow(x % W32);
  }

  lemma SignedLow(w: u32)
    ensures T.SignExtend(w) % W32 == w
  {
    QuotRem(if w < 0x8000_0000 then 0 else 0xffff_ffff, W32, w);
  }

  /** Setting the lowest bit of a 32-bit number leaves one. */
  lemma OrOneSigned(x: u64)
    requires Signed(x)
    ensures Or(x, 1) < W64 && Signed(Or(x, 1))
  {
    var w, k := x % W32, x / W32;
    OrStep(x, 1);
    OrZero(x / 2);
    QuotRem(k * 0x8000_0000 + w / 2, 2, w % 2);
    if w % 2 == 1 {
      assert Or(x, 1) == x;
    } else {
      assert Or(x, 1) == x + 1 == T.SignExtend(w + 1);
      SignedLow(w + 1);
    }
  }

  lemma DivPhase(b: Buffer, st: u32, u: Unit, j: nat, c: Cpu, d: Cpu, mask: nat)
    requires b.size >= 16 && IsUnit(u) && u.DivUnit? && j < 5 && Within(b, st, u, j, c)
    requires Executes(Text(u, mask)[j], c, d)
    ensures Within(b, st, u, j + 1, d)
  {
    SllSigns(c.regs[u.a]);
    SllSigns(c.regs[u.b]);
    if j == 2 {
      OrOneIsOdd(c.regs[AT]);
      OrOneSigned(c.regs[AT]);
    }
  }

  lemma MulPhase(b: Buffer, st: u32, u: Unit, j: nat, c: Cpu, d: Cpu, mask: nat)
    requires b.size >= 16 && IsUnit(u) && u.MulUnit? && j < 4 && Within(b, st, u, j, c)
    requires Executes(Text(u, mask)[j], c, d)
    ensures Within(b, st, u, j + 1, d)
  {
    SllSigns(c.regs[u.a]);
    SllSigns(c.regs[u.b]);
  }

  lemma HazardOff(b: Buffer, st: u32, u: Unit, j: nat, c: Cpu, d: Cpu, mask: nat)
    requires b.size >= 16 && Usable(st) && u.HazardUnit? && j < 3 && Within(b, st, u, j, c)
    requires Executes(Text(u, mask)[j], c, d)
    ensures Within(b, st, u, j + 1, d)
  {
    if j == 1 {
      StatusRound(st);
      ClearsKx(c.regs[AT]);
    }
  }

  lemma HazardOn(b: Buffer, st: u32, u: Unit, c: Cpu, d: Cpu, mask: nat)
    requires b.size >= 16 && Usable(st) && u.HazardUnit? && Within(b, st, u, 3, c)
    requires Executes(Text(u, mask)[3], c, d)
    ensures Within(b, st, u, 4, d)
  {
    StatusRound(st);
  }

  lemma HazardOver(b: Buffer, st: u32, u: Unit, c: Cpu, d: Cpu, mask: nat)
    requires b.size >= 16 && Usable(st) && u.HazardUnit? && Within(b, st, u, 4, c)
    requires Executes(Text(u, mask)[4], c, d)
    ensures Within(b, st, u, 5, d)
  {
    StatusRound(st);
  }

  lemma HazardTail(b: Buffer, st: u32, u: Unit, j: nat, c: Cpu, d: Cpu, mask: nat)
    requires b.size >= 16 && IsUnit(u) && u.HazardUnit? && 5 <= j < |Text(u, mask)| && Within(b, st, u, j, c)
    requires Executes(Text(u, mask)[j], c, d)
    ensures Within(b, st, u, j + 1, d)
  {
    WritesPool(b, Text(u, mask)[j], c, d);
  }

  lemma OtherPhase(b: Buffer, st: u32, u: Unit, j: nat, c: Cpu, d: Cpu, mask: nat)
    requires b.size >= 16 && IsUnit(u) && !u.MemUnit? && !u.MulUnit? && !u.DivUnit? && !u.HazardUnit?
    requires j < |Text(u, mask)| && Within(b, st, u, j, c) && !Text(u, mask)[j].Br? && Executes(Text(u, mask)[j], c, d)
    ensures Within(b, st, u, j + 1, d)
  {
    WritesPool(b, Text(u, mask)[j], c, d);
  }

  /** An instruction of a unit leads to the unit's next phase. */
  lemma PhaseStep(b: Buffer, st: u32, u: Unit, j: nat, c: Cpu, d: Cpu)
    requires ValidBuffer(b) && Usable(st) && IsUnit(u) && j < |Text(u, OffMask(b.size))| && Within(b, st, u, j, c)
    requires !Text(u, OffMask(b.size))[j].Br? && Executes(Text(u, OffMask(b.size))[j], c, d)
    ensures Within(b, st, u, j + 1, d)
  {
    var mask := OffMask(b.size);
    if u.MemUnit? { MemPhase(b, st, u, j, c, d); }
    else if u.MulUnit? { MulPhase(b, st, u, j, c, d, mask); }
    else if u.DivUnit? { DivPhase(b, st, u, j, c, d, mask); }
    else if u.HazardUnit? && j < 3 { HazardOff(b, st, u, j, c, d, mask); }
    else if u.HazardUnit? && j == 3 { HazardOn(b, st, u, c, d, mask); }
    else if u.HazardUnit? && j == 4 { HazardOver(b, st, u, c, d, mask); }
    else if u.HazardUnit? { HazardTail(b, st, u, j, c, d, mask); }
    else { OtherPhase(b, st, u, j, c, d, mask); }
  }

  lemma PhaseStepAt(b: Buffer, st: u32, u: Unit, j: nat, c: Cpu, d: Cpu, i: Instr, n: nat)
    requires ValidBuffer(b) && Usable(st) && IsUnit(u) && IsText(u, OffMask(b.size), j, i) && Within(b, st, u, j, c)
    requires !i.Br? && Executes(i, c, d) && n == j + 1
    ensures Within(b, st, u, n, d)
  {
    PhaseStep(b, st, u, j, c, d);
  }

  lemma Finishes(b: Buffer, st: u32, u: Unit, c: Cpu)
    requires b.size >= 16 && IsUnit(u) && Within(b, st, u, |Text(u, OffMask(b.size))|, c)
    ensures Settled(b, st, c)
  {}

  lemma GroupStart(x: nat, off: nat)
    requires x % 8 == 0 && off < 8
    ensures (x + off) / 8 * 8 == x
    ensures off < 4 ==> (x + off) / 4 * 4 == x
    ensures x / 1 * 1 == x && x / 2 * 2 == x && x / 4 * 4 == x
  {
    QuotRem(x / 8, 8, off);
    if off < 4 { QuotRem(x / 8 * 2, 4, off); }
    QuotRem(x / 8 * 4, 2, 0);
    QuotRem(x / 8 * 2, 4, 0);
  }

  lemma AccessIsSafe(b: Buffer, u: Unit, at: u64)
    requires ValidBuffer(b) && IsUnit(u) && u.MemUnit?
    requires b.base <= at <= b.base + OffMask(b.size) && at % 8 == 0
    ensures at + u.off < W64 && InBuffer(b, u.op, at + u.off)
  {
    GroupStart(at, u.off);
  }

  lemma MaskSafe(b: Buffer, st: u32, u: Unit, j: nat, c: Cpu)
    requires b.size >= 16 && Usable(st) && u.MemUnit? && j < 2 && Within(b, st, u, j, c)
    ensures Safe(b, Text(u, OffMask(b.size))[j], c)
  {}

  lemma MemSafe(b: Buffer, st: u32, u: Unit, c: Cpu)
    requires ValidBuffer(b) && Usable(st) && IsUnit(u) && u.MemUnit? && Within(b, st, u, 2, c)
    ensures Safe(b, Mem(u.op, u.reg, u.off, AT), c)
  {
    AccessIsSafe(b, u, c.regs[AT]);
    assert (c.regs[AT] + u.off) % W64 == c.regs[AT] + u.off;
  }

  lemma OddIsNotZero(x: nat)
    requires x % 2 == 1
    ensures x % W32 != 0
  {}

  lemma DivSafe(b: Buffer, st: u32, u: Unit, j: nat, c: Cpu, mask: nat)
    requires b.size >= 16 && IsUnit(u) && u.DivUnit? && j < 5 && Within(b, st, u, j, c)
    ensures Safe(b, Text(u, mask)[j], c)
  {
    if j == 3 { OddIsNotZero(c.regs[AT]); }
  }

  lemma AluSafe(b: Buffer, st: u32, i: Instr, c: Cpu)
    requires Usable(st) && Kept(b, c) && (c.status == st || !RandomProgram.Wide(i)) && IsAlu(i)
    ensures Safe(b, i, c)
  {}

  /** Every instruction of a unit is safe where it runs. */
  lemma PhaseSafe(b: Buffer, st: u32, u: Unit, j: nat, c: Cpu)
    requires ValidBuffer(b) && Usable(st) && IsUnit(u) && j < |Text(u, OffMask(b.size))| && Within(b, st, u, j, c)
    ensures Safe(b, Text(u, OffMask(b.size))[j], c)
  {
    if u.MemUnit? {
      if j < 2 { MaskSafe(b, st, u, j, c); } else { MemSafe(b, st, u, c); }
    } else if u.DivUnit? {
      DivSafe(b, st, u, j, c, OffMask(b.size));
    } else if IsAlu(Text(u, OffMask(b.size))[j]) {
      AluSafe(b, st, Text(u, OffMask(b.size))[j], c);
    }
  }

  // ------------------------------------------------------------------ along the program

  /** A finished program and the unit structure behind it. */
  datatype Program = Program(body: seq<Item>, cuts: seq<nat>, units: seq<Unit>, lbl: nat) {
    ghost predicate Valid(b: Buffer) {
      ValidBuffer(b) && WellFormed(body, OffMask(b.size), cuts, units, lbl)
    }

    /** As far as its units go. */
    ghost predicate IsCut(b: Buffer) { ValidBuffer(b) && CutInto(body, OffMask(b.size), cuts, units) }
  }

  /** s is in unit k, as far as its pc says. */
  ghost predicate InUnit(p: Program, b: Buffer, st: u32, s: State, k: nat)
    requires p.IsCut(b)
  {
    && k < |p.units| && p.cuts[k] <= s.pc < p.cuts[k + 1]
    && Within(b, st, p.units[k], s.pc - p.cuts[k], s.cpu)
  }

  /** ... and either goes straight on, or is in the slot of a taken branch and goes to a unit start. */
  ghost predicate OnTrack(p: Program, b: Buffer, st: u32, s: State, k: nat)
    requires p.IsCut(b)
  {
    && InUnit(p, b, st, s, k)
    && (|| s.npc == s.pc + 1
        || (p.units[k].BranchUnit? && s.pc == p.cuts[k] + 1 && s.pc < s.npc < |p.body| && s.npc in p.cuts))
  }

  ghost predicate Fine(p: Program, b: Buffer, st: u32, s: State)
    requires p.IsCut(b)
  {
    s.pc == |p.body| || exists k: nat :: OnTrack(p, b, st, s, k)
  }

  lemma UnitSpan(p: Program, b: Buffer, k: nat)
    requires p.IsCut(b) && k < |p.units|
    ensures p.cuts[k] < p.cuts[k + 1] <= |p.body| && p.cuts[k + 1] - p.cuts[k] == |Text(p.units[k], OffMask(b.size))|
    ensures IsUnit(p.units[k])
  {
    assert UnitAt(p.body, OffMask(b.size), p.units[k], p.cuts[k], p.cuts[k + 1]);
  }

  /** Every instruction is in a unit. */
  lemma UnitOf(p: Program, b: Buffer, i: nat) returns (k: nat)
    requires p.IsCut(b) && i < |p.body|
    ensures k < |p.units| && p.cuts[k] <= i < p.cuts[k + 1]
  {
    k := 0;
    while p.cuts[k + 1] <= i
      invariant k < |p.units| && p.cuts[k] <= i
      decreases |p.units| - k
    {
      k := k + 1;
    }
  }

  lemma InstrIs(p: Program, b: Buffer, k: nat, i: nat)
    requires p.IsCut(b) && k < |p.units| && p.cuts[k] <= i < p.cuts[k + 1]
    ensures i < |p.body| && IsText(p.units[k], OffMask(b.size), i - p.cuts[k], p.body[i].ins)
  {
    UnitSpan(p, b, k);
    assert UnitAt(p.body, OffMask(b.size), p.units[k], p.cuts[k], p.cuts[k + 1]);
    var part := p.body[p.cuts[k]..p.cuts[k + 1]];
    assert Texts(part)[i - p.cuts[k]] == part[i - p.cuts[k]].ins;
  }

  lemma OnlyBranches(u: Unit, j: nat, mask: nat)
    requires IsUnit(u) && j < |Text(u, mask)| && Text(u, mask)[j].Br?
    ensures u.BranchUnit? && j == 0
  {}

  /** At the start of a unit, or at the end. */
  lemma Arrives(p: Program, b: Buffer, st: u32, s: State, k: nat)
    requires p.IsCut(b) && k <= |p.units| && s.pc == p.cuts[k] && s.npc == s.pc + 1 && Settled(b, st, s.cpu)
    ensures Fine(p, b, st, s)
  {
    if k < |p.units| {
      UnitSpan(p, b, k);
      Begins(b, st, p.units[k], s.cpu);
      assert OnTrack(p, b, st, s, k);
    }
  }

  /** A branch's label is past its slot, and starts a unit. */
  lemma LabelAhead(p: Program, b: Buffer, i: nat, q: nat)
    requires p.Valid(b) && i < |p.body| && p.body[i].ins.Br? && LabelAt(p.body, p.body[i].ins.to, q)
    ensures i + 2 <= q < |p.body| && q in p.cuts
  {
    assert p.body[q].labels != [];
  }

  lemma BranchStep(p: Program, b: Buffer, st: u32, s: State, t: State, k: nat)
    requires p.Valid(b) && OnTrack(p, b, st, s, k) && Moves(p.body, s, t) && p.body[s.pc].ins.Br?
    ensures Fine(p, b, st, t) && s.pc < t.pc
  {
    var i := p.body[s.pc].ins;
    UnitSpan(p, b, k);
    InstrIs(p, b, k, s.pc);
    OnlyBranches(p.units[k], s.pc - p.cuts[k], OffMask(b.size));
    if t.pc == s.npc {
      if LabelAt(p.body, i.to, t.npc) { LabelAhead(p, b, s.pc, t.npc); }
      assert OnTrack(p, b, st, t, k);
    } else {
      Arrives(p, b, st, t, k + 1);
    }
  }

  /** From the last instruction of a unit to the start of another. */
  lemma UnitEnds(p: Program, b: Buffer, st: u32, s: State, t: State, k: nat)
    requires p.IsCut(b) && OnTrack(p, b, st, s, k) && s.pc + 1 == p.cuts[k + 1]
    requires t.pc == s.npc && t.npc == s.npc + 1 && Settled(b, st, t.cpu)
    ensures Fine(p, b, st, t)
  {
    if s.npc == s.pc + 1 {
      Arrives(p, b, st, t, k + 1);
    } else {
      var q :| 0 <= q < |p.cuts| && p.cuts[q] == s.npc;
      Arrives(p, b, st, t, q);
    }
  }

  /** From one instruction of a unit to the next. */
  lemma StepsOn(p: Program, b: Buffer, st: u32, s: State, t: State, k: nat)
    requires p.IsCut(b) && Usable(st) && OnTrack(p, b, st, s, k) && s.pc + 1 < p.cuts[k + 1]
    requires t.pc == s.npc && t.npc == s.npc + 1 && Within(b, st, p.units[k], s.pc + 1 - p.cuts[k], t.cpu)
    ensures OnTrack(p, b, st, t, k)
  {
    UnitSpan(p, b, k);
  }

  lemma Executed(body: seq<Item>, s: State, t: State, i: Instr)
    requires Moves(body, s, t) && body[s.pc].ins == i && !i.Br?
    ensures Executes(i, s.cpu, t.cpu)
  {}

  lemma NextPhase(p: Program, b: Buffer, st: u32, s: State, t: State, k: nat, i: Instr)
    requires p.IsCut(b) && Usable(st) && InUnit(p, b, st, s, k)
    requires p.body[s.pc].ins == i && !i.Br? && Executes(i, s.cpu, t.cpu)
    ensures Within(b, st, p.units[k], s.pc + 1 - p.cuts[k], t.cpu)
  {
    UnitSpan(p, b, k);
    InstrIs(p, b, k, s.pc);
    PhaseStepAt(b, st, p.units[k], s.pc - p.cuts[k], s.cpu, t.cpu, i, s.pc + 1 - p.cuts[k]);
  }

  lemma PlainStep(p: Program, b: Buffer, st: u32, s: State, t: State, k: nat)
    requires p.IsCut(b) && Usable(st) && OnTrack(p, b, st, s, k) && Moves(p.body, s, t) && !p.body[s.pc].ins.Br?
    ensures Fine(p, b, st, t) && s.pc < t.pc
  {
    Executed(p.body, s, t, p.body[s.pc].ins);
    NextPhase(p, b, st, s, t, k, p.body[s.pc].ins);
    if s.pc + 1 < p.cuts[k + 1] {
      StepsOn(p, b, st, s, t, k);
    } else {
      UnitSpan(p, b, k);
      Finishes(b, st, p.units[k], t.cpu);
      UnitEnds(p, b, st, s, t, k);
    }
  }

  lemma StepIsFine(p: Program, b: Buffer, st: u32, s: State, t: State)
    requires p.Valid(b) && Usable(st) && Fine(p, b, st, s) && Moves(p.body, s, t)
    ensures Fine(p, b, st, t) && s.pc < t.pc
  {
    var k: nat :| OnTrack(p, b, st, s, k);
    if p.body[s.pc].ins.Br? { BranchStep(p, b, st, s, t, k); } else { PlainStep(p, b, st, s, t, k); }
  }

  lemma {:induction false} RunIsFine(p: Program, b: Buffer, ss: seq<State>, n: nat)
    requires p.Valid(b) && IsRun(p.body, ss) && Entered(b, ss[0].cpu) && n < |ss|
    ensures Fine(p, b, ss[0].cpu.status, ss[n]) && n <= ss[n].pc
    decreases n
  {
    if n == 0 {
      Arrives(p, b, ss[0].cpu.status, ss[0], 0);
    } else {
      RunIsFine(p, b, ss, n - 1);
      StepIsFine(p, b, ss[0].cpu.status, ss[n - 1], ss[n]);
    }
  }

  // ------------------------------------------------------------------ the promises

  lemma StateIsSafe(p: Program, b: Buffer, st: u32, s: State, k: nat)
    requires p.IsCut(b) && Usable(st) && OnTrack(p, b, st, s, k)
    ensures s.pc < |p.body| && |s.cpu.regs| == 32 && Safe(b, p.body[s.pc].ins, s.cpu)
  {
    UnitSpan(p, b, k);
    InstrIs(p, b, k, s.pc);
    PhaseSafe(b, st, p.units[k], s.pc - p.cuts[k], s.cpu);
  }

  /** Within a unit Status is as the preamble left it, or KX is clear for the moment. */
  lemma StatusIs(p: Program, b: Buffer, st: u32, s: State, k: nat)
    requires p.IsCut(b) && OnTrack(p, b, st, s, k)
    ensures s.cpu.status == st || s.cpu.status == st - KX
  {
    UnitSpan(p, b, k);
    assert Phase(b, st, p.units[k], s.pc - p.cuts[k], s.cpu);
  }

  /** No run of a generated program executes an instruction that could fault. */
  lemma RunsAreSafe(p: Program, b: Buffer, ss: seq<State>, n: nat)
    requires p.Valid(b) && IsRun(p.body, ss) && Entered(b, ss[0].cpu) && n < |ss|
    ensures ss[n].pc <= |p.body|
    ensures ss[n].pc < |p.body| ==> |ss[n].cpu.regs| == 32 && Safe(b, p.body[ss[n].pc].ins, ss[n].cpu)
  {
    RunIsFine(p, b, ss, n);
    if ss[n].pc != |p.body| {
      var k: nat :| OnTrack(p, b, ss[0].cpu.status, ss[n], k);
      StateIsSafe(p, b, ss[0].cpu.status, ss[n], k);
    }
  }

  /** Every run ends: it takes no more steps than the program has instructions. */
  lemma RunsEnd(p: Program, b: Buffer, ss: seq<State>)
    requires p.Valid(b) && IsRun(p.body, ss) && Entered(b, ss[0].cpu)
    ensures |ss| <= |p.body| + 1
  {
    RunIsFine(p, b, ss, |ss| - 1);
    RunsAreSafe(p, b, ss, |ss| - 1);
  }

  lemma MaskedFits(x: u64, m: nat)
    ensures And(x, m) < W64
  {
    AndBound(x, m);
  }

  lemma SetFits(x: u64, m: nat)
    requires m < 0x1_0000
    ensures Or(x, m) < W64
  {
    WidePowers();
    OrBelow(x, m, 64);
  }

  lemma SomeImmediateResult(i: Instr, c: Cpu) returns (v: u64)
    requires |c.regs| == 32 && i.RegImm? && (i.op in {ANDI, ORI} ==> 0 <= i.imm < 0x1_0000)
    ensures Computes(i, c, v)
  {
    var x := c.regs[i.rs];
    v := T.SignExtend(x % W32);
    if i.op == ANDI {
      MaskedFits(x, i.imm);
      v := And(x, i.imm);
    } else if i.op == ORI {
      SetFits(x, i.imm);
      v := Or(x, i.imm);
    }
  }

  /** Every instruction computes something. */
  lemma SomeResult(i: Instr, c: Cpu) returns (d: Cpu)
    requires |c.regs| == 32 && (i.RegImm? && i.op in {ANDI, ORI} ==> 0 <= i.imm < 0x1_0000)
    ensures Executes(i, c, d)
  {
    var v: u64 := 0;
    if i.Reg3? && i.op == AND {
      AndBound(c.regs[i.rs], c.regs[i.rt]);
      v := And(c.regs[i.rs], c.regs[i.rt]);
    } else if i.Reg3? {
      v := (c.regs[i.rs] + c.regs[i.rt]) % W64;
    } else if i.RegImm? {
      v := SomeImmediateResult(i, c);
    } else if i.FromStatus? {
      v := T.SignExtend(c.status);
    }
    assert Computes(i, c, v);
    d := Result(i, c, v);
  }

  lemma Immediates(u: Unit, j: nat, mask: nat)
    requires IsUnit(u) && j < |Text(u, mask)| && mask < 0x1_0000
    ensures var i := Text(u, mask)[j]; i.RegImm? && i.op in {ANDI, ORI} ==> 0 <= i.imm < 0x1_0000
  {}

  lemma LabelIsThere(p: Program, b: Buffer, i: nat) returns (q: nat)
    requires p.Valid(b) && i < |p.body| && p.body[i].ins.Br?
    ensures LabelAt(p.body, p.body[i].ins.to, q)
  {
    assert !IsPending([], p.body[i].ins.to);
    assert IsPlaced(p.body, p.body[i].ins.to);
    q :| q < |p.body| && p.body[i].ins.to in p.body[q].labels;
  }

  lemma BranchGoesOn(p: Program, b: Buffer, s: State) returns (t: State)
    requires p.Valid(b) && s.pc < |p.body| && p.body[s.pc].ins.Br?
    ensures Moves(p.body, s, t)
  {
    var q := LabelIsThere(p, b, s.pc);
    t := State(s.npc, q, s.cpu);
  }

  lemma PlainGoesOn(p: Program, b: Buffer, st: u32, s: State, k: nat) returns (t: State)
    requires p.IsCut(b) && OnTrack(p, b, st, s, k) && s.pc < |p.body| && !p.body[s.pc].ins.Br?
    ensures Moves(p.body, s, t)
  {
    UnitSpan(p, b, k);
    InstrIs(p, b, k, s.pc);
    Immediates(p.units[k], s.pc - p.cuts[k], OffMask(b.size));
    var d := SomeResult(p.body[s.pc].ins, s.cpu);
    t := State(s.npc, s.npc + 1, d);
  }

  /** A run that has not come to the end of the program goes on. */
  lemma RunsGoOn(p: Program, b: Buffer, ss: seq<State>) returns (t: State)
    requires p.Valid(b) && IsRun(p.body, ss) && Entered(b, ss[0].cpu) && ss[|ss| - 1].pc < |p.body|
    ensures Moves(p.body, ss[|ss| - 1], t)
  {
    RunIsFine(p, b, ss, |ss| - 1);
    var k: nat :| OnTrack(p, b, ss[0].cpu.status, ss[|ss| - 1], k);
    if p.body[ss[|ss| - 1].pc].ins.Br? {
      t := BranchGoesOn(p, b, ss[|ss| - 1]);
    } else {
      t := PlainGoesOn(p, b, ss[0].cpu.status, ss[|ss| - 1], k);
    }
  }

  /** A test, as the script makes it: n instructions or a few more, for buffer b. */
  method RandomTest(n: nat, b: Buffer) returns (body: seq<Item>, ghost p: Program)
    requires ValidBuffer(b)
    ensures |body| >= n && p.body == body && p.Valid(b)
  {
    var g := new Gen(n, b.size);
    g.Generate();
    body := g.body;
    p := Program(g.body, g.cuts, g.units, g.lbl);
  }
}

/** The unaligned pairs as instructions: two steps, in either order, are one access of any address. */
module PairSteps {
  import opened Bits
  import opened Tlb
  import opened Unaligned
  import opened Exec
  import ByteStrings
  import U = UnalignedLaws
  import P = Precise

  /** The n bytes from ea on translate to the n bytes from pa on, as far as the two ends show. */
  predicate Reaches(m: Machine, ea: u64, n: nat, op: Op, pa: nat) {
    var l, r := Translate(m, ea, op), Translate(m, Add(ea, n - 1), op);
    !l.0.tlbFault && !r.0.tlbFault && l.1 == pa && r.1 == pa + n - 1
  }

  /** The n bytes from ea on lie in one unmapped segment. */
  predicate InSegment(st: Status, ea: u64, n: nat) {
    var a := Canonical(st, ea);
    || (Kseg01(a) && a % 0x2000_0000 + n <= 0x2000_0000)
    || (Xkphys(a) && a % W32 + n <= W32)
  }

  lemma KsegEnd(a: u64, k: nat)
    requires Kseg01(a) && a % 0x2000_0000 + k < 0x2000_0000
    ensures a + k < W64 && Kseg01(a + k) && (a + k) % 0x2000_0000 == a % 0x2000_0000 + k
    ensures (a + k) % W32 == a % W32 + k && (a + k) / W32 == a / W32
  {
    var q := a / 0x2000_0000;
    assert (a + k) / 0x2000_0000 == q;
    assert (a + k) / W32 == q / 8 && a / W32 == q / 8;
  }

  lemma XkphysEnd(a: u64, k: nat)
    requires Xkphys(a) && a % W32 + k < W32
    ensures a + k < W64 && Xkphys(a + k) && (a + k) % W32 == a % W32 + k
  {
    var q := a / W32;
    assert (a + k) / W32 == q;
    assert Region(a + k) == q / 0x4000_0000 && Region(a) == q / 0x4000_0000;
  }

  lemma NarrowCanonical(ea: u64, k: nat)
    requires ea % W32 + k < W32
    ensures Add(ea, k) % W32 == ea % W32 + k
  {
    var q := ea / W32;
    assert ea + k == q * W32 + (ea % W32 + k);
    assert ea + k < W64;
  }

  /** A 32-bit address in an unmapped segment is a kernel one. */
  lemma SignedCanonical(x: u32, k: nat)
    requires Unmapped(SignExtend(x)) && SignExtend(x) % 0x2000_0000 + k < 0x2000_0000
    ensures x + k < W32 && SignExtend(x + k) == SignExtend(x) + k && Kseg01(SignExtend(x))
  {}

  lemma WideEnd(a: u64, n: nat)
    requires Size(n) && ((Kseg01(a) && a % 0x2000_0000 + n <= 0x2000_0000) || (Xkphys(a) && a % W32 + n <= W32))
    ensures Add(a, n - 1) == a + n - 1 && Unmapped(a + n - 1) && UnmappedPa(a + n - 1) == UnmappedPa(a) + n - 1
  {
    if Kseg01(a) { KsegEnd(a, n - 1); } else { XkphysEnd(a, n - 1); }
  }

  lemma CanonicalEnd(st: Status, ea: u64, n: nat)
    requires Size(n) && InSegment(st, ea, n)
    ensures var a, b := Canonical(st, ea), Canonical(st, Add(ea, n - 1));
            Unmapped(b) && UnmappedPa(b) == UnmappedPa(a) + n - 1
  {
    WideEnd(Canonical(st, ea), n);
    if !Wide(st) {
      SignedCanonical(ea % W32, n - 1);
      NarrowCanonical(ea, n - 1);
    }
  }

  /** In one unmapped segment every access reaches. */
  lemma SegmentReaches(m: Machine, ea: u64, n: nat, op: Op)
    requires Size(n) && !m.tlbFault && InSegment(m.cp0.status, ea, n)
    ensures Reaches(m, ea, n, op, UnmappedPa(Canonical(m.cp0.status, ea)))
  {
    CanonicalEnd(m.cp0.status, ea, n);
  }

  lemma SameReach(m0: Machine, m1: Machine, ea: u64, op: Op)
    requires m1 == m0.(pc := m1.pc) && !m0.tlbFault
    ensures Translate(m1, ea, op).1 == Translate(m0, ea, op).1
    ensures Translate(m1, ea, op).0.tlbFault == Translate(m0, ea, op).0.tlbFault
  {}

  lemma AddAdd(x: u64, imm: int, k: int)
    ensures Add(x, imm + k) == Add(Add(x, imm), k)
  {
    var q := (x + imm) / W64;
    assert x + imm + k == q * W64 + (Add(x, imm) + k);
    ModShift(q, Add(x, imm) + k);
  }

  lemma ModShift(q: int, y: int)
    ensures (q * W64 + y) % W64 == y % W64
  {}

  // ------------------------------------------------------------------ the two loads

  function Whole(dw: bool): Width { if dw then Bits64 else Bits32 }

  /** Where the left end (or the right end) of the n bytes from d on is. */
  function End(d: int, left: bool, n: nat): int { if left then d else d + n - 1 }

  /** The left and the right load of the bytes at base + imm, in the order given. */
  function LoadPair(s: Cpu, leftFirst: bool, dw: bool, rt: Reg, base: Reg, imm: int): Cpu
    requires Fit(s)
  {
    var n := GroupSize(dw);
    ExecPlain(ExecPlain(s, LoadPart(leftFirst, dw, rt, base, End(imm, leftFirst, n))),
              LoadPart(!leftFirst, dw, rt, base, End(imm, !leftFirst, n)))
  }

  function StorePair(s: Cpu, leftFirst: bool, dw: bool, rt: Reg, base: Reg, imm: int): Cpu
    requires Fit(s)
  {
    var n := GroupSize(dw);
    ExecPlain(ExecPlain(s, StorePart(leftFirst, dw, rt, base, End(imm, leftFirst, n))),
              StorePart(!leftFirst, dw, rt, base, End(imm, !leftFirst, n)))
  }

  function TwoOn(m: Machine): Machine { Advance(Advance(m)) }

  /** One step, where the address translates. */
  lemma LoadStep(s: Cpu, left: bool, dw: bool, rt: Reg, base: Reg, imm: int, pa: nat)
    requires Fit(s) && !s.m.tlbFault
    requires var r := Translate(s.m, EffectiveAddress(s, base, imm), Op.Load); !r.0.tlbFault && r.1 == pa
    ensures var n := GroupSize(dw);
            var v := if left then Left(s.mem, pa, s.gpr[rt], n) else Right(s.mem, pa, s.gpr[rt], n);
            ExecPlain(s, LoadPart(left, dw, rt, base, imm)) == s.(m := Advance(s.m), gpr := s.gpr[rt := v])
  {
    P.TranslateRaises(s.m, EffectiveAddress(s, base, imm), Op.Load);
  }

  lemma StoreStep(s: Cpu, left: bool, dw: bool, rt: Reg, base: Reg, imm: int, pa: nat)
    requires Fit(s) && !s.m.tlbFault
    requires var r := Translate(s.m, EffectiveAddress(s, base, imm), Op.Store); !r.0.tlbFault && r.1 == pa
    ensures var n := GroupSize(dw);
            var mem := if left then PutLeft(s.mem, pa, s.gpr[rt], n) else PutRight(s.mem, pa, s.gpr[rt], n);
            ExecPlain(s, StorePart(left, dw, rt, base, imm)) == s.(m := Advance(s.m), mem := mem)
  {
    P.TranslateRaises(s.m, EffectiveAddress(s, base, imm), Op.Store);
  }

  /** What the loads make of the register, by byte. */
  lemma LoadedIs(mem: Mem, pa: nat, dw: bool)
    ensures U.Loaded(U.Group(mem, pa, GroupSize(dw))) == ReadMem(mem, pa, Whole(dw), true)
  {
    U.GroupVal(mem, pa, GroupSize(dw));
  }

  function GetOne(mem: Mem, left: bool, pa: nat, x: u64, n: nat): u64
    requires Size(n)
  {
    if left then Left(mem, pa, x, n) else Right(mem, pa, x, n)
  }

  /** The two loads as one value. */
  lemma GetPair(mem: Mem, leftFirst: bool, pa: nat, x: u64, dw: bool)
    ensures var n := GroupSize(dw);
            ReadMem(mem, pa, Whole(dw), true)
            == GetOne(mem, !leftFirst, End(pa, !leftFirst, n), GetOne(mem, leftFirst, End(pa, leftFirst, n), x, n), n)
  {
    var n := GroupSize(dw);
    if leftFirst { U.LoadLeftRight(mem, pa, x, n); } else { U.LoadRightLeft(mem, pa, x, n); }
    LoadedIs(mem, pa, dw);
  }

  lemma TwoLoads(s: Cpu, left: bool, dw: bool, rt: Reg, base: Reg, imm: int, pa: nat, imm1: int, pa1: nat)
    requires Fit(s) && !s.m.tlbFault && rt != base
    requires var r := Translate(s.m, EffectiveAddress(s, base, imm), Op.Load); !r.0.tlbFault && r.1 == pa
    requires var r := Translate(s.m, EffectiveAddress(s, base, imm1), Op.Load); !r.0.tlbFault && r.1 == pa1
    ensures ExecPlain(ExecPlain(s, LoadPart(left, dw, rt, base, imm)), LoadPart(!left, dw, rt, base, imm1))
         == s.(m := TwoOn(s.m),
               gpr := s.gpr[rt := GetOne(s.mem, !left, pa1,
                                         GetOne(s.mem, left, pa, s.gpr[rt], GroupSize(dw)), GroupSize(dw))])
  {
    var v := GetOne(s.mem, left, pa, s.gpr[rt], GroupSize(dw));
    var t := s.(m := Advance(s.m), gpr := s.gpr[rt := v]);
    LoadStep(s, left, dw, rt, base, imm, pa);
    SameReach(s.m, t.m, EffectiveAddress(s, base, imm1), Op.Load);
    LoadStep(t, !left, dw, rt, base, imm1, pa1);
  }

  lemma EndReached(s: Cpu, left: bool, n: nat, base: Reg, imm: int, op: Op, pa: nat)
    requires Fit(s) && Reaches(s.m, EffectiveAddress(s, base, imm), n, op, pa) && n > 0
    ensures var r := Translate(s.m, EffectiveAddress(s, base, End(imm, left, n)), op);
            !r.0.tlbFault && r.1 == End(pa, left, n)
  {
    AddAdd(s.gpr[base], imm, n - 1);
  }

  /** LWL and LWR (LDL and LDR), in either order: the word (doubleword) at any address, as an aligned
      load would read it; no other register and no byte of memory changes. */
  lemma LoadPairIsALoad(s: Cpu, leftFirst: bool, dw: bool, rt: Reg, base: Reg, imm: int, pa: nat)
    requires Fit(s) && !s.m.tlbFault && rt != base
    requires Reaches(s.m, EffectiveAddress(s, base, imm), GroupSize(dw), Op.Load, pa)
    ensures LoadPair(s, leftFirst, dw, rt, base, imm)
         == s.(m := TwoOn(s.m), gpr := s.gpr[rt := ReadMem(s.mem, pa, Whole(dw), true)])
  {
    var n := GroupSize(dw);
    EndReached(s, leftFirst, n, base, imm, Op.Load, pa);
    EndReached(s, !leftFirst, n, base, imm, Op.Load, pa);
    TwoLoads(s, leftFirst, dw, rt, base, End(imm, leftFirst, n), End(pa, leftFirst, n),
             End(imm, !leftFirst, n), End(pa, !leftFirst, n));
    GetPair(s.mem, leftFirst, pa, s.gpr[rt], dw);
  }

  // ------------------------------------------------------------------ the two stores

  ghost predicate SameBytes(m0: Mem, m1: Mem) { forall b: nat :: ByteAt(m0, b) == ByteAt(m1, b) }

  lemma WrittenIs(mem: Mem, pa: nat, dw: bool, x: u64, m1: Mem)
    requires U.Put(mem, m1, pa, U.Reg(x, GroupSize(dw)))
    ensures SameBytes(m1, WriteMem(mem, pa, Whole(dw), x))
  {
    if dw { U.PutDword(mem, pa, x); } else { U.PutWord(mem, pa, x); }
  }

  function PutOne(mem: Mem, left: bool, pa: nat, x: u64, n: nat): Mem
    requires Size(n)
  {
    if left then PutLeft(mem, pa, x, n) else PutRight(mem, pa, x, n)
  }

  /** What the pair leaves in memory. */
  function PairMem(mem: Mem, leftFirst: bool, pa: nat, x: u64, n: nat): Mem
    requires Size(n)
  {
    PutOne(PutOne(mem, leftFirst, End(pa, leftFirst, n), x, n), !leftFirst, End(pa, !leftFirst, n), x, n)
  }

  lemma PairMemIsAWrite(mem: Mem, leftFirst: bool, pa: nat, x: u64, dw: bool)
    ensures SameBytes(PairMem(mem, leftFirst, pa, x, GroupSize(dw)), WriteMem(mem, pa, Whole(dw), x))
  {
    var n := GroupSize(dw);
    var w := PairMem(mem, leftFirst, pa, x, n);
    assert U.Put(mem, w, pa, U.Reg(x, n)) by {
      if leftFirst { U.StoreLeftRight(mem, pa, x, n); } else { U.StoreRightLeft(mem, pa, x, n); }
    }
    WrittenIs(mem, pa, dw, x, w);
  }

  /** The second store of a pair, after the first left m1. */
  lemma SecondStore(s: Cpu, left: bool, dw: bool, rt: Reg, base: Reg, imm: int, pa: nat, m1: Mem)
    requires Fit(s) && !s.m.tlbFault
    requires var r := Translate(s.m, EffectiveAddress(s, base, imm), Op.Store); !r.0.tlbFault && r.1 == pa
    ensures ExecPlain(s.(m := Advance(s.m), mem := m1), StorePart(left, dw, rt, base, imm))
         == s.(m := TwoOn(s.m), mem := PutOne(m1, left, pa, s.gpr[rt], GroupSize(dw)))
  {
    var t := s.(m := Advance(s.m), mem := m1);
    SameReach(s.m, t.m, EffectiveAddress(s, base, imm), Op.Store);
    StoreStep(t, left, dw, rt, base, imm, pa);
  }

  lemma TwoStores(s: Cpu, left: bool, dw: bool, rt: Reg, base: Reg, imm: int, pa: nat, imm1: int, pa1: nat)
    requires Fit(s) && !s.m.tlbFault
    requires var r := Translate(s.m, EffectiveAddress(s, base, imm), Op.Store); !r.0.tlbFault && r.1 == pa
    requires var r := Translate(s.m, EffectiveAddress(s, base, imm1), Op.Store); !r.0.tlbFault && r.1 == pa1
    ensures ExecPlain(ExecPlain(s, StorePart(left, dw, rt, base, imm)), StorePart(!left, dw, rt, base, imm1))
         == s.(m := TwoOn(s.m),
               mem := PutOne(PutOne(s.mem, left, pa, s.gpr[rt], GroupSize(dw)), !left, pa1, s.gpr[rt], GroupSize(dw)))
  {
    StoreStep(s, left, dw, rt, base, imm, pa);
    SecondStore(s, !left, dw, rt, base, imm1, pa1, PutOne(s.mem, left, pa, s.gpr[rt], GroupSize(dw)));
  }

  lemma StorePairIs(s: Cpu, leftFirst: bool, dw: bool, rt: Reg, base: Reg, imm: int, pa: nat)
    requires Fit(s) && !s.m.tlbFault
    requires Reaches(s.m, EffectiveAddress(s, base, imm), GroupSize(dw), Op.Store, pa)
    ensures StorePair(s, leftFirst, dw, rt, base, imm)
         == s.(m := TwoOn(s.m), mem := PairMem(s.mem, leftFirst, pa, s.gpr[rt], GroupSize(dw)))
  {
    var n := GroupSize(dw);
    EndReached(s, leftFirst, n, base, imm, Op.Store, pa);
    EndReached(s, !leftFirst, n, base, imm, Op.Store, pa);
    TwoStores(s, leftFirst, dw, rt, base, End(imm, leftFirst, n), End(pa, leftFirst, n),
              End(imm, !leftFirst, n), End(pa, !leftFirst, n));
  }

  /** SWL and SWR (SDL and SDR), in either order: memory byte for byte as one store at that address
      would leave it, and no register changed. */
  lemma StorePairIsAStore(s: Cpu, leftFirst: bool, dw: bool, rt: Reg, base: Reg, imm: int, pa: nat)
    requires Fit(s) && !s.m.tlbFault
    requires Reaches(s.m, EffectiveAddress(s, base, imm), GroupSize(dw), Op.Store, pa)
    ensures var t := StorePair(s, leftFirst, dw, rt, base, imm);
            t == s.(m := TwoOn(s.m), mem := t.mem) && SameBytes(t.mem, WriteMem(s.mem, pa, Whole(dw), s.gpr[rt]))
  {
    StorePairIs(s, leftFirst, dw, rt, base, imm, pa);
    PairMemIsAWrite(s.mem, leftFirst, pa, s.gpr[rt], dw);
  }

  // ------------------------------------------------------------------ stored, then loaded

  lemma ReadSameBytes(m0: Mem, m1: Mem, pa: nat, dw: bool)
    requires SameBytes(m0, m1)
    ensures ReadMem(m0, pa, Whole(dw), true) == ReadMem(m1, pa, Whole(dw), true)
  {}

  lemma ReadWritten(mem: Mem, pa: nat, dw: bool, x: u64)
    ensures ReadMem(WriteMem(mem, pa, Whole(dw), x), pa, Whole(dw), true) == if dw then x else SignExtend(x % W32)
  {
    var n := GroupSize(dw);
    var w := WriteMem(mem, pa, Whole(dw), x);
    if dw { U.PutDword(mem, pa, x); } else { U.PutWord(mem, pa, x); }
    U.PutGroup(mem, w, pa, U.Reg(x, n));
    U.RegVal(x, n);
    U.GroupVal(w, pa, n);
  }

  /** Any pair of stores of rt, then any pair of loads into rd, at the same unaligned address: rd gets
      rt, or its low word sign-extended. */
  lemma StoredThenLoaded(s: Cpu, o1: bool, o2: bool, dw: bool, rt: Reg, rd: Reg, base: Reg, imm: int, pa: nat)
    requires Fit(s) && !s.m.tlbFault && rd != base
    requires Reaches(s.m, EffectiveAddress(s, base, imm), GroupSize(dw), Op.Store, pa)
    requires Reaches(s.m, EffectiveAddress(s, base, imm), GroupSize(dw), Op.Load, pa)
    ensures LoadPair(StorePair(s, o1, dw, rt, base, imm), o2, dw, rd, base, imm).gpr
         == s.gpr[rd := if dw then s.gpr[rt] else SignExtend(s.gpr[rt] % W32)]
  {
    var t := StorePair(s, o1, dw, rt, base, imm);
    var ea, n := EffectiveAddress(s, base, imm), GroupSize(dw);
    StorePairIsAStore(s, o1, dw, rt, base, imm, pa);
    SameReach(s.m, t.m, ea, Op.Load);
    SameReach(s.m, t.m, Add(ea, n - 1), Op.Load);
    LoadPairIsALoad(t, o2, dw, rd, base, imm, pa);
    ReadSameBytes(t.mem, WriteMem(s.mem, pa, Whole(dw), s.gpr[rt]), pa, dw);
    ReadWritten(s.mem, pa, dw, s.gpr[rt]);
  }
}

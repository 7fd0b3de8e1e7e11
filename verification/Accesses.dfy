/** What loads, stores and moves carry: every width, by the bytes in memory, most significant first. */
module Accesses {
  import opened Bits
  import opened Tlb
  import opened Unaligned
  import opened Exec
  import opened Precise
  import BS = ByteStrings
  import U = UnalignedLaws

  // ------------------------------------------------------------------ loads and stores

  /** 256 to the number of bytes of w. */
  function Full(w: Width): nat {
    match w case Bits8 => 0x100 case Bits16 => 0x1_0000 case Bits32 => W32 case Bits64 => W64
  }

  /** The number in the bytes of width w at pa, as a register holds it. */
  function Number(mem: Mem, pa: nat, w: Width, signed: bool): nat {
    var v := BS.Val(U.Group(mem, pa, Bytes(w)));
    if signed && v >= Full(w) / 2 then v + W64 - Full(w) else v
  }

  lemma ByteIs(mem: Mem, pa: nat)
    ensures BS.Val(U.Group(mem, pa, 1)) == ByteAt(mem, pa)
  {
    var s := U.Group(mem, pa, 1);
    assert s[..0] == [];
  }

  lemma NumberRead(mem: Mem, pa: nat, w: Width, signed: bool)
    ensures ReadMem(mem, pa, w, signed) == Number(mem, pa, w, signed)
  {
    match w
    case Bits8 => ByteIs(mem, pa);
    case Bits16 => U.HalfIs(mem, pa);
    case Bits32 => U.WordIs(mem, pa);
    case Bits64 => U.DwordIs(mem, pa);
  }

  lemma BytesWritten(mem: Mem, pa: nat, w: Width, v: u64)
    ensures U.Put(mem, WriteMem(mem, pa, w, v), pa, BS.Str(v, Bytes(w)))
  {
    match w
    case Bits8 => assert BS.Str(v, 1) == [v % 256];
    case Bits16 => U.PutHalf(mem, pa, v);
    case Bits32 => U.PutWord(mem, pa, v);
    case Bits64 => U.PutDword(mem, pa, v);
  }

  /** Where the load or store of kind op at base + imm goes. */
  function Where(s: Cpu, base: Reg, imm: int, op: Op): u32
    requires Fit(s)
  {
    Translate(s.m, (s.gpr[base] + imm) % W64, op).1
  }

  /** The machine one instruction on. */
  function On(m: Machine): Machine { m.(pc := (m.pc + 4) % W64) }

  /** A load puts the number at its address in its register, sign-extended or not, and does nothing else. */
  lemma LoadIs(s: Cpu, w: Width, signed: bool, rt: Reg, base: Reg, imm: int)
    requires Fit(s) && !s.m.tlbFault && !Faults(s, Instr.Load(w, signed, rt, base, imm))
    ensures Number(s.mem, Where(s, base, imm, Op.Load), w, signed) < W64
    ensures ExecPlain(s, Instr.Load(w, signed, rt, base, imm))
         == s.(gpr := s.gpr[rt := Number(s.mem, Where(s, base, imm, Op.Load), w, signed)], m := On(s.m))
  {
    TranslateRaises(s.m, EffectiveAddress(s, base, imm), Op.Load);
    NumberRead(s.mem, Where(s, base, imm, Op.Load), w, signed);
  }

  /** A store puts its register's low bytes at its address, and does nothing else. */
  lemma StoreIs(s: Cpu, w: Width, rt: Reg, base: Reg, imm: int)
    requires Fit(s) && !s.m.tlbFault && !Faults(s, Instr.Store(w, rt, base, imm))
    ensures var t := ExecPlain(s, Instr.Store(w, rt, base, imm));
            && t == s.(mem := t.mem, m := On(s.m))
            && U.Put(s.mem, t.mem, Where(s, base, imm, Op.Store), BS.Str(s.gpr[rt], Bytes(w)))
  {
    TranslateRaises(s.m, EffectiveAddress(s, base, imm), Op.Store);
    BytesWritten(s.mem, Where(s, base, imm, Op.Store), w, s.gpr[rt]);
  }

  /** A linked load reads a signed word or doubleword. */
  lemma LinkedLoadIs(s: Cpu, dw: bool, rt: Reg, base: Reg, imm: int)
    requires Fit(s) && !s.m.tlbFault && !Faults(s, LoadLinked(dw, rt, base, imm))
    ensures var w := if dw then Bits64 else Bits32;
            var t := ExecPlain(s, LoadLinked(dw, rt, base, imm));
            && Number(s.mem, Where(s, base, imm, Op.Load), w, true) < W64
            && t == s.(gpr := s.gpr[rt := Number(s.mem, Where(s, base, imm, Op.Load), w, true)],
                       m := On(s.m).(linkValid := true, linkAddr := t.m.linkAddr))
  {
    var ea := EffectiveAddress(s, base, imm);
    var u := s.(m := s.m.(linkValid := true, linkAddr := Line(ProbePa(s.m, ea))));
    SamePlaceLinked(s.m, u.m, ea);
    LoadIs(u, if dw then Bits64 else Bits32, true, rt, base, imm);
  }

  /** A reservation does not matter to translation. */
  lemma SamePlaceLinked(m: Machine, n: Machine, ea: u64)
    requires n == m.(linkValid := n.linkValid, linkAddr := n.linkAddr)
    ensures Translate(n, ea, Op.Load).0.tlbFault == Translate(m, ea, Op.Load).0.tlbFault
    ensures Translate(n, ea, Op.Load).1 == Translate(m, ea, Op.Load).1
  {}

  /** A store-conditional succeeds if the reservation is there and for the line that it goes to: then its
      register reads one, and the bytes are stored; if not its register reads zero, and memory is as it
      was.  Either way the reservation is gone.  */
  lemma CondStoreIs(s: Cpu, dw: bool, rt: Reg, base: Reg, imm: int)
    requires Fit(s) && !s.m.tlbFault && !Faults(s, StoreCond(dw, rt, base, imm))
    ensures var pa := Where(s, base, imm, Op.Store);
            var ok := s.m.linkValid && s.m.linkAddr == pa - pa % 16;
            var t := ExecPlain(s, StoreCond(dw, rt, base, imm));
            && t == s.(gpr := s.gpr[rt := if ok then 1 else 0], mem := t.mem, m := On(s.m).(linkValid := false))
            && (ok ==> U.Put(s.mem, t.mem, pa, BS.Str(s.gpr[rt], if dw then 8 else 4)))
            && (!ok ==> t.mem == s.mem)
  {
    var pa := Where(s, base, imm, Op.Store);
    TranslateRaises(s.m, EffectiveAddress(s, base, imm), Op.Store);
    BytesWritten(s.mem, pa, if dw then Bits64 else Bits32, s.gpr[rt]);
  }

  // ------------------------------------------------------------------ floating-point registers

  /** The word in floating-point register f: with FR clear the even registers hold two. */
  function Single(fr: bool, fpr: FpRegs, f: Reg): nat {
    if fr then fpr[f] % W32 else if f % 2 == 0 then fpr[f] % W32 else fpr[f - 1] / W32
  }

  /** v has been put in register f as a word, and in no other. */
  predicate SinglePut(fr: bool, before: FpRegs, after: FpRegs, f: Reg, v: nat) {
    && (forall g: Reg :: Single(fr, after, g) == if g == f then v else Single(fr, before, g))
    && (forall g: Reg :: g != (if fr then f else f - f % 2) ==> after[g] == before[g])
    && (fr ==> after[f] == if v < 0x8000_0000 then v else v + W64 - W32)
  }

  lemma SetsSingle(s: Cpu, f: Reg, v: u32)
    ensures SetFpWord(s, f, v) == s.(fpr := SetFpWord(s, f, v).fpr)
    ensures SinglePut(s.m.cp0.status.fr, s.fpr, SetFpWord(s, f, v).fpr, f, v)
  {
    var x := s.fpr[Pair(f)];
    QuotRem(v, W32, x % W32);
    QuotRem(x / W32, W32, v);
  }

  lemma GetsSingle(s: Cpu, f: Reg)
    ensures FpWord(s, f) == Single(s.m.cp0.status.fr, s.fpr, f)
  {}

  /** MTC1 and MFC1: what is put in a register as a word is read from it, and from no other. */
  lemma MovesSingle(s: Cpu, rt: Reg, f: Reg)
    requires Fit(s)
    ensures var t := ExecPlain(s, MoveToFp(false, rt, f));
            t == s.(fpr := t.fpr, m := On(s.m)) && SinglePut(s.m.cp0.status.fr, s.fpr, t.fpr, f, s.gpr[rt] % W32)
    ensures var v := Single(s.m.cp0.status.fr, s.fpr, f);
            ExecPlain(s, MoveFromFp(false, rt, f))
            == s.(gpr := s.gpr[rt := if v < 0x8000_0000 then v else v + W64 - W32], m := On(s.m))
  {
    SetsSingle(s, f, s.gpr[rt] % W32);
    GetsSingle(s, f);
  }

  /** DMTC1 and DMFC1 move all of the register. */
  lemma MovesDouble(s: Cpu, rt: Reg, f: Reg)
    requires Fit(s)
    ensures ExecPlain(s, MoveToFp(true, rt, f)) == s.(fpr := s.fpr[f := s.gpr[rt]], m := On(s.m))
    ensures ExecPlain(s, MoveFromFp(true, rt, f)) == s.(gpr := s.gpr[rt := s.fpr[f]], m := On(s.m))
  {}

  /** LWC1 and LDC1, at any address. */
  lemma LoadFpIs(s: Cpu, dw: bool, ft: Reg, base: Reg, imm: int)
    requires Fit(s) && !s.m.tlbFault && !Faults(s, LoadFp(dw, ft, base, imm))
    ensures var v := BS.Val(U.Group(s.mem, Where(s, base, imm, Op.Load), if dw then 8 else 4));
            var t := ExecPlain(s, LoadFp(dw, ft, base, imm));
            && t == s.(fpr := t.fpr, m := On(s.m))
            && (dw ==> v < W64 && t.fpr == s.fpr[ft := v])
            && (!dw ==> SinglePut(s.m.cp0.status.fr, s.fpr, t.fpr, ft, v))
  {
    var pa := Where(s, base, imm, Op.Load);
    TranslateRaises(s.m, EffectiveAddress(s, base, imm), Op.Load);
    if dw {
      U.DwordIs(s.mem, pa);
    } else {
      U.WordIs(s.mem, pa);
      SetsSingle(s, ft, Word(s.mem, pa));
    }
  }

  /** SWC1 and SDC1. */
  lemma StoreFpIs(s: Cpu, dw: bool, ft: Reg, base: Reg, imm: int)
    requires Fit(s) && !s.m.tlbFault && !Faults(s, StoreFp(dw, ft, base, imm))
    ensures var t := ExecPlain(s, StoreFp(dw, ft, base, imm));
            var v := if dw then s.fpr[ft] else Single(s.m.cp0.status.fr, s.fpr, ft);
            && t == s.(mem := t.mem, m := On(s.m))
            && U.Put(s.mem, t.mem, Where(s, base, imm, Op.Store), BS.Str(v, if dw then 8 else 4))
  {
    TranslateRaises(s.m, EffectiveAddress(s, base, imm), Op.Store);
    GetsSingle(s, ft);
    BytesWritten(s.mem, Where(s, base, imm, Op.Store), if dw then Bits64 else Bits32, FpValue(s, dw, ft));
  }

  // ------------------------------------------------------------------ the rest

  /** The instructions that compute read their sources and write their destination only. */
  lemma ComputeIs(s: Cpu, i: Instr)
    requires Fit(s) && !s.m.tlbFault && !IsControl(i) && !Faults(s, i)
    ensures i.Compute? ==>
              ExecPlain(s, i) == s.(gpr := s.gpr[i.rd := i.f(s.gpr[i.rs], s.gpr[i.rt], s.hi, s.lo)], m := On(s.m))
    ensures i.Checked? ==>
              !i.traps(s.gpr[i.rs], s.gpr[i.rt])
              && ExecPlain(s, i) == s.(gpr := s.gpr[i.rd := i.value(s.gpr[i.rs], s.gpr[i.rt])], m := On(s.m))
    ensures i.SetHiLo? ==>
              var (hi, lo) := i.g(s.gpr[i.rs], s.gpr[i.rt], s.hi, s.lo);
              ExecPlain(s, i) == s.(hi := hi, lo := lo, m := On(s.m))
  {}

  /** So do those on floating-point and system registers, and CACHE does nothing. */
  lemma SystemIs(s: Cpu, i: Instr)
    requires Fit(s) && !s.m.tlbFault && !IsControl(i) && !Faults(s, i)
    ensures i.ComputeFp? ==>
              var (fpr, csr) := i.h(s.fpr, s.csr);
              ExecPlain(s, i) == s.(fpr := fpr, csr := csr, m := On(s.m))
    ensures i.MoveToCsr? ==> ExecPlain(s, i) == s.(csr := i.write(s.csr, s.gpr[i.rt]), m := On(s.m))
    ensures i.MoveFromCsr? ==> ExecPlain(s, i) == s.(gpr := s.gpr[i.rt := i.read(s.csr)], m := On(s.m))
    ensures i.MoveFromCp0? ==> ExecPlain(s, i) == s.(gpr := s.gpr[i.rt := i.get(s.m.cp0)], m := On(s.m))
    ensures i.MoveToCp0? ==> ExecPlain(s, i) == s.(m := On(s.m).(cp0 := i.put(s.m.cp0, s.gpr[i.rt])))
    ensures i.CacheOp? ==> ExecPlain(s, i) == s.(m := On(s.m))
  {
    if i.CacheOp? { TranslateRaises(s.m, EffectiveAddress(s, i.base, i.imm), Op.Load); }
  }

  /** A step that runs an instruction other than a branch runs it on the state as it is: $0 reads as zero, and
      a store to the reserved line drops the reservation.  */
  lemma StepIs(code: u32 -> Instr, s: Cpu)
    requires Fit(s) && Runs(code, s) && !IsControl(InstrAt(code, s))
    ensures Modelled(code, s)
    ensures InstrAt(code, s) == code(Translate(s.m.(tlbFault := false), s.m.pc, Op.Fetch).1)
    ensures var i := InstrAt(code, s);
            var r := Ready(code, s);
            && r == s.(gpr := s.gpr[0 := 0], m := s.m.(tlbFault := false, linkValid := r.m.linkValid))
            && (r.m.linkValid ==> s.m.linkValid)
            && (!i.Store? && !i.StorePart? && !i.StoreFp? ==> r.m.linkValid == s.m.linkValid)
            && Step(code, s) == ExecPlain(r, i)
  {
    FetchOutcome(s);
  }

  /** ERET goes back to where the error, or else the exception, came from, and leaves that level only. */
  lemma EretIs(s: Cpu)
    requires Fit(s)
    ensures var t := ExecPlain(s, ReturnFromException);
            var st := s.m.cp0.status;
            if st.erl then
              && t == s.(m := s.m.(linkValid := false, pc := t.m.pc, cp0 := s.m.cp0.(status := st.(erl := false))))
              && t.m.pc % W32 == s.m.cp0.errorEpc % W32
              && t.m.pc / 0x8000_0000 == (if s.m.cp0.errorEpc % W32 < 0x8000_0000 then 0 else 0x1_ffff_ffff)
            else
              t == s.(m := s.m.(linkValid := false, pc := s.m.cp0.epc, cp0 := s.m.cp0.(status := st.(exl := false))))
  {
    var e := s.m.cp0.errorEpc % W32;
    assert e % W32 == e;
    if e >= 0x8000_0000 {
      QuotRem(0xffff_ffff, W32, e);
      QuotRem(0x1_ffff_ffff, 0x8000_0000, e - 0x8000_0000);
    }
  }
}

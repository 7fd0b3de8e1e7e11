/** What software finds when an instruction has raised an exception: the handler's address, the cause, and
    for a failed translation the address and the table entry to look at.  */
module Faults {
  import opened Bits
  import opened Tlb
  import opened Exec
  import opened Precise
  import opened Branches
  import P = Pages

  /** A translation that failed, by a missing entry or by what its entry forbids; a floating-point
      instruction without coprocessor 1; any other fault; or none.  */
  datatype Fault = NoFault | Untranslated(va: u64, code: nat, missing: bool) | FpUnusable | Other(code: nat)

  /** The current mode has 64-bit addresses. */
  predicate Addresses64(st: Status) {
    if st.exl || st.erl then st.kx
    else match st.ksu case 0 => st.kx case 1 => st.sx case 2 => st.ux case _ => false
  }

  /** Where the exception f goes in status st. */
  function Handler(st: Status, f: Fault): u64 {
    (if st.bev then 0xffff_ffff_bfc0_0200 else 0xffff_ffff_8000_0000)
    + (if f.Untranslated? && f.missing && !st.exl then (if Addresses64(st) then 0x80 else 0) else 0x180)
  }

  /** The registers that tell about a failed translation of va: the address, its page pair in EntryHi with
      the address space kept, and the two pointers to the pair's 16 bytes in a page table.  */
  predicate TellsAddress(c: Cp0, d: Cp0, va: u64) {
    && d.badVAddr == va
    && d.entryHi / 0x4000_0000_0000_0000 == va / 0x4000_0000_0000_0000
    && d.entryHi / 0x100_0000_0000 % 0x40_0000 == 0
    && d.entryHi / 0x2000 % 0x800_0000 == va / 0x2000 % 0x800_0000
    && d.entryHi / 0x100 % 0x20 == 0 && d.entryHi % 0x100 == c.entryHi % 0x100
    && d.context / 0x80_0000 == c.context / 0x80_0000
    && d.context % 0x80_0000 == va / 0x2000 % 0x8_0000 * 16
    && d.xContext / 0x2_0000_0000 == c.xContext / 0x2_0000_0000
    && d.xContext % 0x2_0000_0000 / 0x8000_0000 == va / 0x4000_0000_0000_0000
    && d.xContext % 0x8000_0000 == va / 0x2000 % 0x800_0000 * 16
  }

  /** m1 is where the exception f, raised in m0, leaves the machine. */
  predicate Shows(m0: Machine, m1: Machine, f: Fault)
    requires !f.NoFault?
  {
    && m1.pc == Handler(m0.cp0.status, f)
    && (if f.FpUnusable? then m1.cp0.cause.code == 11 && m1.cp0.cause.ce == 1
        else m1.cp0.cause.code == f.code && m1.cp0.cause.ce == m0.cp0.cause.ce)
    && (if f.Untranslated? then TellsAddress(m0.cp0, m1.cp0, f.va)
        else m1.cp0.entryHi == m0.cp0.entryHi && m1.cp0.badVAddr == m0.cp0.badVAddr
             && m1.cp0.context == m0.cp0.context && m1.cp0.xContext == m0.cp0.xContext)
    && m1.cp0 == m0.cp0.(status := m0.cp0.status.(exl := true, erl := false), cause := m1.cp0.cause, epc := m1.cp0.epc,
                         badVAddr := m1.cp0.badVAddr, entryHi := m1.cp0.entryHi,
                         context := m1.cp0.context, xContext := m1.cp0.xContext)
  }

  // ------------------------------------------------------------------ which fault

  /** The address that an access uses: sign-extended from 32 bits in a 32-bit mode. */
  function Used(st: Status, ea: u64): u64 {
    if Addresses64(st) then ea
    else if ea % W32 < 0x8000_0000 then ea % W32 else ea % W32 + 0xffff_ffff_0000_0000
  }

  /** The segments that are not mapped: the two 512 MB from 0x8000_0000 in the 32-bit address space, and the
      third quarter of the rest.  */
  predicate Direct(va: u64) {
    if va / W32 in {0, 0xffff_ffff} then 0x8000_0000 <= va % W32 < 0xc000_0000 else va / 0x4000_0000_0000_0000 == 2
  }

  /** What an access of n bytes at ea raises.  Without an entry for it the code is 2, or 3 for a store; the
      same with one that is not valid; 1 for a store to one that may not be written; and 4, or 5 for a
      store, when it translates but is not aligned.  */
  function AccessFault(tlb: seq<Entry>, c: Cp0, ea: u64, op: Op, n: nat): Fault
    requires n > 0
  {
    var va := Used(c.status, ea);
    var i := Find(tlb, va, c.entryHi % 0x100, 0);
    var aligned := if ea % n == 0 then NoFault else Other(if op == Op.Store then 5 else 4);
    if Direct(va) then aligned
    else if i == |tlb| then Untranslated(va, if op == Op.Store then 3 else 2, true)
    else
      var lo := Half(tlb[i], va);
      if lo / 2 % 2 == 0 then Untranslated(va, if op == Op.Store then 3 else 2, false)
      else if op == Op.Store && lo / 4 % 2 == 0 then Untranslated(va, 1, false)
      else aligned
  }

  /** What the instruction i raises: by its address, if it has one; a reserved instruction (10) when it
      needs a doubleword of a floating-point register that is half of one; an overflow or trap with its
      own code; or a floating-point operation that is not implemented (15).  SC, the unaligned and the
      floating-point loads and stores do not ask for alignment.  */
  function FaultOf(gpr: seq<u64>, tlb: seq<Entry>, c: Cp0, i: Instr): Fault
    requires |gpr| == 32
  {
    match i
    case Trap(code) => Other(code)
    case Checked(_, rs, rt, _, traps, code, _) => if traps(gpr[rs], gpr[rt]) then Other(code) else NoFault
    case Load(w, _, _, base, imm) => AccessFault(tlb, c, (gpr[base] + imm) % W64, Op.Load, Bytes(w))
    case Store(w, _, base, imm) => AccessFault(tlb, c, (gpr[base] + imm) % W64, Op.Store, Bytes(w))
    case LoadLinked(dw, _, base, imm) => AccessFault(tlb, c, (gpr[base] + imm) % W64, Op.Load, if dw then 8 else 4)
    case StoreCond(dw, _, base, imm) => AccessFault(tlb, c, (gpr[base] + imm) % W64, Op.Store, if dw then 8 else 1)
    case LoadPart(_, _, _, base, imm) => AccessFault(tlb, c, (gpr[base] + imm) % W64, Op.Load, 1)
    case StorePart(_, _, _, base, imm) => AccessFault(tlb, c, (gpr[base] + imm) % W64, Op.Store, 1)
    case CacheOp(hit, base, imm) => if hit then AccessFault(tlb, c, (gpr[base] + imm) % W64, Op.Load, 1) else NoFault
    case LoadFp(dw, ft, base, imm) =>
      if dw && !c.status.fr && ft % 2 == 1 then Other(10)
      else AccessFault(tlb, c, (gpr[base] + imm) % W64, Op.Load, 1)
    case StoreFp(dw, ft, base, imm) =>
      if dw && !c.status.fr && ft % 2 == 1 then Other(10)
      else AccessFault(tlb, c, (gpr[base] + imm) % W64, Op.Store, 1)
    case ComputeFp(odd, known, _) =>
      if odd && !c.status.fr then Other(10) else if !known then Other(15) else NoFault
    case _ => NoFault
  }

  lemma SameAddresses(st: Status, ea: u64)
    ensures Wide(st) <==> Addresses64(st)
    ensures Canonical(st, ea) == Used(st, ea)
  {}

  lemma Fields(c: Cp0, va: u64)
    ensures TellsAddress(c, SetFaultState(c, va), va)
  {
    HiFields(Region(va), Vpn2(va), Asid(c.entryHi));
    QuotRem(c.context / 0x80_0000, 0x80_0000, va / 0x2000 % 0x8_0000 * 16);
    QuotRem(c.xContext / 0x2_0000_0000, 0x2_0000_0000, Region(va) * 0x8000_0000 + Vpn2(va) * 16);
    QuotRem(Region(va), 0x8000_0000, Vpn2(va) * 16);
    LowOf33(c.xContext / 0x2_0000_0000, Region(va) * 0x8000_0000 + Vpn2(va) * 16);
  }

  lemma LowOf33(q: nat, r: nat)
    requires r < 0x2_0000_0000
    ensures (q * 0x2_0000_0000 + r) % 0x8000_0000 == r % 0x8000_0000
  {
    QuotRem(q * 4 + r / 0x8000_0000, 0x8000_0000, r % 0x8000_0000);
  }

  lemma HiFields(r: nat, v: nat, a: nat)
    requires r < 4 && v < 0x800_0000 && a < 0x100
    ensures var h := r * 0x4000_0000_0000_0000 + v * 0x2000 + a;
            && h / 0x4000_0000_0000_0000 == r && h / 0x100_0000_0000 % 0x40_0000 == 0
            && h / 0x2000 % 0x800_0000 == v && h / 0x100 % 0x20 == 0 && h % 0x100 == a
  {
    QuotRem(r, 0x4000_0000_0000_0000, v * 0x2000 + a);
    QuotRem(r * 0x40_0000, 0x100_0000_0000, v * 0x2000 + a);
    QuotRem(r * 0x2_0000_0000_0000 + v, 0x2000, a);
    QuotRem(r * 0x40_0000, 0x800_0000, v);
    QuotRem((r * 0x2_0000_0000_0000 + v) * 0x20, 0x100, a);
    QuotRem(r * 0x2_0000_0000_0000 + v, 0x20, 0);
  }

  lemma TlbShows(m: Machine, va: u64, code: nat, missing: bool)
    ensures Shows(m, RaiseTlb(m, va, code, missing, Wide(m.cp0.status)), Untranslated(va, code, missing))
  {
    Fields(m.cp0, va);
    SameAddresses(m.cp0.status, va);
  }

  lemma GeneralShows(m: Machine, code: nat)
    ensures Shows(m, RaiseGeneral(m, code), Other(code))
  {}

  lemma UnusableShows(m: Machine)
    ensures Shows(m, RaiseUnusable(m), FpUnusable)
  {}

  lemma SameSegments(va: u64)
    ensures Unmapped(va) <==> Direct(va)
  {}

  // ------------------------------------------------------------------ instructions

  /** The machine after an access that raises something. */
  function Raised(m: Machine, ea: u64, op: Op, other: nat): Machine {
    var n := Translate(m, ea, op).0;
    if n.tlbFault then n else RaiseGeneral(n, other)
  }

  lemma CutOffset(x: nat)
    ensures x % W32 % 0x1000 == x % 0x1000
  {
    var q, r := x / W32, x % W32;
    QuotRem(q * 0x10_0000 + r / 0x1000, 0x1000, r % 0x1000);
  }

  lemma CanonicalOffset(st: Status, ea: u64)
    ensures Canonical(st, ea) % 0x1000 == ea % 0x1000
  {
    var x := ea % W32;
    CutOffset(ea);
    QuotRem(0xf_ffff_fff0_0000 + x / 0x1000, 0x1000, x % 0x1000);
  }

  lemma UnmappedOffset(va: u64)
    ensures UnmappedPa(va) % 0x1000 == va % 0x1000
  {
    CutOffset(va);
    var q, r := va / 0x2000_0000, va % 0x2000_0000;
    QuotRem(q * 0x2_0000 + r / 0x1000, 0x1000, r % 0x1000);
  }

  lemma MappedOffset(m: Machine, va: u64, op: Op)
    requires !m.tlbFault && !TranslateMapped(m, va, op).0.tlbFault
    ensures TranslateMapped(m, va, op).1 % 0x1000 == va % 0x1000
  {
    var i := Find(m.tlb, va, Asid(m.cp0.entryHi), 0);
    P.FrameAndOffset(m.tlb[i], va);
    CutOffset(FullPa(m.tlb[i], va));
  }

  /** Translation keeps the offset in the page, so an address is aligned if its translation is. */
  lemma SameAlignment(m: Machine, ea: u64, op: Op, n: nat)
    requires n in {1, 2, 4, 8} && !m.tlbFault && !Translate(m, ea, op).0.tlbFault
    ensures Translate(m, ea, op).1 % n == ea % n
  {
    var va := Canonical(m.cp0.status, ea);
    CanonicalOffset(m.cp0.status, ea);
    if Unmapped(va) { UnmappedOffset(va); } else { MappedOffset(m, va, op); }
    OffsetAligned(Translate(m, ea, op).1, ea, n);
  }

  lemma LowPart(x: nat, n: nat)
    requires n in {1, 2, 4, 8}
    ensures x % n == x % 0x1000 % n
  {
    var u, r := x / 0x1000, x % 0x1000;
    assert x == u * 0x1000 + r;
    if n == 2 { QuotRem(u * 0x800 + r / 2, 2, r % 2); }
    else if n == 4 { QuotRem(u * 0x400 + r / 4, 4, r % 4); }
    else if n == 8 { QuotRem(u * 0x200 + r / 8, 8, r % 8); }
  }

  lemma OffsetAligned(x: nat, y: nat, n: nat)
    requires n in {1, 2, 4, 8} && x % 0x1000 == y % 0x1000
    ensures x % n == y % n
  {
    LowPart(x, n);
    LowPart(y, n);
  }

  lemma TranslateFaults(m: Machine, ea: u64, op: Op, n: nat)
    requires !m.tlbFault && n > 0
    ensures Translate(m, ea, op).0.tlbFault == AccessFault(m.tlb, m.cp0, ea, op, n).Untranslated?
    ensures !Translate(m, ea, op).0.tlbFault ==>
              AccessFault(m.tlb, m.cp0, ea, op, n)
              == if ea % n == 0 then NoFault else Other(if op == Op.Store then 5 else 4)
  {
    SameAddresses(m.cp0.status, ea);
    SameSegments(Used(m.cp0.status, ea));
  }

  lemma TranslateShows(m: Machine, ea: u64, op: Op, n: nat)
    requires !m.tlbFault && n > 0 && Translate(m, ea, op).0.tlbFault
    ensures !AccessFault(m.tlb, m.cp0, ea, op, n).NoFault?
    ensures Shows(m, Translate(m, ea, op).0, AccessFault(m.tlb, m.cp0, ea, op, n))
  {
    var va := Used(m.cp0.status, ea);
    SameAddresses(m.cp0.status, ea);
    SameSegments(va);
    TlbShows(m, va, if op == Op.Store then 3 else 2, true);
    TlbShows(m, va, if op == Op.Store then 3 else 2, false);
    TlbShows(m, va, 1, false);
  }

  /** An access fails to translate, or is not aligned, just when f says so, and shows it. */
  ghost predicate Tells(m: Machine, ea: u64, op: Op, n: nat, f: Fault)
    requires n > 0
  {
    var r := Translate(m, ea, op);
    && (f.NoFault? <==> !r.0.tlbFault && r.1 % n == 0)
    && (!f.NoFault? ==> Shows(m, Raised(m, ea, op, if op == Op.Store then 5 else 4), f))
  }

  lemma AccessTells(m: Machine, ea: u64, op: Op, n: nat)
    requires !m.tlbFault && n in {1, 2, 4, 8}
    ensures Tells(m, ea, op, n, AccessFault(m.tlb, m.cp0, ea, op, n))
  {
    TranslateFaults(m, ea, op, n);
    if Translate(m, ea, op).0.tlbFault {
      TranslateShows(m, ea, op, n);
    } else {
      SameAlignment(m, ea, op, n);
      TranslateRaises(m, ea, op);
      GeneralShows(m, if op == Op.Store then 5 else 4);
    }
  }

  /** The instruction i, run in s, raises f and shows it, or raises nothing. */
  ghost predicate Raises(s: Cpu, i: Instr, f: Fault)
    requires Fit(s) && !IsControl(i)
  {
    && (Precise.Faults(s, i) <==> !f.NoFault?)
    && (!f.NoFault? ==> Shows(s.m, ExecPlain(s, i).m, f))
  }

  lemma LoadRaises(s: Cpu, i: Instr, f: Fault)
    requires Fit(s) && !s.m.tlbFault && i.Load?
    requires Tells(s.m, EffectiveAddress(s, i.base, i.imm), Op.Load, Bytes(i.w), f)
    ensures Raises(s, i, f)
  {}

  lemma StoreRaises(s: Cpu, i: Instr, f: Fault)
    requires Fit(s) && !s.m.tlbFault && i.Store?
    requires Tells(s.m, EffectiveAddress(s, i.base, i.imm), Op.Store, Bytes(i.w), f)
    ensures Raises(s, i, f)
  {}

  lemma CondStoreRaises(s: Cpu, i: Instr, f: Fault)
    requires Fit(s) && !s.m.tlbFault && i.StoreCond?
    requires Tells(s.m, EffectiveAddress(s, i.base, i.imm), Op.Store, if i.dw then 8 else 1, f)
    ensures Raises(s, i, f)
  {}

  lemma LoadPartRaises(s: Cpu, i: Instr, f: Fault)
    requires Fit(s) && !s.m.tlbFault && (i.LoadPart? || (i.CacheOp? && i.hit))
    requires Tells(s.m, EffectiveAddress(s, i.base, i.imm), Op.Load, 1, f)
    ensures Raises(s, i, f)
  {}

  lemma StorePartRaises(s: Cpu, i: Instr, f: Fault)
    requires Fit(s) && !s.m.tlbFault && i.StorePart?
    requires Tells(s.m, EffectiveAddress(s, i.base, i.imm), Op.Store, 1, f)
    ensures Raises(s, i, f)
  {}

  lemma FpLoadRaises(s: Cpu, i: Instr, f: Fault)
    requires Fit(s) && !s.m.tlbFault && i.LoadFp? && !Unpaired(s, i.dw, i.ft)
    requires Tells(s.m, EffectiveAddress(s, i.base, i.imm), Op.Load, 1, f)
    ensures Raises(s, i, f)
  {}

  lemma FpStoreRaises(s: Cpu, i: Instr, f: Fault)
    requires Fit(s) && !s.m.tlbFault && i.StoreFp? && !Unpaired(s, i.dw, i.ft)
    requires Tells(s.m, EffectiveAddress(s, i.base, i.imm), Op.Store, 1, f)
    ensures Raises(s, i, f)
  {}

  lemma UnpairedRaises(s: Cpu, i: Instr)
    requires Fit(s) && !s.m.tlbFault && (i.LoadFp? || i.StoreFp?) && Unpaired(s, i.dw, i.ft)
    ensures Raises(s, i, Other(10))
  {
    GeneralShows(s.m, 10);
  }

  lemma ComputeFpRaises(s: Cpu, i: Instr)
    requires Fit(s) && !s.m.tlbFault && i.ComputeFp?
    ensures Raises(s, i, FaultOf(s.gpr, s.m.tlb, s.m.cp0, i))
  {
    GeneralShows(s.m, 10);
    GeneralShows(s.m, 15);
  }

  lemma TlbRaisesAlike(m: Machine, a: nat, va: u64, code: nat, missing: bool)
    ensures RaiseTlb(m.(linkValid := true, linkAddr := a), va, code, missing, Wide(m.cp0.status))
         == RaiseTlb(m, va, code, missing, Wide(m.cp0.status)).(linkAddr := a)
  {}

  lemma GeneralRaisesAlike(m: Machine, a: nat, code: nat)
    ensures RaiseGeneral(m.(linkValid := true, linkAddr := a), code) == RaiseGeneral(m, code).(linkAddr := a)
  {}

  lemma TranslatesAlike(m: Machine, a: nat, va: u64)
    requires !m.tlbFault
    ensures var r := TranslateMapped(m, va, Op.Load);
            var q := TranslateMapped(m.(linkValid := true, linkAddr := a), va, Op.Load);
            q.0 == if r.0.tlbFault then r.0.(linkAddr := a) else m.(linkValid := true, linkAddr := a)
    ensures TranslateMapped(m, va, Op.Load).0.tlbFault || TranslateMapped(m, va, Op.Load).0 == m
  {
    match Cam(m.tlb, va, Asid(m.cp0.entryHi), Op.Load)
    case Mapped(_) =>
    case Refill => TlbRaisesAlike(m, a, va, 2, true);
    case Invalid(_) => TlbRaisesAlike(m, a, va, 2, false);
    case Modified(_) => TlbRaisesAlike(m, a, va, 1, false);
  }

  /** Exceptions break the reservation. */
  lemma RaisesAlike(m: Machine, a: nat, ea: u64)
    requires !m.tlbFault
    ensures Raised(m.(linkValid := true, linkAddr := a), ea, Op.Load, 4) == Raised(m, ea, Op.Load, 4).(linkAddr := a)
  {
    GeneralRaisesAlike(m, a, 4);
    TranslatesAlike(m, a, Canonical(m.cp0.status, ea));
  }

  /** A linked load sets its reservation first; what it raises shows none of this. */
  lemma LinkedRaises(s: Cpu, i: Instr, f: Fault)
    requires Fit(s) && !s.m.tlbFault && i.LoadLinked?
    requires Tells(s.m, EffectiveAddress(s, i.base, i.imm), Op.Load, if i.dw then 8 else 4, f)
    ensures Raises(s, i, f)
  {
    var ea := EffectiveAddress(s, i.base, i.imm);
    var a := Line(ProbePa(s.m, ea));
    RaisesAlike(s.m, a, ea);
    SameOutcome(s.m, s.m.(linkValid := true, linkAddr := a), ea);
  }

  lemma SameOutcome(m: Machine, n: Machine, ea: u64)
    requires n == m.(linkValid := n.linkValid, linkAddr := n.linkAddr)
    ensures Translate(n, ea, Op.Load).0.tlbFault == Translate(m, ea, Op.Load).0.tlbFault
    ensures Translate(n, ea, Op.Load).1 == Translate(m, ea, Op.Load).1
  {}

  lemma LinkedTells(s: Cpu, i: Instr)
    requires Fit(s) && !s.m.tlbFault && i.LoadLinked?
    ensures Raises(s, i, FaultOf(s.gpr, s.m.tlb, s.m.cp0, i))
  {
    AccessTells(s.m, EffectiveAddress(s, i.base, i.imm), Op.Load, if i.dw then 8 else 4);
    LinkedRaises(s, i, FaultOf(s.gpr, s.m.tlb, s.m.cp0, i));
  }

  lemma WholeLoadTells(s: Cpu, i: Instr)
    requires Fit(s) && !s.m.tlbFault && i.Load?
    ensures Raises(s, i, FaultOf(s.gpr, s.m.tlb, s.m.cp0, i))
  {
    AccessTells(s.m, EffectiveAddress(s, i.base, i.imm), Op.Load, Bytes(i.w));
    LoadRaises(s, i, FaultOf(s.gpr, s.m.tlb, s.m.cp0, i));
  }

  lemma CacheOpTells(s: Cpu, i: Instr)
    requires Fit(s) && !s.m.tlbFault && i.CacheOp? && i.hit
    ensures Raises(s, i, FaultOf(s.gpr, s.m.tlb, s.m.cp0, i))
  {
    AccessTells(s.m, EffectiveAddress(s, i.base, i.imm), Op.Load, 1);
    LoadPartRaises(s, i, FaultOf(s.gpr, s.m.tlb, s.m.cp0, i));
  }

  lemma LoadPartTells(s: Cpu, i: Instr)
    requires Fit(s) && !s.m.tlbFault && i.LoadPart?
    ensures Raises(s, i, FaultOf(s.gpr, s.m.tlb, s.m.cp0, i))
  {
    AccessTells(s.m, EffectiveAddress(s, i.base, i.imm), Op.Load, 1);
    LoadPartRaises(s, i, FaultOf(s.gpr, s.m.tlb, s.m.cp0, i));
  }

  lemma LoadsTell(s: Cpu, i: Instr)
    requires Fit(s) && !s.m.tlbFault && (i.Load? || i.LoadPart? || (i.CacheOp? && i.hit))
    ensures Raises(s, i, FaultOf(s.gpr, s.m.tlb, s.m.cp0, i))
  {
    if i.Load? { WholeLoadTells(s, i); }
    else if i.LoadPart? { LoadPartTells(s, i); }
    else { CacheOpTells(s, i); }
  }

  lemma CondStoreTells(s: Cpu, i: Instr)
    requires Fit(s) && !s.m.tlbFault && i.StoreCond?
    ensures Raises(s, i, FaultOf(s.gpr, s.m.tlb, s.m.cp0, i))
  {
    AccessTells(s.m, EffectiveAddress(s, i.base, i.imm), Op.Store, if i.dw then 8 else 1);
    CondStoreRaises(s, i, FaultOf(s.gpr, s.m.tlb, s.m.cp0, i));
  }

  lemma StoresTell(s: Cpu, i: Instr)
    requires Fit(s) && !s.m.tlbFault && (i.Store? || i.StorePart?)
    ensures Raises(s, i, FaultOf(s.gpr, s.m.tlb, s.m.cp0, i))
  {
    var ea := EffectiveAddress(s, i.base, i.imm);
    if i.Store? {
      AccessTells(s.m, ea, Op.Store, Bytes(i.w));
      StoreRaises(s, i, FaultOf(s.gpr, s.m.tlb, s.m.cp0, i));
    } else {
      AccessTells(s.m, ea, Op.Store, 1);
      StorePartRaises(s, i, FaultOf(s.gpr, s.m.tlb, s.m.cp0, i));
    }
  }

  lemma FpAccessesTell(s: Cpu, i: Instr)
    requires Fit(s) && !s.m.tlbFault && (i.LoadFp? || i.StoreFp?)
    ensures Raises(s, i, FaultOf(s.gpr, s.m.tlb, s.m.cp0, i))
  {
    var ea := EffectiveAddress(s, i.base, i.imm);
    var f := FaultOf(s.gpr, s.m.tlb, s.m.cp0, i);
    if Unpaired(s, i.dw, i.ft) {
      UnpairedRaises(s, i);
    } else if i.LoadFp? {
      AccessTells(s.m, ea, Op.Load, 1);
      FpLoadRaises(s, i, f);
    } else {
      AccessTells(s.m, ea, Op.Store, 1);
      FpStoreRaises(s, i, f);
    }
  }

  /** An instruction raises an exception exactly when it has a reason to, and shows it. */
  lemma InstrRaises(s: Cpu, i: Instr)
    requires Fit(s) && !s.m.tlbFault && !IsControl(i)
    ensures Raises(s, i, FaultOf(s.gpr, s.m.tlb, s.m.cp0, i))
  {
    if i.LoadLinked? { LinkedTells(s, i); }
    else if i.Load? || i.LoadPart? || (i.CacheOp? && i.hit) { LoadsTell(s, i); }
    else if i.StoreCond? { CondStoreTells(s, i); }
    else if i.Store? || i.StorePart? { StoresTell(s, i); }
    else if i.LoadFp? || i.StoreFp? { FpAccessesTell(s, i); }
    else if i.ComputeFp? { ComputeFpRaises(s, i); }
    else if i.Trap? || i.Checked? { GeneralShows(s.m, i.code); }
  }

  // ------------------------------------------------------------------ steps

  /** The current mode has the 64-bit instructions. */
  predicate Operates64(st: Status) {
    st.exl || st.erl || match st.ksu case 0 => true case 1 => st.sx case 2 => st.ux case _ => false
  }

  predicate Needs64(i: Instr) {
    ((i.Compute? || i.Checked? || i.SetHiLo?) && i.only64) || ((i.LoadLinked? || i.StoreCond?) && i.dw)
  }

  predicate UsesFp(i: Instr) {
    match i
    case LoadFp(_, _, _, _) => true
    case StoreFp(_, _, _, _) => true
    case MoveToFp(_, _, _) => true
    case MoveFromFp(_, _, _) => true
    case ComputeFp(_, _, _) => true
    case MoveToCsr(_, _) => true
    case MoveFromCsr(_, _) => true
    case Branch(_, fp, _, _, _, _, _) => fp
    case _ => false
  }

  /** What comes before the instruction i: a fetch that does not translate, a 64-bit instruction in a mode
      without them, a floating-point one without coprocessor 1.  */
  function FetchFault(m: Machine, i: Instr): Fault {
    var f := AccessFault(m.tlb, m.cp0, m.pc, Op.Fetch, 1);
    if !f.NoFault? then f
    else if Needs64(i) && !Operates64(m.cp0.status) then Other(10)
    else if UsesFp(i) && !m.cp0.status.cu1 then FpUnusable
    else NoFault
  }

  /** What the step without a branch raises. */
  function StepFault(code: u32 -> Instr, s: Cpu): Fault
    requires Fit(s)
  {
    var i := code(Translate(s.m.(tlbFault := false), s.m.pc, Op.Fetch).1);
    var f := FetchFault(s.m, i);
    if f.NoFault? then FaultOf(s.gpr[0 := 0], s.m.tlb, s.m.cp0, i) else f
  }

  lemma SameNeeds(st: Status, i: Instr)
    ensures Operates64(st) <==> In64BitMode(st)
    ensures Needs64(i) <==> Only64(i)
    ensures UsesFp(i) <==> NeedsFp(i)
  {}

  /** An instruction runs exactly when nothing comes before it. */
  lemma RunsExactly(code: u32 -> Instr, s: Cpu)
    requires Fit(s)
    ensures Runs(code, s) <==> FetchFault(s.m, InstrAt(code, s)).NoFault?
    ensures InstrAt(code, s) == code(Translate(s.m.(tlbFault := false), s.m.pc, Op.Fetch).1)
  {
    AccessTells(s.m.(tlbFault := false), s.m.pc, Op.Fetch, 1);
    SameNeeds(s.m.cp0.status, InstrAt(code, s));
  }

  lemma RefusedShows(code: u32 -> Instr, s: Cpu)
    requires Fit(s) && !Runs(code, s)
    ensures !FetchFault(s.m, InstrAt(code, s)).NoFault?
    ensures Shows(s.m, Refused(code, s).m, FetchFault(s.m, InstrAt(code, s)))
  {
    var m := s.m.(tlbFault := false);
    RunsExactly(code, s);
    FetchOutcome(s);
    if Fetched(s).0.tlbFault {
      TranslateFaults(m, m.pc, Op.Fetch, 1);
      TranslateShows(m, m.pc, Op.Fetch, 1);
    } else {
      TranslateFaults(m, m.pc, Op.Fetch, 1);
      SameNeeds(s.m.cp0.status, InstrAt(code, s));
      GeneralShows(m, 10);
      UnusableShows(m);
    }
  }

  /** A step without a branch raises an exception exactly when it has a reason to, and shows it. */
  lemma PlainShows(code: u32 -> Instr, s: Cpu)
    requires Fit(s) && IsPlain(code, s)
    ensures PlainFaults(code, s) <==> !StepFault(code, s).NoFault?
    ensures PlainFaults(code, s) ==> Shows(s.m, StepPlain(code, s).m, StepFault(code, s))
  {
    RunsExactly(code, s);
    if Runs(code, s) {
      ReadyIs(code, s);
      InstrRaises(Ready(code, s), InstrAt(code, s));
    } else {
      RefusedShows(code, s);
    }
  }

  /** Where the step takes its exception: at its instruction, or at the delay slot of its branch. */
  function FaultingAt(code: u32 -> Instr, s: Cpu): (t: Cpu)
    requires Fit(s)
    ensures Fit(t)
  {
    if AtBranch(code, s) then Slot(code, s) else s
  }

  /** A step raises an exception exactly when its instruction, or the one in the delay slot that it runs,
      has a reason to; software is then shown what it is, at the address for it.  For one in the delay slot
      of a handler's branch see `SlotFaultInHandler`.  */
  lemma ExceptionShows(code: u32 -> Instr, s: Cpu)
    requires Fit(s) && Modelled(code, s)
    ensures StepFaults(code, s) <==>
              (AtBranch(code, s) ==> RunsSlot(code, s)) && !StepFault(code, FaultingAt(code, s)).NoFault?
    ensures StepFaults(code, s) && (s.m.cp0.status.exl ==> !AtBranch(code, s)) ==>
              Shows(s.m, Step(code, s).m, StepFault(code, FaultingAt(code, s)))
  {
    if !AtBranch(code, s) {
      PlainShows(code, s);
    } else if RunsSlot(code, s) {
      SlotIs(code, s);
      BranchOutcome(code, s);
      StepPlainOutcome(code, Slot(code, s));
      PlainShows(code, Slot(code, s));
    }
  }

  lemma BitSet(csr: u32)
    requires csr / UNIMPLEMENTED % 2 == 0
    ensures var d := csr + UNIMPLEMENTED;
            d / 0x2_0000 % 2 == 1 && d % 0x2_0000 == csr % 0x2_0000 && d / 0x4_0000 == csr / 0x4_0000
  {
    var k, l := csr / 0x2_0000, csr % 0x2_0000;
    QuotRem(k + 1, 0x2_0000, l);
    QuotRem(k / 2, 0x4_0000, l);
    QuotRem(k / 2, 0x4_0000, 0x2_0000 + l);
  }

  /** The bit of the floating-point control register that says that an operation is not implemented is set
      when one raises that (15), and no exception changes this register otherwise.  */
  lemma UnimplementedNoted(s: Cpu, i: Instr)
    requires Fit(s) && !s.m.tlbFault && !IsControl(i) && Precise.Faults(s, i)
    ensures var csr := ExecPlain(s, i).csr;
            if i.ComputeFp? && FaultOf(s.gpr, s.m.tlb, s.m.cp0, i) == Other(15) then
              csr / 0x2_0000 % 2 == 1 && csr % 0x2_0000 == s.csr % 0x2_0000 && csr / 0x4_0000 == s.csr / 0x4_0000
            else csr == s.csr
  {
    if i.ComputeFp? { ComputeFpCsr(s, i); } else { OtherCsr(s, i); }
  }

  lemma ComputeFpCsr(s: Cpu, i: Instr)
    requires Fit(s) && i.ComputeFp? && ((!s.m.cp0.status.fr && i.odd) || !i.known)
    ensures var csr := ExecPlain(s, i).csr;
            if !s.m.cp0.status.fr && i.odd then csr == s.csr
            else csr / 0x2_0000 % 2 == 1 && csr % 0x2_0000 == s.csr % 0x2_0000 && csr / 0x4_0000 == s.csr / 0x4_0000
  {
    assert ExecPlain(s, i) == ExecComputeFp(s, i.odd, i.known, i.h);
    if s.csr / UNIMPLEMENTED % 2 == 0 { BitSet(s.csr); }
  }

  lemma OtherCsr(s: Cpu, i: Instr)
    requires Fit(s) && !IsControl(i) && !i.ComputeFp? && !i.MoveToCsr?
    ensures ExecPlain(s, i).csr == s.csr
  {}

  // ------------------------------------------------------------------ a delay slot within a handler

  /** The branch at s is taken, or a jump. */
  predicate Jumps(code: u32 -> Instr, s: Cpu)
    requires Fit(s) && AtBranch(code, s)
  {
    InstrAt(code, s).Branch? ==> Taken(code, s)
  }

  /** Where it goes. */
  function Destination(code: u32 -> Instr, s: Cpu): u64
    requires Fit(s) && AtBranch(code, s)
  {
    var i, r := InstrAt(code, s), Begun(s);
    if i.Branch? then (s.m.pc + 4 + i.offset) % W64
    else if i.Jump? then
      JumpTarget(i.target, (s.m.pc + 4) % W64);
      i.target * 4 % 0x1000_0000 + (s.m.pc + 4) % W64 / 0x1000_0000 * 0x1000_0000
    else r.gpr[i.rs]
  }

  lemma JumpReached(code: u32 -> Instr, s: Cpu)
    requires Fit(s) && Modelled(code, s) && AtBranch(code, s) && InstrAt(code, s).Jump?
    ensures GoesTo(s, InstrAt(code, s), Slot(code, s), StepPlain(code, Slot(code, s)), Step(code, s),
                   Destination(code, s))
  {
    JumpTarget(InstrAt(code, s).target, Add(s.m.pc, 4));
    JumpGoes(code, s, Destination(code, s));
  }

  lemma BranchReached(code: u32 -> Instr, s: Cpu)
    requires Fit(s) && Modelled(code, s) && AtBranch(code, s) && InstrAt(code, s).Branch? && Jumps(code, s)
    ensures IsPlain(code, Slot(code, s))
    ensures GoesTo(s, InstrAt(code, s), Slot(code, s), StepPlain(code, Slot(code, s)), Step(code, s),
                   Destination(code, s))
  {
    TakenGoes(code, s);
  }

  lemma DestinationReached(code: u32 -> Instr, s: Cpu)
    requires Fit(s) && Modelled(code, s) && RunsSlot(code, s) && Jumps(code, s)
    ensures GoesTo(s, InstrAt(code, s), Slot(code, s), StepPlain(code, Slot(code, s)), Step(code, s),
                   Destination(code, s))
  {
    if InstrAt(code, s).Branch? {
      BranchReached(code, s);
    } else if InstrAt(code, s).Jump? {
      JumpReached(code, s);
    } else {
      JumpRegGoes(code, s);
    }
  }

  lemma NotJumping(code: u32 -> Instr, s: Cpu)
    requires Fit(s) && Modelled(code, s) && RunsSlot(code, s) && !Jumps(code, s)
    ensures var u := StepPlain(code, Slot(code, s));
            GoesTo(s, InstrAt(code, s), Slot(code, s), u, Step(code, s), u.m.pc)
  {
    ReadyToBranch(code, s);
    NotTakenGoesOn(code, s);
  }

  /** An exception in a delay slot while another is being handled sets the registers that tell about it, but
      the handler is entered if and only if the branch is not taken (or goes there itself).  */
  lemma SlotFaultInHandler(code: u32 -> Instr, s: Cpu)
    requires Fit(s) && Modelled(code, s) && AtBranch(code, s) && StepFaults(code, s) && s.m.cp0.status.exl
    ensures var f := StepFault(code, Slot(code, s));
            && !f.NoFault? && Shows(s.m, Step(code, s).m.(pc := Handler(s.m.cp0.status, f)), f)
            && Step(code, s).m.pc == (if Jumps(code, s) then Destination(code, s) else Handler(s.m.cp0.status, f))
  {
    SlotIs(code, s);
    PlainShows(code, Slot(code, s));
    if Jumps(code, s) { DestinationReached(code, s); } else { NotJumping(code, s); }
  }
}

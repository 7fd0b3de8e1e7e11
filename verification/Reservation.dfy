/** Load-linked and store-conditional: a conditional store that stores proves that since its load
    nothing has broken the reservation, and that the reserved line is as it was. */
module Reservation {
  import opened Bits
  import opened Tlb
  import opened Pages
  import opened TlbLaws
  import opened Unaligned
  import opened Exec
  import opened Precise
  import A = Accesses
  import BS = ByteStrings
  import U = UnalignedLaws

  // ------------------------------------------------------------------ the probe sees what translation sees

  /** A 32-bit address. */
  predicate SignExtended(va: u64) { va == SignExtend(va % W32) }

  /** An entry for a 32-bit address: R and EntryHi bits 39 to 32 repeat bit 31. */
  predicate SameForm(e: Entry) {
    || (e.hi / 0x8000_0000 % 0x200 == 0 && Region(e.hi) == 0)
    || (e.hi / 0x8000_0000 % 0x200 == 0x1ff && Region(e.hi) == 3)
  }

  /** The bits 31 to 13 that a 32-bit comparison looks at. */
  function Pair19(x: u64): nat { x / 0x2000 % 0x8_0000 }

  function Mask19(e: Entry): nat { 0x7_ffff - Pairs(e) % 0x1000 }

  lemma Split19(x: nat)
    ensures Hi(x, 19) == x / 0x8_0000 && Lo(x, 19) == x % 0x8_0000
  {
    Bits.HiLo(x, 19);
    UpIsTimes(Hi(x, 19), 19);
    Powers();
  }

  lemma And19(x: nat, m: nat)
    ensures And(x, m) == And(x / 0x8_0000, m / 0x8_0000) * 0x8_0000 + And(x % 0x8_0000, m % 0x8_0000)
  {
    AndSplit(x, m, 19);
    Split19(x);
    Split19(m);
    UpIsTimes(And(x / 0x8_0000, m / 0x8_0000), 19);
    Powers();
  }

  lemma ComplementAnd(n: nat)
    requires n % 0x2000 == 0
    ensures And(n, W32 - 1) == And(n / 0x2000, 0x7_ffff) * 0x2000
  {
    AndSplit(n, W32 - 1, 13);
    TlbLaws.Split13(n);
    TlbLaws.Split13(W32 - 1);
    AndZero(0x1fff);
    Up13(And(n / 0x2000, 0x7_ffff));
  }

  lemma NarrowMaskIs(e: Entry)
    ensures ProbeRoMask(e, false) == Mask19(e) * 0x2000
  {
    var n := Not64(PairMask(e));
    ComplementIs(e);
    ComplementAnd(n);
    LowPairs(n / 0x2000);
  }

  lemma LowPairs(x: nat)
    ensures And(x, 0x7_ffff) == x % 0x8_0000
  {
    AndOnes(x, 19);
    Split19(x);
    Powers();
  }

  /** The probe's comparison for 32-bit addresses. */
  lemma NarrowMatchesIs(e: Entry, va: u64, asid: nat)
    requires Compatible(va)
    ensures ProbeRoMatches(e, va, asid) <==>
              && And(Pair19(va), Mask19(e)) == And(Pair19(e.hi), Mask19(e))
              && (Global(e) || asid == Asid(e.hi))
  {
    NarrowMaskIs(e);
    NarrowAnd(e, va);
    NarrowAnd(e, e.hi);
  }

  lemma NarrowAnd(e: Entry, x: u64)
    ensures And(x, Mask19(e) * 0x2000) == And(Pair19(x), Mask19(e)) * 0x2000
  {
    AndPair(x, Mask19(e));
    And19(x / 0x2000, Mask19(e));
    AndZero(x / 0x2000 / 0x8_0000);
  }

  lemma Digits(a: nat, l: nat, b: nat, m: nat)
    requires l < 0x8_0000 && m < 0x8_0000
    ensures a * 0x8_0000 + l == b * 0x8_0000 + m <==> a == b && l == m
  {}

  /** The CAM's comparison also looks at bits 39 to 32. */
  lemma WideMatchesIs(e: Entry, va: u64, asid: nat)
    ensures Matches(e, va, asid) <==>
              && And(Pair19(va), Mask19(e)) == And(Pair19(e.hi), Mask19(e))
              && va / W32 % 0x100 == e.hi / W32 % 0x100 && Region(va) == Region(e.hi)
              && (Global(e) || asid == Asid(e.hi))
  {
    var l, m := And(Pair19(va), Mask19(e)), And(Pair19(e.hi), Mask19(e));
    MatchesIs(e, va, asid);
    WideAnd(e, va);
    WideAnd(e, e.hi);
    AndBound(Pair19(va), Mask19(e));
    AndBound(Pair19(e.hi), Mask19(e));
    Digits(va / W32 % 0x100, l, e.hi / W32 % 0x100, m);
  }

  lemma Fields(x: u64)
    ensures Vpn2(x) / 0x8_0000 == x / W32 % 0x100 && Vpn2(x) % 0x8_0000 == Pair19(x)
  {
    var y, o := x / 0x2000, x % 0x2000;
    var h, l := y / 0x8_0000, y % 0x8_0000;
    QuotRem(h, W32, l * 0x2000 + o);
    QuotRem(h / 0x100, VPN2_SIZE, h % 0x100 * 0x8_0000 + l);
    QuotRem(h % 0x100, 0x8_0000, l);
  }

  lemma WideAnd(e: Entry, x: u64)
    ensures And(Vpn2(x), VpnBits(Pairs(e) % 0x1000)) == x / W32 % 0x100 * 0x8_0000 + And(Pair19(x), Mask19(e))
  {
    var m := VpnBits(Pairs(e) % 0x1000);
    And19(Vpn2(x), m);
    assert m / 0x8_0000 == 0xff && m % 0x8_0000 == Mask19(e);
    Fields(x);
    Ones8(x / W32 % 0x100);
  }

  lemma Ones8(x: nat)
    requires x < 0x100
    ensures And(x, 0xff) == x
  {
    Powers();
    Ones(x, 8);
  }

  lemma Top7(x: nat, m: nat)
    requires x < 0x8_0000 && m < 0x1000
    ensures And(x, 0x7_ffff - m) / 0x1000 == x / 0x1000
  {
    var l := And(x % 0x1000, 0xfff - m);
    QuotRem(0x7f, 0x1000, 0xfff - m);
    And12(x, 0x7_ffff - m);
    Ones7(x / 0x1000);
    AndBound(x % 0x1000, 0xfff - m);
    QuotRem(x / 0x1000, 0x1000, l);
  }

  /** Equal under the mask means equal in the bits the mask always has, 31 to 25. */
  lemma TopBits(x: nat, y: nat, m: nat)
    requires x < 0x8_0000 && y < 0x8_0000 && m < 0x1000 && And(x, 0x7_ffff - m) == And(y, 0x7_ffff - m)
    ensures x / 0x1000 == y / 0x1000
  {
    Top7(x, m);
    Top7(y, m);
  }

  lemma Ones7(x: nat)
    requires x < 0x80
    ensures And(x, 0x7f) == x
  {
    Powers();
    Ones(x, 7);
  }

  lemma SignedFields(x: u32)
    ensures var va, b := SignExtend(x), x / 0x8000_0000;
            va / W32 % 0x100 == b * 0xff && Region(va) == b * 3 && Pair19(va) == x / 0x2000 && va % W32 == x
            && Compatible(va)
  {}

  lemma LowFields(h: u64)
    ensures Pair19(h) == h % W32 / 0x2000
    ensures h / 0x8000_0000 % 0x200 == h / W32 % 0x100 * 2 + h % W32 / 0x8000_0000
  {
    var q, l := h / W32, h % W32;
    QuotRem(q * 0x8_0000 + l / 0x2000, 0x2000, l % 0x2000);
    QuotRem(q, 0x8_0000, l / 0x2000);
    QuotRem(q * 2 + l / 0x8000_0000, 0x8000_0000, l % 0x8000_0000);
    QuotRem(q / 0x100, 0x200, q % 0x100 * 2 + l / 0x8000_0000);
  }

  /** What a 32-bit address and an entry for one have above bit 31. */
  lemma AboveBit31(va: u64, e: Entry)
    requires SignExtended(va) && SameForm(e) && Pair19(va) / 0x1000 == Pair19(e.hi) / 0x1000
    ensures va / W32 % 0x100 == e.hi / W32 % 0x100 && Region(va) == Region(e.hi)
  {
    Bit31(va);
    Bit31(e.hi);
    SignedFields(va % W32);
    LowFields(va);
    LowFields(e.hi);
  }

  lemma Bit31(x: u64)
    ensures Pair19(x) / 0x1000 / 0x40 == x / 0x8000_0000 % 2
  {
    var y, o := x / 0x2000, x % 0x2000;
    var h, l := y / 0x4_0000, y % 0x4_0000;
    QuotRem(h, 0x8000_0000, l * 0x2000 + o);
    QuotRem(h / 2, 0x8_0000, h % 2 * 0x4_0000 + l);
    QuotRem(h % 2 * 0x40 + l / 0x1000, 0x1000, l % 0x1000);
    QuotRem(h % 2, 0x40, l / 0x1000);
  }

  // ------------------------------------------------------------------ the probe on 64-bit addresses

  lemma AllOnes51(n: nat)
    requires n < 0x8_0000_0000_0000
    ensures And(n, 0x7_ffff_ffff_ffff) == n
  {
    PowerOf51();
    Ones(n, 51);
  }

  lemma PowerOf51()
    ensures Pow2(51) == 0x8_0000_0000_0000
  {
    WidePowers();
    assert Pow2(49) == 2 * Pow2(48);
    assert Pow2(51) == 4 * Pow2(49);
  }

  /** Leaving out the two lowest bits leaves the mask as it is. */
  lemma LongMaskIs(e: Entry)
    ensures ProbeRoMask(e, true) == Not64(PairMask(e))
  {
    var x, n := Not64(PairMask(e)), Not64(PairMask(e)) / 0x2000;
    ComplementIs(e);
    AndSplit(x, W64 - 4, 13);
    Split13(x);
    Split13(W64 - 4);
    AndZero((W64 - 4) % 0x2000);
    QuotRem(0x7_ffff_ffff_ffff, 0x2000, 0x1ffc);
    AllOnes51(n);
    Up13(n);
  }

  /** e with the page mask that the CAM has of it. */
  function Cut(e: Entry): Entry { e.(mask := Pairs(e) % 0x1000 * 0x2000) }

  lemma CutIs(e: Entry)
    ensures Pairs(Cut(e)) == Pairs(e) % 0x1000
    ensures Cut(e).mask / 0x2000 * 0x2000 + 0x1fff == PairMask(e)
  {
    QuotRem(Pairs(e) % 0x1000, 0x2000, 0);
  }

  /** On a 64-bit address the probe sees what translation sees, and in addition bits 61 to 40, which
      translation ignores.  */
  lemma ProbeRoOnLongAddresses(e: Entry, va: u64, asid: nat)
    requires !Compatible(va)
    ensures ProbeRoMatches(e, va, asid) <==> Matches(e, va, asid) && va / 0x100_0000_0000 == e.hi / 0x100_0000_0000
  {
    LongMaskIs(e);
    CutIs(e);
    ProbeMasked(Cut(e), va);
    MatchesIs(e, va, asid);
  }

  predicate ProbeRoAgrees(e: Entry, va: u64, asid: nat) {
    ProbeRoMatches(e, va, asid) <==> Matches(e, va, asid)
  }

  lemma SameFormAgrees(e: Entry, va: u64, asid: nat)
    requires SameForm(e) && SignExtended(va)
    ensures ProbeRoAgrees(e, va, asid)
  {
    NarrowMatchesIs(e, va, asid);
    WideMatchesIs(e, va, asid);
    if And(Pair19(va), Mask19(e)) == And(Pair19(e.hi), Mask19(e)) {
      TopBits(Pair19(va), Pair19(e.hi), Pairs(e) % 0x1000);
      AboveBit31(va, e);
    }
  }

  lemma OtherFormDisagrees(e: Entry)
    requires !SameForm(e)
    ensures SignExtended(SignExtend(e.hi % W32)) && !ProbeRoAgrees(e, SignExtend(e.hi % W32), Asid(e.hi))
  {
    var va := SignExtend(e.hi % W32);
    SignedFields(e.hi % W32);
    LowFields(e.hi);
    NarrowMatchesIs(e, va, Asid(e.hi));
    WideMatchesIs(e, va, Asid(e.hi));
  }

  /** The reservation's probe and the CAM agree about an entry, for all 32-bit addresses, exactly when
      the entry is for one. */
  lemma ProbeRoExactlySameForm(e: Entry)
    ensures SameForm(e) <==> forall va: u64, asid: nat | SignExtended(va) :: ProbeRoAgrees(e, va, asid)
  {
    if SameForm(e) {
      forall va: u64, asid: nat | SignExtended(va) ensures ProbeRoAgrees(e, va, asid) { SameFormAgrees(e, va, asid); }
    } else {
      OtherFormDisagrees(e);
    }
  }

  lemma {:induction false} ProbeRoFindsTheSame(tlb: seq<Entry>, va: u64, asid: nat, i: nat)
    requires i <= |tlb| && SignExtended(va) && forall j :: 0 <= j < |tlb| ==> SameForm(tlb[j])
    ensures ProbeRoFind(tlb, va, asid, i) == Find(tlb, va, asid, i)
    decreases |tlb| - i
  {
    if i < |tlb| {
      SameFormAgrees(tlb[i], va, asid);
      ProbeRoFindsTheSame(tlb, va, asid, i + 1);
    }
  }

  /** For a 32-bit address that translates, the reservation logic uses the same physical address. */
  lemma ProbePaIsTranslation(m: Machine, va: u64, op: Op)
    requires SignExtended(va) && (forall j :: 0 <= j < |m.tlb| ==> SameForm(m.tlb[j]))
    requires !m.tlbFault && !Translate(m, va, op).0.tlbFault
    ensures ProbePa(m, va) == Translate(m, va, op).1
  {
    ProbeRoFindsTheSame(m.tlb, va, Asid(m.cp0.entryHi), 0);
    assert Canonical(m.cp0.status, va) == va;
  }

  // ------------------------------------------------------------------ stores stay in their line

  lemma WordFrame(mem: Mem, a: nat, v: nat, b: nat)
    requires !(a <= b < a + 4)
    ensures ByteAt(SetWord(mem, a, v), b) == ByteAt(mem, b)
  {}

  lemma DwordFrame(mem: Mem, a: nat, v: nat, b: nat)
    requires !(a <= b < a + 8)
    ensures ByteAt(SetDword(mem, a, v), b) == ByteAt(mem, b)
  {
    WordFrame(mem, a, v / W32, b);
    WordFrame(SetWord(mem, a, v / W32), a + 4, v, b);
  }

  /** The n bytes from an n-aligned offset in a line are in that line. */
  lemma InLine(pa: nat, b: nat, start: nat, n: nat)
    requires Line(pa) <= start <= b < start + n && start + n <= Line(pa) + 16
    ensures Line(b) == Line(pa)
  {
    var l := pa / 16;
    assert b / 16 == l;
  }

  /** Alignment shows in the place within the line. */
  lemma PlaceInLine(pa: nat)
    ensures pa % 8 == pa % 16 % 8 && pa % 4 == pa % 16 % 4 && pa % 2 == pa % 16 % 2
  {
    var l, o := pa / 16, pa % 16;
    QuotRem(l * 2 + o / 8, 8, o % 8);
    QuotRem(l * 4 + o / 4, 4, o % 4);
    QuotRem(l * 8 + o / 2, 2, o % 2);
  }

  lemma Fits(o: nat)
    requires o < 16
    ensures (o % 8 == 0 ==> o <= 8) && (o % 4 == 0 ==> o <= 12) && (o % 2 == 0 ==> o <= 14)
  {}

  /** The n bytes from pa on are in one line. */
  predicate InOneLine(pa: nat, n: nat) { pa % 16 + n <= 16 }

  lemma StoreInOneLine(mem: Mem, pa: nat, w: Width, v: u64, b: nat)
    requires InOneLine(pa, Bytes(w)) && Line(b) != Line(pa)
    ensures ByteAt(WriteMem(mem, pa, w, v), b) == ByteAt(mem, b)
  {
    if pa <= b < pa + Bytes(w) { InLine(pa, b, pa, Bytes(w)); }
    match w
    case Bits8 =>
    case Bits16 =>
    case Bits32 => WordFrame(mem, pa, v, b);
    case Bits64 => DwordFrame(mem, pa, v, b);
  }

  lemma AlignedInOneLine(pa: nat, w: Width)
    requires pa % Bytes(w) == 0
    ensures InOneLine(pa, Bytes(w))
  {
    PlaceInLine(pa);
    Fits(pa % 16);
  }

  lemma StoreInLine(mem: Mem, pa: nat, w: Width, v: u64, b: nat)
    requires pa % Bytes(w) == 0 && Line(b) != Line(pa)
    ensures ByteAt(WriteMem(mem, pa, w, v), b) == ByteAt(mem, b)
  {
    AlignedInOneLine(pa, w);
    StoreInOneLine(mem, pa, w, v, b);
  }

  lemma GroupInLine(mem: Mem, pa: nat, n: nat, v: nat, b: nat)
    requires Size(n) && Line(b) != Line(pa)
    ensures ByteAt(SetGroup(mem, Base(pa, n), n, v), b) == ByteAt(mem, b)
  {
    if n == 4 {
      GroupLine4(pa, b);
      WordFrame(mem, Base(pa, n), v, b);
    } else {
      GroupLine8(pa, b);
      DwordFrame(mem, Base(pa, n), v, b);
    }
  }

  lemma GroupLine4(pa: nat, b: nat)
    ensures pa / 4 * 4 <= b < pa / 4 * 4 + 4 ==> Line(b) == Line(pa)
  {
    var l, o := pa / 16, pa % 16;
    QuotRem(l * 4 + o / 4, 4, o % 4);
    Fits(o / 4 * 4);
    if pa / 4 * 4 <= b < pa / 4 * 4 + 4 { InLine(pa, b, pa / 4 * 4, 4); }
  }

  lemma GroupLine8(pa: nat, b: nat)
    ensures pa / 8 * 8 <= b < pa / 8 * 8 + 8 ==> Line(b) == Line(pa)
  {
    var l, o := pa / 16, pa % 16;
    QuotRem(l * 2 + o / 8, 8, o % 8);
    Fits(o / 8 * 8);
    if pa / 8 * 8 <= b < pa / 8 * 8 + 8 { InLine(pa, b, pa / 8 * 8, 8); }
  }

  lemma PartInLine(mem: Mem, pa: nat, left: bool, n: nat, v: u64, b: nat)
    requires Size(n) && Line(b) != Line(pa)
    ensures ByteAt(if left then PutLeft(mem, pa, v, n) else PutRight(mem, pa, v, n), b) == ByteAt(mem, b)
  {
    var aligned := Base(pa, n);
    GroupInLine(mem, pa, n,
                if n == 4 then Swl(Word(mem, aligned), v, pa % 4) else Sdl(Dword(mem, aligned), v, pa % 8), b);
    GroupInLine(mem, pa, n,
                if n == 4 then Swr(Word(mem, aligned), v, pa % 4) else Sdr(Dword(mem, aligned), v, pa % 8), b);
  }

  // ------------------------------------------------------------------ one step

  function FpWidth(dw: bool): Width { if dw then Bits64 else Bits32 }

  /** The reservation logic sees the line that the store i goes to, and i, if its alignment is not
      checked, does not go to another one too. */
  predicate StoreIsSeen(s: Cpu, i: Instr)
    requires Fit(s)
  {
    IsStore(i) ==>
      var r := Translate(s.m, StoreAddress(s, i), Op.Store);
      || r.0.tlbFault
      || (&& Line(ProbePa(s.m, StoreAddress(s, i))) == Line(r.1)
          && (i.StoreFp? ==> InOneLine(r.1, Bytes(FpWidth(i.dw)))))
  }

  lemma PlaceOf(x: nat, k: nat)
    requires k > 0
    ensures x % (16 * k) % 16 == x % 16
  {
    var q, r := x / (16 * k), x % (16 * k);
    assert x == (q * k + r / 16) * 16 + r % 16;
    QuotRem(q * k + r / 16, 16, r % 16);
  }

  lemma SignExtendPlace(x: u64)
    ensures SignExtend(x % W32) % 16 == x % 16
  {
    PlaceOf(x, 0x1000_0000);
  }

  /** Translation keeps the place within the line. */
  lemma PlaceKept(m: Machine, va: u64, op: Op)
    requires !m.tlbFault && !Translate(m, va, op).0.tlbFault
    ensures Translate(m, va, op).1 % 16 == va % 16
  {
    var a := Canonical(m.cp0.status, va);
    SignExtendPlace(va);
    PlaceOf(a, 0x200_0000);
    PlaceOf(a, 0x1000_0000);
    if !Unmapped(a) {
      var i := Find(m.tlb, a, Asid(m.cp0.entryHi), 0);
      SamePage(m.tlb[i], a, a, Asid(m.cp0.entryHi));
      PlaceOf(FullPa(m.tlb[i], a), 0x1000_0000);
      PlaceOf(FullPa(m.tlb[i], a), 0x100);
      PlaceOf(a, 0x100);
    }
  }

  /** What a caller can see of i alone: its bytes are in one line, if its alignment is not checked. */
  predicate StaysInLine(s: Cpu, i: Instr)
    requires Fit(s) && IsStore(i)
  {
    i.StoreFp? ==> InOneLine(StoreAddress(s, i), Bytes(FpWidth(i.dw)))
  }

  /** It does when the address is a 32-bit one and the TLB holds entries for such. */
  lemma StoresAreSeen(s: Cpu, i: Instr)
    requires Fit(s) && !s.m.tlbFault && forall j :: 0 <= j < |s.m.tlb| ==> SameForm(s.m.tlb[j])
    requires IsStore(i) ==> SignExtended(StoreAddress(s, i)) && StaysInLine(s, i)
    ensures StoreIsSeen(s, i)
  {
    if IsStore(i) && !Translate(s.m, StoreAddress(s, i), Op.Store).0.tlbFault {
      ProbePaIsTranslation(s.m, StoreAddress(s, i), Op.Store);
      PlaceKept(s.m, StoreAddress(s, i), Op.Store);
    }
  }

  /** The reserved line is as it was. */
  ghost predicate SameLine(s: Cpu, t: Cpu, line: nat) {
    forall b: nat :: Line(b) == line ==> ByteAt(t.mem, b) == ByteAt(s.mem, b)
  }

  /** The instruction i, run in s, neither raises, returns, stores conditionally nor touches the line. */
  ghost predicate Quiet(s: Cpu, i: Instr)
    requires Fit(s) && !IsControl(i)
  {
    && !Faults(s, i) && !i.ReturnFromException? && !i.StoreCond?
    && SameLine(s, ExecPlain(s, i), s.m.linkAddr)
  }

  lemma WholeStoreKeepsLink(s: Cpu, i: Instr)
    requires Fit(s) && !s.m.tlbFault && i.Store? && StoreIsSeen(s, i)
    requires ExecPlain(BreakLink(s, i), i).m.linkValid
    ensures s.m.linkValid && BreakLink(s, i) == s && Quiet(s, i)
    ensures ExecPlain(s, i).m.linkAddr == s.m.linkAddr
  {
    var u, ea := BreakLink(s, i), StoreAddress(s, i);
    StoreOutcome(u, i.w, i.rt, ea);
    var pa := Translate(s.m, ea, Op.Store).1;
    forall b: nat | Line(b) != Line(pa) && pa % Bytes(i.w) == 0
      ensures ByteAt(WriteMem(s.mem, pa, i.w, s.gpr[i.rt]), b) == ByteAt(s.mem, b)
    {
      StoreInLine(s.mem, pa, i.w, s.gpr[i.rt], b);
    }
  }

  lemma PartStoreStays(s: Cpu, i: Instr, pa: nat)
    requires Fit(s) && i.StorePart? && pa == Translate(s.m, StoreAddress(s, i), Op.Store).1
    requires !Translate(s.m, StoreAddress(s, i), Op.Store).0.tlbFault
    ensures forall b: nat :: Line(b) != Line(pa) ==> ByteAt(ExecPlain(s, i).mem, b) == ByteAt(s.mem, b)
  {
    var n, v := GroupSize(i.dw), s.gpr[i.rt];
    assert ExecPlain(s, i).mem == if i.left then PutLeft(s.mem, pa, v, n) else PutRight(s.mem, pa, v, n);
    forall b: nat | Line(b) != Line(pa) ensures ByteAt(ExecPlain(s, i).mem, b) == ByteAt(s.mem, b) {
      PartInLine(s.mem, pa, i.left, n, v, b);
    }
  }

  lemma PartStoreKeepsLink(s: Cpu, i: Instr)
    requires Fit(s) && !s.m.tlbFault && i.StorePart? && StoreIsSeen(s, i)
    requires ExecPlain(BreakLink(s, i), i).m.linkValid
    ensures s.m.linkValid && BreakLink(s, i) == s && Quiet(s, i)
    ensures ExecPlain(s, i).m.linkAddr == s.m.linkAddr
  {
    var u, ea := BreakLink(s, i), StoreAddress(s, i);
    PartOutcome(u, i.left, i.dw, i.rt, ea);
    if !Translate(s.m, ea, Op.Store).0.tlbFault { PartStoreStays(s, i, Translate(s.m, ea, Op.Store).1); }
  }

  lemma FpStoreKeepsLink(s: Cpu, i: Instr)
    requires Fit(s) && !s.m.tlbFault && i.StoreFp? && StoreIsSeen(s, i)
    requires ExecPlain(BreakLink(s, i), i).m.linkValid
    ensures s.m.linkValid && BreakLink(s, i) == s && Quiet(s, i)
    ensures ExecPlain(s, i).m.linkAddr == s.m.linkAddr
  {
    var u, ea := BreakLink(s, i), StoreAddress(s, i);
    StoreFpOutcome(u, i.dw, i.ft, ea);
    var pa, v := Translate(s.m, ea, Op.Store).1, FpValue(s, i.dw, i.ft);
    forall b: nat | Line(b) != Line(pa) && InOneLine(pa, Bytes(FpWidth(i.dw)))
      ensures ByteAt(WriteMem(s.mem, pa, FpWidth(i.dw), v), b) == ByteAt(s.mem, b)
    {
      StoreInOneLine(s.mem, pa, FpWidth(i.dw), v, b);
    }
  }

  lemma LoadKeepsLink(s: Cpu, i: Instr)
    requires Fit(s) && !s.m.tlbFault && (i.Load? || i.LoadPart? || i.LoadFp? || i.CacheOp?)
    requires ExecPlain(s, i).m.linkValid
    ensures s.m.linkValid && Quiet(s, i) && ExecPlain(s, i).m.linkAddr == s.m.linkAddr
  {
    match i
    case Load(w, signed, rt, base, imm) => LoadOutcome(s, w, signed, rt, EffectiveAddress(s, base, imm));
    case LoadPart(left, dw, rt, base, imm) => PartOutcome(s, left, dw, rt, EffectiveAddress(s, base, imm));
    case LoadFp(dw, ft, base, imm) => LoadFpOutcome(s, dw, ft, EffectiveAddress(s, base, imm));
    case CacheOp(hit, base, imm) => CacheOutcome(s, hit, EffectiveAddress(s, base, imm));
  }

  lemma OtherKeepsLink(s: Cpu, i: Instr)
    requires Fit(s) && !s.m.tlbFault && !IsControl(i) && !i.LoadLinked?
    requires !IsStore(i) && !i.Load? && !i.LoadPart? && !i.LoadFp? && !i.CacheOp?
    requires ExecPlain(s, i).m.linkValid
    ensures s.m.linkValid && Quiet(s, i) && ExecPlain(s, i).m.linkAddr == s.m.linkAddr
  {
    if i.StoreCond? { CondOutcome(s, i.dw, i.rt, EffectiveAddress(s, i.base, i.imm)); }
  }

  /** If a reservation is there after an instruction that makes none, it was there before, and the
      instruction was quiet. */
  lemma InstrKeepsLink(s: Cpu, i: Instr)
    requires Fit(s) && !s.m.tlbFault && !IsControl(i) && !i.LoadLinked? && StoreIsSeen(s, i)
    requires ExecPlain(BreakLink(s, i), i).m.linkValid
    ensures s.m.linkValid && BreakLink(s, i) == s && Quiet(s, i)
    ensures ExecPlain(s, i).m.linkAddr == s.m.linkAddr
  {
    if i.Store? {
      WholeStoreKeepsLink(s, i);
    } else if i.StorePart? {
      PartStoreKeepsLink(s, i);
    } else if i.StoreFp? {
      FpStoreKeepsLink(s, i);
    } else if i.Load? || i.LoadPart? || i.LoadFp? || i.CacheOp? {
      LoadKeepsLink(s, i);
    } else {
      OtherKeepsLink(s, i);
    }
  }

  /** The step makes a reservation. */
  predicate MakesLink(code: u32 -> Instr, s: Cpu)
    requires Fit(s)
  {
    (Runs(code, s) && InstrAt(code, s).LoadLinked?)
    || (RunsSlot(code, s) && Runs(code, Slot(code, s)) && InstrAt(code, Slot(code, s)).LoadLinked?)
  }

  /** The state just before the instruction that s runs, with the reservation as it was. */
  function Before(s: Cpu): Cpu
    requires Fit(s)
  {
    Begin(s).(m := Fetched(s).0)
  }

  predicate Seen(code: u32 -> Instr, s: Cpu)
    requires Fit(s)
  {
    Runs(code, s) ==> StoreIsSeen(Before(s), InstrAt(code, s))
  }

  /** The stores of a step, in its instruction or its delay slot, go to lines that the probe sees. */
  predicate StoresSeen(code: u32 -> Instr, s: Cpu)
    requires Fit(s)
  {
    Seen(code, s) && (RunsSlot(code, s) ==> Seen(code, Slot(code, s)))
  }

  ghost predicate QuietPlain(code: u32 -> Instr, s: Cpu)
    requires Fit(s) && IsPlain(code, s)
  {
    !PlainFaults(code, s) && Quiet(Before(s), InstrAt(code, s))
  }

  lemma PlainKeepsLink(code: u32 -> Instr, s: Cpu)
    requires Fit(s) && IsPlain(code, s) && Seen(code, s)
    requires StepPlain(code, s).m.linkValid && !(Runs(code, s) && InstrAt(code, s).LoadLinked?)
    ensures s.m.linkValid && StepPlain(code, s).m.linkAddr == s.m.linkAddr
    ensures QuietPlain(code, s) && SameLine(s, StepPlain(code, s), s.m.linkAddr)
  {
    FetchOutcome(s);
    StepPlainOutcome(code, s);
    if Runs(code, s) { InstrKeepsLink(Before(s), InstrAt(code, s)); }
  }

  ghost predicate QuietAt(code: u32 -> Instr, s: Cpu)
    requires Fit(s)
  {
    IsPlain(code, s) && QuietPlain(code, s)
  }

  /** No exception, no ERET, no conditional store, and nothing stored to the reserved line. */
  ghost predicate QuietStep(code: u32 -> Instr, s: Cpu)
    requires Fit(s) && Modelled(code, s)
  {
    && SameLine(s, Step(code, s), s.m.linkAddr)
    && (!AtBranch(code, s) ==> QuietAt(code, s))
    && (RunsSlot(code, s) ==> QuietAt(code, Slot(code, s)))
  }

  lemma StepKeepsLink(code: u32 -> Instr, s: Cpu)
    requires Fit(s) && Modelled(code, s) && StoresSeen(code, s) && !MakesLink(code, s)
    requires Step(code, s).m.linkValid
    ensures s.m.linkValid && Step(code, s).m.linkAddr == s.m.linkAddr && QuietStep(code, s)
  {
    if RunsSlot(code, s) {
      SlotIs(code, s);
      ReadyIs(code, s);
      BranchOutcome(code, s);
      PlainKeepsLink(code, Slot(code, s));
    } else if AtBranch(code, s) {
      ReadyIs(code, s);
      AtSlotIs(Ready(code, s), InstrAt(code, s));
    } else {
      PlainKeepsLink(code, s);
    }
  }

  // ------------------------------------------------------------------ runs

  /** s has the reservation that t has, and the line is the same. */
  ghost predicate SameReservation(s: Cpu, t: Cpu) {
    s.m.linkValid && s.m.linkAddr == t.m.linkAddr && SameLine(s, t, t.m.linkAddr)
  }

  /** Every step of the run was quiet, and all its states have the reservation and the line of the last. */
  ghost predicate Undisturbed(code: u32 -> Instr, ss: seq<Cpu>)
    requires IsRun(code, ss) && ss != []
  {
    && (forall k :: 0 <= k < |ss| ==> SameReservation(ss[k], ss[|ss| - 1]))
    && (forall k :: 0 <= k < |ss| - 1 ==> QuietStep(code, ss[k]))
  }

  lemma SameReservationThen(s: Cpu, t: Cpu, u: Cpu)
    requires SameReservation(s, t) && SameReservation(t, u)
    ensures SameReservation(s, u)
  {}

  lemma LinkKept(code: u32 -> Instr, s: Cpu)
    requires Fit(s) && Modelled(code, s) && StoresSeen(code, s) && !MakesLink(code, s)
    requires Step(code, s).m.linkValid
    ensures SameReservation(s, Step(code, s))
  {
    StepKeepsLink(code, s);
  }

  lemma {:induction false} LinkHeld(code: u32 -> Instr, ss: seq<Cpu>, k: nat)
    requires IsRun(code, ss) && k < |ss| && ss[|ss| - 1].m.linkValid
    requires forall j :: 0 <= j < |ss| - 1 ==> StoresSeen(code, ss[j]) && !MakesLink(code, ss[j])
    ensures SameReservation(ss[k], ss[|ss| - 1])
    decreases |ss| - k
  {
    if k < |ss| - 1 {
      LinkHeld(code, ss, k + 1);
      LinkKept(code, ss[k]);
      SameReservationThen(ss[k], ss[k + 1], ss[|ss| - 1]);
    }
  }

  /** A reservation that is there at the end of a run that made none was there all along. */
  lemma ReservationHeld(code: u32 -> Instr, ss: seq<Cpu>)
    requires IsRun(code, ss) && ss != [] && ss[|ss| - 1].m.linkValid
    requires forall k :: 0 <= k < |ss| - 1 ==> StoresSeen(code, ss[k]) && !MakesLink(code, ss[k])
    ensures Undisturbed(code, ss)
  {
    forall k | 0 <= k < |ss| ensures SameReservation(ss[k], ss[|ss| - 1]) {
      LinkHeld(code, ss, k);
    }
    forall k | 0 <= k < |ss| - 1 ensures QuietStep(code, ss[k]) {
      LinkHeld(code, ss, k + 1);
      StepKeepsLink(code, ss[k]);
    }
  }

  // ------------------------------------------------------------------ 32-bit programs

  /** The TLB is for 32-bit addresses, and so is the address of the store that s runs, if it runs one; a
      floating-point store stays in its line.  */
  predicate Narrow(code: u32 -> Instr, s: Cpu)
    requires Fit(s)
  {
    && (forall j :: 0 <= j < |s.m.tlb| ==> SameForm(s.m.tlb[j]))
    && (Runs(code, s) && IsStore(InstrAt(code, s)) ==>
          && SignExtended(StoreAddress(Begin(s), InstrAt(code, s)))
          && StaysInLine(Begin(s), InstrAt(code, s)))
  }

  /** Also in the delay slot. */
  predicate NarrowStep(code: u32 -> Instr, s: Cpu)
    requires Fit(s)
  {
    Narrow(code, s) && (RunsSlot(code, s) ==> Narrow(code, Slot(code, s)))
  }

  lemma NarrowIsSeen(code: u32 -> Instr, s: Cpu)
    requires Fit(s) && Narrow(code, s)
    ensures Seen(code, s)
  {
    FetchOutcome(s);
    if Runs(code, s) { StoresAreSeen(Before(s), InstrAt(code, s)); }
  }

  lemma NarrowStepIsSeen(code: u32 -> Instr, s: Cpu)
    requires Fit(s) && NarrowStep(code, s)
    ensures StoresSeen(code, s)
  {
    NarrowIsSeen(code, s);
    if RunsSlot(code, s) {
      SlotIs(code, s);
      NarrowIsSeen(code, Slot(code, s));
    }
  }

  // ------------------------------------------------------------------ conditional stores

  /** The physical address that the load or store in s goes to. */
  function Accessed(code: u32 -> Instr, s: Cpu, op: Op): u32
    requires Fit(s) && (InstrAt(code, s).StoreCond? || InstrAt(code, s).LoadLinked?)
  {
    var i := InstrAt(code, s);
    Translate(Ready(code, s).m, EffectiveAddress(Ready(code, s), i.base, i.imm), op).1
  }

  /** The instruction in s is a conditional store, and it stores. */
  predicate StoresThere(code: u32 -> Instr, s: Cpu)
    requires Fit(s)
  {
    && Runs(code, s) && InstrAt(code, s).StoreCond? && !Faults(Ready(code, s), InstrAt(code, s))
    && Ready(code, s).m.linkValid && Ready(code, s).m.linkAddr == Line(Accessed(code, s, Op.Store))
  }

  /** The step stores conditionally: its instruction, or the one in its delay slot. */
  predicate CondStores(code: u32 -> Instr, s: Cpu)
    requires Fit(s)
  {
    StoresThere(code, s) || (RunsSlot(code, s) && StoresThere(code, Slot(code, s)))
  }

  /** The line that it stores to. */
  function StoredLine(code: u32 -> Instr, s: Cpu): nat
    requires Fit(s) && CondStores(code, s)
  {
    Line(Accessed(code, if StoresThere(code, s) then s else Slot(code, s), Op.Store))
  }

  lemma StoresWhereReserved(code: u32 -> Instr, s: Cpu)
    requires Fit(s) && CondStores(code, s)
    ensures s.m.linkValid && s.m.linkAddr == StoredLine(code, s)
  {
    if StoresThere(code, s) {
      ReadyIs(code, s);
    } else {
      SlotIs(code, s);
      ReadyIs(code, s);
      ReadyIs(code, Slot(code, s));
      AtSlotIs(Ready(code, s), InstrAt(code, s));
    }
  }

  /** The instruction in s is a conditional store after which its register reads one. */
  predicate Succeeds(code: u32 -> Instr, s: Cpu)
    requires Fit(s)
  {
    && Runs(code, s) && InstrAt(code, s).StoreCond? && !Faults(Ready(code, s), InstrAt(code, s))
    && StepPlain(code, s).gpr[InstrAt(code, s).rt] == 1
  }

  /** So is the step's: its instruction, or the one in its delay slot. */
  predicate CondSucceeds(code: u32 -> Instr, s: Cpu)
    requires Fit(s)
  {
    Succeeds(code, s) || (RunsSlot(code, s) && Succeeds(code, Slot(code, s)))
  }

  lemma SucceedsExactly(code: u32 -> Instr, s: Cpu)
    requires Fit(s)
    ensures Succeeds(code, s) <==> StoresThere(code, s)
  {
    if Runs(code, s) && InstrAt(code, s).StoreCond? && !Faults(Ready(code, s), InstrAt(code, s)) {
      var i := InstrAt(code, s);
      ReadyIs(code, s);
      A.CondStoreIs(Ready(code, s), i.dw, i.rt, i.base, i.imm);
    }
  }

  /** What software reads is what has happened. */
  lemma CondSucceedsExactly(code: u32 -> Instr, s: Cpu)
    requires Fit(s)
    ensures CondSucceeds(code, s) <==> CondStores(code, s)
  {
    SucceedsExactly(code, s);
    if RunsSlot(code, s) { SucceedsExactly(code, Slot(code, s)); }
  }

  /** Through any run of a 32-bit program that makes no other reservation, to a conditional store that
      succeeds: no exception, ERET or other conditional store has happened on the way, and the 16 bytes
      of the line that is stored to have not changed. */
  lemma StoreCondMeansUndisturbed(code: u32 -> Instr, ss: seq<Cpu>)
    requires IsRun(code, ss) && ss != [] && CondSucceeds(code, ss[|ss| - 1])
    requires forall k :: 0 <= k < |ss| - 1 ==> NarrowStep(code, ss[k]) && !MakesLink(code, ss[k])
    ensures CondStores(code, ss[|ss| - 1])
    ensures Undisturbed(code, ss) && ss[|ss| - 1].m.linkAddr == StoredLine(code, ss[|ss| - 1])
  {
    CondSucceedsExactly(code, ss[|ss| - 1]);
    StoresWhereReserved(code, ss[|ss| - 1]);
    forall k | 0 <= k < |ss| - 1 ensures StoresSeen(code, ss[k]) { NarrowStepIsSeen(code, ss[k]); }
    ReservationHeld(code, ss);
  }

  /** A conditional store that changes memory is one that stores, and it changes the reserved line. */
  lemma OnlyCondStoresChangeMemory(code: u32 -> Instr, s: Cpu)
    requires Fit(s) && Runs(code, s) && InstrAt(code, s).StoreCond? && StepPlain(code, s).mem != s.mem
    ensures StoresThere(code, s)
  {
    ReadyIs(code, s);
    var i := InstrAt(code, s);
    CondOutcome(Ready(code, s), i.dw, i.rt, EffectiveAddress(Ready(code, s), i.base, i.imm));
  }

  /** What a load-linked reserves is the line it reads, for 32-bit addresses and entries. */
  lemma LinkIsTheLineRead(s: Cpu, i: Instr)
    requires Fit(s) && !s.m.tlbFault && i.LoadLinked? && !Faults(s, i)
    requires SignExtended(EffectiveAddress(s, i.base, i.imm)) && forall j :: 0 <= j < |s.m.tlb| ==> SameForm(s.m.tlb[j])
    ensures ExecPlain(s, i).m.linkValid && ExecPlain(s, i).mem == s.mem
    ensures ExecPlain(s, i).m.linkAddr == Line(Translate(s.m, EffectiveAddress(s, i.base, i.imm), Op.Load).1)
  {
    var ea := EffectiveAddress(s, i.base, i.imm);
    ProbePaIsTranslation(s.m, ea, Op.Load);
    var u := s.(m := s.m.(linkValid := true, linkAddr := Line(ProbePa(s.m, ea))));
    SameTranslation(s.m, u.m, ea);
    LoadOutcome(u, if i.dw then Bits64 else Bits32, true, i.rt, ea);
  }

  /** The instruction in s is a load-linked of a 32-bit address, and it loads. */
  predicate LinksThere(code: u32 -> Instr, s: Cpu)
    requires Fit(s)
  {
    && Runs(code, s) && InstrAt(code, s).LoadLinked? && !Faults(Ready(code, s), InstrAt(code, s))
    && (forall j :: 0 <= j < |s.m.tlb| ==> SameForm(s.m.tlb[j]))
    && SignExtended(EffectiveAddress(Ready(code, s), InstrAt(code, s).base, InstrAt(code, s).imm))
  }

  /** The step is one: its instruction, or the one in its delay slot. */
  predicate LinksNarrow(code: u32 -> Instr, s: Cpu)
    requires Fit(s)
  {
    LinksThere(code, s) || (RunsSlot(code, s) && LinksThere(code, Slot(code, s)))
  }

  /** The line that it reads. */
  function LinkedLine(code: u32 -> Instr, s: Cpu): nat
    requires Fit(s) && LinksNarrow(code, s)
  {
    Line(Accessed(code, if LinksThere(code, s) then s else Slot(code, s), Op.Load))
  }

  lemma LinkPlain(code: u32 -> Instr, s: Cpu)
    requires Fit(s) && LinksThere(code, s)
    ensures IsPlain(code, s) && StepPlain(code, s).mem == s.mem
    ensures StepPlain(code, s).m.linkAddr == Line(Accessed(code, s, Op.Load))
  {
    ReadyIs(code, s);
    LinkIsTheLineRead(Ready(code, s), InstrAt(code, s));
  }

  lemma LinkStep(code: u32 -> Instr, s: Cpu)
    requires Fit(s) && LinksNarrow(code, s)
    ensures Modelled(code, s) && Step(code, s).mem == s.mem && Step(code, s).m.linkAddr == LinkedLine(code, s)
  {
    if LinksThere(code, s) {
      LinkPlain(code, s);
    } else {
      SlotIs(code, s);
      LinkPlain(code, Slot(code, s));
      BranchOutcome(code, s);
    }
  }

  /** The run without its first step. */
  lemma UndisturbedSince(code: u32 -> Instr, ss: seq<Cpu>)
    requires IsRun(code, ss) && |ss| >= 2 && CondSucceeds(code, ss[|ss| - 1])
    requires forall k :: 1 <= k < |ss| - 1 ==> NarrowStep(code, ss[k]) && !MakesLink(code, ss[k])
    ensures CondStores(code, ss[|ss| - 1])
    ensures SameReservation(ss[1], ss[|ss| - 1]) && ss[|ss| - 1].m.linkAddr == StoredLine(code, ss[|ss| - 1])
  {
    var rest := ss[1..];
    assert rest[|rest| - 1] == ss[|ss| - 1] && rest[0] == ss[1];
    StoreCondMeansUndisturbed(code, rest);
    assert SameReservation(rest[0], rest[|rest| - 1]);
  }

  /** Load-linked, any 32-bit code without another one, then a conditional store whose register reads one:
      it has stored, to the line that was loaded from, and not a byte of that line had changed since.
      Either may be in a delay slot.  */
  lemma LoadLinkedStoreCond(code: u32 -> Instr, ss: seq<Cpu>)
    requires IsRun(code, ss) && |ss| >= 2 && LinksNarrow(code, ss[0]) && CondSucceeds(code, ss[|ss| - 1])
    requires forall k :: 1 <= k < |ss| - 1 ==> NarrowStep(code, ss[k]) && !MakesLink(code, ss[k])
    ensures CondStores(code, ss[|ss| - 1]) && StoredLine(code, ss[|ss| - 1]) == LinkedLine(code, ss[0])
    ensures SameLine(ss[0], ss[|ss| - 1], LinkedLine(code, ss[0]))
  {
    LinkStep(code, ss[0]);
    UndisturbedSince(code, ss);
  }

  // ------------------------------------------------------------------ with nothing between

  /** Where an address goes does not depend on the kind of access, if both are allowed. */
  lemma SamePlace(m: Machine, n: Machine, ea: u64)
    requires m.cp0 == n.cp0 && m.tlb == n.tlb && !m.tlbFault && !n.tlbFault
    requires !Translate(m, ea, Op.Load).0.tlbFault && !Translate(n, ea, Op.Store).0.tlbFault
    ensures Translate(m, ea, Op.Load).1 == Translate(n, ea, Op.Store).1
  {}

  lemma LinkedState(code: u32 -> Instr, s: Cpu)
    requires Fit(s) && LinksThere(code, s)
    ensures Modelled(code, s)
    ensures var t := Step(code, s);
            && t.m.linkValid && t.m.linkAddr == Line(Accessed(code, s, Op.Load)) && t.mem == s.mem
            && t.m.cp0 == s.m.cp0 && t.m.tlb == s.m.tlb && !t.m.tlbFault
  {
    var i := InstrAt(code, s);
    ReadyIs(code, s);
    A.LinkedLoadIs(Ready(code, s), i.dw, i.rt, i.base, i.imm);
    LinkPlain(code, s);
  }

  /** The instruction in t is a conditional store to the address of the linked load in s, and is not refused. */
  predicate StoresBack(code: u32 -> Instr, s: Cpu, t: Cpu)
    requires Fit(s) && LinksThere(code, s) && Fit(t)
  {
    var i, j := InstrAt(code, s), InstrAt(code, t);
    && Runs(code, t) && j.StoreCond? && !Faults(Ready(code, t), j)
    && EffectiveAddress(Ready(code, t), j.base, j.imm) == EffectiveAddress(Ready(code, s), i.base, i.imm)
  }

  lemma ReservedThere(code: u32 -> Instr, s: Cpu, t: Cpu)
    requires Fit(s) && LinksThere(code, s) && Modelled(code, s) && t == Step(code, s) && StoresBack(code, s, t)
    ensures Accessed(code, t, Op.Store) == Accessed(code, s, Op.Load) && t.mem == s.mem
    ensures Ready(code, t).m.linkValid && Ready(code, t).m.linkAddr == Line(Accessed(code, t, Op.Store))
  {
    var i := InstrAt(code, s);
    LinkedState(code, s);
    ReadyIs(code, s);
    ReadyIs(code, t);
    SamePlace(Ready(code, s).m, Ready(code, t).m, EffectiveAddress(Ready(code, s), i.base, i.imm));
  }

  /** A linked load and, with no step between, a conditional store to its address: it succeeds. */
  lemma LinkedThenStored(code: u32 -> Instr, s: Cpu, t: Cpu)
    requires Fit(s) && LinksThere(code, s) && Modelled(code, s) && t == Step(code, s) && StoresBack(code, s, t)
    ensures Succeeds(code, t)
    ensures var j := InstrAt(code, t);
            U.Put(s.mem, StepPlain(code, t).mem, Accessed(code, s, Op.Load),
                  BS.Str(Ready(code, t).gpr[j.rt], if j.dw then 8 else 4))
  {
    var j := InstrAt(code, t);
    ReservedThere(code, s, t);
    ReadyIs(code, t);
    A.CondStoreIs(Ready(code, t), j.dw, j.rt, j.base, j.imm);
  }
}

/** What the TLB instructions promise: a refilled entry serves the access that missed, TLBP finds the
    entry that faulted, and random replacement goes round the unwired entries. */
module TlbLaws {
  import opened Bits
  import opened Tlb
  import opened Pages

  // ------------------------------------------------------------------ matching, field by field

  /** The bits of VPN2 that an entry compares, when its page mask is m (in units of a page pair). */
  function VpnBits(m: nat): nat
    requires m < VPN2_SIZE
  {
    VPN2_SIZE - 1 - m
  }

  function Pairs(e: Entry): (m: nat)
    ensures m < 0x8_0000
  {
    e.mask / 0x2000
  }

  lemma Up13(x: nat)
    ensures Up(x, 13) == x * 0x2000
  {
    UpIsTimes(x, 13);
    Powers();
  }

  lemma Split13(x: nat)
    ensures Hi(x, 13) == x / 0x2000 && Lo(x, 13) == x % 0x2000
  {
    HiLo(x, 13);
    Up13(Hi(x, 13));
    Powers();
  }

  lemma Pow27()
    ensures Pow2(27) == VPN2_SIZE
  {
    Powers();
  }

  lemma Up27(x: nat)
    ensures Up(x, 27) == x * VPN2_SIZE
  {
    UpIsTimes(x, 27);
    Pow27();
  }

  lemma Split27(x: nat)
    ensures Hi(x, 27) == x / VPN2_SIZE && Lo(x, 27) == x % VPN2_SIZE
  {
    HiLo(x, 27);
    Up27(Hi(x, 27));
    Pow27();
  }

  lemma AndPair(x: nat, m: nat)
    ensures And(x, m * 0x2000) == And(x / 0x2000, m) * 0x2000
  {
    QuotRem(m, 0x2000, 0);
    AndSplit(x, m * 0x2000, 13);
    Split13(x);
    Split13(m * 0x2000);
    AndZero(x % 0x2000);
    Up13(And(x / 0x2000, m));
  }

  lemma AndSplit27(x: nat, m: nat)
    ensures And(x, m) == And(x / VPN2_SIZE, m / VPN2_SIZE) * VPN2_SIZE + And(x % VPN2_SIZE, m % VPN2_SIZE)
  {
    AndSplit(x, m, 27);
    Split27(x);
    Split27(m);
    Up27(And(x / VPN2_SIZE, m / VPN2_SIZE));
  }

  lemma ComplementIs(e: Entry)
    ensures Not64(PairMask(e)) / 0x2000 == 0x7_ffff_ffff_ffff - Pairs(e) % 0x1000
    ensures Not64(PairMask(e)) % 0x2000 == 0
  {
    QuotRem(0x7_ffff_ffff_ffff - Pairs(e) % 0x1000, 0x2000, 0);
  }

  lemma ComplementBits(m: nat)
    requires m < 0x8_0000
    ensures var n := 0x7_ffff_ffff_ffff - m; n / VPN2_SIZE == 0x100_0000 - 1 && n % VPN2_SIZE == VpnBits(m)
  {
    QuotRem(0x100_0000 - 1, VPN2_SIZE, VpnBits(m));
  }

  lemma VpnMaskIs(e: Entry)
    ensures VpnMask(e) == VpnBits(Pairs(e) % 0x1000) * 0x2000
  {
    var n := Not64(PairMask(e));
    assert VPN2_FIELD == (VPN2_SIZE - 1) * 0x2000;
    AndPair(n, VPN2_SIZE - 1);
    ComplementIs(e);
    ComplementBits(Pairs(e) % 0x1000);
    AndOnes(n / 0x2000, 27);
    Pow27();
    Split27(n / 0x2000);
  }

  /** The CAM's comparison. */
  lemma MatchesIs(e: Entry, va: u64, asid: nat)
    ensures Matches(e, va, asid) <==>
              && And(Vpn2(va), VpnBits(Pairs(e) % 0x1000)) == And(Vpn2(e.hi), VpnBits(Pairs(e) % 0x1000))
              && Region(va) == Region(e.hi)
              && (Global(e) || asid == Asid(e.hi))
  {
    var m := VpnBits(Pairs(e) % 0x1000);
    VpnMaskIs(e);
    AndPair(va, m);
    AndPair(e.hi, m);
    AndSplit27(va / 0x2000, m);
    AndSplit27(e.hi / 0x2000, m);
    AndZero(va / 0x2000 / VPN2_SIZE);
    AndZero(e.hi / 0x2000 / VPN2_SIZE);
  }

  lemma TwoDigits(a: nat, l: nat, b: nat, m: nat)
    requires l < VPN2_SIZE && m < VPN2_SIZE
    ensures (a * VPN2_SIZE + l) * 0x2000 == (b * VPN2_SIZE + m) * 0x2000 <==> a == b && l == m
  {}

  lemma HighBits(h: u64)
    ensures h / 0x2000 / VPN2_SIZE == h / 0x100_0000_0000 && h / 0x100_0000_0000 < 0x100_0000
  {
    var y := h / 0x2000;
    QuotRem(y / VPN2_SIZE, 0x100_0000_0000, y % VPN2_SIZE * 0x2000 + h % 0x2000);
  }

  lemma ProbeMask(e: Entry, h: u64)
    ensures And(h, Not64(e.mask / 0x2000 * 0x2000 + 0x1fff))
         == (h / 0x100_0000_0000 * VPN2_SIZE + And(Vpn2(h), VpnBits(Pairs(e)))) * 0x2000
  {
    var n := 0x7_ffff_ffff_ffff - Pairs(e);
    assert Not64(e.mask / 0x2000 * 0x2000 + 0x1fff) == n * 0x2000;
    AndPair(h, n);
    AndSplit27(h / 0x2000, n);
    ComplementBits(Pairs(e));
    HighBits(h);
    AllOnes24(h / 0x100_0000_0000);
  }

  lemma AllOnes24(x: nat)
    requires x < 0x100_0000
    ensures And(x, 0x100_0000 - 1) == x
  {
    Powers();
    Ones(x, 24);
  }

  lemma ProbeMasked(e: Entry, h: u64)
    ensures var mask := Not64(e.mask / 0x2000 * 0x2000 + 0x1fff);
            And(h, mask) == And(e.hi, mask)
            <==> And(Vpn2(h), VpnBits(Pairs(e))) == And(Vpn2(e.hi), VpnBits(Pairs(e)))
                 && h / 0x100_0000_0000 == e.hi / 0x100_0000_0000
  {
    var l, m := And(Vpn2(h), VpnBits(Pairs(e))), And(Vpn2(e.hi), VpnBits(Pairs(e)));
    ProbeMask(e, h);
    ProbeMask(e, e.hi);
    AndBound(Vpn2(h), VpnBits(Pairs(e)));
    AndBound(Vpn2(e.hi), VpnBits(Pairs(e)));
    TwoDigits(h / 0x100_0000_0000, l, e.hi / 0x100_0000_0000, m);
  }

  /** TLBP's comparison: it also looks at the bits between R and VPN2. */
  lemma ProbeMatchesIs(e: Entry, h: u64)
    ensures ProbeMatches(e, h) <==>
              && And(Vpn2(h), VpnBits(Pairs(e))) == And(Vpn2(e.hi), VpnBits(Pairs(e)))
              && h / 0x100_0000_0000 == e.hi / 0x100_0000_0000
              && (Global(e) || Asid(h) == Asid(e.hi))
  {
    ProbeMasked(e, h);
  }

  lemma FaultHiIs(va: u64, asid: nat)
    requires asid < 256
    ensures Region(FaultHi(va, asid)) == Region(va) && Vpn2(FaultHi(va, asid)) == Vpn2(va)
    ensures Asid(FaultHi(va, asid)) == asid
    ensures FaultHi(va, asid) / 0x100_0000_0000 == Region(va) * 0x40_0000
  {
    var r, v := Region(va), Vpn2(va);
    QuotRem(r, 0x4000_0000_0000_0000, v * 0x2000 + asid);
    QuotRem(r * 0x2_0000_0000_0000 + v, 0x2000, asid);
    QuotRem(r * 0x40_0000, VPN2_SIZE, v);
    QuotRem((r * 0x2_0000_0000_0000 + v) * 32, 256, asid);
    QuotRem(r * 0x40_0000, 0x100_0000_0000, v * 0x2000 + asid);
  }

  // ------------------------------------------------------------------ TLBP agrees with translation

  /** Bits 61 to 40 of EntryHi are clear and the page mask is one the hardware has. */
  predicate WellFormed(e: Entry) {
    e.hi / 0x100_0000_0000 % 0x40_0000 == 0 && e.mask < 0x200_0000
  }

  predicate ProbeAgrees(e: Entry, va: u64, asid: nat)
    requires asid < 256
  {
    ProbeMatches(e, FaultHi(va, asid)) <==> Matches(e, va, asid)
  }

  lemma WellFormedAgrees(e: Entry, va: u64, asid: nat)
    requires asid < 256 && WellFormed(e)
    ensures ProbeAgrees(e, va, asid)
  {
    MatchesIs(e, va, asid);
    ProbeMatchesIs(e, FaultHi(va, asid));
    FaultHiIs(va, asid);
    WellFormedHi(e);
  }

  lemma WellFormedHi(e: Entry)
    requires WellFormed(e)
    ensures e.hi / 0x100_0000_0000 == Region(e.hi) * 0x40_0000
    ensures Pairs(e) % 0x1000 == Pairs(e)
  {}

  /** An address on which TLBP and the CAM disagree about an entry that is not well formed. */
  function Disputed(e: Entry): (va: nat)
    requires !WellFormed(e)
  {
    if e.hi / 0x100_0000_0000 % 0x40_0000 != 0 then e.hi
    else Region(e.hi) * 0x4000_0000_0000_0000
         + (Flip(Vpn2(e.hi) / 0x1000, Pairs(e) / 0x1000) * 0x1000 + Vpn2(e.hi) % 0x1000) * 0x2000
  }

  lemma FlipSplit(e: Entry)
    requires 0x1000 <= Pairs(e)
    ensures Flip(Vpn2(e.hi) / 0x1000, Pairs(e) / 0x1000) < 0x8000
    ensures Flip(Vpn2(e.hi) / 0x1000, Pairs(e) / 0x1000) != Vpn2(e.hi) / 0x1000
    ensures And(Flip(Vpn2(e.hi) / 0x1000, Pairs(e) / 0x1000), 0x7fff - Pairs(e) / 0x1000)
         == And(Vpn2(e.hi) / 0x1000, 0x7fff - Pairs(e) / 0x1000)
  {
    Powers();
    FlipHidden(Vpn2(e.hi) / 0x1000, Pairs(e) / 0x1000, 15);
  }

  lemma And12(x: nat, m: nat)
    ensures And(x, m) == And(x / 0x1000, m / 0x1000) * 0x1000 + And(x % 0x1000, m % 0x1000)
  {
    AndSplit(x, m, 12);
    Split12(x);
    Split12(m);
    Up12(And(x / 0x1000, m / 0x1000));
  }

  lemma Ones15(x: nat)
    requires x < 0x8000
    ensures And(x, 0x7fff) == x
  {
    Powers();
    Ones(x, 15);
  }

  lemma LowPartsKept(f: nat, w: nat, m: nat, v: nat)
    requires f < 0x8000 && w < VPN2_SIZE && 0x1000 <= m < 0x8_0000 && v == f * 0x1000 + w % 0x1000
    requires And(f, 0x7fff - m / 0x1000) == And(w / 0x1000, 0x7fff - m / 0x1000)
    ensures And(v, VpnBits(m)) == And(w, VpnBits(m))
  {
    QuotRem(0x7fff - m / 0x1000, 0x1000, 0xfff - m % 0x1000);
    QuotRem(f, 0x1000, w % 0x1000);
    And12(v, VpnBits(m));
    And12(w, VpnBits(m));
  }

  /** A page mask with more bits than the CAM has hides a difference from TLBP ... */
  lemma WideMaskHides(e: Entry, v: nat)
    requires 0x1000 <= Pairs(e)
    requires v == Flip(Vpn2(e.hi) / 0x1000, Pairs(e) / 0x1000) * 0x1000 + Vpn2(e.hi) % 0x1000
    ensures v < VPN2_SIZE
    ensures And(v, VpnBits(Pairs(e))) == And(Vpn2(e.hi), VpnBits(Pairs(e)))
  {
    FlipSplit(e);
    LowPartsKept(Flip(Vpn2(e.hi) / 0x1000, Pairs(e) / 0x1000), Vpn2(e.hi), Pairs(e), v);
  }

  /** ... that the CAM sees. */
  lemma CamSees(v: nat, w: nat, m: nat)
    requires m < 0x1000 && v < VPN2_SIZE && w < VPN2_SIZE && v / 0x1000 != w / 0x1000 && v % 0x1000 == w % 0x1000
    ensures And(v, VpnBits(m)) != And(w, VpnBits(m))
  {
    QuotRem(0x7fff, 0x1000, 0xfff - m);
    And12(v, VpnBits(m));
    And12(w, VpnBits(m));
    Ones15(v / 0x1000);
    Ones15(w / 0x1000);
  }

  lemma Compose(r: nat, v: nat)
    requires r < 4 && v < VPN2_SIZE
    ensures r * 0x4000_0000_0000_0000 + v * 0x2000 < W64
    ensures Region(r * 0x4000_0000_0000_0000 + v * 0x2000) == r
    ensures Vpn2(r * 0x4000_0000_0000_0000 + v * 0x2000) == v
  {
    QuotRem(r, 0x4000_0000_0000_0000, v * 0x2000);
    QuotRem(r * 0x40_0000, VPN2_SIZE, v);
  }

  lemma RegionAndFill(h: u64)
    ensures h / 0x100_0000_0000 == Region(h) * 0x40_0000 + h / 0x100_0000_0000 % 0x40_0000
  {
    var y := h / 0x100_0000_0000;
    QuotRem(y / 0x40_0000, 0x4000_0000_0000_0000, y % 0x40_0000 * 0x100_0000_0000 + h % 0x100_0000_0000);
  }

  lemma FillDisputed(e: Entry)
    requires e.hi / 0x100_0000_0000 % 0x40_0000 != 0
    ensures !ProbeAgrees(e, e.hi, Asid(e.hi))
  {
    var h := FaultHi(e.hi, Asid(e.hi));
    RegionAndFill(e.hi);
    FaultHiIs(e.hi, Asid(e.hi));
    MatchesIs(e, e.hi, Asid(e.hi));
    assert Matches(e, e.hi, Asid(e.hi));
    ProbeMatchesIs(e, h);
    assert h / 0x100_0000_0000 != e.hi / 0x100_0000_0000;
  }

  lemma MaskDisputed(e: Entry, va: u64, v: nat)
    requires e.hi / 0x100_0000_0000 == Region(e.hi) * 0x40_0000 && 0x1000 <= Pairs(e)
    requires v == Flip(Vpn2(e.hi) / 0x1000, Pairs(e) / 0x1000) * 0x1000 + Vpn2(e.hi) % 0x1000
    requires Region(va) == Region(e.hi) && Vpn2(va) == v
    ensures !ProbeAgrees(e, va, Asid(e.hi))
  {
    FlipSplit(e);
    WideMaskHides(e, v);
    CamSees(v, Vpn2(e.hi), Pairs(e) % 0x1000);
    MatchesIs(e, va, Asid(e.hi));
    ProbeMatchesIs(e, FaultHi(va, Asid(e.hi)));
    FaultHiIs(va, Asid(e.hi));
  }

  lemma DisputedDisagrees(e: Entry)
    requires !WellFormed(e)
    ensures Disputed(e) < W64 && !ProbeAgrees(e, Disputed(e), Asid(e.hi))
  {
    if e.hi / 0x100_0000_0000 % 0x40_0000 != 0 {
      FillDisputed(e);
    } else {
      assert e.hi / 0x100_0000_0000 == Region(e.hi) * 0x40_0000;
      var v := Flip(Vpn2(e.hi) / 0x1000, Pairs(e) / 0x1000) * 0x1000 + Vpn2(e.hi) % 0x1000;
      WideMaskHides(e, v);
      Compose(Region(e.hi), v);
      MaskDisputed(e, Disputed(e), v);
    }
  }

  /** TLBP and the CAM agree about an entry, for every address and address space, exactly when the
      entry is well formed. */
  lemma ProbeExactlyWellFormed(e: Entry)
    ensures WellFormed(e) <==> forall va: u64, asid: nat | asid < 256 :: ProbeAgrees(e, va, asid)
  {
    if WellFormed(e) {
      forall va: u64, asid: nat | asid < 256 ensures ProbeAgrees(e, va, asid) { WellFormedAgrees(e, va, asid); }
    } else {
      DisputedDisagrees(e);
    }
  }

  lemma {:induction false} ProbeFindsTheSame(tlb: seq<Entry>, va: u64, asid: nat, i: nat)
    requires asid < 256 && i <= |tlb| && forall j :: 0 <= j < |tlb| ==> WellFormed(tlb[j])
    ensures ProbeFind(tlb, FaultHi(va, asid), i) == Find(tlb, va, asid, i)
    decreases |tlb| - i
  {
    if i < |tlb| {
      WellFormedAgrees(tlb[i], va, asid);
      ProbeFindsTheSame(tlb, va, asid, i + 1);
    }
  }

  lemma RaisedHi(s: Machine, va: u64, code: nat, refill: bool, wide: bool)
    ensures var t := RaiseTlb(s, va, code, refill, wide);
            t.tlb == s.tlb && t.cp0.entryHi == FaultHi(va, Asid(s.cp0.entryHi))
  {}

  lemma ProbedAfter(s: Machine, t: Machine, va: u64)
    requires |s.tlb| == ENTRIES && forall j :: 0 <= j < |s.tlb| ==> WellFormed(s.tlb[j])
    requires t.tlb == s.tlb && t.cp0.entryHi == FaultHi(va, Asid(s.cp0.entryHi))
    ensures var i := Find(s.tlb, va, Asid(s.cp0.entryHi), 0);
            Tlbp(t).cp0.index == if i < ENTRIES then i else 0x8000_0000
  {
    ProbeFindsTheSame(s.tlb, va, Asid(s.cp0.entryHi), 0);
  }

  /** TLBP right after a TLB exception names the entry that raised it, or fails after a refill. */
  lemma ProbeAfterFault(s: Machine, ea: u64, op: Op)
    requires |s.tlb| == ENTRIES && forall j :: 0 <= j < |s.tlb| ==> WellFormed(s.tlb[j])
    requires !Unmapped(Canonical(s.cp0.status, ea))
    ensures match Cam(s.tlb, Canonical(s.cp0.status, ea), Asid(s.cp0.entryHi), op)
            case Mapped(_) => true
            case Refill => Tlbp(Translate(s, ea, op).0).cp0.index == 0x8000_0000
            case Modified(i) => Tlbp(Translate(s, ea, op).0).cp0.index == i
            case Invalid(i) => Tlbp(Translate(s, ea, op).0).cp0.index == i
  {
    var va, code := Canonical(s.cp0.status, ea), if op == Store then 3 else 2;
    var t := Translate(s, ea, op).0;
    match Cam(s.tlb, va, Asid(s.cp0.entryHi), op)
    case Mapped(_) =>
    case Refill => RaisedHi(s, va, code, true, Wide(s.cp0.status)); ProbedAfter(s, t, va);
    case Modified(_) => RaisedHi(s, va, 1, false, Wide(s.cp0.status)); ProbedAfter(s, t, va);
    case Invalid(_) => RaisedHi(s, va, code, false, Wide(s.cp0.status)); ProbedAfter(s, t, va);
  }

  // ------------------------------------------------------------------ refill and retry

  /** What a refill handler stages before TLBWR: a 4K pair. */
  function Stage(s: Machine, lo0: u64, lo1: u64): Machine {
    s.(cp0 := s.cp0.(entryLo0 := lo0, entryLo1 := lo1, pageMask := 0))
  }

  /** The entry that the hardware-set EntryHi makes matches the address that missed. */
  lemma RefilledMatches(va: u64, asid: nat, lo0: u64, lo1: u64)
    requires asid < 256
    ensures Matches(Entry(FaultHi(va, asid), lo0, lo1, 0), va, asid)
  {
    MatchesIs(Entry(FaultHi(va, asid), lo0, lo1, 0), va, asid);
    FaultHiIs(va, asid);
  }

  /** A 4K pair: bit 12 selects the half, and the page is the low 12 bits. */
  lemma SmallPage(e: Entry, va: u64)
    requires Pairs(e) == 0
    ensures Half(e, va) == if va / 0x1000 % 2 == 1 then e.lo1 else e.lo0
    ensures FullPa(e, va) == Pfn(Half(e, va)) * 0x1000 + va % 0x1000
  {
    MaskShapes(e);
    AndPage(va, 0x1000);
    AndStep(va / 0x1000, 1);
    AndZero(va / 0x1000 / 2);
    FrameAndOffset(e, va);
    AndZero(va / 0x1000);
    OrZero(Pfn(Half(e, va)));
  }

  /** The first match after writing a matching entry where nothing matched is that entry. */
  lemma {:induction false} FindWritten(tlb: seq<Entry>, va: u64, asid: nat, k: nat, e: Entry, i: nat)
    requires i <= k < |tlb| && Matches(e, va, asid)
    requires Find(tlb, va, asid, i) == |tlb|
    ensures Find(tlb[k := e], va, asid, i) == k
    decreases k - i
  {
    if i < k { FindWritten(tlb, va, asid, k, e, i + 1); }
  }

  /** The half of the staged pair that the access uses, and the address it should reach. */
  function Chosen(va: u64, lo0: u64, lo1: u64): u64 { if va / 0x1000 % 2 == 1 then lo1 else lo0 }

  lemma RefilledCam(tlb: seq<Entry>, va: u64, asid: nat, lo0: u64, lo1: u64, k: nat, op: Op)
    requires asid < 256 && k < |tlb| && Cam(tlb, va, asid, op) == Refill
    requires IsValid(Chosen(va, lo0, lo1)) && (op == Store ==> IsDirty(Chosen(va, lo0, lo1)))
    ensures Find(tlb[k := Entry(FaultHi(va, asid), lo0, lo1, 0)], va, asid, 0) == k
    ensures Cam(tlb[k := Entry(FaultHi(va, asid), lo0, lo1, 0)], va, asid, op)
         == Mapped((Pfn(Chosen(va, lo0, lo1)) * 0x1000 + va % 0x1000) % W32)
  {
    var e := Entry(FaultHi(va, asid), lo0, lo1, 0);
    RefilledMatches(va, asid, lo0, lo1);
    FindWritten(tlb, va, asid, k, e, 0);
    SmallPage(e, va);
  }

  /** An access that misses, the refill exception, a handler that stages a 4K pair and runs TLBWR and
      ERET: back at the instruction (or at the branch before it), the access reaches the chosen frame,
      by the entry just written.  An exception clears ERL, which may change the mode and with it the
      form of the address; with ERL clear it does not.  */
  lemma RefillThenRetry(s: Machine, ea: u64, op: Op, lo0: u64, lo1: u64)
    requires |s.tlb| == ENTRIES && !s.cp0.status.exl && s.cp0.random % 64 < ENTRIES
    requires !Unmapped(Canonical(s.cp0.status, ea))
    requires Cam(s.tlb, Canonical(s.cp0.status, ea), Asid(s.cp0.entryHi), op) == Refill
    requires IsValid(Chosen(Canonical(s.cp0.status, ea), lo0, lo1))
    requires op == Store ==> IsDirty(Chosen(Canonical(s.cp0.status, ea), lo0, lo1))
    ensures var va := Canonical(s.cp0.status, ea);
            var fault := Translate(s, ea, op).0;
            var back := Eret(Tlbwr(Stage(fault, lo0, lo1), false));
            && fault.tlbFault
            && back.pc == (if s.inDelaySlot then Add(s.pc, -4) else s.pc)
            && back.cp0.status == s.cp0.status.(erl := false)
            && Find(back.tlb, va, Asid(back.cp0.entryHi), 0) == s.cp0.random % 64
            && (Canonical(back.cp0.status, ea) == va ==>
                  Translate(back, ea, op) == (back, (Pfn(Chosen(va, lo0, lo1)) * 0x1000 + va % 0x1000) % W32))
  {
    var va := Canonical(s.cp0.status, ea);
    FaultHiIs(va, Asid(s.cp0.entryHi));
    RefilledCam(s.tlb, va, Asid(s.cp0.entryHi), lo0, lo1, s.cp0.random % 64, op);
  }

  // ------------------------------------------------------------------ written, then read

  /** TLBWI, then anything that leaves the TLB and Index alone, then TLBR: the staged entry is back in its
      registers, field by field, and nothing else changes.  An index past the end writes and reads none.  */
  lemma WrittenThenRead(s: Machine, t: Machine)
    requires |s.tlb| == ENTRIES && t.tlb == Tlbwi(s, false).tlb && t.cp0.index % 64 == s.cp0.index % 64
    ensures var c, u := s.cp0, Tlbr(t);
            if s.cp0.index % 64 < 48 then
              u == t.(pc := (t.pc + 4) % W64,
                      cp0 := t.cp0.(entryHi := c.entryHi, entryLo0 := c.entryLo0, entryLo1 := c.entryLo1,
                                    pageMask := c.pageMask))
            else t.tlb == s.tlb && u == t.(pc := (t.pc + 4) % W64)
  {
    if s.cp0.index % 64 < 48 { assert t.tlb[s.cp0.index % 64] == Staged(s.cp0); }
  }

  /** What TLBWI and TLBWR write is one entry, of the staged fields. */
  lemma WritesStaged(s: Machine)
    requires |s.tlb| == ENTRIES
    ensures var c, t := s.cp0, Tlbwi(s, false);
            t == s.(pc := (s.pc + 4) % W64, tlb := t.tlb)
            && forall j :: 0 <= j < 48 ==>
                 t.tlb[j] == if j == c.index % 64 then Entry(c.entryHi, c.entryLo0, c.entryLo1, c.pageMask)
                             else s.tlb[j]
    ensures var c, t := s.cp0, Tlbwr(s, false);
            t == s.(pc := (s.pc + 4) % W64, tlb := t.tlb, cp0 := c.(random := t.cp0.random))
            && forall j :: 0 <= j < 48 ==>
                 t.tlb[j] == if j == c.random % 64 then Entry(c.entryHi, c.entryLo0, c.entryLo1, c.pageMask)
                             else s.tlb[j]
  {}

  // ------------------------------------------------------------------ random replacement

  /** Random after k TLBWRs, when it starts at r: down to Wired, then from the top again. */
  function RandomAfter(r: u32, w: u32, k: nat): u32 {
    if k == 0 then r else NextRandom(RandomAfter(r, w, k - 1), w)
  }

  /** Random in closed form: it goes round the unwired entries. */
  lemma {:induction false} RandomGoesRound(r: u32, w: u32, k: nat)
    requires w < ENTRIES && w <= r < ENTRIES && k <= ENTRIES - w
    ensures RandomAfter(r, w, k) == if k <= r - w then r - k else r - k + (ENTRIES - w)
    decreases k
  {
    if k > 0 { RandomGoesRound(r, w, k - 1); }
  }

  /** Random stays between Wired and the last entry, however many TLBWRs run. */
  lemma {:induction false} RandomStaysUnwired(r: u32, w: u32, k: nat)
    requires w < ENTRIES && w <= r < ENTRIES
    ensures w <= RandomAfter(r, w, k) < ENTRIES
    decreases k
  {
    if k > 0 { RandomStaysUnwired(r, w, k - 1); }
  }

  /** One TLBWR of a staged entry. */
  function WriteStaged(s: Machine, e: Entry): Machine {
    Tlbwr(s.(cp0 := s.cp0.(entryHi := e.hi, entryLo0 := e.lo0, entryLo1 := e.lo1, pageMask := e.mask)), false)
  }

  function WriteAll(s: Machine, es: seq<Entry>): Machine {
    if es == [] then s else WriteStaged(WriteAll(s, es[..|es| - 1]), es[|es| - 1])
  }

  /** Any number of TLBWRs: Random follows `RandomAfter` and the wired entries are as they were. */
  lemma {:induction false} WiredStay(s: Machine, es: seq<Entry>)
    requires |s.tlb| == ENTRIES && s.cp0.wired < ENTRIES && s.cp0.wired <= s.cp0.random < ENTRIES
    ensures var t := WriteAll(s, es);
            && |t.tlb| == ENTRIES && t.cp0.wired == s.cp0.wired
            && t.cp0.random == RandomAfter(s.cp0.random, s.cp0.wired, |es|)
            && t.tlb[..s.cp0.wired] == s.tlb[..s.cp0.wired]
    decreases |es|
  {
    if es != [] {
      var t := WriteAll(s, es[..|es| - 1]);
      WiredStay(s, es[..|es| - 1]);
      RandomStaysUnwired(s.cp0.random, s.cp0.wired, |es| - 1);
      assert t.cp0.random % 64 == t.cp0.random;
    }
  }

  /** No two of 48 - w consecutive TLBWRs write the same entry. */
  lemma RandomDistinct(r: u32, w: u32, j: nat, k: nat)
    requires w < ENTRIES && w <= r < ENTRIES && j < k < ENTRIES - w
    ensures RandomAfter(r, w, j) != RandomAfter(r, w, k)
  {
    RandomGoesRound(r, w, j);
    RandomGoesRound(r, w, k);
  }

  lemma StagedWrites(t: Machine, e: Entry)
    requires |t.tlb| == ENTRIES && t.cp0.random < ENTRIES
    ensures WriteStaged(t, e).tlb == t.tlb[t.cp0.random := e]
  {}

  /** Each of them is still there after the last. */
  lemma {:induction false} WrittenStay(s: Machine, es: seq<Entry>, j: nat)
    requires |s.tlb| == ENTRIES && s.cp0.wired < ENTRIES && s.cp0.wired <= s.cp0.random < ENTRIES
    requires j < |es| <= ENTRIES - s.cp0.wired
    ensures |WriteAll(s, es).tlb| == ENTRIES
    ensures RandomAfter(s.cp0.random, s.cp0.wired, j) < ENTRIES
    ensures WriteAll(s, es).tlb[RandomAfter(s.cp0.random, s.cp0.wired, j)] == es[j]
    decreases |es|
  {
    var n := |es| - 1;
    var r, w := s.cp0.random, s.cp0.wired;
    WiredStay(s, es[..n]);
    RandomStaysUnwired(r, w, n);
    StagedWrites(WriteAll(s, es[..n]), es[n]);
    if j < n {
      RandomStaysUnwired(r, w, j);
      WrittenStay(s, es[..n], j);
      RandomDistinct(r, w, j, n);
      assert es[..n][j] == es[j];
    }
  }

  /** The write of a run of 48 - w that goes to entry i. */
  function Turn(r: u32, w: u32, i: nat): (k: nat)
    requires w < ENTRIES && w <= r < ENTRIES && w <= i < ENTRIES
    ensures k < ENTRIES - w
  {
    if i <= r then r - i else r - i + (ENTRIES - w)
  }

  /** 48 - w consecutive TLBWRs write every unwired entry, each once, and no wired one. */
  lemma RandomReplacement(s: Machine, es: seq<Entry>, i: nat)
    requires |s.tlb| == ENTRIES && s.cp0.wired < ENTRIES && s.cp0.wired <= s.cp0.random < ENTRIES
    requires |es| == ENTRIES - s.cp0.wired && i < ENTRIES
    ensures |WriteAll(s, es).tlb| == ENTRIES
    ensures WriteAll(s, es).tlb[i]
         == if i < s.cp0.wired then s.tlb[i] else es[Turn(s.cp0.random, s.cp0.wired, i)]
  {
    WiredStay(s, es);
    if i < s.cp0.wired {
      assert WriteAll(s, es).tlb[i] == WriteAll(s, es).tlb[..s.cp0.wired][i];
    } else {
      var k := Turn(s.cp0.random, s.cp0.wired, i);
      RandomGoesRound(s.cp0.random, s.cp0.wired, k);
      WrittenStay(s, es, k);
    }
  }
}

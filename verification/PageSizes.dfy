/** Translation for the page sizes that the hardware has, in plain arithmetic: 4K, 16K, and so on by fours
    to 16M.  */
module PageSizes {
  import opened Bits
  import opened Tlb
  import opened Pages
  import opened TlbLaws
  import F = Faults

  /** The 4K pages in a page of entry e; a legal page mask makes this a power of four. */
  function Span(e: Entry): (p: nat)
    ensures 0 < p <= 0x1000
  {
    e.mask / 0x2000 % 0x1000 + 1
  }

  predicate Legal(e: Entry) { Span(e) in {1, 4, 16, 64, 256, 1024, 4096} }

  /** The exponent of the span. */
  function Log(e: Entry): (j: nat)
    requires Legal(e)
    ensures j <= 12 && Pow2(j) == Span(e)
  {
    Powers();
    var p := Span(e);
    if p == 1 then 0 else if p == 4 then 2 else if p == 16 then 4 else if p == 64 then 6
    else if p == 256 then 8 else if p == 1024 then 10 else 12
  }

  /** The pair of pages that an address is in, and the pair that the entry is for. */
  function PairOf(x: u64, e: Entry): nat { x / 0x2000 % 0x800_0000 / Span(e) }

  /** The entry is for the address, in its region and its address space. */
  predicate Serves(e: Entry, va: u64, asid: nat) {
    && PairOf(va, e) == PairOf(e.hi, e)
    && va / 0x4000_0000_0000_0000 == e.hi / 0x4000_0000_0000_0000
    && ((e.lo0 % 2 == 1 && e.lo1 % 2 == 1) || asid == e.hi % 256)
  }

  // ------------------------------------------------------------------ powers

  lemma {:induction false} PowSum(j: nat, k: nat)
    ensures Pow2(j + k) == Pow2(j) * Pow2(k)
    decreases j
  {
    if j > 0 { PowSum(j - 1, k); }
  }

  lemma HiLoAre(x: nat, k: nat)
    ensures Hi(x, k) == x / Pow2(k) && Lo(x, k) == x % Pow2(k)
  {
    HiLo(x, k);
    UpIsTimes(Hi(x, k), k);
    QuotRem(Hi(x, k), Pow2(k), Lo(x, k));
  }

  lemma HighFits(v: nat, p: nat, q: nat)
    requires p > 0 && v < p * q
    ensures v / p < q
  {}

  /** Keeping the bits from j on, of those below j + k. */
  lemma AndUpper(v: nat, j: nat, k: nat)
    requires v < Pow2(j) * Pow2(k)
    ensures And(v, (Pow2(k) - 1) * Pow2(j)) == v / Pow2(j) * Pow2(j)
  {
    var p, m := Pow2(j), (Pow2(k) - 1) * Pow2(j);
    QuotRem(Pow2(k) - 1, p, 0);
    AndSplit(v, m, j);
    HiLoAre(v, j);
    HiLoAre(m, j);
    AndZero(v % p);
    HighFits(v, p, Pow2(k));
    Ones(v / p, k);
    UpIsTimes(v / p, j);
  }

  lemma LessOne(p: nat, q: nat)
    requires q > 0
    ensures (q - 1) * p == p * q - p
  {}

  lemma AndHigh(v: nat, j: nat)
    requires v < VPN2_SIZE && j <= 27
    ensures Pow2(j) <= VPN2_SIZE && And(v, VPN2_SIZE - Pow2(j)) == v / Pow2(j) * Pow2(j)
  {
    PowSum(j, 27 - j);
    Pow27();
    MulAtLeast(Pow2(27 - j), Pow2(j));
    LessOne(Pow2(j), Pow2(27 - j));
    AndUpper(v, j, 27 - j);
  }

  /** The CAM's comparison is that. */
  lemma MatchesPair(e: Entry, va: u64, asid: nat)
    requires Legal(e)
    ensures Matches(e, va, asid) <==> Serves(e, va, asid)
  {
    var j := Log(e);
    MatchesIs(e, va, asid);
    AndHigh(Vpn2(va), j);
    AndHigh(Vpn2(e.hi), j);
    assert VpnBits(Pairs(e) % 0x1000) == VPN2_SIZE - Pow2(j);
    TimesEqual(PairOf(va, e), PairOf(e.hi, e), Pow2(j));
  }

  lemma TimesEqual(a: nat, b: nat, p: nat)
    requires p > 0
    ensures a * p == b * p <==> a == b
  {
    if a * p == b * p {
      QuotRem(a, p, 0);
      QuotRem(b, p, 0);
    }
  }

  // ------------------------------------------------------------------ the half, the frame, the offset

  lemma PageBits(e: Entry)
    requires Legal(e)
    ensures (PairMask(e) + 1) / 2 == Pow2(12 + Log(e)) == Span(e) * 0x1000
    ensures PairMask(e) / 2 == Pow2(12 + Log(e)) - 1
  {
    PowSum(Log(e), 12);
    Powers();
    assert PairMask(e) == (Span(e) - 1) * 0x2000 + 0x1fff;
  }

  lemma {:induction false} AndPower(x: nat, k: nat)
    ensures And(x, Pow2(k)) != 0 <==> Hi(x, k) % 2 == 1
    decreases k
  {
    AndStep(x, Pow2(k));
    if k > 0 {
      AndPower(x / 2, k - 1);
      QuotRem(Pow2(k - 1), 2, 0);
    } else {
      AndZero(x / 2);
    }
  }

  /** The odd page of the pair is the second one. */
  lemma HalfIs(e: Entry, va: u64)
    requires Legal(e)
    ensures Half(e, va) == if va / (Span(e) * 0x1000) % 2 == 1 then e.lo1 else e.lo0
  {
    PageBits(e);
    AndPower(va, 12 + Log(e));
    HiLoAre(va, 12 + Log(e));
  }

  lemma FrameParts(pfn: nat, p: nat)
    requires p > 0
    ensures pfn * 0x1000 / (p * 0x1000) == pfn / p && pfn * 0x1000 % (p * 0x1000) == pfn % p * 0x1000
    ensures pfn % p * 0x1000 < p * 0x1000
    ensures pfn % p == 0 ==> pfn * 0x1000 == pfn / p * (p * 0x1000)
  {
    var q, r := pfn / p, pfn % p;
    assert pfn * 0x1000 == q * (p * 0x1000) + r * 0x1000 by { assert pfn == q * p + r; }
    QuotRem(q, p * 0x1000, r * 0x1000);
  }

  lemma OffsetIs(e: Entry, va: u64)
    requires Legal(e)
    ensures FullPa(e, va) == Or(Pfn(Half(e, va)) * 0x1000, va % (Span(e) * 0x1000))
  {
    PageBits(e);
    AndOnes(va, 12 + Log(e));
    HiLoAre(va, 12 + Log(e));
  }

  /** Of the upper parts only x has one, and the lower parts stay below 2^n. */
  lemma OrOfParts(x: nat, o: nat, n: nat)
    requires o < Pow2(n)
    ensures Or(x, o) / Pow2(n) == x / Pow2(n) && Or(x, o) % Pow2(n) == Or(x % Pow2(n), o)
  {
    OrSplit(x, o, n);
    HiLoAre(x, n);
    HiLoAre(o, n);
    QuotRem(0, Pow2(n), o);
    OrZero(x / Pow2(n));
    UpIsTimes(x / Pow2(n), n);
    OrBelow(x % Pow2(n), o, n);
    QuotRem(x / Pow2(n), Pow2(n), Or(x % Pow2(n), o));
  }

  /** A frame number and an offset in a page of p frames. */
  lemma FrameOrOffset(pfn: nat, p: nat, o: nat, page: nat, n: nat)
    requires p > 0 && page == p * 0x1000 && page == Pow2(n) && o < page
    ensures Or(pfn * 0x1000, o) / page == pfn / p
    ensures Or(pfn * 0x1000, o) % page == Or(pfn % p * 0x1000, o)
  {
    FrameParts(pfn, p);
    OrOfParts(pfn * 0x1000, o, n);
  }

  lemma AlignedFrame(pfn: nat, p: nat, o: nat, page: nat, x: nat)
    requires p > 0 && page == p * 0x1000 && pfn % p == 0
    requires x / page == pfn / p && x % page == o
    ensures x == pfn * 0x1000 + o
  {
    FrameParts(pfn, p);
    assert x == x / page * page + x % page;
  }

  /** The physical address: the frame, whose number's low bits the entry should leave clear, and the offset. */
  lemma FullPaIs(e: Entry, va: u64, pfn: nat, o: nat)
    requires Legal(e) && pfn == Half(e, va) / 64 % 0x1000_0000 && o == va % (Span(e) * 0x1000)
    ensures FullPa(e, va) / (Span(e) * 0x1000) == pfn / Span(e)
    ensures FullPa(e, va) % (Span(e) * 0x1000) == Or(pfn % Span(e) * 0x1000, o)
    ensures pfn % Span(e) == 0 ==> FullPa(e, va) == pfn * 0x1000 + o
  {
    PageBits(e);
    OffsetIs(e, va);
    FrameOrOffset(pfn, Span(e), o, Span(e) * 0x1000, 12 + Log(e));
    if pfn % Span(e) == 0 {
      OrZero(o);
      AlignedFrame(pfn, Span(e), o, Span(e) * 0x1000, FullPa(e, va));
    }
  }

  // ------------------------------------------------------------------ translation

  /** Where the entry puts the address: the frame of its half of the pair, and the offset in the page. */
  function PlaceOf(e: Entry, va: u64): nat {
    var lo := if va / PageSize(e) % 2 == 1 then e.lo1 else e.lo0;
    PlaceInPage(lo / 64 % 0x1000_0000, Span(e), va % PageSize(e))
  }

  function PlaceInPage(pfn: nat, p: nat, o: nat): nat
    requires p > 0
  {
    pfn / p * (p * 0x1000) + Or(pfn % p * 0x1000, o)
  }

  function PageSize(e: Entry): (p: nat)
    ensures p > 0
  {
    Span(e) * 0x1000
  }

  lemma PlaceIs(e: Entry, va: u64)
    requires Legal(e)
    ensures FullPa(e, va) == PlaceOf(e, va)
  {
    var pfn, o := Half(e, va) / 64 % 0x1000_0000, va % PageSize(e);
    HalfIs(e, va);
    FullPaIs(e, va, pfn, o);
    Whole(FullPa(e, va), PageSize(e), pfn / Span(e), Or(pfn % Span(e) * 0x1000, o));
  }

  lemma Whole(x: nat, p: nat, q: nat, r: nat)
    requires p > 0 && x / p == q && x % p == r
    ensures x == q * p + r
  {}

  /** An access that translates goes, in an unmapped segment, to the address less the segment, and else where
      the first entry that serves it puts it, cut to 32 bits.  */
  lemma TranslationIs(m: Machine, ea: u64, op: Op)
    requires !m.tlbFault && !Translate(m, ea, op).0.tlbFault && forall j :: 0 <= j < |m.tlb| ==> Legal(m.tlb[j])
    ensures var va, pa := F.Used(m.cp0.status, ea), Translate(m, ea, op).1;
            if F.Direct(va) then pa == (if va / W32 in {0, 0xffff_ffff} then va % 0x2000_0000 else va % W32)
            else exists i: nat ::
              && i < |m.tlb| && Serves(m.tlb[i], va, m.cp0.entryHi % 256) && pa == PlaceOf(m.tlb[i], va) % W32
              && forall j :: 0 <= j < i ==> !Serves(m.tlb[j], va, m.cp0.entryHi % 256)
  {
    var va, asid := F.Used(m.cp0.status, ea), m.cp0.entryHi % 256;
    F.SameAddresses(m.cp0.status, ea);
    F.SameSegments(va);
    if !F.Direct(va) {
      var i := Find(m.tlb, va, asid, 0);
      forall j | 0 <= j <= i ensures Matches(m.tlb[j], va, asid) <==> Serves(m.tlb[j], va, asid) {
        MatchesPair(m.tlb[j], va, asid);
      }
      PlaceIs(m.tlb[i], va);
    }
  }
}

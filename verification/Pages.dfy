/** What the CAM does with an address depends on its 4K page only, whatever the page masks. */
module Pages {
  import opened Bits
  import opened Tlb

  lemma Up12(x: nat)
    ensures Up(x, 12) == x * 0x1000
  {
    UpIsTimes(x, 12);
    Powers();
  }

  lemma Split12(x: nat)
    ensures Hi(x, 12) == x / 0x1000 && Lo(x, 12) == x % 0x1000
  {
    HiLo(x, 12);
    Up12(Hi(x, 12));
    Powers();
  }

  lemma AndZero(x: nat)
    ensures And(x, 0) == 0 && And(0, x) == 0
  {}

  /** A mask without offset bits. */
  lemma AndPage(x: nat, m: nat)
    requires m % 0x1000 == 0
    ensures And(x, m) == And(x / 0x1000, m / 0x1000) * 0x1000
  {
    AndSplit(x, m, 12);
    Split12(x);
    Split12(m);
    AndZero(x % 0x1000);
    Up12(And(x / 0x1000, m / 0x1000));
  }

  /** A mask with all offset bits. */
  lemma LowBits(x: nat)
    requires x < 0x1000
    ensures And(x, 0xfff) == x
  {
    Powers();
    Ones(x, 12);
  }

  /** A mask with all offset bits. */
  lemma AndOffset(x: nat, m: nat)
    requires m % 0x1000 == 0xfff
    ensures And(x, m) == And(x / 0x1000, m / 0x1000) * 0x1000 + x % 0x1000
  {
    AndSplit(x, m, 12);
    Split12(x);
    Split12(m);
    LowBits(x % 0x1000);
    Up12(And(x / 0x1000, m / 0x1000));
  }

  lemma OrFrame(pfn: nat, y: nat)
    ensures Or(pfn * 0x1000, y) / 0x1000 == Or(pfn, y / 0x1000) && Or(pfn * 0x1000, y) % 0x1000 == y % 0x1000
  {
    OrSplit(pfn * 0x1000, y, 12);
    Split12(pfn * 0x1000);
    Split12(y);
    OrZero(y % 0x1000);
    Up12(Or(pfn, y / 0x1000));
  }

  lemma MaskShapes(e: Entry)
    ensures VpnMask(e) % 0x1000 == 0
    ensures (PairMask(e) + 1) / 2 % 0x1000 == 0
    ensures PairMask(e) / 2 % 0x1000 == 0xfff
  {
    AndPage(Not64(PairMask(e)), VPN2_FIELD);
  }

  lemma RegionOfPage(va: u64)
    ensures Region(va) == va / 0x1000 / 0x4_0000_0000_0000
  {}

  lemma SamePageMatches(e: Entry, va: u64, vb: u64, asid: nat)
    requires va / 0x1000 == vb / 0x1000
    ensures Matches(e, va, asid) == Matches(e, vb, asid)
  {
    MaskShapes(e);
    AndPage(va, VpnMask(e));
    AndPage(vb, VpnMask(e));
    assert And(va, VpnMask(e)) == And(vb, VpnMask(e));
    RegionOfPage(va);
    RegionOfPage(vb);
  }

  lemma SamePageHalf(e: Entry, va: u64, vb: u64)
    requires va / 0x1000 == vb / 0x1000
    ensures Half(e, va) == Half(e, vb)
  {
    MaskShapes(e);
    AndPage(va, (PairMask(e) + 1) / 2);
    AndPage(vb, (PairMask(e) + 1) / 2);
  }

  lemma FrameAndOffset(e: Entry, va: u64)
    ensures FullPa(e, va) / 0x1000 == Or(Pfn(Half(e, va)), And(va / 0x1000, PairMask(e) / 2 / 0x1000))
    ensures FullPa(e, va) % 0x1000 == va % 0x1000
  {
    var m := PairMask(e) / 2;
    var y := And(va, m);
    MaskShapes(e);
    AndOffset(va, m);
    QuotRem(And(va / 0x1000, m / 0x1000), 0x1000, va % 0x1000);
    OrFrame(Pfn(Half(e, va)), y);
  }

  /** An entry treats all the addresses of a page alike. */
  lemma SamePage(e: Entry, va: u64, vb: u64, asid: nat)
    requires va / 0x1000 == vb / 0x1000
    ensures Matches(e, va, asid) == Matches(e, vb, asid)
    ensures Half(e, va) == Half(e, vb)
    ensures FullPa(e, va) / 0x1000 == FullPa(e, vb) / 0x1000
    ensures FullPa(e, va) % 0x1000 == va % 0x1000
  {
    SamePageMatches(e, va, vb, asid);
    SamePageHalf(e, va, vb);
    FrameAndOffset(e, va);
    FrameAndOffset(e, vb);
  }

  /** So does the CAM. */
  lemma {:induction false} SamePageFind(tlb: seq<Entry>, va: u64, vb: u64, asid: nat, i: nat)
    requires va / 0x1000 == vb / 0x1000 && i <= |tlb|
    ensures Find(tlb, va, asid, i) == Find(tlb, vb, asid, i)
    decreases |tlb| - i
  {
    if i < |tlb| {
      SamePage(tlb[i], va, vb, asid);
      SamePageFind(tlb, va, vb, asid, i + 1);
    }
  }
}

/** What the preamble of a test does to Status, and the mask that it loads: a test that is entered in
    kernel mode with coprocessor 1 usable, as the startup code leaves the machine after reset, starts as
    `TestRuns` asks.  */
module Preamble {
  import opened Bits
  import opened Tlb
  import Exec
  import opened TestImage
  import opened TestRuns
  import P = RandomProgram
  import R = RandomRuns

  /** Status after KX is set in what a move from Status reads. */
  function PreambleStatus(w: u32): u32 { Or64(SignExtend(ReadStatus(StatusOf(w))), R.KX) % W32 }

  /** What is read: one bit is always set. */
  function WithCu2(w: u32): u32 { if w / CU2 % 2 == 1 then w else (w + CU2) % W32 }

  lemma ReadIs(w: u32)
    ensures ReadStatus(StatusOf(w)) == WithCu2(w)
  {
    assert Word(StatusOf(w)) == w;
  }

  lemma WithCu2Is(w: u32)
    ensures WithCu2(w) % 0x80 == w % 0x80
    ensures WithCu2(w) / 0x100 == w / 0x100 + (if w / CU2 % 2 == 1 then 0 else 0x40_0000)
  {}

  lemma SignedKx(r: u32)
    ensures SignExtend(r) / R.KX % 2 == r / R.KX % 2
  {
    var e := if r < 0x8000_0000 then 0 else 0xff_ffff_ff00_0000;
    QuotRem(2 * e + r / R.KX, R.KX, r % R.KX);
    QuotRem(e + r / R.KX / 2, 2, r / R.KX % 2);
  }

  /** Setting bit 7 carries nowhere. */
  function KxSet(r: u32): nat { r + (if r / R.KX % 2 == 1 then 0 else R.KX) }

  lemma KxSetIs(r: u32)
    ensures KxSet(r) == r / 0x100 * 0x100 + 0x80 + r % 0x80 < W32
  {
    var h, k, l := r / 0x100, r / 0x80 % 2, r % 0x80;
    assert r == h * 0x100 + k * 0x80 + l;
  }

  lemma SetKxIs(r: u32)
    ensures Or64(SignExtend(r), R.KX) % W32 == KxSet(r)
  {
    R.SetsKx(SignExtend(r));
    SignedKx(r);
    KxSetIs(r);
    QuotRem(if r < 0x8000_0000 then 0 else 0xffff_ffff, W32, KxSet(r));
  }

  lemma PreambleStatusIs(w: u32)
    ensures PreambleStatus(w) == WithCu2(w) / 0x100 * 0x100 + 0x80 + w % 0x80
  {
    ReadIs(w);
    SetKxIs(WithCu2(w));
    KxSetIs(WithCu2(w));
    WithCu2Is(w);
  }

  lemma ModeOf(w: u32)
    ensures KernelMode(StatusOf(w)) <==>
              (w % 0x80 / 2 % 2 == 1 || w % 0x80 / 4 % 2 == 1 || w % 0x80 / 8 % 4 == 0)
    ensures StatusOf(w).cu1 <==> w / 0x100 / 0x20_0000 % 2 == 1
    ensures w / CU2 == w / 0x100 / 0x40_0000
  {
    LowField2(w / 0x80, w % 0x80);
    LowField4(w / 0x80, w % 0x80);
    LowField8(w / 0x80, w % 0x80);
    HighFields(w / 0x100, w % 0x100);
  }

  lemma AddedCu2(h: nat)
    ensures (h + 0x40_0000) / 0x20_0000 % 2 == h / 0x20_0000 % 2
    ensures h / 0x40_0000 % 2 == 0 ==> (h + 0x40_0000) / 0x40_0000 % 2 == 1
  {
    QuotRem(h / 0x20_0000 + 2, 0x20_0000, h % 0x20_0000);
    QuotRem(h / 0x40_0000 + 1, 0x40_0000, h % 0x40_0000);
  }

  lemma UsableIs(h: nat, e: nat)
    requires e < 0x80 && h * 0x100 + 0x80 + e < W32
    ensures R.Usable(h * 0x100 + 0x80 + e) <==> h / 0x20_0000 % 2 == 1
  {
    QuotRem(2 * h + 1, 0x80, e);
    HighFields(h, 0x80 + e);
  }

  /** The preamble makes Status one that a test can run with exactly when it is entered in kernel mode with
      coprocessor 1 usable.  */
  lemma PreambleStatusExactly(w: u32)
    ensures Running(PreambleStatus(w)) && R.Usable(PreambleStatus(w))
            <==> KernelMode(StatusOf(w)) && StatusOf(w).cu1
  {
    var h, e, p := WithCu2(w) / 0x100, w % 0x80, PreambleStatus(w);
    PreambleStatusIs(w);
    assert p == h * 0x100 + 1 * 0x80 + e;
    WithCu2Is(w);
    ModeOf(w);
    AddedCu2(w / 0x100);
    RunningIs(h, 1, e);
    UsableIs(h, e);
  }

  /** After reset and the startup code Status has ERL, BEV, FR and CU2 to CU0; the preamble adds KX. */
  lemma BootStatus(w: u32)
    requires w == 0x7440_0004
    ensures PreambleStatus(w) == 0x7440_0084
  {
    PreambleStatusIs(w);
    BootParts(w);
  }

  lemma BootParts(w: u32)
    requires w == 0x7440_0004
    ensures WithCu2(w) / 0x100 == 0x74_4000 && w % 0x80 == 4
  {}

  /** A test can run with it. */
  lemma BootRuns(p: u32)
    requires p == 0x7440_0084
    ensures Running(p) && R.Usable(p) && StatusOf(p).erl && !StatusOf(p).exl
  {}

  lemma Pow16()
    ensures Pow2(16) == 0x1_0000
  {
    Powers();
    assert Pow2(15) == 0x8000;
  }

  lemma Split16(x: nat)
    ensures Hi(x, 16) == x / 0x1_0000 && Lo(x, 16) == x % 0x1_0000
  {
    HiLo(x, 16);
    UpIsTimes(Hi(x, 16), 16);
    Pow16();
    QuotRem(Hi(x, 16), 0x1_0000, Lo(x, 16));
  }

  lemma OrApart(x: nat, h: nat, y: nat)
    requires x == h * 0x1_0000 && y < 0x1_0000
    ensures Or(x, y) == x + y
  {
    QuotRem(h, 0x1_0000, 0);
    Split16(x);
    Split16(y);
    OrParts(x, y, h);
  }

  lemma OrParts(x: nat, y: nat, h: nat)
    requires Hi(x, 16) == h && Lo(x, 16) == 0 && Hi(y, 16) == 0 && Lo(y, 16) == y
    ensures Or(x, y) == h * 0x1_0000 + y
  {
    OrSplit(x, y, 16);
    OrZero(h);
    OrZero(y);
    UpIsTimes(h, 16);
    Pow16();
  }

  /** The mask that the preamble puts together. */
  lemma PreambleMask(x: u64, y: u64)
    requires x == SignExtend(0xffff_0000) && y == 0xff7f
    ensures Or64(x, y) == W64 - 1 - R.KX
  {
    OrApart(x, 0xffff_ffff_ffff, y);
  }

  /** So a test that the startup code enters starts as it should. */
  lemma PreambleStarts(im: Image, s: Exec.Cpu, w: u32, x: u64, y: u64)
    requires Exec.Fit(s) && s.m.pc == im.Pc(0) && !s.m.inDelaySlot
    requires KernelMode(StatusOf(w)) && StatusOf(w).cu1 && s.m.cp0.status == StatusOf(PreambleStatus(w))
    requires x == SignExtend(0xffff_0000) && y == 0xff7f
    requires s.gpr[P.SB] == im.b.base && s.gpr[P.GP] == Or64(x, y)
    ensures Starts(im, PreambleStatus(w), s)
  {
    PreambleStatusExactly(w);
    PreambleMask(x, y);
  }
}

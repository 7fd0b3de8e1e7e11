/** Address translation of the golden interpreter: the 48-entry first-match CAM with variable page
    sizes, the exceptions it raises, and the instructions that read and write it.  This module is
    the architecture: the micro-TLB in front of the CAM is in `TranslationUnit`.

    The build is the interpreter's default: R4400, 40-bit segments, 48 entries.  Registers are
    natural numbers below 2^64 (or 2^32); shifts and field masks are divisions and remainders, and
    the masks that software chooses use `Bits.And`.  */
module Tlb {
  import opened Bits

  const ENTRIES: nat := 48

  /** VA[39:13], the virtual page number of an even/odd pair of 4K pages, in place. */
  const VPN2_FIELD: nat := 0xff_ffff_e000
  const VPN2_SIZE: nat := 0x800_0000

  datatype Op = Fetch | Load | Store

  /** A CAM entry: EntryHi (R, VPN2, ASID), the two EntryLo words (PFN, D, V, G), the page mask. */
  datatype Entry = Entry(hi: u64, lo0: u64, lo1: u64, mask: u32)

  // ------------------------------------------------------------------ one entry

  function Not64(x: u64): u64 { W64 - 1 - x }
  function Region(va: u64): nat { va / 0x4000_0000_0000_0000 }
  function Vpn2(va: u64): nat { va / 0x2000 % VPN2_SIZE }
  function Asid(hi: u64): nat { hi % 256 }

  /** The page mask's implemented bits, 24 to 13, with the 13 offset bits of an even/odd pair. */
  function PairMask(e: Entry): (m: u64)
    ensures m < 0x200_0000
  {
    e.mask / 0x2000 % 0x1000 * 0x2000 + 0x1fff
  }

  function VpnMask(e: Entry): nat { And(Not64(PairMask(e)), VPN2_FIELD) }
  predicate Global(e: Entry) { e.lo0 % 2 == 1 && e.lo1 % 2 == 1 }

  predicate Matches(e: Entry, va: u64, asid: nat) {
    && And(va, VpnMask(e)) == And(e.hi, VpnMask(e))
    && Region(va) == Region(e.hi)
    && (Global(e) || asid == Asid(e.hi))
  }

  /** The EntryLo word of the half of the pair that va is in. */
  function Half(e: Entry, va: u64): u64 {
    if And(va, (PairMask(e) + 1) / 2) != 0 then e.lo1 else e.lo0
  }

  predicate IsValid(lo: u64) { lo / 2 % 2 == 1 }
  predicate IsDirty(lo: u64) { lo / 4 % 2 == 1 }
  function Pfn(lo: u64): nat { lo / 64 % 0x1000_0000 }

  function FullPa(e: Entry, va: u64): nat {
    Or(Pfn(Half(e, va)) * 0x1000, And(va, PairMask(e) / 2))
  }

  // ------------------------------------------------------------------ the CAM

  /** The first entry from i on that matches, or the number of entries. */
  function Find(tlb: seq<Entry>, va: u64, asid: nat, i: nat): (r: nat)
    requires i <= |tlb|
    ensures i <= r <= |tlb|
    ensures r < |tlb| ==> Matches(tlb[r], va, asid)
    ensures forall j :: i <= j < r ==> !Matches(tlb[j], va, asid)
    decreases |tlb| - i
  {
    if i == |tlb| || Matches(tlb[i], va, asid) then i else Find(tlb, va, asid, i + 1)
  }

  datatype Outcome = Mapped(pa: u32) | Modified(i: nat) | Invalid(i: nat) | Refill

  function Cam(tlb: seq<Entry>, va: u64, asid: nat, op: Op): Outcome {
    var i := Find(tlb, va, asid, 0);
    if i == |tlb| then Refill
    else if !IsValid(Half(tlb[i], va)) then Invalid(i)
    else if op == Store && !IsDirty(Half(tlb[i], va)) then Modified(i)
    else Mapped(FullPa(tlb[i], va) % W32)
  }

  // ------------------------------------------------------------------ the machine

  /** `rest`: what is left of the register when the other fields are taken off. */
  datatype Status = Status(exl: bool, erl: bool, bev: bool, ksu: nat, kx: bool, sx: bool, ux: bool,
                           fr: bool, cu1: bool, rest: int)
  datatype Cause = Cause(bd: bool, code: nat, ce: nat)

  /** The CP0 registers that translation and exceptions use. */
  datatype Cp0 = Cp0(status: Status, cause: Cause, epc: u64, errorEpc: u64,
                     entryHi: u64, entryLo0: u64, entryLo1: u64, pageMask: u32,
                     index: u32, random: u32, wired: u32,
                     badVAddr: u64, context: u64, xContext: u64)

  datatype Machine = Machine(pc: u64, inDelaySlot: bool, tlbFault: bool, linkValid: bool, linkAddr: nat,
                             cp0: Cp0, tlb: seq<Entry>)

  function SignExtend(x: u32): u64 { if x < 0x8000_0000 then x else x + (W64 - W32) }
  function Add(x: u64, d: int): u64 { (x + d) % W64 }

  predicate KernelMode(st: Status) { st.ksu == 0 || st.exl || st.erl }

  /** The current mode uses 64-bit addresses. */
  predicate Wide(st: Status) {
    || (KernelMode(st) && st.kx)
    || (st.ksu == 1 && !st.exl && !st.erl && st.sx)
    || (st.ksu == 2 && !st.exl && !st.erl && st.ux)
  }

  function Canonical(st: Status, va: u64): u64 {
    if Wide(st) then va else SignExtend(va % W32)
  }

  predicate Compatible(va: u64) { va / W32 == 0 || va / W32 == 0xffff_ffff }
  predicate Kseg01(va: u64) { Compatible(va) && va % W32 / 0x2000_0000 in {4, 5} }
  predicate Xkphys(va: u64) { !Compatible(va) && Region(va) == 2 }
  predicate Unmapped(va: u64) { Kseg01(va) || Xkphys(va) }
  function UnmappedPa(va: u64): u32 { if Kseg01(va) then va % 0x2000_0000 else va % W32 }

  // ------------------------------------------------------------------ exceptions

  /** EPC and Cause.BD, left alone when an exception is already being handled; any exception breaks
      the load-linked reservation. */
  function SetExcPc(s: Machine): Machine {
    var keep := s.cp0.status.exl;
    s.(linkValid := false,
       cp0 := s.cp0.(epc := if keep then s.cp0.epc else if s.inDelaySlot then Add(s.pc, -4) else s.pc,
                     cause := if keep then s.cp0.cause else s.cp0.cause.(bd := s.inDelaySlot)))
  }

  /** EntryHi as the hardware sets it for a faulting address. */
  function FaultHi(va: u64, asid: nat): u64
    requires asid < 256
  {
    Region(va) * 0x4000_0000_0000_0000 + Vpn2(va) * 0x2000 + asid
  }

  function SetFaultState(c: Cp0, va: u64): Cp0 {
    c.(badVAddr := va,
       entryHi := FaultHi(va, Asid(c.entryHi)),
       context := c.context / 0x80_0000 * 0x80_0000 + va / 0x2000 % 0x8_0000 * 16,
       xContext := c.xContext / 0x2_0000_0000 * 0x2_0000_0000 + Region(va) * 0x8000_0000 + Vpn2(va) * 16)
  }

  function Vector(st: Status, refill: bool, wide: bool): u64 {
    SignExtend((if st.bev then 0xbfc0_0200 else 0x8000_0000)
               + (if refill then (if wide then 0x80 else 0) else 0x180))
  }

  function RaiseTlb(s: Machine, va: u64, code: nat, refill: bool, wide: bool): Machine {
    var exl := s.cp0.status.exl;
    var t := SetExcPc(s.(cp0 := SetFaultState(s.cp0, va)));
    t.(cp0 := t.cp0.(cause := t.cp0.cause.(code := code), status := t.cp0.status.(erl := false, exl := true)),
       pc := Vector(t.cp0.status, refill && !exl, wide),
       tlbFault := true)
  }

  /** Every exception but the TLB's. */
  function RaiseGeneral(m: Machine, code: nat): Machine {
    var t := SetExcPc(m);
    t.(cp0 := t.cp0.(cause := t.cp0.cause.(code := code), status := t.cp0.status.(erl := false, exl := true)),
       pc := Vector(t.cp0.status, false, false))
  }

  /** Coprocessor 1 is not usable. */
  function RaiseUnusable(m: Machine): Machine {
    var t := RaiseGeneral(m, 11);
    t.(cp0 := t.cp0.(cause := t.cp0.cause.(ce := 1)))
  }

  // ------------------------------------------------------------------ translation

  /** A mapped address: what the CAM says, or the exception. */
  function TranslateMapped(s: Machine, va: u64, op: Op): (r: (Machine, u32))
    ensures r.0.tlb == s.tlb
  {
    var code := if op == Store then 3 else 2;
    match Cam(s.tlb, va, Asid(s.cp0.entryHi), op)
    case Mapped(pa) => (s, pa)
    case Modified(_) => (RaiseTlb(s, va, 1, false, Wide(s.cp0.status)), 0)
    case Invalid(_) => (RaiseTlb(s, va, code, false, Wide(s.cp0.status)), 0)
    case Refill => (RaiseTlb(s, va, code, true, Wide(s.cp0.status)), 0)
  }

  /** Translate va for an access of kind op: the new machine and the physical address (0 after a
      fault).  No micro-TLB. */
  function Translate(s: Machine, va: u64, op: Op): (r: (Machine, u32))
    ensures r.0.tlb == s.tlb
  {
    var a := Canonical(s.cp0.status, va);
    if Unmapped(a) then (s, UnmappedPa(a)) else TranslateMapped(s, a, op)
  }

  // ------------------------------------------------------------------ TLB instructions

  function Staged(c: Cp0): Entry { Entry(c.entryHi, c.entryLo0, c.entryLo1, c.pageMask) }

  function Advance(s: Machine): Machine { s.(pc := Add(s.pc, 4)) }

  function Tlbr(s: Machine): Machine {
    var i := s.cp0.index % 64;
    Advance(if i < |s.tlb| then
              s.(cp0 := s.cp0.(entryHi := s.tlb[i].hi, entryLo0 := s.tlb[i].lo0, entryLo1 := s.tlb[i].lo1,
                               pageMask := s.tlb[i].mask))
            else s)
  }

  /** `mirrored`: the TLB is written from outside only, and the instruction writes nothing. */
  function Tlbwi(s: Machine, mirrored: bool): Machine {
    var i := s.cp0.index % 64;
    Advance(if !mirrored && i < |s.tlb| then s.(tlb := s.tlb[i := Staged(s.cp0)]) else s)
  }

  function NextRandom(random: u32, wired: u32): u32 {
    if random % 64 <= wired % 64 then ENTRIES - 1 else random % 64 - 1
  }

  function Tlbwr(s: Machine, mirrored: bool): Machine {
    var i := s.cp0.random % 64;
    Advance(if mirrored then s
            else s.(tlb := if i < |s.tlb| then s.tlb[i := Staged(s.cp0)] else s.tlb,
                    cp0 := s.cp0.(random := NextRandom(s.cp0.random, s.cp0.wired))))
  }

  /** A TLB write reported from outside. */
  function Mirror(s: Machine, i: int, e: Entry): Machine {
    if 0 <= i < |s.tlb| then s.(tlb := s.tlb[i := e]) else s
  }

  predicate ProbeMatches(e: Entry, hi: u64) {
    var mask := Not64(e.mask / 0x2000 * 0x2000 + 0x1fff);
    && And(hi, mask) == And(e.hi, mask)
    && (Global(e) || Asid(hi) == Asid(e.hi))
  }

  function ProbeFind(tlb: seq<Entry>, hi: u64, i: nat): (r: nat)
    requires i <= |tlb|
    ensures i <= r <= |tlb|
    ensures r < |tlb| ==> ProbeMatches(tlb[r], hi)
    ensures forall j :: i <= j < r ==> !ProbeMatches(tlb[j], hi)
    decreases |tlb| - i
  {
    if i == |tlb| || ProbeMatches(tlb[i], hi) then i else ProbeFind(tlb, hi, i + 1)
  }

  /** What TLBP puts in Index: the entry, or the failure bit alone. */
  function Probed(tlb: seq<Entry>, hi: u64): u32
    requires |tlb| < 0x8000_0000
  {
    var i := ProbeFind(tlb, hi, 0);
    if i < |tlb| then i else 0x8000_0000
  }

  function Tlbp(s: Machine): Machine
    requires |s.tlb| == ENTRIES
  {
    Advance(s.(cp0 := s.cp0.(index := Probed(s.tlb, s.cp0.entryHi))))
  }

  /** Return from an exception; breaks the load-linked reservation. */
  function Eret(s: Machine): Machine {
    if s.cp0.status.erl then
      s.(linkValid := false, pc := SignExtend(s.cp0.errorEpc % W32),
         cp0 := s.cp0.(status := s.cp0.status.(erl := false)))
    else
      s.(linkValid := false, pc := s.cp0.epc, cp0 := s.cp0.(status := s.cp0.status.(exl := false)))
  }
}

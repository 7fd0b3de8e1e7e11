/** The interpreter's translation unit: the CAM's array, the CP0 registers, and a 64-entry
    direct-mapped micro-TLB that a lookup tries first and a CAM hit fills.  Every method is proved
    against the architecture, which has no micro-TLB.  */
module TranslationUnit {
  import opened Bits
  import opened Tlb
  import opened Pages

  const UTLB_SZ: nat := 64

  /** A recent (page, address space) and the frame it mapped to. */
  datatype Cached = Cached(vpn: nat, asid: nat, ppn: u32, dirty: bool, valid: bool)

  /** The CAM maps the cached page, for loads, to the cached frame. */
  predicate Agrees(tlb: seq<Entry>, c: Cached) {
    c.vpn * 0x1000 < W64 &&
    var va: u64 := c.vpn * 0x1000;
    var i := Find(tlb, va, c.asid, 0);
    && i < |tlb|
    && IsValid(Half(tlb[i], va))
    && c.dirty == IsDirty(Half(tlb[i], va))
    && c.ppn == FullPa(tlb[i], va) / 0x1000 % W32
  }

  lemma Remainder32(k: nat, y: nat)
    requires y < W32
    ensures (k * W32 + y) % W32 == y
  {}

  /** A frame number cut to 32 bits, shifted back with the page offset, is the address cut to 32 bits. */
  lemma Rejoin(x: nat)
    ensures x / 0x1000 % W32 * 0x1000 % W32 + x % 0x1000 == x % W32
  {
    var q, r := x / 0x1000, x % 0x1000;
    var a, b := q / W32, q % W32;
    var c, d := b / 0x10_0000, b % 0x10_0000;
    assert b * 0x1000 == c * W32 + d * 0x1000;
    Remainder32(c, d * 0x1000);
    assert x == (a * 0x1000 + c) * W32 + (d * 0x1000 + r);
    Remainder32(a * 0x1000 + c, d * 0x1000 + r);
  }

  /** What a hit returns is what the CAM would. */
  lemma HitAgrees(tlb: seq<Entry>, c: Cached, va: u64, op: Op)
    requires Agrees(tlb, c) && c.vpn == va / 0x1000 && !(op == Store && !c.dirty)
    ensures Cam(tlb, va, c.asid, op) == Mapped(c.ppn * 0x1000 % W32 + va % 0x1000)
  {
    var page: u64 := c.vpn * 0x1000;
    SamePageFind(tlb, page, va, c.asid, 0);
    var i := Find(tlb, va, c.asid, 0);
    SamePage(tlb[i], va, page, c.asid);
    Rejoin(FullPa(tlb[i], va));
  }

  /** What is kept of entry e for the page of va. */
  function Entered(va: u64, asid: nat, e: Entry): Cached {
    Cached(va / 0x1000, asid, FullPa(e, va) / 0x1000 % W32, IsDirty(Half(e, va)), true)
  }

  /** What a CAM hit fills in agrees with the CAM. */
  lemma FillAgrees(tlb: seq<Entry>, va: u64, asid: nat, i: nat)
    requires i == Find(tlb, va, asid, 0) < |tlb| && IsValid(Half(tlb[i], va))
    ensures Agrees(tlb, Entered(va, asid, tlb[i]))
  {
    var page: u64 := va / 0x1000 * 0x1000;
    SamePageFind(tlb, va, page, asid, 0);
    SamePage(tlb[i], va, page, asid);
  }

  // ------------------------------------------------------------------ runs of the architecture

  datatype Action =
    | Access(va: u64, op: Op) | WriteIndexed | WriteRandom | WriteMirrored(i: int, e: Entry)
    | ReadIndexed | Probe | Return | SetCp0(c: Cp0)

  function Act(s: Machine, a: Action, mirrored: bool): (Machine, u32)
    requires |s.tlb| == ENTRIES
  {
    match a
    case Access(va, op) => Translate(s, va, op)
    case WriteIndexed => (Tlbwi(s, mirrored), 0)
    case WriteRandom => (Tlbwr(s, mirrored), 0)
    case WriteMirrored(i, e) => (Mirror(s, i, e), 0)
    case ReadIndexed => (Tlbr(s), 0)
    case Probe => (Tlbp(s), 0)
    case Return => (Eret(s), 0)
    case SetCp0(c) => (s.(cp0 := c), 0)
  }

  function ActAll(s: Machine, acts: seq<Action>, mirrored: bool): (r: (Machine, seq<u32>))
    requires |s.tlb| == ENTRIES
    ensures |r.0.tlb| == ENTRIES && |r.1| == |acts|
  {
    if acts == [] then (s, [])
    else
      var before := ActAll(s, acts[..|acts| - 1], mirrored);
      var last := Act(before.0, acts[|acts| - 1], mirrored);
      (last.0, before.1 + [last.1])
  }

  /** The TLB after the writes that are reported from outside, and no other. */
  function Followed(tlb: seq<Entry>, acts: seq<Action>): (r: seq<Entry>)
    ensures |r| == |tlb|
  {
    if acts == [] then tlb
    else
      var before, a := Followed(tlb, acts[..|acts| - 1]), acts[|acts| - 1];
      if a.WriteMirrored? && 0 <= a.i < |tlb| then before[..a.i] + [a.e] + before[a.i + 1..] else before
  }

  lemma Replaced(tlb: seq<Entry>, i: nat, e: Entry)
    requires i < |tlb|
    ensures tlb[i := e] == tlb[..i] + [e] + tlb[i + 1..]
  {}

  /** Where the TLB is mirrored from outside it holds what was reported, whatever TLB instructions run. */
  lemma {:induction false} MirrorFollows(s: Machine, acts: seq<Action>)
    requires |s.tlb| == ENTRIES
    ensures ActAll(s, acts, true).0.tlb == Followed(s.tlb, acts)
    decreases |acts|
  {
    if acts != [] {
      var a, before := acts[|acts| - 1], ActAll(s, acts[..|acts| - 1], true).0;
      MirrorFollows(s, acts[..|acts| - 1]);
      if a.WriteMirrored? && 0 <= a.i < 48 { Replaced(before.tlb, a.i, a.e); }
    }
  }

  class Mmu {
    var pc: u64
    var inDelaySlot: bool
    var tlbFault: bool
    var linkValid: bool
    var linkAddr: nat
    var cp0: Cp0
    const tlb: array<Entry>
    const utlb: array<Cached>

    /** The architectural state: everything but the micro-TLB. */
    ghost function View(): Machine
      reads this, tlb
    {
      Machine(pc, inDelaySlot, tlbFault, linkValid, linkAddr, cp0, tlb[..])
    }

    ghost predicate Valid()
      reads this, tlb, utlb
    {
      && tlb.Length == ENTRIES && utlb.Length == UTLB_SZ
      && forall k :: 0 <= k < UTLB_SZ && utlb[k].valid ==> Agrees(tlb[..], utlb[k])
    }

    constructor (c: Cp0, pc: u64)
      ensures Valid() && fresh(tlb) && fresh(utlb)
      ensures View() == Machine(pc, false, false, false, 0, c, seq(ENTRIES, _ => Entry(0, 0, 0, 0)))
    {
      this.pc, cp0, inDelaySlot, tlbFault, linkValid, linkAddr := pc, c, false, false, false, 0;
      tlb := new Entry[ENTRIES](_ => Entry(0, 0, 0, 0));
      utlb := new Cached[UTLB_SZ](_ => Cached(0, 0, 0, false, false));
    }

    /** Drop every cached translation. */
    method Flush()
      requires Valid()
      modifies utlb
      ensures utlb.Length == UTLB_SZ && forall k :: 0 <= k < UTLB_SZ ==> !utlb[k].valid
    {
      var k := 0;
      while k < UTLB_SZ
        invariant 0 <= k <= UTLB_SZ
        invariant forall j :: 0 <= j < k ==> !utlb[j].valid
      {
        utlb[k] := utlb[k].(valid := false);
        k := k + 1;
      }
    }

    method Raise(va: u64, code: nat, refill: bool, wide: bool)
      modifies this
      ensures View() == RaiseTlb(old(View()), va, code, refill, wide)
    {
      var exl := cp0.status.exl;
      cp0 := SetFaultState(cp0, va);
      linkValid := false;
      if !exl {
        if inDelaySlot {
          cp0 := cp0.(epc := Add(pc, -4), cause := cp0.cause.(bd := true));
        } else {
          cp0 := cp0.(epc := pc, cause := cp0.cause.(bd := false));
        }
      }
      cp0 := cp0.(cause := cp0.cause.(code := code), status := cp0.status.(erl := false, exl := true));
      pc := Vector(cp0.status, refill && !exl, wide);
      tlbFault := true;
    }

    /** Any exception but the TLB's. */
    method RaiseCode(code: nat)
      modifies this
      ensures View() == RaiseGeneral(old(View()), code)
    {
      linkValid := false;
      if !cp0.status.exl {
        if inDelaySlot {
          cp0 := cp0.(epc := Add(pc, -4), cause := cp0.cause.(bd := true));
        } else {
          cp0 := cp0.(epc := pc, cause := cp0.cause.(bd := false));
        }
      }
      cp0 := cp0.(cause := cp0.cause.(code := code), status := cp0.status.(erl := false, exl := true));
      pc := Vector(cp0.status, false, false);
    }

    method RaiseUnusableFp()
      modifies this
      ensures View() == RaiseUnusable(old(View()))
    {
      RaiseCode(11);
      cp0 := cp0.(cause := cp0.cause.(ce := 1));
    }

    /** The scan of the CAM. */
    method Scan(va: u64, asid: nat) returns (i: nat)
      requires Valid()
      ensures i == Find(tlb[..], va, asid, 0)
    {
      i := 0;
      while i < ENTRIES && !Matches(tlb[i], va, asid)
        invariant i <= ENTRIES
        invariant Find(tlb[..], va, asid, 0) == Find(tlb[..], va, asid, i)
      {
        i := i + 1;
      }
    }

    /** The CAM, its exceptions, and the fill of the micro-TLB. */
    method Walk(va: u64, op: Op) returns (pa: u32)
      requires Valid()
      modifies this, utlb
      ensures Valid()
      ensures (View(), pa) == TranslateMapped(old(View()), va, op)
    {
      var wide := Wide(cp0.status);
      var asid := Asid(cp0.entryHi);
      var i := Scan(va, asid);
      var code := if op == Store then 3 else 2;
      if i == ENTRIES {
        Raise(va, code, true, wide);
        return 0;
      }
      var lo := Half(tlb[i], va);
      if !IsValid(lo) {
        Raise(va, code, false, wide);
        return 0;
      }
      if op == Store && !IsDirty(lo) {
        Raise(va, 1, false, wide);
        return 0;
      }
      Fill(va, asid, i);
      pa := FullPa(tlb[i], va) % W32;
    }

    /** The place of va's page in the micro-TLB gets what entry i says of it. */
    method Fill(va: u64, asid: nat, i: nat)
      requires Valid() && i < ENTRIES && i == Find(tlb[..], va, asid, 0) && IsValid(Half(tlb[i], va))
      modifies utlb
      ensures Valid() && View() == old(View())
      ensures utlb[..] == old(utlb[..])[va / 0x1000 % UTLB_SZ := Entered(va, asid, tlb[i])]
    {
      FillAgrees(tlb[..], va, asid, i);
      utlb[va / 0x1000 % UTLB_SZ] := Entered(va, asid, tlb[i]);
    }

    /** Translation through the micro-TLB is the architecture's translation. */
    method TranslateVa(ea: u64, op: Op) returns (pa: u32)
      requires Valid()
      modifies this, utlb
      ensures Valid()
      ensures (View(), pa) == Translate(old(View()), ea, op)
    {
      var va := Canonical(cp0.status, ea);
      if Kseg01(va) { return va % 0x2000_0000; }
      if Xkphys(va) { return va % W32; }
      var asid := Asid(cp0.entryHi);
      var vpn := va / 0x1000;
      var ce := utlb[vpn % UTLB_SZ];
      if ce.valid && ce.vpn == vpn && ce.asid == asid && !(op == Store && !ce.dirty) {
        HitAgrees(tlb[..], ce, va, op);
        return ce.ppn * 0x1000 % W32 + va % 0x1000;
      }
      pa := Walk(va, op);
    }

    method ExecTlbwi(mirrored: bool)
      requires Valid()
      modifies this, tlb, utlb
      ensures Valid() && View() == Tlbwi(old(View()), mirrored)
    {
      var i := cp0.index % 64;
      Flush();
      if !mirrored && i < ENTRIES { tlb[i] := Staged(cp0); }
      pc := Add(pc, 4);
    }

    method ExecTlbwr(mirrored: bool)
      requires Valid()
      modifies this, tlb, utlb
      ensures Valid() && View() == Tlbwr(old(View()), mirrored)
    {
      var i := cp0.random % 64;
      Flush();
      if !mirrored && i < ENTRIES { tlb[i] := Staged(cp0); }
      if !mirrored {
        cp0 := cp0.(random := if cp0.random % 64 <= cp0.wired % 64 then ENTRIES - 1 else cp0.random % 64 - 1);
      }
      pc := Add(pc, 4);
    }

    method ApplyTlbWrite(i: int, e: Entry)
      requires Valid()
      modifies tlb, utlb
      ensures Valid() && View() == Mirror(old(View()), i, e)
    {
      if i < 0 || i >= ENTRIES { return; }
      Flush();
      tlb[i] := e;
    }

    method ExecTlbr()
      requires Valid()
      modifies this
      ensures Valid() && View() == Tlbr(old(View()))
    {
      var i := cp0.index % 64;
      if i < ENTRIES {
        cp0 := cp0.(entryHi := tlb[i].hi, entryLo0 := tlb[i].lo0, entryLo1 := tlb[i].lo1, pageMask := tlb[i].mask);
      }
      pc := Add(pc, 4);
    }

    method ExecTlbp()
      requires Valid()
      modifies this
      ensures Valid() && View() == Tlbp(old(View()))
    {
      var i := 0;
      while i < ENTRIES && !ProbeMatches(tlb[i], cp0.entryHi)
        invariant i <= ENTRIES
        invariant ProbeFind(tlb[..], cp0.entryHi, 0) == ProbeFind(tlb[..], cp0.entryHi, i)
      {
        i := i + 1;
      }
      cp0 := cp0.(index := if i < ENTRIES then i else 0x8000_0000);
      pc := Add(pc, 4);
    }

    method ExecEret()
      requires Valid()
      modifies this
      ensures Valid() && View() == Eret(old(View()))
    {
      linkValid := false;
      if cp0.status.erl {
        pc := Add(SignExtend(cp0.errorEpc % W32), -4);
        cp0 := cp0.(status := cp0.status.(erl := false));
      } else {
        pc := Add(cp0.epc, -4);
        cp0 := cp0.(status := cp0.status.(exl := false));
      }
      pc := Add(pc, 4);
    }

    /** Software writes a CP0 register (the address space among them); the cached translations of
        other address spaces stay. */
    method WriteCp0(c: Cp0)
      requires Valid()
      modifies this`cp0
      ensures Valid() && View() == old(View()).(cp0 := c)
    {
      cp0 := c;
    }

    /** One action of a run, on the interpreter with its micro-TLB. */
    method Perform(a: Action, mirrored: bool) returns (pa: u32)
      requires Valid()
      modifies this, tlb, utlb
      ensures Valid()
      ensures (View(), pa) == Act(old(View()), a, mirrored)
    {
      pa := 0;
      match a
      case Access(va, op) => pa := TranslateVa(va, op);
      case WriteIndexed => ExecTlbwi(mirrored);
      case WriteRandom => ExecTlbwr(mirrored);
      case WriteMirrored(i, e) => ApplyTlbWrite(i, e);
      case ReadIndexed => ExecTlbr();
      case Probe => ExecTlbp();
      case Return => ExecEret();
      case SetCp0(c) => WriteCp0(c);
    }

    /** Over any run the micro-TLB changes no physical address, no fault and no register. */
    method PerformAll(acts: seq<Action>, mirrored: bool) returns (pas: seq<u32>)
      requires Valid()
      modifies this, tlb, utlb
      ensures Valid()
      ensures (View(), pas) == ActAll(old(View()), acts, mirrored)
    {
      pas := [];
      var k := 0;
      while k < |acts|
        invariant k <= |acts| && Valid()
        invariant (View(), pas) == ActAll(old(View()), acts[..k], mirrored)
      {
        var pa := Perform(acts[k], mirrored);
        assert acts[..k + 1][..k] == acts[..k];
        pas := pas + [pa];
        k := k + 1;
      }
      assert acts[..k] == acts;
    }
  }
}

/** Floating-point stores do not check their alignment, and the reservation logic looks at the first
    byte's line only: one that goes on into the reserved line changes it unseen.  */
module FpStores {
  import opened Bits
  import opened Tlb
  import opened Unaligned
  import opened Exec
  import opened Precise
  import opened Reservation

  /** What the store i finds, whatever is reserved, stored and in memory. */
  ghost predicate Variant(s: Cpu, t: Cpu) {
    t == s.(m := s.m.(linkValid := true, linkAddr := t.m.linkAddr), mem := t.mem, fpr := t.fpr)
  }

  /** When i is run and a reservation is still there, nothing in its line has changed. */
  ghost predicate Watched(t: Cpu, i: Instr)
    requires Fit(t) && i.StoreFp?
  {
    var u := ExecPlain(BreakLink(t, i), i);
    u.m.linkValid ==> SameLine(t, u, t.m.linkAddr)
  }

  lemma NextLine(pa: nat)
    ensures Line(Line(pa) + 16) == Line(pa) + 16 && Line(pa) + 16 == pa - pa % 16 + 16
  {
    QuotRem(pa / 16 + 1, 16, 0);
  }

  /** All ones, stored into empty memory, show in each byte. */
  lemma OnesShow(pa: nat, dw: bool, b: nat)
    requires pa <= b < pa + Bytes(FpWidth(dw))
    ensures ByteAt(WriteMem(map[], pa, FpWidth(dw), if dw then W64 - 1 else W32 - 1), b) == 255
  {
    var x := W32 - 1;
    if dw {
      assert (W64 - 1) / W32 == x;
      WordOnes(map[], pa, b);
      WordOnes(SetWord(map[], pa, x), pa + 4, b);
      if b < pa + 4 { WordFrame(SetWord(map[], pa, x), pa + 4, W64 - 1, b); }
    } else {
      WordOnes(map[], pa, b);
    }
  }

  lemma WordOnes(mem: Mem, a: nat, b: nat)
    ensures a <= b < a + 4 ==> ByteAt(SetWord(mem, a, W32 - 1), b) == 255 && ByteAt(SetWord(mem, a, W64 - 1), b) == 255
  {}

  /** The variants translate alike, and a reservation elsewhere stays. */
  lemma SameForVariants(s: Cpu, i: Instr, t: Cpu)
    requires Fit(s) && !s.m.tlbFault && i.StoreFp? && Variant(s, t)
    ensures Fit(t) && StoreAddress(t, i) == StoreAddress(s, i) && !t.m.tlbFault
    ensures ProbePa(t.m, StoreAddress(s, i)) == ProbePa(s.m, StoreAddress(s, i))
    ensures var r, q := Translate(s.m, StoreAddress(s, i), Op.Store), Translate(t.m, StoreAddress(s, i), Op.Store);
            q.1 == r.1 && q.0.tlbFault == r.0.tlbFault
    ensures Line(ProbePa(s.m, StoreAddress(s, i))) != t.m.linkAddr ==> BreakLink(t, i) == t
  {}

  lemma Writes(s: Cpu, i: Instr, t: Cpu)
    requires Fit(s) && !s.m.tlbFault && i.StoreFp? && !Faults(s, i) && Variant(s, t)
    requires Line(ProbePa(s.m, StoreAddress(s, i))) != t.m.linkAddr
    ensures Fit(t) && BreakLink(t, i) == t && ExecPlain(t, i).m.linkValid
    ensures ExecPlain(t, i).mem
         == WriteMem(t.mem, Translate(s.m, StoreAddress(s, i), Op.Store).1, FpWidth(i.dw), FpValue(t, i.dw, i.ft))
  {
    SameForVariants(s, i, t);
    StoreFpOutcome(t, i.dw, i.ft, StoreAddress(s, i));
  }

  lemma OnesAre(t: Cpu, dw: bool, f: Exec.Reg)
    requires t.fpr == seq(32, _ => W64 - 1)
    ensures FpValue(t, dw, f) == if dw then W64 - 1 else W32 - 1
  {}

  lemma Misses(s: Cpu, i: Instr, t: Cpu)
    requires Fit(s) && !s.m.tlbFault && i.StoreFp? && !Faults(s, i) && Variant(s, t)
    requires var pa := Translate(s.m, StoreAddress(s, i), Op.Store).1;
             && Line(ProbePa(s.m, StoreAddress(s, i))) == Line(pa) && !InOneLine(pa, Bytes(FpWidth(i.dw)))
             && t.mem == map[] && t.fpr == seq(32, _ => W64 - 1) && t.m.linkAddr == Line(pa) + 16
    ensures Fit(t) && !Watched(t, i)
  {
    var pa := Translate(s.m, StoreAddress(s, i), Op.Store).1;
    Writes(s, i, t);
    OnesAre(t, i.dw, i.ft);
    NextLine(pa);
    OnesShow(pa, i.dw, Line(pa) + 16);
    var b := t.m.linkAddr;
    assert Line(b) == b && ByteAt(ExecPlain(t, i).mem, b) != ByteAt(t.mem, b);
  }

  lemma Watches(s: Cpu, i: Instr, t: Cpu)
    requires Fit(s) && !s.m.tlbFault && i.StoreFp? && Variant(s, t)
    requires var pa := Translate(s.m, StoreAddress(s, i), Op.Store).1;
             Line(ProbePa(s.m, StoreAddress(s, i))) == Line(pa) && InOneLine(pa, Bytes(FpWidth(i.dw)))
    ensures Fit(t) && Watched(t, i)
  {
    SameForVariants(s, i, t);
    if ExecPlain(BreakLink(t, i), i).m.linkValid { FpStoreKeepsLink(t, i); }
  }

  /** Whatever is reserved, stored and in memory, a floating-point store that leaves a reservation has
      left its line: exactly when the bytes it stores to are in one line.  */
  lemma WatchedExactlyInOneLine(s: Cpu, i: Instr)
    requires Fit(s) && !s.m.tlbFault && i.StoreFp? && !Faults(s, i)
    requires Line(ProbePa(s.m, StoreAddress(s, i))) == Line(Translate(s.m, StoreAddress(s, i), Op.Store).1)
    ensures InOneLine(Translate(s.m, StoreAddress(s, i), Op.Store).1, Bytes(FpWidth(i.dw)))
            <==> forall t: Cpu :: Variant(s, t) ==> Watched(t, i)
  {
    var pa := Translate(s.m, StoreAddress(s, i), Op.Store).1;
    if InOneLine(pa, Bytes(FpWidth(i.dw))) {
      forall t: Cpu | Variant(s, t) ensures Watched(t, i) { Watches(s, i, t); }
    } else {
      var t := s.(m := s.m.(linkValid := true, linkAddr := Line(pa) + 16), mem := map[], fpr := seq(32, _ => W64 - 1));
      Misses(s, i, t);
    }
  }
}

/** The unaligned pairs read and write exactly the bytes they name, in either order. */
module UnalignedLaws {
  import opened Bits
  import opened Tlb
  import opened ByteStrings
  import opened Unaligned

  // ------------------------------------------------------------------ merging, as byte strings

  /** What the loads and the stores do to a group of n bytes, whatever n. */
  function LeftLoad(r: nat, x: nat, ma: nat, n: nat): nat
    requires ma < n
  {
    Shl(Low(r, n - ma), ma) + Low(x, ma)
  }

  function RightLoad(r: nat, x: nat, ma: nat, n: nat): nat
    requires ma < n
  {
    Shl(Shr(x, ma + 1), ma + 1) + Shr(r, n - 1 - ma)
  }

  function LeftStore(r: nat, x: nat, ma: nat, n: nat): nat
    requires ma < n
  {
    Shl(Shr(r, n - ma), n - ma) + Shr(x, ma)
  }

  /** k is the number of bytes to the right of the address. */
  function RightStore(r: nat, x: nat, k: nat, n: nat): nat {
    Low(Shl(x, k), n) + Low(r, k)
  }

  lemma LeftLoadBytes(r: seq<nat>, x: seq<nat>, ma: nat)
    requires Bytes(r) && Bytes(x) && |r| == |x| && ma < |r|
    ensures LeftLoad(Val(r), Val(x), ma, |r|) == Val(r[ma..] + x[|r| - ma..])
  {
    ValCut(r, ma);
    ValCut(x, |r| - ma);
    ValJoin(r[ma..], x[|r| - ma..]);
  }

  lemma RightLoadBytes(r: seq<nat>, x: seq<nat>, ma: nat)
    requires Bytes(r) && Bytes(x) && |r| == |x| && ma < |r|
    ensures RightLoad(Val(r), Val(x), ma, |r|) == Val(x[..|r| - 1 - ma] + r[..ma + 1])
  {
    ValCut(x, |r| - 1 - ma);
    ValCut(r, ma + 1);
    ValJoin(x[..|r| - 1 - ma], r[..ma + 1]);
  }

  lemma LeftStoreBytes(r: seq<nat>, x: seq<nat>, ma: nat)
    requires Bytes(r) && Bytes(x) && |r| == |x| && ma < |r|
    ensures LeftStore(Val(r), Val(x), ma, |r|) == Val(r[..ma] + x[..|r| - ma])
  {
    ValCut(r, ma);
    ValCut(x, |r| - ma);
    ValJoin(r[..ma], x[..|r| - ma]);
  }

  lemma ShiftedStore(x: seq<nat>, k: nat)
    requires Bytes(x) && k <= |x|
    ensures Low(Shl(Val(x), k), |x|) == Shl(Val(x[k..]), k)
  {
    ShiftOut(Val(x), k, |x|);
    ValCut(x, k);
  }

  lemma RightStoreBytes(r: seq<nat>, x: seq<nat>, k: nat)
    requires Bytes(r) && Bytes(x) && |r| == |x| && k <= |r|
    ensures RightStore(Val(r), Val(x), k, |r|) == Val(x[k..] + r[|r| - k..])
  {
    ShiftedStore(x, k);
    ValCut(r, |r| - k);
    ValJoin(x[k..], r[|r| - k..]);
  }

  // ------------------------------------------------------------------ the instructions are these

  function Pow256(n: nat): (p: nat)
    requires n <= 8
    ensures p > 0
  {
    match n
    case 0 => 1
    case 1 => 0x100
    case 2 => 0x1_0000
    case 3 => 0x100_0000
    case 4 => 0x1_0000_0000
    case 5 => 0x100_0000_0000
    case 6 => 0x1_0000_0000_0000
    case 7 => 0x100_0000_0000_0000
    case _ => 0x1_0000_0000_0000_0000
  }

  lemma ShlLiterals(v: nat)
    ensures Shl(v, 1) == v * 0x100 && Shl(v, 2) == v * 0x1_0000 && Shl(v, 3) == v * 0x100_0000
    ensures Shl(v, 4) == v * 0x1_0000_0000 && Shl(v, 5) == v * 0x100_0000_0000
    ensures Shl(v, 6) == v * 0x1_0000_0000_0000 && Shl(v, 7) == v * 0x100_0000_0000_0000
  {
    assert Shl(v, 3) == 256 * Shl(v, 2);
    assert Shl(v, 5) == 256 * Shl(v, 4);
    assert Shl(v, 7) == 256 * Shl(v, 6);
  }

  lemma {:induction false} LiteralShl(v: nat, k: nat)
    requires k <= 8
    ensures Shl(v, k) == v * Pow256(k)
    decreases k
  {
    if k > 0 { LiteralShl(v, k - 1); }
  }

  lemma {:induction false} LiteralShr(v: nat, k: nat)
    requires k <= 8
    ensures Shr(v, k) == v / Pow256(k)
    decreases k
  {
    if k > 0 { LiteralShr(v / 256, k - 1); }
  }

  lemma {:induction false} ShrAndLow(v: nat, k: nat)
    requires k <= 8
    ensures v == Shl(Shr(v, k), k) + Low(v, k) && Low(v, k) < Pow256(k)
    decreases k
  {
    if k > 0 { ShrAndLow(v / 256, k - 1); }
  }

  lemma LiteralLow(v: nat, k: nat)
    requires k <= 8
    ensures Low(v, k) == v % Pow256(k)
  {
    ShrAndLow(v, k);
    LiteralShl(Shr(v, k), k);
    QuotRem(Shr(v, k), Pow256(k), Low(v, k));
  }

  lemma Literal(v: nat, k: nat)
    requires k <= 8
    ensures Shl(v, k) == v * Pow256(k) && Shr(v, k) == v / Pow256(k) && Low(v, k) == v % Pow256(k)
  {
    LiteralShl(v, k);
    LiteralShr(v, k);
    LiteralLow(v, k);
  }

  lemma KeptLow(v: nat, k: nat, n: nat)
    requires k <= n <= 8
    ensures Low(Shl(v, k), n) == v % Pow256(n - k) * Pow256(k)
  {
    ShiftOut(v, k, n);
    LiteralLow(v, n - k);
    LiteralShl(Low(v, n - k), k);
  }

  lemma Truncated(r: u32)
    ensures r % 0x100_0000 * 0x100_0000 % W32 == r % 0x100 * 0x100_0000
  {}

  lemma LwlIs(r: u32, x: u64, ma: nat)
    requires ma < 4
    ensures LwlWord(r, x, ma) == LeftLoad(r, x, ma, 4)
  {
    LiteralLow(r, 4 - ma);
    LiteralLow(x, ma);
    LiteralShl(Low(r, 4 - ma), ma);
    if ma == 3 { Truncated(r); }
  }

  lemma LwrIs(r: u32, x: u64, ma: nat)
    requires ma < 4
    ensures LwrWord(r, x, ma) == RightLoad(r, x % W32, ma, 4)
  {
    LiteralShr(x % W32, ma + 1);
    LiteralShr(r, 3 - ma);
    LiteralShl(Shr(x % W32, ma + 1), ma + 1);
  }

  lemma SwlIs(r: u32, x: u64, ma: nat)
    requires ma < 4
    ensures Swl(r, x, ma) == LeftStore(r, x % W32, ma, 4)
  {
    LiteralShr(r, 4 - ma);
    ShlLiterals(Shr(r, 4 - ma));
    LiteralShr(x % W32, ma);
  }

  lemma SwrIs(r: u32, x: u64, ma: nat)
    requires ma < 4
    ensures Swr(r, x, ma) == RightStore(r, x % W32, 3 - ma, 4)
  {
    assert Low(Shl(x % W32, 3 - ma), 4) == x % W32 % Pow256(ma + 1) * Pow256(3 - ma) by { KeptLow(x % W32, 3 - ma, 4); }
    LiteralLow(r, 3 - ma);
    LowOfLow(x, ma);
  }

  lemma LowOfLow(x: u64, ma: nat)
    requires ma < 4
    ensures x % W32 % Pow256(ma + 1) == x % Pow256(ma + 1)
  {}

  lemma LdlIs(r: u64, x: u64, ma: nat)
    requires ma < 8
    ensures Ldl(r, x, ma) == LeftLoad(r, x, ma, 8)
  {
    Literal(r, 8 - ma);
    Literal(x, ma);
    Literal(Low(r, 8 - ma), ma);
  }

  lemma LdrIs(r: u64, x: u64, ma: nat)
    requires ma < 8
    ensures Ldr(r, x, ma) == RightLoad(r, x, ma, 8)
  {
    Literal(x, ma + 1);
    Literal(r, 7 - ma);
    Literal(Shr(x, ma + 1), ma + 1);
  }

  lemma SdlIs(r: u64, x: u64, ma: nat)
    requires ma < 8
    ensures Sdl(r, x, ma) == LeftStore(r, x, ma, 8)
  {
    LiteralShr(r, 8 - ma);
    ShlLiterals(Shr(r, 8 - ma));
    LiteralShr(x, ma);
  }

  lemma SdrIs(r: u64, x: u64, ma: nat)
    requires ma < 8
    ensures Sdr(r, x, ma) == RightStore(r, x, 7 - ma, 8)
  {
    assert Low(Shl(x, 7 - ma), 8) == x % Pow256(ma + 1) * Pow256(7 - ma) by { KeptLow(x, 7 - ma, 8); }
    LiteralLow(r, 7 - ma);
  }

  // ------------------------------------------------------------------ memory

  function Group(mem: Mem, a: nat, n: nat): (s: seq<nat>)
    ensures |s| == n && forall i :: 0 <= i < n ==> s[i] == ByteAt(mem, a + i)
    ensures Bytes(s)
  {
    seq<nat>(n, i requires 0 <= i => ByteAt(mem, a + i))
  }

  lemma HalfIs(mem: Mem, a: nat)
    ensures Half16(mem, a) == Val(Group(mem, a, 2))
  {
    var s := Group(mem, a, 2);
    assert s[..1] == [ByteAt(mem, a)];
    assert Val(s[..1]) == ByteAt(mem, a) by { assert [ByteAt(mem, a)][..0] == []; }
  }

  lemma WordIs(mem: Mem, a: nat)
    ensures Word(mem, a) == Val(Group(mem, a, 4))
  {
    HalfIs(mem, a);
    HalfIs(mem, a + 2);
    assert Group(mem, a, 4) == Group(mem, a, 2) + Group(mem, a + 2, 2);
    ValJoin(Group(mem, a, 2), Group(mem, a + 2, 2));
    LiteralShl(Val(Group(mem, a, 2)), 2);
  }

  lemma DwordIs(mem: Mem, a: nat)
    ensures Dword(mem, a) == Val(Group(mem, a, 8))
  {
    WordIs(mem, a);
    WordIs(mem, a + 4);
    assert Group(mem, a, 8) == Group(mem, a, 4) + Group(mem, a + 4, 4);
    ValJoin(Group(mem, a, 4), Group(mem, a + 4, 4));
    LiteralShl(Val(Group(mem, a, 4)), 4);
  }

  lemma {:induction false} StrCut(v: nat, i: nat, n: nat)
    requires i <= n
    ensures Str(v, n) == Str(Shr(v, n - i), i) + Str(v, n - i)
    decreases n
  {
    if i < n { StrCut(v / 256, i, n - 1); }
  }

  /** mem is before with the bytes s put at a. */
  ghost predicate Put(before: Mem, mem: Mem, a: nat, s: seq<nat>) {
    forall b: nat :: ByteAt(mem, b) == if a <= b < a + |s| then s[b - a] % 256 else ByteAt(before, b)
  }

  lemma PutHalf(mem: Mem, a: nat, v: nat)
    ensures Put(mem, SetHalf(mem, a, v), a, Str(v, 2))
  {
    assert Str(v, 2) == [v / 256 % 256, v % 256];
  }

  lemma PutTwice(m0: Mem, m1: Mem, m2: Mem, a: nat, s: seq<nat>, t: seq<nat>)
    requires Put(m0, m1, a, s) && Put(m1, m2, a + |s|, t)
    ensures Put(m0, m2, a, s + t)
  {}

  lemma PutWord(mem: Mem, a: nat, v: nat)
    ensures Put(mem, SetWord(mem, a, v), a, Str(v, 4))
  {
    PutHalf(mem, a, v / 0x1_0000);
    PutHalf(SetHalf(mem, a, v / 0x1_0000), a + 2, v);
    PutTwice(mem, SetHalf(mem, a, v / 0x1_0000), SetWord(mem, a, v), a, Str(v / 0x1_0000, 2), Str(v, 2));
    LiteralShr(v, 2);
    StrCut(v, 2, 4);
  }

  lemma PutDword(mem: Mem, a: nat, v: nat)
    ensures Put(mem, SetDword(mem, a, v), a, Str(v, 8))
  {
    PutWord(mem, a, v / W32);
    PutWord(SetWord(mem, a, v / W32), a + 4, v);
    PutTwice(mem, SetWord(mem, a, v / W32), SetDword(mem, a, v), a, Str(v / W32, 4), Str(v, 4));
    LiteralShr(v, 4);
    StrCut(v, 4, 8);
  }

  // ------------------------------------------------------------------ the pairs

  lemma PutString(mem: Mem, a: nat, s: seq<nat>)
    requires Size(|s|) && Bytes(s)
    ensures Put(mem, SetGroup(mem, a, |s|, Val(s)), a, s)
  {
    StrVal(s);
    if |s| == 4 { PutWord(mem, a, Val(s)); } else { PutDword(mem, a, Val(s)); }
  }

  /** The number that the n bytes from a on make, as a register holds it. */
  function Loaded(s: seq<nat>): nat
    requires Size(|s|)
  {
    if |s| == 4 && Val(s) < W32 then SignExtend(Val(s)) else Val(s)
  }

  /** The register's low n bytes. */
  function Reg(x: u64, n: nat): (s: seq<nat>)
    ensures |s| == n && Bytes(s)
  {
    Str(x, n)
  }

  lemma {:induction false} LowLow(x: nat, k: nat, n: nat)
    requires k <= n
    ensures Low(Low(x, n), k) == Low(x, k)
    decreases k
  {
    if k > 0 { LowLow(x / 256, k - 1, n - 1); }
  }

  lemma RegVal(x: u64, n: nat)
    requires Size(n)
    ensures Val(Reg(x, n)) == if n == 4 then x % W32 else x
  {
    ValStr(x, n);
    if n == 4 { LiteralLow(x, 4); } else { LiteralLow(x, 8); }
  }

  lemma GroupVal(mem: Mem, a: nat, n: nat)
    requires Size(n)
    ensures Val(Group(mem, a, n)) == if n == 4 then Word(mem, a) else Dword(mem, a)
  {
    if n == 4 { WordIs(mem, a); } else { DwordIs(mem, a); }
  }

  lemma LeftNumber(mem: Mem, a: nat, x: u64, n: nat)
    requires Size(n)
    ensures LeftLoad(Val(Group(mem, Base(a, n), n)), x, Pos(a, n), n)
         == Val(Group(mem, a, n - Pos(a, n)) + Reg(x, n)[n - Pos(a, n)..])
  {
    var r, ma := Group(mem, Base(a, n), n), Pos(a, n);
    assert r[ma..] == Group(mem, a, n - ma);
    LeftLoadBytes(r, Reg(x, n), ma);
    ValStr(x, n);
    LowLow(x, ma, n);
  }

  /** The bytes from address a to the end of its group, then what the register had. */
  lemma LeftBytes(mem: Mem, a: nat, x: u64, n: nat)
    requires Size(n)
    ensures Left(mem, a, x, n) == Loaded(Group(mem, a, n - Pos(a, n)) + Reg(x, n)[n - Pos(a, n)..])
  {
    var b := Base(a, n);
    LeftNumber(mem, a, x, n);
    GroupVal(mem, b, n);
    if n == 4 { LwlIs(Word(mem, b), x, a % 4); } else { LdlIs(Dword(mem, b), x, a % 8); }
  }

  /** What the register had, then the bytes from the start of the group to address a. */
  lemma RightBytes(mem: Mem, a: nat, x: u64, n: nat)
    requires Size(n)
    ensures Right(mem, a, x, n) == Loaded(Reg(x, n)[..n - 1 - Pos(a, n)] + Group(mem, Base(a, n), Pos(a, n) + 1))
  {
    var b, ma := Base(a, n), Pos(a, n);
    var r := Group(mem, b, n);
    assert r[..ma + 1] == Group(mem, b, ma + 1);
    GroupVal(mem, b, n);
    RegVal(x, n);
    RightLoadBytes(r, Reg(x, n), ma);
    if n == 4 { LwrIs(Word(mem, b), x, ma); } else { LdrIs(Dword(mem, b), x, ma); }
  }

  /** Bytes put back as they were can be left out. */
  lemma PutTail(before: Mem, mem: Mem, b: nat, p: seq<nat>, t: seq<nat>)
    requires Put(before, mem, b, p + t) && forall i :: 0 <= i < |p| ==> p[i] == ByteAt(before, b + i)
    ensures Put(before, mem, b + |p|, t)
  {}

  lemma PutHead(before: Mem, mem: Mem, b: nat, t: seq<nat>, q: seq<nat>)
    requires Put(before, mem, b, t + q) && forall i :: 0 <= i < |q| ==> q[i] == ByteAt(before, b + |t| + i)
    ensures Put(before, mem, b, t)
  {}

  lemma LeftPutNumber(mem: Mem, a: nat, x: u64, n: nat)
    requires Size(n)
    ensures (if n == 4 then Swl(Word(mem, Base(a, n)), x, a % 4) else Sdl(Dword(mem, Base(a, n)), x, a % 8))
         == Val(Group(mem, Base(a, n), n)[..Pos(a, n)] + Reg(x, n)[..n - Pos(a, n)])
  {
    var b := Base(a, n);
    GroupVal(mem, b, n);
    RegVal(x, n);
    LeftStoreBytes(Group(mem, b, n), Reg(x, n), Pos(a, n));
    if n == 4 { SwlIs(Word(mem, b), x, a % 4); } else { SdlIs(Dword(mem, b), x, a % 8); }
  }

  lemma LeftPutGroup(mem: Mem, a: nat, x: u64, n: nat)
    requires Size(n)
    ensures Put(mem, PutLeft(mem, a, x, n), Base(a, n),
                Group(mem, Base(a, n), n)[..Pos(a, n)] + Reg(x, n)[..n - Pos(a, n)])
  {
    var s := Group(mem, Base(a, n), n)[..Pos(a, n)] + Reg(x, n)[..n - Pos(a, n)];
    LeftPutNumber(mem, a, x, n);
    PutString(mem, Base(a, n), s);
  }

  /** m1 is m0 with the register's high bytes stored from address a to the end of its group. */
  ghost predicate StoresLeft(m0: Mem, m1: Mem, a: nat, x: seq<nat>, n: nat)
    requires Size(n) && |x| == n
  {
    Put(m0, m1, a, x[..n - Pos(a, n)])
  }

  /** m1 is m0 with the register's low bytes stored from the start of the group to address a. */
  ghost predicate StoresRight(m0: Mem, m1: Mem, a: nat, x: seq<nat>, n: nat)
    requires Size(n) && |x| == n
  {
    Put(m0, m1, Base(a, n), x[n - 1 - Pos(a, n)..])
  }

  lemma ToLeft(m0: Mem, m1: Mem, a: nat, x: seq<nat>, n: nat)
    requires Size(n) && |x| == n
    requires Put(m0, m1, Base(a, n), Group(m0, Base(a, n), n)[..Pos(a, n)] + x[..n - Pos(a, n)])
    ensures StoresLeft(m0, m1, a, x, n)
  {
    PutTail(m0, m1, Base(a, n), Group(m0, Base(a, n), n)[..Pos(a, n)], x[..n - Pos(a, n)]);
  }

  lemma ToRight(m0: Mem, m1: Mem, a: nat, x: seq<nat>, n: nat)
    requires Size(n) && |x| == n
    requires Put(m0, m1, Base(a, n), x[n - 1 - Pos(a, n)..] + Group(m0, Base(a, n), n)[Pos(a, n) + 1..])
    ensures StoresRight(m0, m1, a, x, n)
  {
    PutHead(m0, m1, Base(a, n), x[n - 1 - Pos(a, n)..], Group(m0, Base(a, n), n)[Pos(a, n) + 1..]);
  }

  lemma LeftPut(mem: Mem, a: nat, x: u64, n: nat)
    requires Size(n)
    ensures StoresLeft(mem, PutLeft(mem, a, x, n), a, Reg(x, n), n)
  {
    LeftPutGroup(mem, a, x, n);
    ToLeft(mem, PutLeft(mem, a, x, n), a, Reg(x, n), n);
  }

  lemma RightPutNumber(mem: Mem, a: nat, x: u64, n: nat)
    requires Size(n)
    ensures (if n == 4 then Swr(Word(mem, Base(a, n)), x, a % 4) else Sdr(Dword(mem, Base(a, n)), x, a % 8))
         == Val(Reg(x, n)[n - 1 - Pos(a, n)..] + Group(mem, Base(a, n), n)[Pos(a, n) + 1..])
  {
    var b := Base(a, n);
    GroupVal(mem, b, n);
    RegVal(x, n);
    RightStoreBytes(Group(mem, b, n), Reg(x, n), n - 1 - Pos(a, n));
    if n == 4 { SwrIs(Word(mem, b), x, a % 4); } else { SdrIs(Dword(mem, b), x, a % 8); }
  }

  lemma RightPutGroup(mem: Mem, a: nat, x: u64, n: nat)
    requires Size(n)
    ensures Put(mem, PutRight(mem, a, x, n), Base(a, n),
                Reg(x, n)[n - 1 - Pos(a, n)..] + Group(mem, Base(a, n), n)[Pos(a, n) + 1..])
  {
    var s := Reg(x, n)[n - 1 - Pos(a, n)..] + Group(mem, Base(a, n), n)[Pos(a, n) + 1..];
    RightPutNumber(mem, a, x, n);
    PutString(mem, Base(a, n), s);
  }

  lemma RightPut(mem: Mem, a: nat, x: u64, n: nat)
    requires Size(n)
    ensures StoresRight(mem, PutRight(mem, a, x, n), a, Reg(x, n), n)
  {
    RightPutGroup(mem, a, x, n);
    ToRight(mem, PutRight(mem, a, x, n), a, Reg(x, n), n);
  }

  // ------------------------------------------------------------------ the round trip

  lemma ExtendedLow(v: u32)
    ensures SignExtend(v) % W32 == v
  {}

  lemma ValBelow(s: seq<nat>)
    requires Size(|s|) && Bytes(s)
    ensures Val(s) < Pow256(|s|)
  {
    StrVal(s);
    ValStr(Val(s), |s|);
    LiteralLow(Val(s), |s|);
  }

  lemma StrExtended(v: u32)
    ensures Str(SignExtend(v), 4) == Str(v, 4)
  {
    ExtendedLow(v);
    LiteralLow(SignExtend(v), 4);
    LiteralLow(v, 4);
    SameLow(SignExtend(v), v, 4);
  }

  lemma RegLoaded(s: seq<nat>)
    requires Size(|s|) && Bytes(s)
    ensures Loaded(s) < W64 && Reg(Loaded(s), |s|) == s
  {
    StrVal(s);
    ValBelow(s);
    if |s| == 4 { StrExtended(Val(s)); }
  }

  lemma {:induction false} SameLow(x: nat, y: nat, n: nat)
    requires Low(x, n) == Low(y, n)
    ensures Str(x, n) == Str(y, n)
    decreases n
  {
    if n > 0 { SameLow(x / 256, y / 256, n - 1); }
  }

  /** Where the right end of the pair lies. */
  lemma Ends(a: nat, n: nat)
    requires Size(n)
    ensures Pos(a, n) == 0 ==> Base(a + n - 1, n) == a && Pos(a + n - 1, n) == n - 1
    ensures Pos(a, n) != 0 ==> Base(a + n - 1, n) == Base(a, n) + n && Pos(a + n - 1, n) == Pos(a, n) - 1
  {
    if n == 4 { Ends4(a); } else { Ends8(a); }
  }

  lemma Ends4(a: nat)
    ensures a % 4 == 0 ==> (a + 3) / 4 == a / 4 && (a + 3) % 4 == 3
    ensures a % 4 != 0 ==> (a + 3) / 4 == a / 4 + 1 && (a + 3) % 4 == a % 4 - 1
  {}

  lemma Ends8(a: nat)
    ensures a % 8 == 0 ==> (a + 7) / 8 == a / 8 && (a + 7) % 8 == 7
    ensures a % 8 != 0 ==> (a + 7) / 8 == a / 8 + 1 && (a + 7) % 8 == a % 8 - 1
  {}

  /** The left part of the pair's bytes, then the right part, are the n bytes from a on. */
  lemma LeftPartThenRight(mem: Mem, a: nat, n: nat, x: seq<nat>)
    requires Size(n) && |x| == n
    ensures var k, e := n - Pos(a, n), a + n - 1;
            (Group(mem, a, k) + x[k..])[..n - 1 - Pos(e, n)] + Group(mem, Base(e, n), Pos(e, n) + 1) == Group(mem, a, n)
  {
    Ends(a, n);
  }

  lemma RightPartThenLeft(mem: Mem, a: nat, n: nat, x: seq<nat>)
    requires Size(n) && |x| == n
    ensures var k, e := n - Pos(a, n), a + n - 1;
            Group(mem, a, k) + (x[..n - 1 - Pos(e, n)] + Group(mem, Base(e, n), Pos(e, n) + 1))[k..] == Group(mem, a, n)
  {
    Ends(a, n);
  }

  /** v is what the left load leaves and w what the right load makes of it. */
  lemma LeftRightLoaded(mem: Mem, a: nat, x: seq<nat>, v: u64, w: nat, n: nat)
    requires Size(n) && |x| == n && Bytes(x)
    requires v == Loaded(Group(mem, a, n - Pos(a, n)) + x[n - Pos(a, n)..])
    requires w == Loaded(Reg(v, n)[..n - 1 - Pos(a + n - 1, n)] + Group(mem, Base(a + n - 1, n), Pos(a + n - 1, n) + 1))
    ensures w == Loaded(Group(mem, a, n))
  {
    RegLoaded(Group(mem, a, n - Pos(a, n)) + x[n - Pos(a, n)..]);
    LeftPartThenRight(mem, a, n, x);
  }

  lemma RightLeftLoaded(mem: Mem, a: nat, x: seq<nat>, v: u64, w: nat, n: nat)
    requires Size(n) && |x| == n && Bytes(x)
    requires v == Loaded(x[..n - 1 - Pos(a + n - 1, n)] + Group(mem, Base(a + n - 1, n), Pos(a + n - 1, n) + 1))
    requires w == Loaded(Group(mem, a, n - Pos(a, n)) + Reg(v, n)[n - Pos(a, n)..])
    ensures w == Loaded(Group(mem, a, n))
  {
    RegLoaded(x[..n - 1 - Pos(a + n - 1, n)] + Group(mem, Base(a + n - 1, n), Pos(a + n - 1, n) + 1));
    RightPartThenLeft(mem, a, n, x);
  }

  /** Left then right: the n bytes from a on, whatever the register had. */
  lemma LoadLeftRight(mem: Mem, a: nat, x: u64, n: nat)
    requires Size(n)
    ensures Right(mem, a + n - 1, Left(mem, a, x, n), n) == Loaded(Group(mem, a, n))
  {
    var v := Left(mem, a, x, n);
    LeftBytes(mem, a, x, n);
    RightBytes(mem, a + n - 1, v, n);
    LeftRightLoaded(mem, a, Reg(x, n), v, Right(mem, a + n - 1, v, n), n);
  }

  /** And right then left. */
  lemma LoadRightLeft(mem: Mem, a: nat, x: u64, n: nat)
    requires Size(n)
    ensures Left(mem, a, Right(mem, a + n - 1, x, n), n) == Loaded(Group(mem, a, n))
  {
    var v := Right(mem, a + n - 1, x, n);
    RightBytes(mem, a + n - 1, x, n);
    LeftBytes(mem, a, v, n);
    RightLeftLoaded(mem, a, Reg(x, n), v, Left(mem, a, v, n), n);
  }

  /** Two parts of x that overlap or touch make x, in either order. */
  lemma PutParts(m0: Mem, m1: Mem, m2: Mem, a: nat, x: seq<nat>, k: nat, j: nat)
    requires j <= k <= |x|
    ensures Put(m0, m1, a, x[..k]) && Put(m1, m2, a + j, x[j..]) ==> Put(m0, m2, a, x)
    ensures Put(m0, m1, a + j, x[j..]) && Put(m1, m2, a, x[..k]) ==> Put(m0, m2, a, x)
  {}

  lemma LeftThenRight(m0: Mem, m1: Mem, m2: Mem, a: nat, x: seq<nat>, n: nat)
    requires Size(n) && |x| == n
    requires StoresLeft(m0, m1, a, x, n) && StoresRight(m1, m2, a + n - 1, x, n)
    ensures Put(m0, m2, a, x)
  {
    var j := n - 1 - Pos(a + n - 1, n);
    Ends(a, n);
    assert Base(a + n - 1, n) == a + j;
    PutParts(m0, m1, m2, a, x, n - Pos(a, n), j);
  }

  lemma RightThenLeft(m0: Mem, m1: Mem, m2: Mem, a: nat, x: seq<nat>, n: nat)
    requires Size(n) && |x| == n
    requires StoresRight(m0, m1, a + n - 1, x, n) && StoresLeft(m1, m2, a, x, n)
    ensures Put(m0, m2, a, x)
  {
    var j := n - 1 - Pos(a + n - 1, n);
    Ends(a, n);
    assert Base(a + n - 1, n) == a + j;
    PutParts(m0, m1, m2, a, x, n - Pos(a, n), j);
  }

  /** The pair stores exactly the register's n low bytes at a, left then right ... */
  lemma StoreLeftRight(mem: Mem, a: nat, x: u64, n: nat)
    requires Size(n)
    ensures Put(mem, PutRight(PutLeft(mem, a, x, n), a + n - 1, x, n), a, Reg(x, n))
  {
    var m := PutLeft(mem, a, x, n);
    LeftPut(mem, a, x, n);
    RightPut(m, a + n - 1, x, n);
    LeftThenRight(mem, m, PutRight(m, a + n - 1, x, n), a, Reg(x, n), n);
  }

  /** ... or right then left. */
  lemma StoreRightLeft(mem: Mem, a: nat, x: u64, n: nat)
    requires Size(n)
    ensures Put(mem, PutLeft(PutRight(mem, a + n - 1, x, n), a, x, n), a, Reg(x, n))
  {
    var m := PutRight(mem, a + n - 1, x, n);
    var w := PutLeft(m, a, x, n);
    assert StoresRight(mem, m, a + n - 1, Reg(x, n), n) by { RightPut(mem, a + n - 1, x, n); }
    assert StoresLeft(m, w, a, Reg(x, n), n) by { LeftPut(m, a, x, n); }
    RightThenLeft(mem, m, w, a, Reg(x, n), n);
  }

  lemma PutGroup(before: Mem, mem: Mem, a: nat, s: seq<nat>)
    requires Put(before, mem, a, s) && Bytes(s)
    ensures Group(mem, a, |s|) == s
  {}

  /** Stored by a pair, loaded by a pair: the register's low n bytes, sign-extended. */
  lemma StoreThenLoad(mem: Mem, a: nat, x: u64, y: u64, n: nat)
    requires Size(n)
    ensures var m := PutRight(PutLeft(mem, a, x, n), a + n - 1, x, n);
            Right(m, a + n - 1, Left(m, a, y, n), n) == if n == 4 then SignExtend(x % W32) else x
  {
    var m := PutRight(PutLeft(mem, a, x, n), a + n - 1, x, n);
    StoreLeftRight(mem, a, x, n);
    PutGroup(mem, m, a, Reg(x, n));
    LoadLeftRight(m, a, y, n);
    RegVal(x, n);
  }
}

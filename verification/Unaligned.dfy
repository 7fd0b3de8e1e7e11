/** Big-endian byte memory and the unaligned load and store pairs: the masks and shifts by which the
    interpreter merges an aligned word (or doubleword) with a register. */
module Unaligned {
  import opened Bits
  import opened Tlb

  type Mem = map<nat, nat>

  /** Memory is bytes; untouched addresses read as zero. */
  function ByteAt(mem: Mem, a: nat): (b: nat)
    ensures b < 256
  {
    if a in mem then mem[a] % 256 else 0
  }

  function Half16(mem: Mem, a: nat): (h: nat)
    ensures h < 0x1_0000
  {
    ByteAt(mem, a) * 0x100 + ByteAt(mem, a + 1)
  }

  function Word(mem: Mem, a: nat): u32 {
    Half16(mem, a) * 0x1_0000 + Half16(mem, a + 2)
  }

  function Dword(mem: Mem, a: nat): u64 {
    Word(mem, a) * W32 + Word(mem, a + 4)
  }

  function SetByte(mem: Mem, a: nat, v: nat): Mem { mem[a := v % 256] }
  function SetHalf(mem: Mem, a: nat, v: nat): Mem { SetByte(SetByte(mem, a, v / 0x100), a + 1, v) }
  function SetWord(mem: Mem, a: nat, v: nat): Mem { SetHalf(SetHalf(mem, a, v / 0x1_0000), a + 2, v) }
  function SetDword(mem: Mem, a: nat, v: nat): Mem { SetWord(SetWord(mem, a, v / W32), a + 4, v) }

  // ------------------------------------------------------------------ merging

  /** The low byte of a word, moved up. */
  lemma LowByteUp(r: u32)
    ensures r % 0x100_0000 * 0x100_0000 % W32 == r % 0x100 * 0x100_0000
  {
    var m := r % 0x100_0000;
    QuotRem(m / 0x100, W32, m % 0x100 * 0x100_0000);
    QuotRem(r / 0x100_0000 * 0x1_0000 + m / 0x100, 0x100, m % 0x100);
  }

  /** `r` is the aligned word, `x` the register, `ma` the address within the word. */
  function LwlWord(r: u32, x: u64, ma: nat): u32
    requires ma < 4
  {
    match ma
    case 0 => r
    case 1 => r % 0x100_0000 * 0x100 + x % 0x100
    case 2 => r % 0x1_0000 * 0x1_0000 + x % 0x1_0000
    case _ =>
      LowByteUp(r);
      r % 0x100_0000 * 0x100_0000 % W32 + x % 0x100_0000
  }

  function LwrWord(r: u32, x: u64, ma: nat): u32
    requires ma < 4
  {
    match ma
    case 0 => x % W32 / 0x100 * 0x100 + r / 0x100_0000
    case 1 => x % W32 / 0x1_0000 * 0x1_0000 + r / 0x1_0000
    case 2 => x % W32 / 0x100_0000 * 0x100_0000 + r / 0x100
    case _ => r
  }

  function Lwl(r: u32, x: u64, ma: nat): u64
    requires ma < 4
  {
    SignExtend(LwlWord(r, x, ma))
  }

  function Lwr(r: u32, x: u64, ma: nat): u64
    requires ma < 4
  {
    SignExtend(LwrWord(r, x, ma))
  }

  function Ldl(r: u64, x: u64, ma: nat): u64
    requires ma < 8
  {
    match ma
    case 0 => r
    case 1 => r % 0x100_0000_0000_0000 * 0x100 + x % 0x100
    case 2 => r % 0x1_0000_0000_0000 * 0x1_0000 + x % 0x1_0000
    case 3 => r % 0x100_0000_0000 * 0x100_0000 + x % 0x100_0000
    case 4 => r % 0x1_0000_0000 * 0x1_0000_0000 + x % 0x1_0000_0000
    case 5 => r % 0x100_0000 * 0x100_0000_0000 + x % 0x100_0000_0000
    case 6 => r % 0x1_0000 * 0x1_0000_0000_0000 + x % 0x1_0000_0000_0000
    case _ => r % 0x100 * 0x100_0000_0000_0000 + x % 0x100_0000_0000_0000
  }

  function LdrFew(r: u64, x: u64, ma: nat): u64
    requires ma < 4
  {
    match ma
    case 0 => x / 0x100 * 0x100 + r / 0x100_0000_0000_0000
    case 1 => x / 0x1_0000 * 0x1_0000 + r / 0x1_0000_0000_0000
    case 2 => x / 0x100_0000 * 0x100_0000 + r / 0x100_0000_0000
    case _ => x / 0x1_0000_0000 * 0x1_0000_0000 + r / 0x1_0000_0000
  }

  function Ldr(r: u64, x: u64, ma: nat): u64
    requires ma < 8
  {
    match ma
    case 4 => x / 0x100_0000_0000 * 0x100_0000_0000 + r / 0x100_0000
    case 5 => x / 0x1_0000_0000_0000 * 0x1_0000_0000_0000 + r / 0x1_0000
    case 6 => x / 0x100_0000_0000_0000 * 0x100_0000_0000_0000 + r / 0x100
    case 7 => r
    case _ => LdrFew(r, x, ma)
  }

  /** The aligned word after SWL: the register's high bytes from position ma on. */
  function Swl(r: u32, x: u64, ma: nat): u32
    requires ma < 4
  {
    match ma
    case 0 => x % W32
    case 1 => r / 0x100_0000 * 0x100_0000 + x % W32 / 0x100
    case 2 => r / 0x1_0000 * 0x1_0000 + x % W32 / 0x1_0000
    case _ => r / 0x100 * 0x100 + x % W32 / 0x100_0000
  }

  /** After SWR: the register's low ma + 1 bytes, shifted up; what leaves 32 bits is gone. */
  function Swr(r: u32, x: u64, ma: nat): u32
    requires ma < 4
  {
    match ma
    case 0 => x % 0x100 * 0x100_0000 + r % 0x100_0000
    case 1 => x % 0x1_0000 * 0x1_0000 + r % 0x1_0000
    case 2 => x % 0x100_0000 * 0x100 + r % 0x100
    case _ => x % W32
  }

  function SdlFew(r: u64, x: u64, ma: nat): u64
    requires ma < 4
  {
    match ma
    case 0 => x
    case 1 => r / 0x100_0000_0000_0000 * 0x100_0000_0000_0000 + x / 0x100
    case 2 => r / 0x1_0000_0000_0000 * 0x1_0000_0000_0000 + x / 0x1_0000
    case _ => r / 0x100_0000_0000 * 0x100_0000_0000 + x / 0x100_0000
  }

  function Sdl(r: u64, x: u64, ma: nat): u64
    requires ma < 8
  {
    match ma
    case 4 => r / 0x1_0000_0000 * 0x1_0000_0000 + x / 0x1_0000_0000
    case 5 => r / 0x100_0000 * 0x100_0000 + x / 0x100_0000_0000
    case 6 => r / 0x1_0000 * 0x1_0000 + x / 0x1_0000_0000_0000
    case 7 => r / 0x100 * 0x100 + x / 0x100_0000_0000_0000
    case _ => SdlFew(r, x, ma)
  }

  function Sdr(r: u64, x: u64, ma: nat): u64
    requires ma < 8
  {
    match ma
    case 0 => x % 0x100 * 0x100_0000_0000_0000 + r % 0x100_0000_0000_0000
    case 1 => x % 0x1_0000 * 0x1_0000_0000_0000 + r % 0x1_0000_0000_0000
    case 2 => x % 0x100_0000 * 0x100_0000_0000 + r % 0x100_0000_0000
    case 3 => x % 0x1_0000_0000 * 0x1_0000_0000 + r % 0x1_0000_0000
    case 4 => x % 0x100_0000_0000 * 0x100_0000 + r % 0x100_0000
    case 5 => x % 0x1_0000_0000_0000 * 0x1_0000 + r % 0x1_0000
    case 6 => x % 0x100_0000_0000_0000 * 0x100 + r % 0x100
    case _ => x
  }

  // ------------------------------------------------------------------ on memory

  predicate Size(n: nat) { n == 4 || n == 8 }

  /** The group that address a is in, and its place there. */
  function Base(a: nat, n: nat): nat
    requires Size(n)
  {
    if n == 4 then a / 4 * 4 else a / 8 * 8
  }

  function Pos(a: nat, n: nat): (p: nat)
    requires Size(n)
    ensures p < n && Base(a, n) + p == a
  {
    if n == 4 then a % 4 else a % 8
  }

  /** LWL or LDL at address a, LWR or LDR at address a: they work on the aligned group. */
  function Left(mem: Mem, a: nat, x: u64, n: nat): u64
    requires Size(n)
  {
    if n == 4 then Lwl(Word(mem, Base(a, n)), x, a % 4) else Ldl(Dword(mem, Base(a, n)), x, a % 8)
  }

  function Right(mem: Mem, a: nat, x: u64, n: nat): u64
    requires Size(n)
  {
    if n == 4 then Lwr(Word(mem, Base(a, n)), x, a % 4) else Ldr(Dword(mem, Base(a, n)), x, a % 8)
  }

  function SetGroup(mem: Mem, a: nat, n: nat, v: nat): Mem
    requires Size(n)
  {
    if n == 4 then SetWord(mem, a, v) else SetDword(mem, a, v)
  }

  /** SWL or SDL, SWR or SDR. */
  function PutLeft(mem: Mem, a: nat, x: u64, n: nat): Mem
    requires Size(n)
  {
    SetGroup(mem, Base(a, n), n,
             if n == 4 then Swl(Word(mem, Base(a, n)), x, a % 4) else Sdl(Dword(mem, Base(a, n)), x, a % 8))
  }

  function PutRight(mem: Mem, a: nat, x: u64, n: nat): Mem
    requires Size(n)
  {
    SetGroup(mem, Base(a, n), n,
             if n == 4 then Swr(Word(mem, Base(a, n)), x, a % 4) else Sdr(Dword(mem, Base(a, n)), x, a % 8))
  }
}

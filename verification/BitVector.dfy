/** The simulator's bit vector: an array of words whose searches skip whole words.  Every operation is
    proved to do what it says on the plain sequence of booleans that the words stand for.  */
module BitVector {
  import opened Bits
  import opened Words

  const BPW: nat := 64

  function WordsFor(n: nat): nat { (n + BPW - 1) / BPW }

  /** Bit i of a row of words. */
  predicate BitIn(ws: seq<u64>, i: nat)
    requires i < BPW * |ws|
  {
    BitAt(ws[i / BPW], i % BPW)
  }

  /** The words hold n bits, and the bits past them are zero. */
  ghost predicate Fits(ws: seq<u64>, n: nat) {
    |ws| == WordsFor(n) && forall i: nat :: n <= i < BPW * |ws| ==> !BitIn(ws, i)
  }

  function Bools(ws: seq<u64>, n: nat): (s: seq<bool>)
    requires |ws| == WordsFor(n)
    ensures |s| == n && forall i :: 0 <= i < n ==> s[i] == BitIn(ws, i)
  {
    Room(n);
    seq(n, i requires 0 <= i < n && n <= BPW * |ws| => BitIn(ws, i))
  }

  lemma Room(n: nat)
    ensures n <= BPW * WordsFor(n) < n + BPW
  {}

  /** Where bit b of word w is. */
  lemma Place(w: nat, b: nat)
    requires b < BPW
    ensures (BPW * w + b) / BPW == w && (BPW * w + b) % BPW == b
  {
    QuotRem(w, BPW, b);
  }

  /** Positions and places. */
  lemma Position(i: nat, k: nat)
    requires i < BPW * k
    ensures i / BPW < k && i == BPW * (i / BPW) + i % BPW
  {}

  /** Changing word w where it matters changes one bit. */
  lemma OneChanged(ws: seq<u64>, n: nat, idx: nat, x: u64, v: bool)
    requires Fits(ws, n) && idx < n
    requires idx / BPW < |ws|
    requires forall b: nat :: b < BPW ==> BitAt(x, b) == if b == idx % BPW then v else BitAt(ws[idx / BPW], b)
    ensures Fits(ws[idx / BPW := x], n) && Bools(ws[idx / BPW := x], n) == Bools(ws, n)[idx := v]
  {
    var us := ws[idx / BPW := x];
    Room(n);
    forall i: nat | i < BPW * |ws| ensures BitIn(us, i) == if i == idx then v else BitIn(ws, i) {
      Position(i, |ws|);
      Position(idx, |ws|);
    }
  }

  /** No bit of the words before w is `v`, as far as there are bits. */
  ghost predicate NoneBefore(s: seq<bool>, i: nat, v: bool) { forall j :: 0 <= j < i && j < |s| ==> s[j] != v }

  /** r is the least position with value v, or -1 if there is none. */
  ghost predicate IsLeast(s: seq<bool>, r: int, v: bool) {
    if r < 0 then r == -1 && v !in s else r < |s| && s[r] == v && NoneBefore(s, r, v)
  }

  /** A word in which every bit differs from v adds nothing to find. */
  lemma SkipWord(ws: seq<u64>, n: nat, w: nat, v: bool)
    requires Fits(ws, n) && w < |ws| && NoneBefore(Bools(ws, n), BPW * w, v)
    requires forall b: nat :: b < BPW && BPW * w + b < n ==> BitAt(ws[w], b) != v
    ensures NoneBefore(Bools(ws, n), BPW * (w + 1), v)
  {
    forall j | BPW * w <= j < BPW * (w + 1) && j < n ensures Bools(ws, n)[j] != v {
      Place(w, j - BPW * w);
    }
  }

  /** The first such bit of word w is the first of all. */
  lemma FoundInWord(ws: seq<u64>, n: nat, w: nat, b: nat, v: bool)
    requires Fits(ws, n) && w < |ws| && NoneBefore(Bools(ws, n), BPW * w, v)
    requires b < BPW && BPW * w + b < n && BitAt(ws[w], b) == v && forall c: nat :: c < b ==> BitAt(ws[w], c) != v
    ensures IsLeast(Bools(ws, n), BPW * w + b, v)
  {
    Place(w, b);
    forall j | BPW * w <= j < BPW * w + b ensures Bools(ws, n)[j] != v {
      Place(w, j - BPW * w);
    }
  }

  lemma NoneAtAll(ws: seq<u64>, n: nat, v: bool)
    requires Fits(ws, n) && NoneBefore(Bools(ws, n), BPW * |ws|, v)
    ensures IsLeast(Bools(ws, n), -1, v)
  {
    Room(n);
  }

  lemma AllOnes(b: nat)
    requires b < BPW
    ensures BitAt(W64 - 1, b)
  {
    NoBit(b);
    NotBit(0, b);
  }

  /** The lowest clear bit of a word that is not all ones. */
  lemma LowestClear(x: u64)
    requires x != W64 - 1
    ensures Lowest(Not(x)) < BPW && !BitAt(x, Lowest(Not(x))) && forall c: nat :: c < Lowest(Not(x)) ==> BitAt(x, c)
  {
    LowestInWord(Not(x));
    NotBit(x, Lowest(Not(x)));
    forall c: nat | c < Lowest(Not(x)) ensures BitAt(x, c) { NotBit(x, c); }
  }

  /** A set bit is never past the end. */
  lemma SetBitIsInside(ws: seq<u64>, n: nat, w: nat, b: nat)
    requires Fits(ws, n) && w < |ws| && b < BPW && BitAt(ws[w], b)
    ensures BPW * w + b < n
  {
    Place(w, b);
    assert BitIn(ws, BPW * w + b);
  }

  lemma Wraps(b: nat, n: nat)
    requires b < n
    ensures (b + 1) % n == if b + 1 == n then 0 else b + 1
  {
    if b + 1 == n { QuotRem(1, n, 0); } else { QuotRem(0, n, b + 1); }
  }

  lemma ZeroFrom(x: u64)
    ensures From(x, 0) == x
  {}

  /** The least position from `from` on with value v. */
  ghost predicate IsLeastFrom(s: seq<bool>, from: nat, r: int, v: bool) {
    if r < 0 then r == -1 && forall j :: from <= j < |s| ==> s[j] != v
    else from <= r < |s| && s[r] == v && forall j :: from <= j < r ==> s[j] != v
  }

  /** The signed index that the search takes, and the unsigned one that it starts from. */
  type i64 = x: int | -0x8000_0000_0000_0000 <= x < 0x8000_0000_0000_0000

  function After(idx: i64): u64 { (idx + 1) % W64 }

  /** For an index in use, -1 for the start of the vector included, the search starts in a word of the
      array exactly when the index is not the last of a vector of whole words.  */
  lemma NextSearchExactly(n: nat, idx: i64)
    requires -1 <= idx < n
    ensures After(idx) / BPW < WordsFor(n) <==> !(n % BPW == 0 && idx == n - 1)
  {
    assert After(idx) == idx + 1;
    Room(n);
    if n % BPW == 0 {
      Place(n / BPW, BPW - 1);
      assert WordsFor(n) == n / BPW;
      if idx < n - 1 { Position(idx + 1, n / BPW); }
    } else {
      Position(idx + 1, WordsFor(n));
    }
  }

  /** The vector of k words: after its last bit the search goes wrong. */
  lemma SearchAfterTheLast(k: nat)
    requires 0 < k * BPW < 0x8000_0000_0000_0000
    ensures After(k * BPW - 1) / BPW == WordsFor(k * BPW) == k
  {
    Place(k, 0);
    Place(k, BPW - 1);
  }

  /** Position p is even and it and the next, where there is one, are clear. */
  predicate FreePair(s: seq<bool>, p: nat) {
    p % 2 == 0 && p < |s| && !s[p] && (p + 1 < |s| ==> !s[p + 1])
  }

  ghost predicate NoPairBefore(s: seq<bool>, i: nat) { forall p: nat :: p < i ==> !FreePair(s, p) }

  ghost predicate IsLeastPair(s: seq<bool>, r: int) {
    if r < 0 then r == -1 && NoPairBefore(s, |s|) else FreePair(s, r) && NoPairBefore(s, r)
  }

  /** The pair found lies in the vector, whatever its contents, exactly when the length is even. */
  lemma PairsInsideExactlyEven(n: nat)
    ensures n % 2 == 0 <==> forall s: seq<bool>, r: nat :: |s| == n && IsLeastPair(s, r) ==> r + 1 < n
  {
    if n % 2 == 1 {
      var s := seq(n, i => i != n - 1);
      assert FreePair(s, n - 1);
      assert IsLeastPair(s, n - 1);
    }
  }

  lemma BitOfWord(ws: seq<u64>, w: nat, b: nat)
    requires w < |ws| && b < BPW
    ensures BPW * w + b < BPW * |ws| && BitIn(ws, BPW * w + b) == BitAt(ws[w], b)
    ensures (BPW * w + b) % 2 == b % 2
  {
    Place(w, b);
    QuotRem(BPW / 2 * w + b / 2, 2, b % 2);
  }

  /** What the words say about a pair of word w. */
  lemma PairInWord(ws: seq<u64>, n: nat, w: nat, b: nat)
    requires Fits(ws, n) && w < |ws| && b + 1 < BPW && b % 2 == 0
    ensures FreePair(Bools(ws, n), BPW * w + b) <==> BPW * w + b < n && !BitAt(ws[w], b) && !BitAt(ws[w], b + 1)
  {
    BitOfWord(ws, w, b);
    BitOfWord(ws, w, b + 1);
    var p, s := BPW * w + b, Bools(ws, n);
    if p < n {
      assert s[p] == BitAt(ws[w], b);
      if p + 1 < n { assert s[p + 1] == BitAt(ws[w], b + 1); } else { assert !BitIn(ws, p + 1); }
    }
  }

  lemma SkipPair(ws: seq<u64>, n: nat, w: nat, b: nat)
    requires Fits(ws, n) && w < |ws| && b + 1 < BPW && b % 2 == 0 && NoPairBefore(Bools(ws, n), BPW * w + b)
    requires BPW * w + b < n ==> BitAt(ws[w], b) || BitAt(ws[w], b + 1)
    ensures NoPairBefore(Bools(ws, n), BPW * w + b + 2)
  {
    PairInWord(ws, n, w, b);
    assert (BPW * w + b + 1) % 2 == 1;
  }

  /** Pairs below the lowest clear bit are not free. */
  lemma {:induction false} SkipPairs(ws: seq<u64>, n: nat, w: nat, b: nat)
    requires Fits(ws, n) && w < |ws| && b <= BPW && b % 2 == 0 && NoPairBefore(Bools(ws, n), BPW * w)
    requires forall c: nat :: c < b ==> BitAt(ws[w], c)
    ensures NoPairBefore(Bools(ws, n), BPW * w + b)
    decreases b
  {
    if b > 0 {
      SkipPairs(ws, n, w, b - 2);
      SkipPair(ws, n, w, b - 2);
    }
  }

  /** Word w's part of the vector. */
  lemma WordPart(ws: seq<u64>, n: nat, w: nat)
    requires Fits(ws, n) && n == BPW * |ws| && w < |ws|
    ensures BPW * w + BPW <= n && Bools(ws, n)[BPW * w..BPW * w + BPW] == Row(ws[w], BPW)
  {
    var s, lo := Bools(ws, n), BPW * w;
    assert lo + BPW <= n;
    forall b | 0 <= b < BPW ensures s[lo..lo + BPW][b] == Row(ws[w], BPW)[b] { Place(w, b); }
    assert s[lo..lo + BPW] == Row(ws[w], BPW);
  }

  lemma {:induction false} CountPrefix(ws: seq<u64>, n: nat, w: nat)
    requires Fits(ws, n) && n == BPW * |ws| && w < |ws|
    ensures Count(Bools(ws, n)[..BPW * (w + 1)]) == Count(Bools(ws, n)[..BPW * w]) + Population(ws[w])
  {
    var s, lo := Bools(ws, n), BPW * w;
    WordPart(ws, n, w);
    WidePowers();
    PopulationCounts(ws[w], BPW);
    CountJoin(s[..lo], s[lo..lo + BPW]);
    assert s[..lo + BPW] == s[..lo] + s[lo..lo + BPW];
  }

  /** Vectors of one length with the same bits have the same words, because the spare bits are zero. */
  lemma SameWords(us: seq<u64>, ws: seq<u64>, n: nat)
    requires Fits(us, n) && Fits(ws, n)
    ensures Bools(us, n) == Bools(ws, n) <==> us == ws
  {
    Room(n);
    if Bools(us, n) == Bools(ws, n) {
      forall w | 0 <= w < |us| ensures us[w] == ws[w] {
        forall b: nat | b < BPW ensures BitAt(us[w], b) == BitAt(ws[w], b) {
          Place(w, b);
          if BPW * w + b < n {
            assert Bools(us, n)[BPW * w + b] == Bools(ws, n)[BPW * w + b];
          } else {
            assert !BitIn(us, BPW * w + b) && !BitIn(ws, BPW * w + b);
          }
        }
        WidePowers();
        SameBits(us[w], ws[w], BPW);
      }
    }
  }

  lemma RestOfWord(ws: seq<u64>, n: nat, w: nat, b: nat)
    requires Fits(ws, n) && w < |ws| && b < BPW && From(ws[w], b) == 0
    ensures forall j :: BPW * w + b <= j < BPW * (w + 1) && j < n ==> !Bools(ws, n)[j]
  {
    forall j | BPW * w + b <= j < BPW * (w + 1) && j < n ensures !Bools(ws, n)[j] {
      Place(w, j - BPW * w);
      FromBits(ws[w], b, j - BPW * w);
      NoBit(j - BPW * w);
    }
  }

  lemma FoundInRest(ws: seq<u64>, n: nat, w: nat, b: nat)
    requires Fits(ws, n) && w < |ws| && b < BPW && From(ws[w], b) != 0
    ensures IsLeastFrom(Bools(ws, n), BPW * w + b, BPW * w + Lowest(From(ws[w], b)), true)
  {
    var k := Lowest(From(ws[w], b));
    LowestInWord(From(ws[w], b));
    FromBits(ws[w], b, k);
    Place(w, k);
    SetBitIsInside(ws, n, w, k);
    forall j | BPW * w + b <= j < BPW * w + k ensures !Bools(ws, n)[j] {
      Place(w, j - BPW * w);
      FromBits(ws[w], b, j - BPW * w);
    }
  }

  class BitVec {
    var nBits: u64
    var arr: array<u64>

    ghost predicate Valid()
      reads this, arr
    {
      Fits(arr[..], nBits)
    }

    ghost function Contents(): (s: seq<bool>)
      requires Valid()
      reads this, arr
      ensures |s| == nBits
    {
      Bools(arr[..], nBits)
    }

    constructor (n: u64)
      ensures Valid() && fresh(arr) && nBits == n && Contents() == seq(n, _ => false)
    {
      nBits := n;
      arr := new u64[WordsFor(n)](_ => 0);
      new;
      forall i: nat | i < BPW * arr.Length ensures !BitIn(arr[..], i) { NoBit(i % BPW); }
    }

    method Get(idx: nat) returns (v: bool)
      requires Valid() && idx < nBits
      ensures v == Contents()[idx]
    {
      Room(nBits);
      Position(idx, arr.Length);
      v := Hi(arr[idx / BPW], idx % BPW) % 2 == 1;
    }

    /** `ok` is false when there is no such bit; the program ends then. */
    method Set(idx: nat) returns (ok: bool)
      requires Valid()
      modifies arr
      ensures Valid() && ok == (idx < nBits)
      ensures Contents() == if ok then old(Contents())[idx := true] else old(Contents())
    {
      if idx >= nBits { return false; }
      Room(nBits);
      Position(idx, arr.Length);
      ghost var ws := arr[..];
      var w, b := idx / BPW, idx % BPW;
      forall c: nat | c < BPW ensures BitAt(SetIn(ws[w], b), c) == if c == b then true else BitAt(ws[w], c) {
        SetBits(ws[w], b, c);
      }
      OneChanged(ws, nBits, idx, SetIn(ws[w], b), true);
      arr[w] := SetIn(arr[w], b);
      assert arr[..] == ws[w := SetIn(ws[w], b)];
      ok := true;
    }

    method Clear(idx: nat)
      requires Valid() && idx < nBits
      modifies arr
      ensures Valid() && Contents() == old(Contents())[idx := false]
    {
      Room(nBits);
      Position(idx, arr.Length);
      ghost var ws := arr[..];
      var w, b := idx / BPW, idx % BPW;
      forall c: nat | c < BPW ensures BitAt(ClearIn(ws[w], b), c) == if c == b then false else BitAt(ws[w], c) {
        ClearBits(ws[w], b, c);
      }
      OneChanged(ws, nBits, idx, ClearIn(ws[w], b), false);
      arr[w] := ClearIn(arr[w], b);
      assert arr[..] == ws[w := ClearIn(ws[w], b)];
    }

    /** The least clear bit. */
    method FindFirstUnset() returns (r: int)
      requires Valid()
      ensures IsLeast(Contents(), r, false)
    {
      ghost var ws := arr[..];
      Room(nBits);
      var w := 0;
      while w < arr.Length
        invariant w <= arr.Length && NoneBefore(Bools(ws, nBits), BPW * w, false)
      {
        if arr[w] == W64 - 1 {
          forall b: nat | b < BPW ensures BitAt(ws[w], b) { AllOnes(b); }
          SkipWord(ws, nBits, w, false);
        } else if arr[w] == 0 {
          NoBit(0);
          FoundInWord(ws, nBits, w, 0, false);
          return BPW * w;
        } else {
          LowestClear(arr[w]);
          var idx := BPW * w + Lowest(Not(arr[w]));
          if idx < nBits {
            FoundInWord(ws, nBits, w, Lowest(Not(arr[w])), false);
            return idx;
          }
          SkipWord(ws, nBits, w, false);
        }
        w := w + 1;
      }
      NoneAtAll(ws, nBits, false);
      r := -1;
    }

    /** The least set bit. */
    method FindFirstSet() returns (r: int)
      requires Valid()
      ensures IsLeast(Contents(), r, true)
    {
      ghost var ws := arr[..];
      var w := 0;
      while w < arr.Length
        invariant w <= arr.Length && NoneBefore(Bools(ws, nBits), BPW * w, true)
      {
        if arr[w] == 0 {
          forall b: nat | b < BPW ensures !BitAt(ws[w], b) { NoBit(b); }
          SkipWord(ws, nBits, w, true);
        } else {
          LowestInWord(arr[w]);
          var idx := BPW * w + Lowest(arr[w]);
          SetBitIsInside(ws, nBits, w, Lowest(arr[w]));
          FoundInWord(ws, nBits, w, Lowest(arr[w]), true);
          return if idx < nBits then idx else -1;
        }
        w := w + 1;
      }
      NoneAtAll(ws, nBits, true);
      r := -1;
    }

    /** The least set bit after idx; `ok` is false when the search starts in a word past the array, and
        then the program reads outside it. */
    method FindNextSet(idx: i64) returns (ok: bool, r: int)
      requires Valid()
      ensures ok == (After(idx) / BPW < arr.Length)
      ensures ok ==> IsLeastFrom(Contents(), After(idx), r, true)
    {
      ghost var ws := arr[..];
      var i := After(idx);
      ok, r := i / BPW < arr.Length, -1;
      if !ok { return; }
      Room(nBits);
      Position(i, arr.Length);
      var w := i / BPW;
      var ww := From(arr[w], i % BPW);
      if ww != 0 {
        FoundInRest(ws, nBits, w, i % BPW);
        return true, w * BPW + Lowest(ww);
      }
      RestOfWord(ws, nBits, w, i % BPW);
      w := w + 1;
      while w < arr.Length
        invariant w <= arr.Length
        invariant forall j :: i <= j < BPW * w && j < nBits ==> !Bools(ws, nBits)[j]
      {
        ZeroFrom(arr[w]);
        if arr[w] != 0 {
          FoundInRest(ws, nBits, w, 0);
          var next := BPW * w + Lowest(arr[w]);
          return true, if next < nBits then next else -1;
        }
        RestOfWord(ws, nBits, w, 0);
        w := w + 1;
      }
    }

    /** From the last bit on, round: a clear bit, unless all are set. */
    method FindFirstUnsetRoundRobin() returns (r: int)
      requires Valid()
      ensures nBits > 0 && !Contents()[nBits - 1] ==> r == nBits - 1
      ensures !(nBits > 0 && !Contents()[nBits - 1]) ==> IsLeast(Contents(), r, false)
    {
      ghost var s := Contents();
      var i, b := 0, if nBits > 0 then nBits - 1 else 0;
      while i < nBits
        invariant i <= nBits && (nBits > 0 ==> b == if i == 0 then nBits - 1 else i - 1)
        invariant i > 0 ==> s[nBits - 1] && NoneBefore(s, i - 1, false)
      {
        var v := Get(b);
        if !v { return b; }
        Wraps(b, nBits);
        b := Mod(b + 1, nBits);
        i := i + 1;
      }
      r := -1;
    }

    /** The number of set bits; `ok` is false, and the program ends, unless whole words are used. */
    method Popcount() returns (ok: bool, c: nat)
      requires Valid()
      ensures ok == (nBits % BPW == 0) && (ok ==> c == Count(Contents()))
    {
      ghost var ws := arr[..];
      if BPW * arr.Length != nBits { return false, 0; }
      ok, c := true, 0;
      var w := 0;
      while w < arr.Length
        invariant w <= arr.Length && c == Count(Bools(ws, nBits)[..BPW * w])
      {
        CountPrefix(ws, nBits, w);
        c := c + Population(arr[w]);
        w := w + 1;
      }
      assert Bools(ws, nBits)[..BPW * w] == Bools(ws, nBits);
    }

    /** The least even position that is clear together with the next one. */
    method FindFirstUnsetPair() returns (r: int)
      requires Valid()
      ensures IsLeastPair(Contents(), r)
    {
      ghost var ws := arr[..];
      Room(nBits);
      var w := 0;
      while w < arr.Length
        invariant w <= arr.Length && NoPairBefore(Bools(ws, nBits), BPW * w)
      {
        if arr[w] == W64 - 1 {
          forall b: nat | b < BPW ensures BitAt(ws[w], b) { AllOnes(b); }
          SkipPairs(ws, nBits, w, BPW);
        } else if arr[w] == 0 {
          NoBit(0);
          NoBit(1);
          PairInWord(ws, nBits, w, 0);
          return BPW * w;
        } else {
          var found, end := PairInThisWord(w);
          if found >= 0 || end { return found; }
        }
        w := w + 1;
      }
      r := -1;
    }

    /** The search within word w, from its lowest clear bit on; `end` when it runs past the last bit. */
    method PairInThisWord(w: nat) returns (r: int, end: bool)
      requires Valid() && w < arr.Length && arr[w] != W64 - 1 && NoPairBefore(Contents(), BPW * w)
      ensures r >= 0 || end ==> IsLeastPair(Contents(), r)
      ensures r < 0 && !end ==> NoPairBefore(Contents(), BPW * (w + 1))
    {
      ghost var ws := arr[..];
      LowestClear(arr[w]);
      RoundsDown(Lowest(Not(arr[w])));
      var b := And(Lowest(Not(arr[w])), W64 - 2);
      SkipPairs(ws, nBits, w, b);
      while b < BPW
        invariant b <= BPW && b % 2 == 0 && NoPairBefore(Bools(ws, nBits), BPW * w + b)
      {
        var p := BPW * w + b;
        if p >= nBits { return -1, true; }
        TwoBits(arr[w], b);
        PairInWord(ws, nBits, w, b);
        if And(Hi(arr[w], b), 3) == 0 { return p, true; }
        SkipPair(ws, nBits, w, b);
        b := b + 2;
      }
      r, end := -1, false;
    }

    /** Two vectors are equal when they have the same length and the same words. */
    method Equals(other: BitVec) returns (same: bool)
      requires Valid() && other.Valid()
      ensures same <==> Contents() == other.Contents()
    {
      if nBits != other.nBits { return false; }
      SameWords(arr[..], other.arr[..], nBits);
      var w := 0;
      while w < arr.Length
        invariant w <= arr.Length && arr[..w] == other.arr[..w]
      {
        if arr[w] != other.arr[w] {
          assert arr[..][w] != other.arr[..][w];
          return false;
        }
        w := w + 1;
      }
      assert arr[..] == other.arr[..];
      same := true;
    }
  }
}

/** Numbers as strings of bytes, most significant first. */
module ByteStrings {

  predicate Bytes(s: seq<nat>) { forall i :: 0 <= i < |s| ==> s[i] < 256 }

  function Val(s: seq<nat>): nat {
    if s == [] then 0 else Val(s[..|s| - 1]) * 256 + s[|s| - 1]
  }

  /** The low n bytes of v. */
  function Str(v: nat, n: nat): (s: seq<nat>)
    ensures |s| == n && Bytes(s)
  {
    if n == 0 then [] else Str(v / 256, n - 1) + [v % 256]
  }

  /** Shifts by whole bytes, and the low bytes. */
  function Shl(v: nat, k: nat): nat { if k == 0 then v else 256 * Shl(v, k - 1) }
  function Shr(v: nat, k: nat): nat { if k == 0 then v else Shr(v / 256, k - 1) }
  function Low(v: nat, k: nat): nat { if k == 0 then 0 else Low(v / 256, k - 1) * 256 + v % 256 }

  lemma {:induction false} ValJoin(s: seq<nat>, t: seq<nat>)
    ensures Val(s + t) == Shl(Val(s), |t|) + Val(t)
    decreases |t|
  {
    if t == [] {
      assert s + t == s;
    } else {
      var u := t[..|t| - 1];
      assert (s + t)[..|s + t| - 1] == s + u;
      ValJoin(s, u);
    }
  }

  /** Cutting a string of bytes at position i. */
  lemma {:induction false} ValCut(s: seq<nat>, i: nat)
    requires Bytes(s) && i <= |s|
    ensures Shr(Val(s), |s| - i) == Val(s[..i]) && Low(Val(s), |s| - i) == Val(s[i..])
    decreases |s|
  {
    if i == |s| {
      assert s[..i] == s;
    } else {
      var t := s[..|s| - 1];
      assert Val(s) / 256 == Val(t) && Val(s) % 256 == s[|s| - 1];
      ValCut(t, i);
      assert s[..i] == t[..i];
      assert s[i..][..|s| - i - 1] == t[i..];
    }
  }

  /** Shifting left, then keeping n bytes, keeps the low n - k. */
  lemma {:induction false} ShiftOut(v: nat, k: nat, n: nat)
    requires k <= n
    ensures Low(Shl(v, k), n) == Shl(Low(v, n - k), k)
    decreases k
  {
    if k > 0 { ShiftOut(v, k - 1, n - 1); }
  }

  lemma {:induction false} StrVal(s: seq<nat>)
    requires Bytes(s)
    ensures Str(Val(s), |s|) == s
    decreases |s|
  {
    if s != [] {
      var t := s[..|s| - 1];
      assert Val(s) / 256 == Val(t) && Val(s) % 256 == s[|s| - 1];
      StrVal(t);
      assert s == t + [s[|s| - 1]];
    }
  }

  lemma {:induction false} ValStr(v: nat, n: nat)
    ensures Val(Str(v, n)) == Low(v, n)
    decreases n
  {
    if n > 0 {
      ValStr(v / 256, n - 1);
      assert Str(v, n)[..n - 1] == Str(v / 256, n - 1);
    }
  }
}

/** Fixed-width unsigned words, bitwise operations on them, and weighted sums over sequences. */
module Words {

  const WORD32: nat := 0x1_0000_0000
  const WORD64: nat := 0x1_0000_0000_0000_0000

  type u32 = x: int | 0 <= x < 0x1_0000_0000
  type u64 = x: int | 0 <= x < 0x1_0000_0000_0000_0000

  /** Go's conversion of an unsigned value to uint32: the low 32 bits. */
  function ToU32(n: nat): u32 { if n < WORD32 then n else ToU32(n - WORD32) }

  /** Adding one to a uint32 wraps to zero at the top. */
  function Inc32(x: u32): u32 { if x == 0xFFFF_FFFF then 0 else x + 1 }

  /** The low 64 bits of a count. */
  function ToU64(n: nat): u64 { if n < WORD64 then n else ToU64(n - WORD64) }

  /** Go's conversion of a uint32 to int32: the same bits, read as two's complement. */
  function ToI32(n: u32): int { if n < 0x8000_0000 then n else n - 0x1_0000_0000 }

  /** It is the signed 32-bit number that differs from the unsigned one by 0 or 2^32. */
  lemma SignedMeaning(n: u32)
    ensures -0x8000_0000 <= ToI32(n) < 0x8000_0000 && (ToI32(n) == n || ToI32(n) + WORD32 == n)
  {}

  ghost function Pow2(e: nat): (r: nat)
    ensures r >= 1
  {
    if e == 0 then 1 else 2 * Pow2(e - 1)
  }

  /** Bitwise AND of two unsigned words. */
  function BitAnd(a: nat, b: nat): (r: nat)
    decreases a
    ensures r <= a
  {
    if a == 0 || b == 0 then 0
    else 2 * BitAnd(a / 2, b / 2) + (if a % 2 == 1 && b % 2 == 1 then 1 else 0)
  }

  /** Bitwise OR of two unsigned words. */
  function BitOr(a: nat, b: nat): nat
    decreases a
  {
    if a == 0 then b
    else if b == 0 then a
    else 2 * BitOr(a / 2, b / 2) + (if a % 2 == 1 || b % 2 == 1 then 1 else 0)
  }

  /** OR-ing into zeroed low bits is addition. */
  lemma {:induction false} OrDisjoint(a: nat, b: nat, k: nat)
    requires b < Pow2(k)
    ensures BitOr(a * Pow2(k), b) == a * Pow2(k) + b
  {
    if k == 0 {
    } else {
      assert a * Pow2(k) == 2 * (a * Pow2(k - 1));
      OrDisjoint(a, b / 2, k - 1);
    }
  }

  lemma PowersOfTwo()
    ensures Pow2(4) == 0x10 && Pow2(5) == 0x20 && Pow2(12) == 0x1000 && Pow2(32) == WORD32
  {
    assert Pow2(4) == 2 * (2 * (2 * (2 * Pow2(0))));
    assert Pow2(8) == 2 * (2 * (2 * (2 * Pow2(4))));
    assert Pow2(12) == 2 * (2 * (2 * (2 * Pow2(8))));
    assert Pow2(16) == 2 * (2 * (2 * (2 * Pow2(12))));
    assert Pow2(20) == 2 * (2 * (2 * (2 * Pow2(16))));
    assert Pow2(24) == 2 * (2 * (2 * (2 * Pow2(20))));
    assert Pow2(28) == 2 * (2 * (2 * (2 * Pow2(24))));
    assert Pow2(32) == 2 * (2 * (2 * (2 * Pow2(28))));
  }

  lemma {:induction false} PowAdd(m: nat, n: nat)
    ensures Pow2(m + n) == Pow2(m) * Pow2(n)
  {
    if n == 0 {
    } else {
      PowAdd(m, n - 1);
      assert Pow2(m) * (2 * Pow2(n - 1)) == 2 * (Pow2(m) * Pow2(n - 1));
    }
  }

  /** Cutting to 32 bits loses nothing below 2^32, and at least 2^32 from there on. */
  lemma {:induction false} CutLoss(n: nat)
    ensures if n < WORD32 then ToU32(n) == n else ToU32(n) + WORD32 <= n
  {
    if n < WORD32 {
    } else {
      CutLoss(n - WORD32);
    }
  }

  lemma {:induction false} CutMultiple(m: nat)
    ensures ToU32(m * WORD32) == 0
  {
    if m == 0 {
    } else {
      CutMultiple(m - 1);
      assert m * WORD32 - WORD32 == (m - 1) * WORD32;
    }
  }

  /** The sum of `w` over the elements of `s`. */
  ghost function Sum<T>(s: seq<T>, w: T -> nat): nat {
    if s == [] then 0 else Sum(s[..|s| - 1], w) + w(s[|s| - 1])
  }

  lemma SumAppend<T>(s: seq<T>, x: T, w: T -> nat)
    ensures Sum(s + [x], w) == Sum(s, w) + w(x)
  {
    assert (s + [x])[..|s|] == s;
  }

  lemma {:induction false} SumUpdate<T>(s: seq<T>, i: nat, x: T, w: T -> nat)
    requires i < |s|
    ensures Sum(s[i := x], w) + w(s[i]) == Sum(s, w) + w(x)
  {
    var n := |s| - 1;
    if i == n {
      assert s[i := x][..n] == s[..n];
    } else {
      assert s[i := x][..n] == s[..n][i := x];
      SumUpdate(s[..n], i, x, w);
    }
  }

  /** A sum of naturals is at least each of its terms, so it is zero only when all of them are. */
  lemma {:induction false} SumTerm<T>(s: seq<T>, i: nat, w: T -> nat)
    requires i < |s|
    ensures w(s[i]) <= Sum(s, w)
  {
    if i == |s| - 1 {
    } else {
      SumTerm(s[..|s| - 1], i, w);
    }
  }

  lemma {:induction false} SumZero<T>(s: seq<T>, w: T -> nat)
    requires forall x <- s :: w(x) == 0
    ensures Sum(s, w) == 0
  {
    if s == [] {
    } else {
      SumZero(s[..|s| - 1], w);
    }
  }

  lemma {:induction false} SumScaled<T>(s: seq<T>, v: T -> nat, w: T -> nat, b: nat)
    requires forall x <- s :: v(x) <= w(x) * b
    ensures Sum(s, v) <= Sum(s, w) * b
  {
    if s == [] {
    } else {
      var n := |s| - 1;
      SumScaled(s[..n], v, w, b);
      assert (Sum(s[..n], w) + w(s[n])) * b == Sum(s[..n], w) * b + w(s[n]) * b;
    }
  }
}

/** Failure-compatible results and machine-width number types shared by every model. */
module Wrappers {

  datatype Option<+T> = None | Some(value: T)

  datatype Result<+T, +E> = Success(value: T) | Failure(error: E)
  {
    predicate IsFailure() {
      Failure?
    }

    function PropagateFailure<U>(): Result<U, E>
      requires Failure?
    {
      Failure(error)
    }

    function Extract(): T
      requires Success?
    {
      value
    }
  }
}

/** The integer widths of the program, as subset types of `int`. */
module Machine {
  const TWO_7 := 0x80
  const TWO_8 := 0x100
  const TWO_31 := 0x8000_0000
  const TWO_32 := 0x1_0000_0000
  const TWO_63 := 0x8000_0000_0000_0000
  const TWO_64 := 0x1_0000_0000_0000_0000
  const TWO_256 := TWO_128 * TWO_128
  const TWO_128 := 0x1_0000_0000_0000_0000_0000_0000_0000_0000

  type byte = x: int | 0 <= x < TWO_8
  type u32 = x: int | 0 <= x < TWO_32
  type u64 = x: int | 0 <= x < TWO_64
  type u128 = x: int | 0 <= x < TWO_128
  type u256 = x: int | 0 <= x < TWO_256
  type i32 = x: int | -TWO_31 <= x < TWO_31
  type i64 = x: int | -TWO_63 <= x < TWO_63

  /** `v as u64` of a signed integer: two's complement, sign-extended. */
  function ToU64(v: i64): (r: u64)
    ensures v == ToI64(r)
  {
    if v < 0 then v + TWO_64 else v
  }

  /** `v as i64` of an unsigned one. */
  function ToI64(v: u64): i64 {
    if v < TWO_63 then v else v - TWO_64
  }

  /** `v as u32` of an `i32`. */
  function ToU32(v: i32): u32 {
    if v < 0 then v + TWO_32 else v
  }

  /** The casts keep the value modulo the width. */
  lemma CastsKeepResidue(v: i64, w: u64, x: i32)
    ensures (ToU64(v) - v) % TWO_64 == 0 && (ToI64(w) - w) % TWO_64 == 0 && (ToU32(x) - x) % TWO_32 == 0
  {
  }

  // ----- Big-endian bytes -----

  function Pow256(n: nat): nat {
    if n == 0 then 1 else Pow256(n - 1) * TWO_8
  }

  function BigEndian(bs: seq<byte>): nat {
    if bs == [] then 0 else BigEndian(bs[..|bs| - 1]) * TWO_8 + bs[|bs| - 1]
  }

  /** `to_be_bytes` of an integer of `n` bytes. */
  function FixedBigEndian(v: nat, n: nat): (bs: seq<byte>)
    ensures |bs| == n
  {
    if n == 0 then [] else FixedBigEndian(v / TWO_8, n - 1) + [v % TWO_8]
  }

  lemma {:induction false} Pow256Grows(m: nat, n: nat)
    requires m <= n
    ensures Pow256(m) <= Pow256(n)
  {
    if m < n {
      Pow256Grows(m, n - 1);
    }
  }

  lemma {:induction false} BigEndianPow(bs: seq<byte>)
    ensures BigEndian(bs) < Pow256(|bs|)
  {
    if bs != [] {
      BigEndianPow(bs[..|bs| - 1]);
    }
  }

  lemma {:induction false} FixedBack(v: nat, n: nat)
    requires v < Pow256(n)
    ensures BigEndian(FixedBigEndian(v, n)) == v
  {
    if n > 0 {
      FixedBack(v / TWO_8, n - 1);
      assert FixedBigEndian(v, n)[..n - 1] == FixedBigEndian(v / TWO_8, n - 1);
    }
  }

  lemma {:induction false} BigEndianInjective(a: seq<byte>, b: seq<byte>)
    requires |a| == |b| && BigEndian(a) == BigEndian(b)
    ensures a == b
  {
    if a != [] {
      var n := |a| - 1;
      BigEndianInjective(a[..n], b[..n]);
      assert a == a[..n] + [a[n]] && b == b[..n] + [b[n]];
    }
  }
}

/** Taking one element out of a sequence, and what that does to its multiset. */
module Sequences {
  function Remove<T>(s: seq<T>, i: nat): seq<T>
    requires i < |s|
  {
    s[..i] + s[i + 1..]
  }

  lemma RemoveMultiset<T>(s: seq<T>, i: nat)
    requires i < |s|
    ensures multiset(Remove(s, i)) == multiset(s) - multiset{s[i]}
  {
    assert s == s[..i] + [s[i]] + s[i + 1..];
  }

  lemma RemoveSame<T>(s: seq<T>, i: nat, t: seq<T>, j: nat)
    requires i < |s| && j < |t| && s[i] == t[j]
    ensures multiset(s) == multiset(t) <==> multiset(Remove(s, i)) == multiset(Remove(t, j))
  {
    RemoveMultiset(s, i);
    RemoveMultiset(t, j);
    assert multiset(s) == multiset(Remove(s, i)) + multiset{s[i]} by { assert s[i] in multiset(s); }
    assert multiset(t) == multiset(Remove(t, j)) + multiset{t[j]} by { assert t[j] in multiset(t); }
  }
}

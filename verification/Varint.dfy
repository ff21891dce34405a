/**
 * Base-128 varints as written and read by the invoice codec.
 *
 * The specification functions look at the bytes that remain (`s`) and say what is read and how many bytes
 * that takes; the methods are the loops over a buffer and a cursor, the cursor being passed in and out.
 */
module Varint {
  import opened Wrappers
  import opened Machine

  datatype DecodeError =
    | Truncated
    | Overflow
    | InvalidWireType
    | Utf8
    | InvalidTimestamp
    | InvalidTokenIdentifier
    | InvalidUuidBytesLength
    | InvalidU128BytesLength
    | InvalidPublicKey
    | MissingField(what: string)

  /** A value together with the number of bytes it took. */
  datatype Read<+T> = Read(value: T, used: nat)

  const MAX_LEN_32: nat := 5
  const MAX_LEN_64: nat := 10

  /** The least base-128 representation, least significant group first. */
  function Encode(v: nat): (bs: seq<byte>)
    ensures |bs| > 0
  {
    if v < TWO_7 then [v] else [v % TWO_7 + TWO_7] + Encode(v / TWO_7)
  }

  /** The little-endian base-128 value of some bytes, their continuation bits dropped. */
  function ValueOf(bs: seq<byte>): nat {
    if bs == [] then 0 else bs[0] % TWO_7 + TWO_7 * ValueOf(bs[1..])
  }

  function Pow128(i: nat): (p: nat)
    ensures p > 0
  {
    if i == 0 then 1 else TWO_7 * Pow128(i - 1)
  }

  /** The first `n` bytes are a varint: the last of them, and it alone, has no continuation bit. */
  ghost predicate EndsAt(s: seq<byte>, n: nat) {
    0 < n <= |s| && s[n - 1] < TWO_7 && forall i :: 0 <= i < n - 1 ==> s[i] >= TWO_7
  }

  /** How many bytes, of at most `left`, make up the varint at the head of `s`. */
  function Length(s: seq<byte>, left: nat): (r: Result<nat, DecodeError>)
    ensures r.Success? ==> r.value <= left && EndsAt(s, r.value)
    decreases left
  {
    if left == 0 then Failure(Overflow)
    else if s == [] then Failure(Truncated)
    else if s[0] < TWO_7 then Success(1)
    else
      match Length(s[1..], left - 1)
      case Success(n) => assert forall i :: 0 < i < n ==> s[i] == s[1..][i - 1]; Success(n + 1)
      case Failure(e) => Failure(e)
  }

  function Decode(s: seq<byte>, left: nat, width: nat): (r: Result<Read<nat>, DecodeError>)
    requires width > 0
    ensures r.Success? ==> 0 < r.value.used <= |s| && r.value.used <= left && r.value.value < width
  {
    var n :- Length(s, left);
    Success(Read(ValueOf(s[..n]) % width, n))
  }

  function Decode32(s: seq<byte>): (r: Result<Read<u32>, DecodeError>)
    ensures r.Success? ==> 0 < r.value.used <= |s|
  {
    Decode(s, MAX_LEN_32, TWO_32)
  }

  function Decode64(s: seq<byte>): (r: Result<Read<u64>, DecodeError>)
    ensures r.Success? ==> 0 < r.value.used <= |s|
  {
    Decode(s, MAX_LEN_64, TWO_64)
  }

  // ----- What the specification means -----

  /** A read succeeds exactly when one of the first `left` bytes lacks its continuation bit, and then reads up to
      and including the first such byte; the two errors tell a short buffer from an over-long varint. */
  lemma {:induction false} LengthIsFirstEnd(s: seq<byte>, left: nat, n: nat)
    ensures Length(s, left) == Success(n) <==> n <= left && EndsAt(s, n)
    ensures Length(s, left) == Failure(Truncated) <==> |s| < left && forall i :: 0 <= i < |s| ==> s[i] >= TWO_7
    ensures Length(s, left) == Failure(Overflow) <==> left <= |s| && forall i :: 0 <= i < left ==> s[i] >= TWO_7
    decreases left
  {
    if left > 0 && s != [] && s[0] >= TWO_7 {
      var t := s[1..];
      LengthIsFirstEnd(t, left - 1, if n > 0 then n - 1 else 0);
      assert forall i :: 0 <= i < |t| ==> t[i] == s[i + 1];
      if EndsAt(s, n) {
        assert EndsAt(t, n - 1);
      }
      assert (forall i :: 0 <= i < |s| ==> s[i] >= TWO_7) <==> forall i :: 0 <= i < |t| ==> t[i] >= TWO_7 by {
        assert forall i :: 0 < i < |s| ==> s[i] == t[i - 1];
      }
      assert left <= |s| ==> ((forall i :: 0 <= i < left ==> s[i] >= TWO_7) <==> forall i :: 0 <= i < left - 1 ==> t[i] >= TWO_7) by {
        assert forall i :: 0 < i < |s| ==> s[i] == t[i - 1];
      }
    }
  }

  lemma {:induction false} ValueSnoc(bs: seq<byte>, b: byte)
    ensures ValueOf(bs + [b]) == ValueOf(bs) + Pow128(|bs|) * (b % TWO_7)
  {
    if bs != [] {
      assert (bs + [b])[1..] == bs[1..] + [b];
      ValueSnoc(bs[1..], b);
    }
  }

  lemma {:induction false} ValueBound(bs: seq<byte>)
    ensures ValueOf(bs) < Pow128(|bs|)
  {
    if bs != [] {
      ValueBound(bs[1..]);
    }
  }

  lemma {:induction false} EncodeIsVarint(v: nat)
    ensures EndsAt(Encode(v), |Encode(v)|) && ValueOf(Encode(v)) == v
  {
    if v >= TWO_7 {
      EncodeIsVarint(v / TWO_7);
      assert Encode(v)[1..] == Encode(v / TWO_7);
      assert forall i :: 0 < i < |Encode(v)| ==> Encode(v)[i] == Encode(v / TWO_7)[i - 1];
    }
  }

  /** No varint with the same value is shorter than the one written. */
  lemma {:induction false} EncodeIsMinimal(bs: seq<byte>)
    requires bs != []
    ensures |Encode(ValueOf(bs))| <= |bs|
  {
    if |bs| == 1 {
      assert ValueOf(bs[1..]) == 0;
    } else {
      EncodeIsMinimal(bs[1..]);
      assert ValueOf(bs) / TWO_7 == ValueOf(bs[1..]);
    }
  }

  lemma {:induction false} EncodeLength(v: nat, k: nat)
    requires 0 < k && v < Pow128(k)
    ensures |Encode(v)| <= k
  {
    if v >= TWO_7 {
      assert v / TWO_7 < Pow128(k - 1);
      EncodeLength(v / TWO_7, k - 1);
    }
  }

  lemma Lengths()
    ensures TWO_32 < Pow128(MAX_LEN_32) && TWO_64 < Pow128(MAX_LEN_64)
  {
    assert Pow128(5) == 0x8_0000_0000 by { assert Pow128(3) == 0x20_0000; }
    assert Pow128(7) == 0x2_0000_0000_0000 by { assert Pow128(6) == TWO_7 * Pow128(5); }
    assert Pow128(10) == 0x40_0000_0000_0000_0000 by { assert Pow128(9) == TWO_7 * Pow128(8); }
  }

  /** Reading what was written, at the head of any further bytes, gives the value back and takes exactly the
      bytes written: at most five for a `u32`, at most ten for a `u64`. */
  lemma ReadBack(v: nat, t: seq<byte>)
    ensures v < TWO_32 ==> Decode32(Encode(v) + t) == Success(Read(v, |Encode(v)|)) && |Encode(v)| <= 5
    ensures v < TWO_64 ==> Decode64(Encode(v) + t) == Success(Read(v, |Encode(v)|)) && |Encode(v)| <= 10
  {
    Lengths();
    if v < TWO_32 {
      ReadBackWithin(v, t, MAX_LEN_32, TWO_32);
    }
    if v < TWO_64 {
      ReadBackWithin(v, t, MAX_LEN_64, TWO_64);
    }
  }

  lemma ReadBackWithin(v: nat, t: seq<byte>, left: nat, width: nat)
    requires 0 < left && v < width <= Pow128(left)
    ensures Decode(Encode(v) + t, left, width) == Success(Read(v, |Encode(v)|)) && |Encode(v)| <= left
  {
    var e := Encode(v);
    EncodeIsVarint(v);
    EncodeLength(v, left);
    assert EndsAt(e + t, |e|) && (e + t)[..|e|] == e;
    LengthIsFirstEnd(e + t, left, |e|);
    assert v % width == v by { ModOf(0, width, v); }
  }

  /** A successful read does not look past the bytes it takes. */
  lemma ReadExtends(s: seq<byte>, t: seq<byte>, left: nat, width: nat)
    requires width > 0 && Decode(s, left, width).Success?
    requires Decode(s, left, width).value.used <= |t|
    requires s[..Decode(s, left, width).value.used] == t[..Decode(s, left, width).value.used]
    ensures Decode(t, left, width) == Decode(s, left, width)
  {
    var n := Decode(s, left, width).value.used;
    assert forall i :: 0 <= i < n ==> t[i] == t[..n][i] == s[..n][i] == s[i];
    LengthIsFirstEnd(t, left, n);
  }

  // ----- The loops -----

  /** `b << s` on a word of `width` values keeps the low bits; the accumulator and the shifted group share no
      bit, so their bitwise or is their sum. */
  lemma OrIsSum(x: nat, d: nat, p: nat, width: nat, q: nat)
    requires x < p && width == p * q && q > 0
    ensures (x + d * p) % width == x + d * p % width
  {
    var a, b := d / q, d % q;
    assert d * p == a * width + b * p;
    assert b * p + x < width by {
      assert b + 1 <= q;
      assert (b + 1) * p <= q * p;
    }
    ModOf(a, width, b * p);
    ModOf(a, width, b * p + x);
  }

  lemma ModOf(a: nat, m: nat, r: nat)
    requires r < m
    ensures (a * m + r) % m == r
  {
    var x := a * m + r;
    var d := a - x / m;
    assert d * m == x % m - r by {
      assert x == m * (x / m) + x % m;
      assert d * m == a * m - x / m * m;
    }
    assert (d >= 1 ==> d * m >= m) && (d <= -1 ==> (-d) * m >= m);
  }

  /** The place value of a group divides the word; every group but the last one allowed fits whole. */
  lemma GroupFits(i: nat, left: nat, width: nat) returns (q: nat)
    requires (left == MAX_LEN_32 && width == TWO_32) || (left == MAX_LEN_64 && width == TWO_64)
    requires i < left
    ensures q > 0 && width == Pow128(i) * q
    ensures i + 1 < left ==> q >= TWO_7
  {
    q := width;
    var k := 0;
    while k < i
      invariant 0 <= k <= i && width == Pow128(k) * q
      invariant left == MAX_LEN_32 ==> q == [TWO_32, 0x200_0000, 0x4_0000, 0x800, 0x10][k]
      invariant left == MAX_LEN_64 ==> q == [TWO_64, 0x200_0000_0000_0000, 0x4_0000_0000_0000, 0x800_0000_0000, 0x10_0000_0000,
                                             0x2000_0000, 0x40_0000, 0x8000, 0x100, 0x2][k]
    {
      ghost var was := q;
      q := q / TWO_7;
      assert was == TWO_7 * q;
      assert Pow128(k) * (TWO_7 * q) == Pow128(k + 1) * q;
      k := k + 1;
    }
  }

  /** One round: or-ing in the next group gives the value of one more byte, reduced to the word; nothing is lost
      as long as the place value is at least one group below the top of the word. */
  lemma RoundArithmetic(x: nat, d: nat, p: nat, width: nat, q: nat)
    requires x < p && d < TWO_7 && q > 0 && width == p * q
    ensures x + d * p % width == (x + p * d) % width
    ensures q >= TWO_7 ==> (x + p * d) % width == x + p * d
  {
    OrIsSum(x, d, p, width, q);
    assert d * p == p * d;
    if q >= TWO_7 {
      Fits(x, d, p, q);
      ModOf(0, width, x + p * d);
    }
  }

  lemma Fits(x: nat, d: nat, p: nat, q: nat)
    requires x < p && d < q
    ensures x + p * d < p * q
  {
    assert p * (d + 1) <= p * q;
  }

  method WriteVarint(out: seq<byte>, value: nat) returns (out': seq<byte>)
    ensures out' == out + Encode(value)
  {
    var v: nat := value;
    out' := out;
    while v > 0x7F
      invariant out' + Encode(v) == out + Encode(value)
    {
      out' := out' + [v % TWO_7 + TWO_7];
      v := v / TWO_7;
    }
    out' := out' + [v];
  }

  method ReadU8(buf: seq<byte>, pos: nat) returns (r: Result<byte, DecodeError>, pos': nat)
    ensures if pos < |buf| then r == Success(buf[pos]) && pos' == pos + 1 else r == Failure(Truncated) && pos' == pos
  {
    if pos + 1 > |buf| {
      return Failure(Truncated), pos;
    }
    return Success(buf[pos]), pos + 1;
  }

  /** Ors the next group into the accumulator at its place value, `bs` being the bytes read before. */
  method OrShifted(ghost bs: seq<byte>, b: byte, x: nat, shift: nat, ghost left: nat, width: nat) returns (x': nat)
    requires (left == MAX_LEN_32 && width == TWO_32) || (left == MAX_LEN_64 && width == TWO_64)
    requires |bs| < left && x == ValueOf(bs) && shift == Pow128(|bs|)
    ensures x' == ValueOf(bs + [b]) % width
    ensures |bs| + 1 < left ==> x' == ValueOf(bs + [b])
  {
    ghost var q := GroupFits(|bs|, left, width);
    ValueSnoc(bs, b);
    ValueBound(bs);
    RoundArithmetic(x, b % TWO_7, shift, width, q);
    x' := x + b % TWO_7 * shift % width;
  }

  /** All of the first `n` bytes go on. */
  ghost predicate AllContinue(s: seq<byte>, n: nat) {
    n <= |s| && forall i :: 0 <= i < n ==> s[i] >= TWO_7
  }

  lemma DecodeCases(s: seq<byte>, i: nat, left: nat, width: nat)
    requires AllContinue(s, i) && i < left && width > 0
    ensures i == |s| ==> Decode(s, left, width) == Failure(Truncated)
    ensures i < |s| && s[i] < TWO_7 ==> Decode(s, left, width) == Success(Read(ValueOf(s[..i] + [s[i]]) % width, i + 1))
    ensures i < |s| && s[i] >= TWO_7 ==> AllContinue(s, i + 1)
    ensures AllContinue(s, left) ==> Decode(s, left, width) == Failure(Overflow)
  {
    LengthIsFirstEnd(s, left, i + 1);
    if i < |s| {
      assert s[..i + 1] == s[..i] + [s[i]];
    }
  }

  /** The loop shared by the two readers: `left` rounds on a word of `width` values. */
  method ReadVarint(buf: seq<byte>, pos: nat, left: nat, width: nat) returns (r: Result<nat, DecodeError>, pos': nat)
    requires pos <= |buf|
    requires (left == MAX_LEN_32 && width == TWO_32) || (left == MAX_LEN_64 && width == TWO_64)
    ensures pos <= pos' <= |buf|
    ensures match Decode(buf[pos..], left, width)
            case Success(d) => r == Success(d.value) && pos' == pos + d.used
            case Failure(e) => r == Failure(e)
  {
    hide Decode, ValueOf, Length;
    ghost var s := buf[pos..];
    var x, shift: nat := 0, 1;
    pos' := pos;
    assert x == ValueOf(s[..0]) by { ValueBound(s[..0]); }
    for i := 0 to left
      invariant pos' == pos + i <= |buf| && AllContinue(s, i)
      invariant shift == Pow128(i) && (i < left ==> x == ValueOf(s[..i]))
    {
      DecodeCases(s, i, left, width);
      var b;
      b, pos' := ReadU8(buf, pos');
      if b.Failure? {
        return Failure(b.error), pos';
      }
      x := OrShifted(s[..i], b.value, x, shift, left, width);
      if b.value < TWO_7 {
        return Success(x), pos';
      }
      assert s[..i + 1] == s[..i] + [s[i]];
      shift := shift * TWO_7;
    }
    DecodeCases(s, 0, left, width);
    r := Failure(Overflow);
  }

  method ReadVarint32(buf: seq<byte>, pos: nat) returns (r: Result<u32, DecodeError>, pos': nat)
    requires pos <= |buf|
    ensures pos <= pos' <= |buf|
    ensures match Decode32(buf[pos..])
            case Success(d) => r == Success(d.value) && pos' == pos + d.used
            case Failure(e) => r == Failure(e)
  {
    hide Decode;
    r, pos' := ReadVarint(buf, pos, MAX_LEN_32, TWO_32);
  }

  method ReadVarint64(buf: seq<byte>, pos: nat) returns (r: Result<u64, DecodeError>, pos': nat)
    requires pos <= |buf|
    ensures pos <= pos' <= |buf|
    ensures match Decode64(buf[pos..])
            case Success(d) => r == Success(d.value) && pos' == pos + d.used
            case Failure(e) => r == Failure(e)
  {
    hide Decode;
    r, pos' := ReadVarint(buf, pos, MAX_LEN_64, TWO_64);
  }
}

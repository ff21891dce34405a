/**
 * The grammar of a field, told from the bytes alone: what a whole varint is, what the body of a field of each wire type
 * is, and that skipping a field takes exactly such a body.
 */
module Grammar {
  import opened Wrappers
  import opened Machine
  import opened Varint
  import opened Wire

  /** One varint of at most `most` bytes: the last byte, and it alone, has no continuation bit. */
  ghost predicate IsVarint(bs: seq<byte>, most: nat) {
    && 0 < |bs| <= most && bs[|bs| - 1] < 0x80
    && forall i :: 0 <= i < |bs| - 1 ==> bs[i] >= 0x80
  }

  /** `n` bytes of length prefix, in 32 bits, and as many bytes as it says. */
  ghost predicate IsDelimited(bs: seq<byte>, n: nat) {
    n <= |bs| && IsVarint(bs[..n], 5) && ValueOf(bs[..n]) % 0x1_0000_0000 == |bs| - n
  }

  /** The bytes of a field after its tag: a varint, eight bytes, prefixed bytes or four bytes. */
  ghost predicate IsBody(wireType: nat, bs: seq<byte>) {
    || (wireType == 0 && IsVarint(bs, 10))
    || (wireType == 1 && |bs| == 8)
    || (wireType == 2 && exists n: nat :: IsDelimited(bs, n))
    || (wireType == 5 && |bs| == 4)
  }

  // ----- Varints -----

  lemma {:induction false} DecodeIff(s: seq<byte>, left: nat, width: nat, n: nat)
    requires width > 0
    ensures Decode(s, left, width).Success? && Decode(s, left, width).value.used == n <==> n <= |s| && IsVarint(s[..n], left)
    ensures Decode(s, left, width).Success? && Decode(s, left, width).value.used == n ==>
              Decode(s, left, width).value.value == ValueOf(s[..n]) % width
  {
    LengthIsFirstEnd(s, left, n);
    if n <= |s| {
      assert IsVarint(s[..n], left) <==> n <= left && EndsAt(s, n);
    }
  }

  lemma Decode32Iff(s: seq<byte>, v: nat, n: nat)
    ensures Decode32(s) == Success(Read(v, n)) <==> n <= |s| && IsVarint(s[..n], 5) && v == ValueOf(s[..n]) % 0x1_0000_0000
  {
    hide Decode;
    DecodeIff(s, MAX_LEN_32, TWO_32, n);
  }

  lemma Decode64Iff(s: seq<byte>, v: nat, n: nat)
    ensures Decode64(s) == Success(Read(v, n)) <==> n <= |s| && IsVarint(s[..n], 10) && v == ValueOf(s[..n]) % 0x1_0000_0000_0000_0000
  {
    hide Decode;
    DecodeIff(s, MAX_LEN_64, TWO_64, n);
  }

  /** A whole string is read as one varint exactly when it is one. */
  lemma Whole(s: seq<byte>)
    ensures s[..|s|] == s
  {
  }

  // ----- Prefixed bytes -----

  lemma PrefixedIff(s: seq<byte>, bs: seq<byte>, m: nat)
    ensures Prefixed(s) == Success(Read(bs, m)) <==> m <= |s| && exists n: nat :: IsDelimited(s[..m], n) && bs == s[n..m]
  {
    hide Decode32;
    if Prefixed(s) == Success(Read(bs, m)) {
      var l := Decode32(s).value;
      Decode32Iff(s, l.value, l.used);
      assert s[..m][..l.used] == s[..l.used];
      assert IsDelimited(s[..m], l.used);
    }
    if m <= |s| {
      if n: nat :| IsDelimited(s[..m], n) && bs == s[n..m] {
        assert s[..m][..n] == s[..n];
        Decode32Iff(s, ValueOf(s[..n]) % 0x1_0000_0000, n);
      }
    }
  }

  // ----- Skipping -----

  /** Skipping takes `n` bytes exactly when the first `n` bytes are the body of a field of that wire type. */
  lemma SkipIff(wireType: nat, s: seq<byte>, n: nat)
    ensures Skip(wireType, s) == Success(Read(Skipped, n)) <==> n <= |s| && IsBody(wireType, s[..n])
  {
    hide Decode32, Decode64, Prefixed, IsVarint, IsDelimited;
    if wireType == 0 {
      if Decode64(s).Success? {
        Decode64Iff(s, Decode64(s).value.value, Decode64(s).value.used);
      }
      if n <= |s| {
        Decode64Iff(s, ValueOf(s[..n]) % 0x1_0000_0000_0000_0000, n);
      }
    } else if wireType == 2 {
      if Prefixed(s).Success? {
        PrefixedIff(s, Prefixed(s).value.value, Prefixed(s).value.used);
      }
      if n <= |s| {
        if k: nat :| IsDelimited(s[..n], k) {
          DelimitedWithin(s[..n], k);
          PrefixedIff(s, s[k..n], n);
        }
      }
    }
  }

  lemma DelimitedWithin(bs: seq<byte>, n: nat)
    requires IsDelimited(bs, n)
    ensures n <= |bs|
  {
  }

  ghost predicate AllGoOn(s: seq<byte>, n: nat) {
    n <= |s| && forall i :: 0 <= i < n ==> s[i] >= 0x80
  }

  lemma VarintErrors(s: seq<byte>)
    ensures Decode64(s) == Failure(Truncated) <==> |s| < 10 && AllGoOn(s, |s|)
    ensures Decode64(s) == Failure(Overflow) <==> AllGoOn(s, 10)
    ensures Decode32(s) == Failure(Truncated) <==> |s| < 5 && AllGoOn(s, |s|)
    ensures Decode32(s) == Failure(Overflow) <==> AllGoOn(s, 5)
    ensures Decode32(s).Success? || Decode32(s) == Failure(Truncated) || Decode32(s) == Failure(Overflow)
    ensures Decode64(s).Success? || Decode64(s) == Failure(Truncated) || Decode64(s) == Failure(Overflow)
  {
    hide ValueOf;
    LengthIsFirstEnd(s, MAX_LEN_64, 0);
    LengthIsFirstEnd(s, MAX_LEN_32, 0);
  }

  /** The prefix is whole, but not what it announces. */
  ghost predicate FallsShort(s: seq<byte>, n: nat) {
    n <= |s| && IsVarint(s[..n], 5) && n + ValueOf(s[..n]) % 0x1_0000_0000 > |s|
  }

  lemma FallsShortIff(s: seq<byte>)
    ensures Decode32(s).Success? && Prefixed(s).Failure? <==> exists n: nat :: FallsShort(s, n)
    ensures Decode32(s).Success? && Prefixed(s).Failure? ==> Prefixed(s) == Failure(Truncated)
  {
    hide Decode32, IsVarint, ValueOf;
    if Decode32(s).Success? {
      var l := Decode32(s).value;
      Decode32Iff(s, l.value, l.used);
      assert Prefixed(s).Failure? ==> FallsShort(s, l.used);
    }
    if n: nat :| FallsShort(s, n) {
      Decode32Iff(s, ValueOf(s[..n]) % 0x1_0000_0000, n);
    }
  }

  /** And the error says why it takes nothing. */
  lemma SkipErrors(wireType: nat, s: seq<byte>)
    ensures Skip(wireType, s) == Failure(InvalidWireType) <==> wireType !in {0, 1, 2, 5}
    ensures wireType == 0 ==>
              && (Skip(wireType, s) == Failure(Truncated) <==> |s| < 10 && AllGoOn(s, |s|))
              && (Skip(wireType, s) == Failure(Overflow) <==> AllGoOn(s, 10))
    ensures wireType == 1 ==> (Skip(wireType, s) == Failure(Truncated) <==> |s| < 8)
    ensures wireType == 5 ==> (Skip(wireType, s) == Failure(Truncated) <==> |s| < 4)
    ensures wireType == 2 ==>
              && (Skip(wireType, s) == Failure(Overflow) <==> AllGoOn(s, 5))
              && (Skip(wireType, s) == Failure(Truncated) <==> (|s| < 5 && AllGoOn(s, |s|)) || exists n: nat :: FallsShort(s, n))
  {
    hide Decode32, Decode64, Prefixed, FallsShort, AllGoOn;
    VarintErrors(s);
    FallsShortIff(s);
    PrefixFails(s);
  }

  lemma PrefixFails(s: seq<byte>)
    ensures Decode32(s).Failure? ==> Prefixed(s) == Failure(Decode32(s).error)
  {
    hide Decode32;
  }
}

/**
 * The encoders and decoders as the program runs them: buffers that grow, a cursor that advances and one optional
 * variable per field. Each is proved equal to its specification on every input, so what the specification modules
 * prove holds of these loops.
 */
module InvoiceCodec {
  import opened Wrappers
  import opened Machine
  import opened Varint
  import opened Wire
  import opened Grammar
  import opened WireLaws
  import opened Invoice

  // ----- Writers -----

  method WriteLengthPrefixed(out: seq<byte>, bs: seq<byte>) returns (out': seq<byte>)
    ensures out' == out + LengthPrefixed(bs)
  {
    out' := WriteVarint(out, |bs| % TWO_32);
    out' := out' + bs;
  }

  /** Dropping the leading zeros of the fixed form gives the trimmed form. */
  lemma {:induction false} TrimmedIsSuffix(v: nat, n: nat, first: nat)
    requires first < n && v < Pow256(n)
    requires FixedBigEndian(v, n)[first] != 0 && forall i :: 0 <= i < first ==> FixedBigEndian(v, n)[i] == 0
    ensures FixedBigEndian(v, n)[first..] == Trimmed(v)
  {
    var bs := FixedBigEndian(v / TWO_8, n - 1);
    if v < TWO_8 {
      ZeroBytes(n - 1);
      assert first == n - 1;
    } else {
      assert v / TWO_8 < Pow256(n - 1);
      if first == n - 1 {
        assert forall i :: 0 <= i < n - 1 ==> bs[i] == FixedBigEndian(v, n)[i];
        NonZero(v / TWO_8, n - 1);
      } else {
        assert forall i :: 0 <= i < n - 1 ==> bs[i] == FixedBigEndian(v, n)[i];
        TrimmedIsSuffix(v / TWO_8, n - 1, first);
        assert FixedBigEndian(v, n)[first..] == bs[first..] + [v % TWO_8];
      }
    }
  }

  lemma {:induction false} ZeroBytes(n: nat)
    ensures forall i :: 0 <= i < n ==> FixedBigEndian(0, n)[i] == 0
  {
    if n > 0 {
      ZeroBytes(n - 1);
    }
  }

  lemma {:induction false} NonZero(v: nat, n: nat)
    requires 0 < v < Pow256(n)
    ensures exists i :: 0 <= i < n && FixedBigEndian(v, n)[i] != 0
  {
    var bs := FixedBigEndian(v, n);
    if v % TWO_8 != 0 {
      assert bs[n - 1] != 0;
    } else {
      NonZero(v / TWO_8, n - 1);
      var i :| 0 <= i < n - 1 && FixedBigEndian(v / TWO_8, n - 1)[i] != 0;
      assert bs[i] != 0;
    }
  }

  method WriteU128(out: seq<byte>, v: u128) returns (out': seq<byte>)
    ensures out' == out + LengthPrefixed(Trimmed(v))
  {
    assert Pow256(16) == TWO_128 by { assert Pow256(8) == TWO_64; }
    var b := FixedBigEndian(v, 16);
    var first := 0;
    while first < 16 && b[first] == 0
      invariant 0 <= first <= 16 && forall i :: 0 <= i < first ==> b[i] == 0
    {
      first := first + 1;
    }
    var bytes: seq<byte>;
    if first < 16 {
      TrimmedIsSuffix(v, 16, first);
      bytes := b[first..];
    } else {
      if v > 0 { NonZero(v, 16); }
      bytes := [0];
    }
    out' := WriteLengthPrefixed(out, bytes);
  }

  method WriteTimestamp(out: seq<byte>, seconds: i64, nanos: i32) returns (out': seq<byte>)
    ensures out' == out + Flatten(TimestampChunks(seconds, nanos))
  {
    hide Flatten, Encode;
    out' := out;
    if seconds != 0 {
      out' := out' + [0x08];
      out' := WriteVarint(out', ToU64(seconds));
    }
    ghost var cs := if seconds != 0 then [VarintChunk(0x08, ToU64(seconds))] else [];
    ghost var ds := if nanos != 0 then [VarintChunk(0x10, ToU32(nanos))] else [];
    FlattenNone();
    FlattenMaybe([], cs);
    assert [] + cs == cs;
    assert out' == out + Flatten(cs);
    if nanos != 0 {
      out' := out' + [0x10];
      out' := WriteVarint(out', ToU32(nanos));
    }
    FlattenMaybe(cs, ds);
  }

  lemma FlattenNone()
    ensures Flatten([]) == []
  {
  }

  method EncodeSatsPayment(amount: u64) returns (out: seq<byte>)
    ensures out == Flatten(SatsChunks(amount))
  {
    out := [0x08];
    out := WriteVarint(out, amount);
  }

  method EncodeTokensPayment(token: seq<byte>, amount: u128) returns (out: seq<byte>)
    ensures out == Flatten(TokensChunks(token, amount))
  {
    out := [0x0a];
    out := WriteLengthPrefixed(out, token);
    out := out + [0x12];
    out := WriteU128(out, amount);
    FlattenTwo(BytesChunk(0x0a, token), BytesChunk(0x12, Trimmed(amount)));
  }

  lemma {:induction false} FlattenAppend(cs: seq<seq<byte>>, ds: seq<seq<byte>>)
    ensures Flatten(cs + ds) == Flatten(cs) + Flatten(ds)
  {
    if cs == [] {
      assert cs + ds == ds;
    } else {
      assert (cs + ds)[1..] == cs[1..] + ds;
      FlattenAppend(cs[1..], ds);
    }
  }

  lemma FlattenMaybe(cs: seq<seq<byte>>, ds: seq<seq<byte>>)
    requires |ds| <= 1
    ensures ds == [] ==> Flatten(cs + ds) == Flatten(cs)
    ensures ds != [] ==> Flatten(cs + ds) == Flatten(cs) + ds[0]
  {
    if ds == [] {
      assert cs + ds == cs;
    } else {
      assert ds == [ds[0]];
      FlattenSnoc(cs, ds[0]);
    }
  }

  /** A tag and then prefixed bytes are one chunk. */
  lemma ChunkWritten(out: seq<byte>, tag: byte, bs: seq<byte>)
    ensures out + [tag] + LengthPrefixed(bs) == out + BytesChunk(tag, bs)
  {
  }

  lemma RepresentableNanos(lib: Library, x: InvoiceFields)
    requires Representable(lib, x)
    ensures x.expiryTime.Some? ==> x.expiryTime.value.nanos < 2_000_000_000
  {
  }

  method EncodeInvoiceProto(lib: Library, x: InvoiceFields) returns (out: seq<byte>)
    requires Representable(lib, x)
    ensures out == EncodeInvoice(lib, x)
  {
    hide Flatten, Encode, SatsChunks, TokensChunks, TimestampChunks, LengthPrefixed, BytesChunk, Representable;
    assert x.expiryTime.Some? ==> x.expiryTime.value.nanos < 2_000_000_000 by { RepresentableNanos(lib, x); }
    out := [0x08];
    out := WriteVarint(out, x.version);
    out := out + [0x12];
    out := WriteLengthPrefixed(out, x.id);
    ghost var cs := [VarintChunk(0x08, x.version), BytesChunk(0x12, x.id)];
    ChunkWritten(cs[0], 0x12, x.id);
    FlattenTwo(cs[0], cs[1]);
    assert out == Flatten(cs);

    if x.memo.Some? {
      ChunkWritten(out, 0x2a, x.memo.value);
      out := out + [0x2a];
      out := WriteLengthPrefixed(out, x.memo.value);
    }
    FlattenMaybe(cs, MemoChunks(x.memo));
    cs := cs + MemoChunks(x.memo);
    assert out == Flatten(cs);

    if x.senderPublicKey.Some? {
      ChunkWritten(out, 0x32, lib.serializeKey(x.senderPublicKey.value));
      out := out + [0x32];
      out := WriteLengthPrefixed(out, lib.serializeKey(x.senderPublicKey.value));
    }
    FlattenMaybe(cs, KeyChunks(lib, x.senderPublicKey));
    cs := cs + KeyChunks(lib, x.senderPublicKey);
    assert out == Flatten(cs);

    if x.expiryTime.Some? {
      ChunkWritten(out, 0x3a, Flatten(TimestampChunks(x.expiryTime.value.seconds, SubsecNanos(x.expiryTime.value))));
      out := out + [0x3a];
      var bytes := WriteTimestamp([], x.expiryTime.value.seconds, SubsecNanos(x.expiryTime.value));
      assert bytes == Flatten(TimestampChunks(x.expiryTime.value.seconds, SubsecNanos(x.expiryTime.value)));
      out := WriteLengthPrefixed(out, bytes);
    }
    FlattenMaybe(cs, ExpiryChunks(x.expiryTime));
    cs := cs + ExpiryChunks(x.expiryTime);
    assert out == Flatten(cs);

    match x.paymentType {
      case Sats(amount) =>
        ChunkWritten(out, 0x22, Flatten(SatsChunks(amount)));
        out := out + [0x22];
        var bytes := EncodeSatsPayment(amount);
        out := WriteLengthPrefixed(out, bytes);
      case Tokens(token, amount) =>
        ChunkWritten(out, 0x1a, Flatten(TokensChunks(token, amount)));
        out := out + [0x1a];
        var bytes := EncodeTokensPayment(token, amount);
        out := WriteLengthPrefixed(out, bytes);
    }
    FlattenMaybe(cs, [PaymentChunk(x.paymentType)]);
  }

  // ----- Readers -----

  method ReadLen(buf: seq<byte>, pos: nat) returns (r: Result<nat, DecodeError>, pos': nat)
    requires pos <= |buf|
    ensures pos <= pos' <= |buf|
    ensures match Decode32(buf[pos..])
            case Success(d) => pos' == pos + d.used && r == if pos' + d.value > |buf| then Failure(Truncated) else Success(d.value)
            case Failure(e) => r == Failure(e)
  {
    r, pos' := ReadVarint32(buf, pos);
    if r.Success? && pos' + r.value > |buf| {
      r := Failure(Truncated);
    }
  }

  method ReadBytes(buf: seq<byte>, pos: nat, len: nat) returns (r: Result<seq<byte>, DecodeError>, pos': nat)
    requires pos <= |buf|
    ensures pos <= pos' <= |buf|
    ensures if pos + len > |buf| then r == Failure(Truncated) else r == Success(buf[pos..pos + len]) && pos' == pos + len
  {
    if pos + len > |buf| {
      return Failure(Truncated), pos;
    }
    return Success(buf[pos..pos + len]), pos + len;
  }

  /** A length and then the bytes: the two calls every length-delimited field makes. */
  method ReadPrefixed(buf: seq<byte>, pos: nat) returns (r: Result<seq<byte>, DecodeError>, pos': nat)
    requires pos <= |buf|
    ensures pos <= pos' <= |buf|
    ensures match Prefixed(buf[pos..])
            case Success(d) => r == Success(d.value) && pos' == pos + d.used
            case Failure(e) => r == Failure(e)
  {
    hide Decode32;
    var l;
    l, pos' := ReadLen(buf, pos);
    if l.Failure? {
      return Failure(l.error), pos';
    }
    r, pos' := ReadBytes(buf, pos', l.value);
    ghost var used := Decode32(buf[pos..]).value.used;
    assert buf[pos..][used..used + l.value] == buf[pos + used..pos + used + l.value];
  }

  /** Passes over the body of one field, which must be whole. */
  method SkipField(wireType: nat, buf: seq<byte>, pos: nat) returns (r: Result<(), DecodeError>, pos': nat)
    requires pos <= |buf|
    ensures pos <= pos' <= |buf|
    ensures match Skip(wireType, buf[pos..])
            case Success(d) => r == Success(()) && pos' == pos + d.used
            case Failure(e) => r == Failure(e)
    ensures r.Success? ==> IsBody(wireType, buf[pos..pos'])
    ensures r.Failure? ==> forall n :: pos <= n <= |buf| ==> !IsBody(wireType, buf[pos..n])
  {
    hide Decode32, IsBody;
    SkipsBodies(wireType, buf, pos);
    r, pos' := Success(()), pos;
    match wireType {
      case 0 =>
        var v;
        v, pos' := ReadVarint64(buf, pos);
        r := if v.Failure? then Failure(v.error) else Success(());
      case 1 =>
        if pos + 8 > |buf| {
          return Failure(Truncated), pos;
        }
        pos' := pos + 8;
      case 2 =>
        var l;
        l, pos' := ReadLen(buf, pos);
        if l.Failure? {
          return Failure(l.error), pos';
        }
        pos' := pos' + l.value;
      case 5 =>
        if pos + 4 > |buf| {
          return Failure(Truncated), pos;
        }
        pos' := pos + 4;
      case _ =>
        return Failure(InvalidWireType), pos;
    }
  }

  lemma SkipsBodies(wireType: nat, buf: seq<byte>, pos: nat)
    requires pos <= |buf|
    ensures forall n :: pos <= n <= |buf| ==>
              (IsBody(wireType, buf[pos..n]) <==> Skip(wireType, buf[pos..]) == Success(Read(Skipped, n - pos)))
  {
    hide Skip, IsBody;
    var s := buf[pos..];
    forall n | pos <= n <= |buf|
      ensures IsBody(wireType, buf[pos..n]) <==> Skip(wireType, s) == Success(Read(Skipped, n - pos))
    {
      SkipIff(wireType, s, n - pos);
      assert s[..n - pos] == buf[pos..n];
    }
  }

  /** The loop so far: `us` have been applied and `pos` bytes read. */
  ghost predicate Progress(lib: Library, m: Message, input: seq<byte>, pos: nat, us: seq<Update>) {
    && pos <= |input|
    && Run(lib, m, input) == (match Run(lib, m, input[pos..])
                              case Success(d) => Success(Read(us + d.value, pos + d.used))
                              case Failure(e) => Failure(e))
  }

  lemma ProgressStarts(lib: Library, m: Message, input: seq<byte>)
    ensures Progress(lib, m, input, 0, [])
  {
    hide Run;
    assert input[0..] == input;
    if Run(lib, m, input).Success? {
      assert [] + Run(lib, m, input).value.value == Run(lib, m, input).value.value;
    }
  }

  /** One round, from its tag and payload: `before` and `after` the tag. */
  lemma ProgressRound(lib: Library, m: Message, input: seq<byte>, before: nat, us: seq<Update>)
    requires before < |input| && Progress(lib, m, input, before, us)
    ensures match Decode32(input[before..])
            case Failure(e) => Run(lib, m, input) == Failure(e)
            case Success(tag) =>
              var after := before + tag.used;
              if tag.value == 0 then Run(lib, m, input) == Success(Read(us, after))
              else
                match Payload(lib, m, tag.value, input[after..])
                case Failure(e) => Run(lib, m, input) == Failure(e)
                case Success(p) => Progress(lib, m, input, after + p.used, us + [p.value])
  {
    hide Run, Payload, Decode32;
    var s := input[before..];
    RunUnfolds(lib, m, s);
    if Decode32(s).Success? {
      var tag := Decode32(s).value;
      var after := before + tag.used;
      assert s[tag.used..] == input[after..];
      if tag.value == 0 {
        assert us + [] == us;
      } else if Payload(lib, m, tag.value, input[after..]).Success? {
        var p := Payload(lib, m, tag.value, input[after..]).value;
        assert s[tag.used + p.used..] == input[after + p.used..];
        var r := Run(lib, m, input[after + p.used..]);
        if r.Success? {
          assert us + ([p.value] + r.value.value) == us + [p.value] + r.value.value;
        }
      }
    }
  }

  lemma ProgressEnds(lib: Library, m: Message, input: seq<byte>, us: seq<Update>)
    requires Progress(lib, m, input, |input|, us)
    ensures Run(lib, m, input) == Success(Read(us, |input|))
  {
    hide Run;
    RunEmpty(lib, m);
    assert input[|input|..] == [];
    assert us + [] == us;
  }

  method DecodeSatsProto(lib: Library, input: seq<byte>) returns (r: Result<Read<PaymentType>, DecodeError>)
    ensures r == DecodeSats(lib, input)
  {
    hide Run, Decode32, Decode64, Skip;
    var pos := 0;
    var amount: Option<u64> := None;
    ghost var us: seq<Update>, stopped := [], false;
    ProgressStarts(lib, SatsMessage, input);
    while pos < |input|
      invariant Progress(lib, SatsMessage, input, pos, us) && amount == Collect(us).sats
      decreases |input| - pos
    {
      ProgressRound(lib, SatsMessage, input, pos, us);
      var tag;
      tag, pos := ReadVarint32(input, pos);
      if tag.Failure? {
        return Failure(tag.error);
      }
      if tag.value == 0 {
        stopped := true;
        break;
      }
      var wt := tag.value % 8;
      ghost var u := Skipped;
      if tag.value == 0x08 {
        if wt != 0 {
          return Failure(InvalidWireType);
        }
        var v;
        v, pos := ReadVarint64(input, pos);
        if v.Failure? {
          return Failure(v.error);
        }
        amount := Some(v.value);
        u := SatsAmount(v.value);
      } else {
        var skipped;
        skipped, pos := SkipField(wt, input, pos);
        if skipped.Failure? {
          return Failure(skipped.error);
        }
      }
      CollectSnoc(us, u);
      us := us + [u];
    }
    if !stopped {
      ProgressEnds(lib, SatsMessage, input, us);
    }
    if amount.None? {
      return Failure(MissingField("Missing sats amount"));
    }
    return Success(Read(Sats(amount.value), pos));
  }

  method DecodeTokensProto(lib: Library, input: seq<byte>) returns (r: Result<Read<PaymentType>, DecodeError>)
    ensures r == DecodeTokens(lib, input)
  {
    hide Run, Decode32, Prefixed, Skip;
    var pos := 0;
    var token: Option<seq<byte>>, amount: Option<u128> := None, None;
    ghost var us: seq<Update>, stopped := [], false;
    ProgressStarts(lib, TokensMessage, input);
    while pos < |input|
      invariant Progress(lib, TokensMessage, input, pos, us)
      invariant token == Collect(us).token && amount == Collect(us).amount
      decreases |input| - pos
    {
      ProgressRound(lib, TokensMessage, input, pos, us);
      var tag;
      tag, pos := ReadVarint32(input, pos);
      if tag.Failure? {
        return Failure(tag.error);
      }
      if tag.value == 0 {
        stopped := true;
        break;
      }
      var wt := tag.value % 8;
      ghost var u := Skipped;
      if tag.value == 0x0a {
        if wt != 2 {
          return Failure(InvalidWireType);
        }
        var bytes;
        bytes, pos := ReadPrefixed(input, pos);
        if bytes.Failure? {
          return Failure(bytes.error);
        }
        if |bytes.value| != TOKEN_IDENTIFIER_SIZE {
          return Failure(InvalidTokenIdentifier);
        }
        token := Some(bytes.value);
        u := TokenIdentifier(bytes.value);
      } else if tag.value == 0x12 {
        if wt != 2 {
          return Failure(InvalidWireType);
        }
        var bytes;
        bytes, pos := ReadPrefixed(input, pos);
        if bytes.Failure? {
          return Failure(bytes.error);
        }
        if |bytes.value| > 16 {
          return Failure(InvalidU128BytesLength);
        }
        var v := ReadBigEndian(bytes.value);
        amount := Some(v);
        u := TokenAmount(v);
      } else {
        var skipped;
        skipped, pos := SkipField(wt, input, pos);
        if skipped.Failure? {
          return Failure(skipped.error);
        }
      }
      CollectSnoc(us, u);
      us := us + [u];
    }
    if !stopped {
      ProgressEnds(lib, TokensMessage, input, us);
    }
    if token.None? {
      return Failure(MissingField("Missing token identifier"));
    }
    if amount.None? {
      return Failure(MissingField("Missing token amount"));
    }
    return Success(Read(Tokens(token.value, amount.value), pos));
  }

  /** `v = (v << 8) | b` over at most sixteen bytes. */
  method ReadBigEndian(bs: seq<byte>) returns (v: u128)
    requires |bs| <= 16
    ensures v == BigEndian(bs)
  {
    v := 0;
    for i := 0 to |bs|
      invariant v == BigEndian(bs[..i])
    {
      BigEndianBound(bs[..i + 1]);
      assert bs[..i + 1][..i] == bs[..i];
      v := v * TWO_8 + bs[i];
    }
    assert bs[..|bs|] == bs;
  }

  method DecodeTimestampProto(lib: Library, input: seq<byte>) returns (r: Result<Timestamp, DecodeError>)
    ensures r == DecodeTimestamp(lib, input)
  {
    hide Run, Decode32, Decode64, Skip;
    var pos := 0;
    var ts := Timestamp(0, 0);
    ghost var us: seq<Update>, stopped := [], false;
    ProgressStarts(lib, TimestampMessage, input);
    while pos < |input|
      invariant Progress(lib, TimestampMessage, input, pos, us) && ts == FinishTimestamp(Collect(us))
      decreases |input| - pos
    {
      ProgressRound(lib, TimestampMessage, input, pos, us);
      var tag;
      tag, pos := ReadVarint32(input, pos);
      if tag.Failure? {
        return Failure(tag.error);
      }
      if tag.value == 0 {
        stopped := true;
        break;
      }
      var field, wt := tag.value / 8, tag.value % 8;
      ghost var u := Skipped;
      match field {
        case 1 =>
          if wt != 0 {
            return Failure(InvalidWireType);
          }
          var v;
          v, pos := ReadVarint64(input, pos);
          if v.Failure? {
            return Failure(v.error);
          }
          ts := ts.(seconds := ToI64(v.value));
          u := Seconds(ts.seconds);
        case 2 =>
          if wt != 0 {
            return Failure(InvalidWireType);
          }
          var v;
          v, pos := ReadVarint32(input, pos);
          if v.Failure? {
            return Failure(v.error);
          }
          ts := ts.(nanos := if v.value < TWO_31 then v.value else TWO_31 - 1);
          u := Nanos(ts.nanos);
        case _ =>
          var skipped;
          skipped, pos := SkipField(wt, input, pos);
          if skipped.Failure? {
            return Failure(skipped.error);
          }
      }
      CollectSnoc(us, u);
      us := us + [u];
    }
    if !stopped {
      ProgressEnds(lib, TimestampMessage, input, us);
    }
    return Success(ts);
  }

  /** A length-delimited field of an invoice: its wire type is checked before its length is read. */
  method ReadBytesField(wireType: nat, buf: seq<byte>, pos: nat) returns (r: Result<seq<byte>, DecodeError>, pos': nat)
    requires pos <= |buf|
    ensures pos <= pos' <= |buf|
    ensures match BytesField(wireType, buf[pos..])
            case Success(d) => r == Success(d.value) && pos' == pos + d.used
            case Failure(e) => r == Failure(e)
  {
    hide Prefixed;
    if wireType != 2 {
      return Failure(InvalidWireType), pos;
    }
    r, pos' := ReadPrefixed(buf, pos);
  }

  /** The body of one arm of the invoice decoder's match, after the tag. */
  method ReadInvoiceField(lib: Library, tag: nat, input: seq<byte>, pos: nat)
    returns (r: Result<Update, DecodeError>, pos': nat)
    requires pos <= |input|
    ensures pos <= pos' <= |input|
    ensures match Payload(lib, InvoiceMessage, tag, input[pos..])
            case Success(d) => r == Success(d.value) && pos' == pos + d.used
            case Failure(e) => r == Failure(e)
  {
    hide Decode32, Decode64, Skip, DecodeSats, DecodeTokens, DecodeTimestamp, BytesField;
    pos' := pos;
    var field, wt := tag / 8, tag % 8;
    if field == 1 {
      if wt != 0 {
        return Failure(InvalidWireType), pos;
      }
      var v;
      v, pos' := ReadVarint32(input, pos);
      return (if v.Failure? then Failure(v.error) else Success(Version(v.value))), pos';
    }
    if field == 0 || field > 7 {
      var skipped;
      skipped, pos' := SkipField(wt, input, pos);
      return (if skipped.Failure? then Failure(skipped.error) else Success(Skipped)), pos';
    }
    var bytes;
    bytes, pos' := ReadBytesField(wt, input, pos);
    if bytes.Failure? {
      return Failure(bytes.error), pos';
    }
    match field {
      case 2 =>
        r := if |bytes.value| != UUID_SIZE then Failure(InvalidUuidBytesLength) else Success(Id(bytes.value));
      case 3 =>
        var p := DecodeTokensProto(lib, bytes.value);
        r := if p.Failure? then Failure(p.error) else Success(Payment(p.value.value));
      case 4 =>
        var p := DecodeSatsProto(lib, bytes.value);
        r := if p.Failure? then Failure(p.error) else Success(Payment(p.value.value));
      case 5 =>
        r := if lib.isUtf8(bytes.value) then Success(Memo(bytes.value)) else Failure(Utf8);
      case 6 =>
        r := Success(SenderKey(bytes.value));
      case _ =>
        var t := DecodeTimestampProto(lib, bytes.value);
        if t.Failure? {
          return Failure(t.error), pos';
        }
        var d := ToDateTime(lib, t.value);
        r := if d.Failure? then Failure(d.error) else Success(Expiry(d.value));
    }
  }

  method DecodeInvoiceProto(lib: Library, input: seq<byte>) returns (r: Result<Read<InvoiceFields>, DecodeError>)
    ensures r == DecodeInvoice(lib, input)
  {
    hide Run, Decode32, Payload;
    var pos, slots := 0, EMPTY;
    ghost var us: seq<Update>, stopped := [], false;
    ProgressStarts(lib, InvoiceMessage, input);
    while pos < |input|
      invariant Progress(lib, InvoiceMessage, input, pos, us) && slots == Collect(us)
      decreases |input| - pos
    {
      ProgressRound(lib, InvoiceMessage, input, pos, us);
      var tag;
      tag, pos := ReadVarint32(input, pos);
      if tag.Failure? {
        return Failure(tag.error);
      }
      if tag.value == 0 {
        stopped := true;
        break;
      }
      var u;
      u, pos := ReadInvoiceField(lib, tag.value, input, pos);
      if u.Failure? {
        return Failure(u.error);
      }
      slots := Apply(slots, u.value);
      CollectSnoc(us, u.value);
      us := us + [u.value];
    }
    if !stopped {
      ProgressEnds(lib, InvoiceMessage, input, us);
    }
    var fields := FinishInvoice(lib, slots);
    return if fields.Failure? then Failure(fields.error) else Success(Read(fields.value, pos));
  }
}

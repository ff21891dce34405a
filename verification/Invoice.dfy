/**
 * Invoice encoding and what it is for: every invoice decodes back to itself, its fields may come in any order,
 * and a repeated field overrides the earlier one.
 */
module Invoice {
  import opened Wrappers
  import opened Machine
  import opened Varint
  import opened Wire
  import opened WireLaws
  import opened Sequences

  // ----- Specification of the encoders: one byte string per field -----

  function LengthPrefixed(bs: seq<byte>): seq<byte> {
    Encode(|bs| % TWO_32) + bs
  }

  function VarintChunk(tag: byte, v: nat): seq<byte> {
    [tag] + Encode(v)
  }

  function BytesChunk(tag: byte, bs: seq<byte>): seq<byte> {
    [tag] + LengthPrefixed(bs)
  }

  /** Big-endian bytes without leading zeros; a lone zero byte for zero. */
  function Trimmed(v: nat): (bs: seq<byte>)
    ensures |bs| > 0
  {
    if v < TWO_8 then [v] else Trimmed(v / TWO_8) + [v % TWO_8]
  }

  function SatsChunks(amount: u64): seq<seq<byte>> {
    [VarintChunk(0x08, amount)]
  }

  function TokensChunks(token: seq<byte>, amount: u128): seq<seq<byte>> {
    [BytesChunk(0x0a, token), BytesChunk(0x12, Trimmed(amount))]
  }

  /** Zero seconds and zero nanoseconds are left out. */
  function TimestampChunks(seconds: i64, nanos: i32): seq<seq<byte>> {
    (if seconds != 0 then [VarintChunk(0x08, ToU64(seconds))] else [])
    + (if nanos != 0 then [VarintChunk(0x10, ToU32(nanos))] else [])
  }

  /** The sub-second part as the `i32` that is written. */
  function SubsecNanos(d: DateTime): i32
    requires d.nanos < 2_000_000_000
  {
    d.nanos
  }

  function PaymentChunk(p: PaymentType): seq<byte> {
    match p
    case Sats(amount) => BytesChunk(0x22, Flatten(SatsChunks(amount)))
    case Tokens(token, amount) => BytesChunk(0x1a, Flatten(TokensChunks(token, amount)))
  }

  function MemoChunks(memo: Option<seq<byte>>): seq<seq<byte>> {
    match memo case None => [] case Some(text) => [BytesChunk(0x2a, text)]
  }

  function KeyChunks(lib: Library, key: Option<PublicKey>): seq<seq<byte>> {
    match key case None => [] case Some(k) => [BytesChunk(0x32, lib.serializeKey(k))]
  }

  function ExpiryChunks(expiry: Option<DateTime>): seq<seq<byte>>
    requires expiry.Some? ==> expiry.value.nanos < 2_000_000_000
  {
    match expiry
    case None => []
    case Some(d) => [BytesChunk(0x3a, Flatten(TimestampChunks(d.seconds, SubsecNanos(d))))]
  }

  /** What the program's types say of an invoice: a 16-byte id, a 32-byte token identifier, a UTF-8 memo, a key on the
      curve and an instant the library can represent. */
  predicate Representable(lib: Library, x: InvoiceFields) {
    && |x.id| == UUID_SIZE
    && (x.paymentType.Tokens? ==> |x.paymentType.tokenIdentifier| == TOKEN_IDENTIFIER_SIZE)
    && (x.memo.Some? ==> lib.isUtf8(x.memo.value))
    && (x.senderPublicKey.Some? ==> lib.isPoint(x.senderPublicKey.value))
    && (x.expiryTime.Some? ==> x.expiryTime.value.nanos < 2_000_000_000 && lib.isRepresentableSecond(x.expiryTime.value.seconds))
  }

  function InvoiceChunks(lib: Library, x: InvoiceFields): seq<seq<byte>>
    requires Representable(lib, x)
  {
    [VarintChunk(0x08, x.version), BytesChunk(0x12, x.id)]
    + MemoChunks(x.memo) + KeyChunks(lib, x.senderPublicKey) + ExpiryChunks(x.expiryTime)
    + [PaymentChunk(x.paymentType)]
  }

  function EncodeInvoice(lib: Library, x: InvoiceFields): seq<byte>
    requires Representable(lib, x)
  {
    Flatten(InvoiceChunks(lib, x))
  }

  // ----- Single fields -----

  lemma TagByte(tag: byte, rest: seq<byte>)
    requires 0 < tag < TWO_7
    ensures Decode32([tag] + rest) == Success(Read(tag, 1)) && ([tag] + rest)[1..] == rest
  {
    hide Decode32;
    ReadBack(tag, rest);
    assert Encode(tag) == [tag];
  }

  lemma RoundOfChunk(lib: Library, m: Message, tag: byte, rest: seq<byte>)
    requires 0 < tag < TWO_7
    ensures Round(lib, m, [tag] + rest) ==
            (match Payload(lib, m, tag, rest)
             case Success(p) => Success(Field(p.value, 1 + p.used))
             case Failure(e) => Failure(e))
  {
    hide Payload, Decode32;
    TagByte(tag, rest);
  }

  lemma VarintBack(v: nat)
    ensures v < TWO_32 ==> Decode32(Encode(v)) == Success(Read(v, |Encode(v)|))
    ensures v < TWO_64 ==> Decode64(Encode(v)) == Success(Read(v, |Encode(v)|))
  {
    hide Decode32, Decode64;
    ReadBack(v, []);
    assert Encode(v) + [] == Encode(v);
  }

  lemma PrefixedBack(bs: seq<byte>)
    requires |bs| < TWO_32
    ensures Prefixed(LengthPrefixed(bs)) == Success(Read(bs, |LengthPrefixed(bs)|))
  {
    hide Decode32, Encode;
    var e := Encode(|bs|);
    assert LengthPrefixed(bs) == e + bs && (e + bs)[|e|..|e| + |bs|] == bs;
    ReadBack(|bs|, bs);
  }

  lemma BytesChunkField(lib: Library, m: Message, tag: byte, bs: seq<byte>, u: Update)
    requires 0 < tag < TWO_7 && |bs| < TWO_32
    requires Payload(lib, m, tag, LengthPrefixed(bs)) == Success(Read(u, |LengthPrefixed(bs)|))
    ensures IsField(lib, m, BytesChunk(tag, bs), u)
  {
    hide Payload, Round;
    RoundOfChunk(lib, m, tag, LengthPrefixed(bs));
  }

  lemma VarintChunkField(lib: Library, m: Message, tag: byte, v: nat, u: Update)
    requires 0 < tag < TWO_7
    requires Payload(lib, m, tag, Encode(v)) == Success(Read(u, |Encode(v)|))
    ensures IsField(lib, m, VarintChunk(tag, v), u)
  {
    hide Payload, Round;
    RoundOfChunk(lib, m, tag, Encode(v));
  }

  // ----- Amounts -----

  lemma {:induction false} TrimmedBack(v: nat)
    ensures BigEndian(Trimmed(v)) == v
    ensures v > 0 ==> Trimmed(v)[0] != 0
  {
    var bs := Trimmed(v);
    if v < TWO_8 {
      assert BigEndian(bs[..|bs| - 1]) == 0;
    } else {
      TrimmedBack(v / TWO_8);
      assert bs[..|bs| - 1] == Trimmed(v / TWO_8);
    }
  }

  /** No byte string with the same value is shorter. */
  lemma {:induction false} TrimmedIsLeast(bs: seq<byte>)
    requires bs != []
    ensures |Trimmed(BigEndian(bs))| <= |bs|
  {
    var rest := bs[..|bs| - 1];
    if rest == [] {
      assert BigEndian(rest) == 0;
    } else {
      TrimmedIsLeast(rest);
      assert BigEndian(bs) / TWO_8 == BigEndian(rest);
    }
  }

  lemma {:induction false} TrimmedLength(v: nat, n: nat)
    requires 0 < n && v < Pow256(n)
    ensures |Trimmed(v)| <= n
  {
    if v >= TWO_8 {
      TrimmedLength(v / TWO_8, n - 1);
    }
  }

  // ----- Whole messages -----

  lemma CollectSnoc(us: seq<Update>, u: Update)
    ensures Collect(us + [u]) == Apply(Collect(us), u)
  {
    assert (us + [u])[..|us + [u]| - 1] == us;
  }

  lemma CollectOne(u: Update)
    ensures Collect([u]) == Apply(EMPTY, u)
  {
    CollectSnoc([], u);
    assert [] + [u] == [u];
  }

  lemma SatsBack(lib: Library, amount: u64)
    ensures DecodeSats(lib, Flatten(SatsChunks(amount))) == Success(Read(Sats(amount), |Flatten(SatsChunks(amount))|))
    ensures |Flatten(SatsChunks(amount))| <= 11
  {
    hide Run, Decode64;
    VarintBack(amount);
    ReadBack(amount, []);
    VarintChunkField(lib, SatsMessage, 0x08, amount, SatsAmount(amount));
    RunFields(lib, SatsMessage, SatsChunks(amount), [SatsAmount(amount)]);
    CollectOne(SatsAmount(amount));
  }

  lemma FlattenTwo(a: seq<byte>, b: seq<byte>)
    ensures Flatten([a, b]) == a + b
  {
    assert [a, b][1..] == [b];
    assert Flatten([b]) == b + Flatten([]) == b;
  }

  lemma AmountBack(amount: u128)
    ensures |Trimmed(amount)| <= 16 && BigEndian(Trimmed(amount)) == amount
  {
    TrimmedBack(amount);
    assert Pow256(16) == TWO_128 by { assert Pow256(8) == TWO_64; }
    TrimmedLength(amount, 16);
  }

  lemma LengthPrefixedShort(bs: seq<byte>)
    requires |bs| < TWO_32
    ensures |LengthPrefixed(bs)| <= |bs| + 5
  {
    hide Encode, Decode32, Decode64;
    ReadBack(|bs|, []);
  }

  lemma TokensBack(lib: Library, token: seq<byte>, amount: u128)
    requires |token| == TOKEN_IDENTIFIER_SIZE
    ensures DecodeTokens(lib, Flatten(TokensChunks(token, amount))) ==
            Success(Read(Tokens(token, amount), |Flatten(TokensChunks(token, amount))|))
    ensures |Flatten(TokensChunks(token, amount))| <= 60
  {
    hide Run, Prefixed, Round, Trimmed, BigEndian, LengthPrefixed, IsField, Collect, Flatten;
    var bs := Trimmed(amount);
    AmountBack(amount);
    PrefixedBack(token);
    PrefixedBack(bs);
    BytesChunkField(lib, TokensMessage, 0x0a, token, TokenIdentifier(token));
    BytesChunkField(lib, TokensMessage, 0x12, bs, TokenAmount(amount));
    var us := [TokenIdentifier(token), TokenAmount(amount)];
    RunFields(lib, TokensMessage, TokensChunks(token, amount), us);
    CollectOne(us[0]);
    CollectSnoc([us[0]], us[1]);
    assert us == [us[0]] + [us[1]];
    FlattenTwo(BytesChunk(0x0a, token), BytesChunk(0x12, bs));
    LengthPrefixedShort(token);
    LengthPrefixedShort(bs);
  }

  /** The fields of a timestamp, present or not. */
  lemma TimestampFields(lib: Library, seconds: i64, nanos: i32)
    requires 0 <= nanos
    ensures IsField(lib, TimestampMessage, VarintChunk(0x08, ToU64(seconds)), Seconds(seconds))
    ensures |VarintChunk(0x08, ToU64(seconds))| <= 11
    ensures IsField(lib, TimestampMessage, VarintChunk(0x10, ToU32(nanos)), Nanos(nanos))
    ensures |VarintChunk(0x10, ToU32(nanos))| <= 6
  {
    hide Round, Decode32, Decode64, Encode, IsField;
    VarintBack(ToU64(seconds));
    VarintBack(nanos);
    ReadBack(ToU64(seconds), []);
    ReadBack(nanos, []);
    VarintChunkField(lib, TimestampMessage, 0x08, ToU64(seconds), Seconds(seconds));
    VarintChunkField(lib, TimestampMessage, 0x10, nanos, Nanos(nanos));
  }

  lemma TimestampBack(lib: Library, seconds: i64, nanos: i32)
    requires 0 <= nanos
    ensures DecodeTimestamp(lib, Flatten(TimestampChunks(seconds, nanos))) == Success(Timestamp(seconds, nanos))
    ensures |Flatten(TimestampChunks(seconds, nanos))| <= 20
  {
    hide Run, IsField, VarintChunk;
    var a, b := VarintChunk(0x08, ToU64(seconds)), VarintChunk(0x10, ToU32(nanos));
    TimestampFields(lib, seconds, nanos);
    var us := (if seconds != 0 then [Seconds(seconds)] else []) + (if nanos != 0 then [Nanos(nanos)] else []);
    RunFields(lib, TimestampMessage, TimestampChunks(seconds, nanos), us);
    CollectOne(Seconds(seconds));
    CollectOne(Nanos(nanos));
    CollectSnoc([Seconds(seconds)], Nanos(nanos));
    FlattenTwo(a, b);
    assert Flatten([a]) == a + Flatten([]) && Flatten([b]) == b + Flatten([]);
    if seconds != 0 && nanos != 0 {
      assert TimestampChunks(seconds, nanos) == [a, b] && us == [Seconds(seconds)] + [Nanos(nanos)];
    } else if seconds != 0 {
      assert TimestampChunks(seconds, nanos) == [a] && us == [Seconds(seconds)];
    } else if nanos != 0 {
      assert TimestampChunks(seconds, nanos) == [b] && us == [Nanos(nanos)];
    }
  }

  // ----- Invoices -----

  /** The invoices that survive a round trip: a memo whose length fits the length prefix, and no leap second. */
  predicate Encodable(x: InvoiceFields) {
    && (x.memo.Some? ==> |x.memo.value| < TWO_32)
    && (x.expiryTime.Some? ==> x.expiryTime.value.nanos <= MAX_NANOS)
  }

  function MemoUpdates(memo: Option<seq<byte>>): seq<Update> {
    match memo case None => [] case Some(text) => [Memo(text)]
  }

  function KeyUpdates(lib: Library, key: Option<PublicKey>): seq<Update> {
    match key case None => [] case Some(k) => [SenderKey(lib.serializeKey(k))]
  }

  function ExpiryUpdates(expiry: Option<DateTime>): seq<Update> {
    match expiry case None => [] case Some(d) => [Expiry(d)]
  }

  function InvoiceUpdates(lib: Library, x: InvoiceFields): seq<Update> {
    [Version(x.version), Id(x.id)]
    + MemoUpdates(x.memo) + KeyUpdates(lib, x.senderPublicKey) + ExpiryUpdates(x.expiryTime)
    + [Payment(x.paymentType)]
  }

  lemma PaymentField(lib: Library, p: PaymentType)
    requires p.Tokens? ==> |p.tokenIdentifier| == TOKEN_IDENTIFIER_SIZE
    ensures IsField(lib, InvoiceMessage, PaymentChunk(p), Payment(p))
  {
    hide Round, Prefixed, DecodeTokens, DecodeSats, DecodeTimestamp;
    match p {
      case Sats(amount) =>
        SatsBack(lib, amount);
        PrefixedBack(Flatten(SatsChunks(amount)));
        BytesChunkField(lib, InvoiceMessage, 0x22, Flatten(SatsChunks(amount)), Payment(p));
      case Tokens(token, amount) =>
        TokensBack(lib, token, amount);
        PrefixedBack(Flatten(TokensChunks(token, amount)));
        BytesChunkField(lib, InvoiceMessage, 0x1a, Flatten(TokensChunks(token, amount)), Payment(p));
    }
  }

  lemma ExpiryField(lib: Library, d: DateTime)
    requires d.nanos <= MAX_NANOS && lib.isRepresentableSecond(d.seconds)
    ensures IsField(lib, InvoiceMessage, BytesChunk(0x3a, Flatten(TimestampChunks(d.seconds, SubsecNanos(d)))), Expiry(d))
  {
    hide Round, Prefixed, DecodeTokens, DecodeSats, DecodeTimestamp;
    var bs := Flatten(TimestampChunks(d.seconds, SubsecNanos(d)));
    TimestampBack(lib, d.seconds, SubsecNanos(d));
    PrefixedBack(bs);
    BytesChunkField(lib, InvoiceMessage, 0x3a, bs, Expiry(d));
  }

  lemma PlainFields(lib: Library, version: u32, bs: seq<byte>)
    requires |bs| < TWO_32
    ensures IsField(lib, InvoiceMessage, VarintChunk(0x08, version), Version(version))
    ensures |bs| == UUID_SIZE ==> IsField(lib, InvoiceMessage, BytesChunk(0x12, bs), Id(bs))
    ensures lib.isUtf8(bs) ==> IsField(lib, InvoiceMessage, BytesChunk(0x2a, bs), Memo(bs))
    ensures IsField(lib, InvoiceMessage, BytesChunk(0x32, bs), SenderKey(bs))
  {
    hide Round, Prefixed, Decode32, IsField;
    VarintBack(version);
    VarintChunkField(lib, InvoiceMessage, 0x08, version, Version(version));
    PrefixedBack(bs);
    if |bs| == UUID_SIZE { BytesChunkField(lib, InvoiceMessage, 0x12, bs, Id(bs)); }
    if lib.isUtf8(bs) { BytesChunkField(lib, InvoiceMessage, 0x2a, bs, Memo(bs)); }
    BytesChunkField(lib, InvoiceMessage, 0x32, bs, SenderKey(bs));
  }

  lemma InvoiceFieldsOf(lib: Library, x: InvoiceFields)
    requires Lawful(lib) && Representable(lib, x) && Encodable(x)
    ensures AreFields(lib, InvoiceMessage, InvoiceChunks(lib, x), InvoiceUpdates(lib, x))
  {
    hide IsField, VarintChunk, BytesChunk, PaymentChunk, TimestampChunks;
    PlainFields(lib, x.version, x.id);
    if x.memo.Some? { PlainFields(lib, x.version, x.memo.value); }
    if x.senderPublicKey.Some? { PlainFields(lib, x.version, lib.serializeKey(x.senderPublicKey.value)); }
    if x.expiryTime.Some? { ExpiryField(lib, x.expiryTime.value); }
    PaymentField(lib, x.paymentType);
  }

  /** The decoder's variables after an invoice's fields. */
  function InvoiceSlots(lib: Library, x: InvoiceFields): Slots {
    EMPTY.(version := Some(x.version), id := Some(x.id), payment := Some(x.paymentType), memo := x.memo,
           key := if x.senderPublicKey.None? then None else Some(lib.serializeKey(x.senderPublicKey.value)),
           expiry := x.expiryTime)
  }

  lemma CollectMaybe(us: seq<Update>, vs: seq<Update>)
    requires |vs| <= 1
    ensures Collect(us + vs) == if vs == [] then Collect(us) else Apply(Collect(us), vs[0])
  {
    if vs == [] {
      assert us + vs == us;
    } else {
      assert vs == [vs[0]];
      CollectSnoc(us, vs[0]);
    }
  }

  lemma UpdatesCollect(lib: Library, x: InvoiceFields)
    ensures Collect(InvoiceUpdates(lib, x)) == InvoiceSlots(lib, x)
  {
    hide Collect;
    var a := [Version(x.version), Id(x.id)];
    CollectOne(a[0]);
    assert a == [a[0]] + [a[1]];
    CollectSnoc([a[0]], a[1]);
    var b := a + MemoUpdates(x.memo);
    CollectMaybe(a, MemoUpdates(x.memo));
    var c := b + KeyUpdates(lib, x.senderPublicKey);
    CollectMaybe(b, KeyUpdates(lib, x.senderPublicKey));
    CollectMaybe(c, ExpiryUpdates(x.expiryTime));
    CollectSnoc(c + ExpiryUpdates(x.expiryTime), Payment(x.paymentType));
  }

  lemma UpdatesMakeInvoice(lib: Library, x: InvoiceFields)
    requires Lawful(lib) && Representable(lib, x)
    ensures FinishInvoice(lib, Collect(InvoiceUpdates(lib, x))) == Success(x)
  {
    hide Collect, InvoiceUpdates;
    UpdatesCollect(lib, x);
  }

  lemma UpdatesDistinct(lib: Library, x: InvoiceFields)
    ensures DistinctSlots(InvoiceUpdates(lib, x))
  {
    hide Collect;
    var us := InvoiceUpdates(lib, x);
    assert forall i :: 0 <= i < |us| - 1 ==> i < 2 || SlotOf(us[i]) > 8;
  }

  lemma RoundTripHolds(lib: Library, x: InvoiceFields)
    requires Lawful(lib) && Representable(lib, x) && Encodable(x)
    ensures DecodeInvoice(lib, EncodeInvoice(lib, x)) == Success(Read(x, |EncodeInvoice(lib, x)|))
  {
    hide Run, FinishInvoice, Collect, AreFields;
    InvoiceFieldsOf(lib, x);
    RunFields(lib, InvoiceMessage, InvoiceChunks(lib, x), InvoiceUpdates(lib, x));
    UpdatesMakeInvoice(lib, x);
  }

  // ----- Only those invoices come out of the decoder -----

  ghost predicate InRange(u: Update) {
    && (u.Memo? ==> |u.memo| < TWO_32)
    && (u.Expiry? ==> u.expiry.nanos <= MAX_NANOS)
  }

  lemma {:induction false} RunInRange(lib: Library, m: Message, s: seq<byte>)
    requires Run(lib, m, s).Success?
    ensures forall u :: u in Run(lib, m, s).value.value ==> InRange(u)
    decreases |s|
  {
    if s != [] {
      RoundInRange(lib, m, s);
      RunUnfolds(lib, m, s);
      hide Round, Run;
      if Round(lib, m, s).value.Field? {
        RunInRange(lib, m, s[Round(lib, m, s).value.used..]);
      }
    }
  }

  lemma RoundInRange(lib: Library, m: Message, s: seq<byte>)
    ensures Round(lib, m, s).Success? && Round(lib, m, s).value.Field? ==> InRange(Round(lib, m, s).value.update)
  {
    hide Decode32, DecodeTokens, DecodeSats, DecodeTimestamp;
  }

  lemma {:induction false} CollectInRange(us: seq<Update>)
    requires forall u :: u in us ==> InRange(u)
    ensures Collect(us).memo.Some? ==> |Collect(us).memo.value| < TWO_32
    ensures Collect(us).expiry.Some? ==> Collect(us).expiry.value.nanos <= MAX_NANOS
  {
    if us != [] {
      CollectInRange(us[..|us| - 1]);
      assert InRange(us[|us| - 1]);
    }
  }

  lemma DecodedIsEncodable(lib: Library, s: seq<byte>)
    requires DecodeInvoice(lib, s).Success?
    ensures Encodable(DecodeInvoice(lib, s).value.value)
  {
    hide Run;
    RunInRange(lib, InvoiceMessage, s);
    CollectInRange(Run(lib, InvoiceMessage, s).value.value);
  }

  /** The round trip, on every invoice the types allow: encoding and decoding gives the same invoice and takes every
      byte exactly when the memo is shorter than 2^32 bytes and the expiry is not inside a leap second. */
  lemma RoundTrip(lib: Library, x: InvoiceFields)
    requires Lawful(lib) && Representable(lib, x)
    ensures DecodeInvoice(lib, EncodeInvoice(lib, x)) == Success(Read(x, |EncodeInvoice(lib, x)|)) <==> Encodable(x)
  {
    hide DecodeInvoice, EncodeInvoice, Encodable;
    if Encodable(x) {
      RoundTripHolds(lib, x);
    }
    if DecodeInvoice(lib, EncodeInvoice(lib, x)).Success? {
      DecodedIsEncodable(lib, EncodeInvoice(lib, x));
    }
  }

  // ----- Field order -----

  function UpdateOf(lib: Library, m: Message, c: seq<byte>): Update {
    match Round(lib, m, c)
    case Success(Field(u, _)) => u
    case _ => Skipped
  }

  function UpdatesOf(lib: Library, m: Message, cs: seq<seq<byte>>): seq<Update> {
    if cs == [] then [] else UpdatesOf(lib, m, cs[..|cs| - 1]) + [UpdateOf(lib, m, cs[|cs| - 1])]
  }

  lemma {:induction false} UpdatesOfAt(lib: Library, m: Message, cs: seq<seq<byte>>)
    ensures |UpdatesOf(lib, m, cs)| == |cs|
    ensures forall i :: 0 <= i < |cs| ==> UpdatesOf(lib, m, cs)[i] == UpdateOf(lib, m, cs[i])
  {
    hide UpdateOf;
    if cs != [] {
      UpdatesOfAt(lib, m, cs[..|cs| - 1]);
    }
  }

  lemma UpdatesOfRemove(lib: Library, m: Message, cs: seq<seq<byte>>, i: nat)
    requires i < |cs|
    ensures |UpdatesOf(lib, m, cs)| == |cs| && UpdatesOf(lib, m, Remove(cs, i)) == Remove(UpdatesOf(lib, m, cs), i)
  {
    hide UpdateOf, UpdatesOf;
    UpdatesOfAt(lib, m, cs);
    UpdatesOfAt(lib, m, Remove(cs, i));
  }

  lemma {:induction false} UpdatesOfPermuted(lib: Library, m: Message, cs: seq<seq<byte>>, ds: seq<seq<byte>>)
    requires multiset(cs) == multiset(ds)
    ensures multiset(UpdatesOf(lib, m, cs)) == multiset(UpdatesOf(lib, m, ds))
    decreases |cs|
  {
    hide UpdateOf, UpdatesOf, Remove;
    if ds == [] {
      assert |cs| == |multiset(cs)| == |multiset(ds)|;
      assert cs == ds;
    } else {
      var n := |ds| - 1;
      assert ds[n] in multiset(cs);
      var i :| 0 <= i < |cs| && cs[i] == ds[n];
      RemoveSame(cs, i, ds, n);
      RemoveMultiset(cs, i);
      assert |multiset(Remove(cs, i))| < |multiset(cs)|;
      UpdatesOfPermuted(lib, m, Remove(cs, i), Remove(ds, n));
      UpdatesOfRemove(lib, m, cs, i);
      UpdatesOfRemove(lib, m, ds, n);
      UpdatesOfAt(lib, m, cs);
      UpdatesOfAt(lib, m, ds);
      RemoveSame(UpdatesOf(lib, m, cs), i, UpdatesOf(lib, m, ds), n);
    }
  }

  /** Field order does not matter: any rearrangement of an encoded invoice's fields decodes to that invoice. */
  lemma AnyFieldOrder(lib: Library, x: InvoiceFields, cs: seq<seq<byte>>)
    requires Lawful(lib) && Representable(lib, x) && Encodable(x)
    requires multiset(cs) == multiset(InvoiceChunks(lib, x))
    ensures DecodeInvoice(lib, Flatten(cs)) == Success(Read(x, |Flatten(cs)|))
  {
    hide Run, Round, FinishInvoice, Collect, InvoiceChunks, InvoiceUpdates;
    var ds, us, vs := InvoiceChunks(lib, x), InvoiceUpdates(lib, x), UpdatesOf(lib, InvoiceMessage, cs);
    InvoiceFieldsOf(lib, x);
    UpdatesOfAt(lib, InvoiceMessage, cs);
    UpdatesOfAt(lib, InvoiceMessage, ds);
    assert us == UpdatesOf(lib, InvoiceMessage, ds) by {
      forall i | 0 <= i < |ds| ensures us[i] == UpdatesOf(lib, InvoiceMessage, ds)[i] {
        assert IsField(lib, InvoiceMessage, ds[i], us[i]);
      }
    }
    assert AreFields(lib, InvoiceMessage, cs, vs) by {
      forall i | 0 <= i < |cs| ensures IsField(lib, InvoiceMessage, cs[i], vs[i]) {
        assert cs[i] in multiset(ds);
        var j :| 0 <= j < |ds| && ds[j] == cs[i];
        assert IsField(lib, InvoiceMessage, ds[j], us[j]);
      }
    }
    UpdatesOfPermuted(lib, InvoiceMessage, ds, cs);
    UpdatesMakeInvoice(lib, x);
    UpdatesDistinct(lib, x);
    CollectPermuted(us, vs);
    RunFields(lib, InvoiceMessage, cs, vs);
  }

  // ----- Repeated fields -----

  /** The invoice with one field set; the two payment fields set the same one. */
  function Assign(lib: Library, x: InvoiceFields, u: Update): Result<InvoiceFields, DecodeError> {
    match u
    case Version(v) => Success(x.(version := v))
    case Id(v) => Success(x.(id := v))
    case Payment(v) => Success(x.(paymentType := v))
    case Memo(v) => Success(x.(memo := Some(v)))
    case SenderKey(v) => if lib.parseKey(v).None? then Failure(InvalidPublicKey) else Success(x.(senderPublicKey := lib.parseKey(v)))
    case Expiry(v) => Success(x.(expiryTime := Some(v)))
    case _ => Success(x)
  }

  /** Last one wins: one more field of any kind after an encoded invoice replaces that field's value, and only it. */
  lemma LastOneWins(lib: Library, x: InvoiceFields, c: seq<byte>, u: Update)
    requires Lawful(lib) && Representable(lib, x) && Encodable(x)
    requires IsField(lib, InvoiceMessage, c, u)
    ensures DecodeInvoice(lib, EncodeInvoice(lib, x) + c) ==
            (match Assign(lib, x, u)
             case Success(y) => Success(Read(y, |EncodeInvoice(lib, x) + c|))
             case Failure(e) => Failure(e))
  {
    hide Run, Round, Collect, InvoiceChunks, InvoiceUpdates, IsField;
    var cs, us := InvoiceChunks(lib, x), InvoiceUpdates(lib, x);
    InvoiceFieldsOf(lib, x);
    FlattenSnoc(cs, c);
    assert AreFields(lib, InvoiceMessage, cs + [c], us + [u]);
    RunFields(lib, InvoiceMessage, cs + [c], us + [u]);
    CollectSnoc(us, u);
    UpdatesMakeInvoice(lib, x);
  }
}

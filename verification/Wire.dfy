/**
 * The wire format of invoices: what one tagged field means to each message kind, what a whole message means,
 * and the primitive readers and writers the decoders are built from.
 */
module Wire {
  import opened Wrappers
  import opened Machine
  import opened Varint

  /** A point by its x coordinate and the parity of its y coordinate; which pairs are points of the curve, and their
      byte form, is the library's business. */
  datatype PublicKey = PublicKey(odd: bool, x: u256)

  /** A UTC instant. A leap second has `nanos` of one thousand million or more. */
  datatype DateTime = DateTime(seconds: i64, nanos: nat)

  datatype PaymentType =
    | Sats(sats: u64)
    | Tokens(tokenIdentifier: seq<byte>, amount: u128)

  datatype Timestamp = Timestamp(seconds: i64, nanos: i32)

  datatype InvoiceFields = InvoiceFields(
    version: u32,
    id: seq<byte>,
    paymentType: PaymentType,
    memo: Option<seq<byte>>,
    senderPublicKey: Option<PublicKey>,
    expiryTime: Option<DateTime>)

  /** The library calls whose insides are not modelled. */
  datatype Library = Library(
    isUtf8: seq<byte> -> bool,
    isPoint: PublicKey -> bool,
    parseKey: seq<byte> -> Option<PublicKey>,
    serializeKey: PublicKey -> seq<byte>,
    isRepresentableSecond: int -> bool)

  /** A compressed key takes 33 bytes and parses back. */
  ghost predicate Lawful(lib: Library) {
    forall key :: lib.isPoint(key) ==> |lib.serializeKey(key)| == 33 && lib.parseKey(lib.serializeKey(key)) == Some(key)
  }

  // The compressed form of section 2.3.3 of SEC 1, for any curve over 256 bits.

  function SerializeSec1(key: PublicKey): seq<byte> {
    [if key.odd then 0x03 else 0x02] + FixedBigEndian(key.x, 32)
  }

  function ParseSec1(isPoint: PublicKey -> bool, bs: seq<byte>): Option<PublicKey> {
    if |bs| != 33 || bs[0] !in {0x02, 0x03} || BigEndian(bs[1..]) >= TWO_256 then None
    else
      var key := PublicKey(bs[0] == 0x03, BigEndian(bs[1..]));
      if isPoint(key) then Some(key) else None
  }

  /** Whatever the curve, a library with that form is lawful. */
  lemma Sec1IsLawful(lib: Library)
    requires forall key :: lib.serializeKey(key) == SerializeSec1(key)
    requires forall bs :: lib.parseKey(bs) == ParseSec1(lib.isPoint, bs)
    ensures Lawful(lib)
  {
    forall key | lib.isPoint(key)
      ensures |lib.serializeKey(key)| == 33 && lib.parseKey(lib.serializeKey(key)) == Some(key)
    {
      var bs := SerializeSec1(key);
      Pow256Is32();
      FixedBack(key.x, 32);
      assert bs[1..] == FixedBigEndian(key.x, 32);
    }
  }

  lemma Pow256Is32()
    ensures Pow256(32) == TWO_256
  {
    assert Pow256(8) == TWO_64;
    assert Pow256(16) == TWO_128;
    assert Pow256(24) == TWO_128 * TWO_64;
  }

  /** So there are lawful libraries in which every pair is a point. */
  lemma LawfulExists(isUtf8: seq<byte> -> bool, isRepresentableSecond: int -> bool) returns (lib: Library)
    ensures Lawful(lib) && lib.isUtf8 == isUtf8 && lib.isRepresentableSecond == isRepresentableSecond
    ensures forall key :: lib.isPoint(key)
  {
    var all := (key: PublicKey) => true;
    lib := Library(isUtf8, all, bs => ParseSec1(all, bs), key => SerializeSec1(key), isRepresentableSecond);
    Sec1IsLawful(lib);
  }

  const UUID_SIZE: nat := 16
  const TOKEN_IDENTIFIER_SIZE: nat := 32
  const MAX_NANOS: nat := 999_999_999

  /** The four messages that the codec knows. */
  datatype Message = SatsMessage | TokensMessage | TimestampMessage | InvoiceMessage

  /** What one field of a message assigns. */
  datatype Update =
    | Skipped
    | SatsAmount(sats: u64)
    | TokenIdentifier(token: seq<byte>)
    | TokenAmount(amount: u128)
    | Seconds(seconds: i64)
    | Nanos(nanos: i32)
    | Version(version: u32)
    | Id(id: seq<byte>)
    | Payment(payment: PaymentType)
    | Memo(memo: seq<byte>)
    | SenderKey(key: seq<byte>)
    | Expiry(expiry: DateTime)

  /** The `_opt` variables of the decoders. */
  datatype Slots = Slots(
    sats: Option<u64>,
    token: Option<seq<byte>>,
    amount: Option<u128>,
    seconds: Option<i64>,
    nanos: Option<i32>,
    version: Option<u32>,
    id: Option<seq<byte>>,
    payment: Option<PaymentType>,
    memo: Option<seq<byte>>,
    key: Option<seq<byte>>,
    expiry: Option<DateTime>)

  const EMPTY := Slots(None, None, None, None, None, None, None, None, None, None, None)

  function Apply(slots: Slots, u: Update): Slots {
    match u
    case Skipped => slots
    case SatsAmount(v) => slots.(sats := Some(v))
    case TokenIdentifier(v) => slots.(token := Some(v))
    case TokenAmount(v) => slots.(amount := Some(v))
    case Seconds(v) => slots.(seconds := Some(v))
    case Nanos(v) => slots.(nanos := Some(v))
    case Version(v) => slots.(version := Some(v))
    case Id(v) => slots.(id := Some(v))
    case Payment(v) => slots.(payment := Some(v))
    case Memo(v) => slots.(memo := Some(v))
    case SenderKey(v) => slots.(key := Some(v))
    case Expiry(v) => slots.(expiry := Some(v))
  }

  function Collect(us: seq<Update>): Slots {
    if us == [] then EMPTY else Apply(Collect(us[..|us| - 1]), us[|us| - 1])
  }

  // ----- Pieces of a field -----

  /** A length prefix and the bytes it announces. */
  function Prefixed(s: seq<byte>): (r: Result<Read<seq<byte>>, DecodeError>)
    ensures r.Success? ==> 0 < r.value.used <= |s| && |r.value.value| < TWO_32
  {
    var l :- Decode32(s);
    if l.used + l.value > |s| then Failure(Truncated)
    else Success(Read(s[l.used..l.used + l.value], l.used + l.value))
  }

  function Fixed(s: seq<byte>, n: nat): (r: Result<Read<Update>, DecodeError>)
    ensures r.Success? ==> r.value.used == n <= |s|
  {
    if n > |s| then Failure(Truncated) else Success(Read(Skipped, n))
  }

  /** What skipping a field of some wire type takes. */
  function Skip(wireType: nat, s: seq<byte>): (r: Result<Read<Update>, DecodeError>)
    ensures r.Success? ==> r.value.value == Skipped && 0 < r.value.used <= |s| && wireType in {0, 1, 2, 5}
  {
    match wireType
    case 0 => var v :- Decode64(s); Success(Read(Skipped, v.used))
    case 1 => Fixed(s, 8)
    case 2 => var b :- Prefixed(s); Success(Read(Skipped, b.used))
    case 5 => Fixed(s, 4)
    case _ => Failure(InvalidWireType)
  }

  lemma BigEndianBound(bs: seq<byte>)
    requires |bs| <= 16
    ensures BigEndian(bs) < TWO_128
  {
    BigEndianPow(bs);
    Pow256Grows(|bs|, 16);
    assert Pow256(16) == TWO_128 by { assert Pow256(8) == TWO_64; }
  }

  /** A varint payload, of a field that must have wire type 0. */
  function VarintField(wireType: nat, s: seq<byte>, wide: bool): (r: Result<Read<u64>, DecodeError>)
    ensures r.Success? ==> 0 < r.value.used <= |s| && (!wide ==> r.value.value < TWO_32)
  {
    if wireType != 0 then Failure(InvalidWireType)
    else if wide then Decode64(s)
    else var v :- Decode32(s); Success(Read(v.value, v.used))
  }

  /** A length-delimited payload, of a field that must have wire type 2. */
  function BytesField(wireType: nat, s: seq<byte>): (r: Result<Read<seq<byte>>, DecodeError>)
    ensures r.Success? ==> 0 < r.value.used <= |s| && |r.value.value| < TWO_32
  {
    if wireType != 2 then Failure(InvalidWireType) else Prefixed(s)
  }

  // ----- Fields and messages -----

  function Rank(m: Message): nat {
    if m == InvoiceMessage then 1 else 0
  }

  /** The field whose tag has been read, from the bytes after the tag. */
  function Payload(lib: Library, m: Message, tag: nat, s: seq<byte>): (r: Result<Read<Update>, DecodeError>)
    ensures r.Success? ==> 0 < r.value.used <= |s|
    decreases Rank(m), |s|, 0
  {
    var field, wireType := tag / 8, tag % 8;
    match m
    case SatsMessage =>
      if tag == 0x08 then var v :- Decode64(s); Success(Read(SatsAmount(v.value), v.used))
      else Skip(wireType, s)
    case TokensMessage =>
      if tag == 0x0a then
        var b :- Prefixed(s);
        if |b.value| != TOKEN_IDENTIFIER_SIZE then Failure(InvalidTokenIdentifier)
        else Success(Read(TokenIdentifier(b.value), b.used))
      else if tag == 0x12 then
        var b :- Prefixed(s);
        if |b.value| > 16 then Failure(InvalidU128BytesLength)
        else BigEndianBound(b.value); Success(Read(TokenAmount(BigEndian(b.value)), b.used))
      else Skip(wireType, s)
    case TimestampMessage =>
      if field == 1 then var v :- VarintField(wireType, s, true); Success(Read(Seconds(ToI64(v.value)), v.used))
      else if field == 2 then
        var v :- VarintField(wireType, s, false);
        Success(Read(Nanos(if v.value < TWO_31 then v.value else TWO_31 - 1), v.used))
      else Skip(wireType, s)
    case InvoiceMessage =>
      match field
      case 1 => var v :- VarintField(wireType, s, false); Success(Read(Version(v.value), v.used))
      case 2 =>
        var b :- BytesField(wireType, s);
        if |b.value| != UUID_SIZE then Failure(InvalidUuidBytesLength) else Success(Read(Id(b.value), b.used))
      case 3 =>
        var b :- BytesField(wireType, s);
        var p :- DecodeTokens(lib, b.value);
        Success(Read(Payment(p.value), b.used))
      case 4 =>
        var b :- BytesField(wireType, s);
        var p :- DecodeSats(lib, b.value);
        Success(Read(Payment(p.value), b.used))
      case 5 =>
        var b :- BytesField(wireType, s);
        if lib.isUtf8(b.value) then Success(Read(Memo(b.value), b.used)) else Failure(Utf8)
      case 6 => var b :- BytesField(wireType, s); Success(Read(SenderKey(b.value), b.used))
      case 7 =>
        var b :- BytesField(wireType, s);
        var t :- DecodeTimestamp(lib, b.value);
        var d :- ToDateTime(lib, t);
        Success(Read(Expiry(d), b.used))
      case _ => Skip(wireType, s)
  }

  /** One round of a decoder's loop: it stops at a zero tag. */
  datatype Step = Stop(used: nat) | Field(update: Update, used: nat)

  function Round(lib: Library, m: Message, s: seq<byte>): (r: Result<Step, DecodeError>)
    ensures r.Success? ==> 0 < r.value.used <= |s|
    decreases Rank(m), |s|, 1
  {
    var tag :- Decode32(s);
    if tag.value == 0 then Success(Stop(tag.used))
    else
      var p :- Payload(lib, m, tag.value, s[tag.used..]);
      Success(Field(p.value, tag.used + p.used))
  }

  /** The whole loop: the updates it makes, in order, and the bytes it takes. */
  function Run(lib: Library, m: Message, s: seq<byte>): (r: Result<Read<seq<Update>>, DecodeError>)
    ensures r.Success? ==> r.value.used <= |s|
    decreases Rank(m), |s|, 2
  {
    if s == [] then Success(Read([], 0))
    else
      match Round(lib, m, s)
      case Failure(e) => Failure(e)
      case Success(Stop(n)) => Success(Read([], n))
      case Success(Field(u, n)) =>
        var r :- Run(lib, m, s[n..]);
        Success(Read([u] + r.value, n + r.used))
  }

  function FinishSats(slots: Slots): Result<PaymentType, DecodeError> {
    if slots.sats.None? then Failure(MissingField("Missing sats amount")) else Success(Sats(slots.sats.value))
  }

  function FinishTokens(slots: Slots): Result<PaymentType, DecodeError> {
    if slots.token.None? then Failure(MissingField("Missing token identifier"))
    else if slots.amount.None? then Failure(MissingField("Missing token amount"))
    else Success(Tokens(slots.token.value, slots.amount.value))
  }

  function FinishTimestamp(slots: Slots): Timestamp {
    Timestamp(if slots.seconds.None? then 0 else slots.seconds.value, if slots.nanos.None? then 0 else slots.nanos.value)
  }

  function FinishInvoice(lib: Library, slots: Slots): Result<InvoiceFields, DecodeError> {
    if slots.version.None? then Failure(MissingField("Missing version"))
    else if slots.id.None? then Failure(MissingField("Missing id"))
    else if slots.payment.None? then Failure(MissingField("Missing payment type"))
    else if slots.key.None? then
      Success(InvoiceFields(slots.version.value, slots.id.value, slots.payment.value, slots.memo, None, slots.expiry))
    else if lib.parseKey(slots.key.value).None? then Failure(InvalidPublicKey)
    else
      Success(InvoiceFields(slots.version.value, slots.id.value, slots.payment.value, slots.memo,
                            lib.parseKey(slots.key.value), slots.expiry))
  }

  function DecodeSats(lib: Library, s: seq<byte>): Result<Read<PaymentType>, DecodeError>
    decreases 0, |s|, 3
  {
    var r :- Run(lib, SatsMessage, s);
    var p :- FinishSats(Collect(r.value));
    Success(Read(p, r.used))
  }

  function DecodeTokens(lib: Library, s: seq<byte>): Result<Read<PaymentType>, DecodeError>
    decreases 0, |s|, 3
  {
    var r :- Run(lib, TokensMessage, s);
    var p :- FinishTokens(Collect(r.value));
    Success(Read(p, r.used))
  }

  function DecodeTimestamp(lib: Library, s: seq<byte>): Result<Timestamp, DecodeError>
    decreases 0, |s|, 3
  {
    var r :- Run(lib, TimestampMessage, s);
    Success(FinishTimestamp(Collect(r.value)))
  }

  /** Nanoseconds are clamped into one second before the library is asked. */
  function ToDateTime(lib: Library, t: Timestamp): Result<DateTime, DecodeError> {
    if lib.isRepresentableSecond(t.seconds) then
      Success(DateTime(t.seconds, if t.nanos < 0 then 0 else if t.nanos > MAX_NANOS then MAX_NANOS else t.nanos))
    else Failure(InvalidTimestamp)
  }

  function DecodeInvoice(lib: Library, s: seq<byte>): Result<Read<InvoiceFields>, DecodeError> {
    var r :- Run(lib, InvoiceMessage, s);
    var f :- FinishInvoice(lib, Collect(r.value));
    Success(Read(f, r.used))
  }
}

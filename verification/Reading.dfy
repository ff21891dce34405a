/**
 * What the decoders read, told from the bytes: a message is a string of fields up to its end or to a zero tag, each field
 * assigns a value by its tag and body, and of several values for one thing the last one counts.
 */
module Reading {
  import opened Wrappers
  import opened Machine
  import opened Varint
  import opened Wire
  import opened Grammar
  import opened WireLaws
  import opened Invoice

  // ----- One field -----

  /** The body of a field of wire type 2, holding `content`. */
  ghost predicate Holds(body: seq<byte>, content: seq<byte>) {
    exists n: nat :: IsDelimited(body, n) && content == body[n..]
  }

  /** What the field with this tag and this body assigns. */
  ghost predicate Says(lib: Library, m: Message, tag: nat, body: seq<byte>, u: Update)
    decreases Rank(m), 0
  {
    match m
    case SatsMessage =>
      if tag == 8 then IsVarint(body, 10) && u == SatsAmount(ValueOf(body) % TWO_64)
      else IsBody(tag % 8, body) && u == Skipped
    case TokensMessage =>
      if tag == 10 then exists content :: Holds(body, content) && |content| == 32 && u == TokenIdentifier(content)
      else if tag == 18 then
        exists content :: Holds(body, content) && |content| <= 16 && u.TokenAmount? && u.amount == BigEndian(content)
      else IsBody(tag % 8, body) && u == Skipped
    case TimestampMessage =>
      if tag / 8 == 1 then tag % 8 == 0 && IsVarint(body, 10) && u.Seconds? && (ValueOf(body) - u.seconds) % TWO_64 == 0
      else if tag / 8 == 2 then
        && tag % 8 == 0 && IsVarint(body, 5) && u.Nanos?
        && u.nanos == (if ValueOf(body) % TWO_32 < TWO_31 then ValueOf(body) % TWO_32 else TWO_31 - 1)
      else IsBody(tag % 8, body) && u == Skipped
    case InvoiceMessage =>
      if tag / 8 == 1 then tag % 8 == 0 && IsVarint(body, 5) && u == Version(ValueOf(body) % TWO_32)
      else if 2 <= tag / 8 <= 7 then tag % 8 == 2 && exists content :: Holds(body, content) && SaysContent(lib, tag / 8, content, u)
      else IsBody(tag % 8, body) && u == Skipped
  }

  /** What the content of an invoice's field of wire type 2 assigns. */
  ghost predicate SaysContent(lib: Library, field: nat, content: seq<byte>, u: Update)
    decreases 0, 4
  {
    match field
    case 2 => |content| == 16 && u == Id(content)
    case 3 => u.Payment? && exists us, used: nat :: Reads(lib, TokensMessage, content, us, used) && MakesTokens(us, u.payment)
    case 4 => u.Payment? && exists us, used: nat :: Reads(lib, SatsMessage, content, us, used) && MakesSats(us, u.payment)
    case 5 => lib.isUtf8(content) && u == Memo(content)
    case 6 => u == SenderKey(content)
    case 7 => u.Expiry? && exists us, used: nat :: Reads(lib, TimestampMessage, content, us, used) && MakesInstant(lib, us, u.expiry)
    case _ => false
  }

  /** `c` is one field, which assigns `u`. */
  ghost predicate IsFieldOf(lib: Library, m: Message, c: seq<byte>, u: Update)
    decreases Rank(m), 1
  {
    exists n: nat, tag: nat :: IsTagged(c, n, tag) && Says(lib, m, tag, c[n..], u)
  }

  /** A zero tag. */
  ghost predicate IsStop(z: seq<byte>) {
    IsVarint(z, 5) && ValueOf(z) % TWO_32 == 0
  }

  // ----- A message -----

  ghost predicate AreFieldsOf(lib: Library, m: Message, cs: seq<seq<byte>>, us: seq<Update>)
    decreases Rank(m), 2
  {
    |cs| == |us| && forall i :: 0 <= i < |cs| ==> IsFieldOf(lib, m, cs[i], us[i])
  }

  /** The message is fields that assign `us`, and then its end or a zero tag; that takes `used` bytes. */
  ghost predicate Reads(lib: Library, m: Message, s: seq<byte>, us: seq<Update>, used: nat)
    decreases Rank(m), 3
  {
    exists cs, z :: AreFieldsOf(lib, m, cs, us) && Takes(s, cs, z, used)
  }

  /** The fields and what ends them are the first `used` bytes; what ends them is a zero tag or nothing at all. */
  ghost predicate Takes(s: seq<byte>, cs: seq<seq<byte>>, z: seq<byte>, used: nat) {
    used <= |s| && s[..used] == Flatten(cs) + z && (IsStop(z) || (z == [] && used == |s|))
  }

  /** `u` is assigned, and nothing is assigned to the same variable later. */
  ghost predicate LastIs(us: seq<Update>, u: Update) {
    exists i :: 0 <= i < |us| && us[i] == u && forall j :: i < j < |us| ==> SlotOf(us[j]) != SlotOf(u)
  }

  /** Nothing is assigned to the variable that `u` would be assigned to. */
  ghost predicate NoneLike(us: seq<Update>, u: Update) {
    forall i :: 0 <= i < |us| ==> SlotOf(us[i]) != SlotOf(u)
  }

  ghost predicate MakesSats(us: seq<Update>, p: PaymentType) {
    p.Sats? && LastIs(us, SatsAmount(p.sats))
  }

  ghost predicate MakesTokens(us: seq<Update>, p: PaymentType) {
    p.Tokens? && LastIs(us, TokenIdentifier(p.tokenIdentifier)) && LastIs(us, TokenAmount(p.amount))
  }

  /** Missing seconds and nanoseconds are zero; nanoseconds stay within a second. */
  ghost predicate MakesInstant(lib: Library, us: seq<Update>, d: DateTime) {
    && lib.isRepresentableSecond(d.seconds)
    && (LastIs(us, Seconds(d.seconds)) || (NoneLike(us, Seconds(0)) && d.seconds == 0))
    && ((NoneLike(us, Nanos(0)) && d.nanos == 0)
        || exists n: i32 :: LastIs(us, Nanos(n)) && d.nanos == if n < 0 then 0 else if n <= 999_999_999 then n else 999_999_999)
  }

  ghost predicate MakesInvoice(lib: Library, us: seq<Update>, x: InvoiceFields) {
    && LastIs(us, Version(x.version)) && LastIs(us, Id(x.id)) && LastIs(us, Payment(x.paymentType))
    && (if x.memo.None? then NoneLike(us, Memo([])) else LastIs(us, Memo(x.memo.value)))
    && (if x.expiryTime.None? then NoneLike(us, Expiry(DateTime(0, 0))) else LastIs(us, Expiry(x.expiryTime.value)))
    && (if x.senderPublicKey.None? then NoneLike(us, SenderKey([]))
        else exists bs :: LastIs(us, SenderKey(bs)) && lib.parseKey(bs) == x.senderPublicKey)
  }

  // ----- The last one counts -----

  /** The variable an update assigns, after all of them. */
  ghost predicate Ends(us: seq<Update>, u: Update, o: Option<Update>) {
    if o.None? then NoneLike(us, u) else LastIs(us, o.value) && SlotOf(o.value) == SlotOf(u)
  }

  lemma EndsSnoc(us: seq<Update>, v: Update, u: Update, o: Option<Update>)
    requires Ends(us, u, o)
    ensures Ends(us + [v], u, if SlotOf(v) == SlotOf(u) then Some(v) else o)
  {
    if SlotOf(v) == SlotOf(u) {
      assert (us + [v])[|us|] == v;
    } else if o.Some? {
      var i :| 0 <= i < |us| && us[i] == o.value && forall j :: i < j < |us| ==> SlotOf(us[j]) != SlotOf(o.value);
      assert (us + [v])[i] == o.value;
    }
  }

  lemma EndsOnce(us: seq<Update>, u: Update, o: Option<Update>)
    requires Ends(us, u, o)
    ensures NoneLike(us, u) <==> o.None?
    ensures LastIs(us, u) <==> o == Some(u)
  {
    if LastIs(us, u) {
      var i :| 0 <= i < |us| && us[i] == u && forall j :: i < j < |us| ==> SlotOf(us[j]) != SlotOf(u);
      if o.Some? {
        var k :| 0 <= k < |us| && us[k] == o.value && forall j :: k < j < |us| ==> SlotOf(us[j]) != SlotOf(o.value);
        assert i == k;
      }
    }
  }

  /** The value in the variable that `u` would be assigned to. */
  function Kept(slots: Slots, u: Update): Option<Update> {
    match u
    case Skipped => None
    case SatsAmount(_) => if slots.sats.None? then None else Some(SatsAmount(slots.sats.value))
    case TokenIdentifier(_) => if slots.token.None? then None else Some(TokenIdentifier(slots.token.value))
    case TokenAmount(_) => if slots.amount.None? then None else Some(TokenAmount(slots.amount.value))
    case Seconds(_) => if slots.seconds.None? then None else Some(Seconds(slots.seconds.value))
    case Nanos(_) => if slots.nanos.None? then None else Some(Nanos(slots.nanos.value))
    case Version(_) => if slots.version.None? then None else Some(Version(slots.version.value))
    case Id(_) => if slots.id.None? then None else Some(Id(slots.id.value))
    case Payment(_) => if slots.payment.None? then None else Some(Payment(slots.payment.value))
    case Memo(_) => if slots.memo.None? then None else Some(Memo(slots.memo.value))
    case SenderKey(_) => if slots.key.None? then None else Some(SenderKey(slots.key.value))
    case Expiry(_) => if slots.expiry.None? then None else Some(Expiry(slots.expiry.value))
  }

  lemma {:induction false} CollectEnds(us: seq<Update>, u: Update)
    requires u != Skipped
    ensures Ends(us, u, Kept(Collect(us), u))
  {
    if us != [] {
      var rest, v := us[..|us| - 1], us[|us| - 1];
      CollectEnds(rest, u);
      EndsSnoc(rest, v, u, Kept(Collect(rest), u));
      assert us == rest + [v];
      AppliedKept(Collect(rest), v, u);
    }
  }

  lemma AppliedKept(slots: Slots, v: Update, u: Update)
    requires u != Skipped
    ensures Kept(Apply(slots, v), u) == if SlotOf(v) == SlotOf(u) then Some(v) else Kept(slots, u)
  {
  }

  /** After collecting: a variable holds the last value assigned to it, or nothing if there was none. */
  lemma CollectedIs(us: seq<Update>, u: Update)
    requires u != Skipped
    ensures NoneLike(us, u) <==> Kept(Collect(us), u).None?
    ensures LastIs(us, u) <==> Kept(Collect(us), u) == Some(u)
  {
    CollectEnds(us, u);
    EndsOnce(us, u, Kept(Collect(us), u));
  }

  // ----- Fields and messages of any kind -----

  /** Payloads of this kind are read as the grammar says. */
  ghost predicate PayloadsSay(lib: Library, m: Message) {
    forall tag: nat, body, u :: tag != 0 ==> PayloadSays(lib, m, tag, body, u)
  }

  ghost predicate PayloadSays(lib: Library, m: Message, tag: nat, body: seq<byte>, u: Update) {
    Payload(lib, m, tag, body) == Success(Read(u, |body|)) <==> Says(lib, m, tag, body, u)
  }

  lemma FieldIff(lib: Library, m: Message, c: seq<byte>, u: Update)
    requires PayloadsSay(lib, m)
    ensures IsField(lib, m, c, u) <==> IsFieldOf(lib, m, c, u)
  {
    hide Decode32, Payload, Says, IsVarint;
    if IsField(lib, m, c, u) {
      var tag := Decode32(c).value;
      Decode32Iff(c, tag.value, tag.used);
      assert PayloadSays(lib, m, tag.value, c[tag.used..], u);
      assert IsTagged(c, tag.used, tag.value);
    }
    if IsFieldOf(lib, m, c, u) {
      var n: nat, tag: nat :| IsTagged(c, n, tag) && Says(lib, m, tag, c[n..], u);
      Decode32Iff(c, tag, n);
      assert PayloadSays(lib, m, tag, c[n..], u);
    }
  }

  lemma StopIff(lib: Library, m: Message, s: seq<byte>, n: nat)
    ensures Round(lib, m, s) == Success(Stop(n)) <==> n <= |s| && IsStop(s[..n])
  {
    hide Payload, IsVarint, Decode32;
    Decode32Iff(s, 0, n);
  }

  lemma RunReads(lib: Library, m: Message, s: seq<byte>) returns (cs: seq<seq<byte>>, z: seq<byte>)
    requires Run(lib, m, s).Success?
    ensures AreFields(lib, m, cs, Run(lib, m, s).value.value) && Takes(s, cs, z, Run(lib, m, s).value.used)
    decreases |s|
  {
    hide Run, Round, IsStop;
    if s == [] {
      RunEmpty(lib, m);
      cs, z := [], [];
      assert s[..0] == Flatten([]) + [];
    } else {
      RunUnfolds(lib, m, s);
      var step := Round(lib, m, s).value;
      if step.Stop? {
        StopIff(lib, m, s, step.used);
        cs, z := [], s[..step.used];
        assert s[..step.used] == Flatten([]) + z;
      } else {
        var n, rest := step.used, s[step.used..];
        cs, z := RunReads(lib, m, rest);
        var c, used := s[..n], Run(lib, m, rest).value.used;
        RoundExtends(lib, m, s, c);
        assert IsField(lib, m, c, step.update);
        OneMoreField(lib, m, c, step.update, cs, Run(lib, m, rest).value.value);
        assert s[..n + used] == c + rest[..used];
        assert s[..n + used] == Flatten([c] + cs) + z by {
          assert ([c] + cs)[1..] == cs;
        }
        cs := [c] + cs;
      }
    }
  }

  lemma OneMoreField(lib: Library, m: Message, c: seq<byte>, u: Update, cs: seq<seq<byte>>, us: seq<Update>)
    requires IsField(lib, m, c, u) && AreFields(lib, m, cs, us)
    ensures AreFields(lib, m, [c] + cs, [u] + us)
  {
    hide IsField;
  }

  /** A string of fields and what ends it are read as such. */
  lemma {:induction false} ReadsRun(lib: Library, m: Message, s: seq<byte>, cs: seq<seq<byte>>, us: seq<Update>, z: seq<byte>,
                                    used: nat)
    requires AreFields(lib, m, cs, us) && Takes(s, cs, z, used)
    ensures Run(lib, m, s) == Success(Read(us, used))
    decreases |cs|
  {
    hide Run, Round, IsStop;
    if cs == [] {
      assert Flatten(cs) + z == z;
      if z == [] && !IsStop(z) {
        assert s == [];
        RunEmpty(lib, m);
      } else {
        StopIff(lib, m, s, used);
        StopNotEmpty(z);
        RunUnfolds(lib, m, s);
      }
    } else {
      var c := cs[0];
      assert IsField(lib, m, c, us[0]);
      assert Flatten(cs) + z == c + (Flatten(cs[1..]) + z);
      assert s[..|c|] == s[..used][..|c|] == c == c[..|c|];
      RoundExtends(lib, m, c, s);
      RunUnfolds(lib, m, s);
      assert AreFields(lib, m, cs[1..], us[1..]) by {
        forall i | 0 <= i < |cs| - 1 ensures IsField(lib, m, cs[1..][i], us[1..][i]) {
          assert IsField(lib, m, cs[i + 1], us[i + 1]);
        }
      }
      assert s[|c|..][..used - |c|] == s[..used][|c|..] == Flatten(cs[1..]) + z;
      ReadsRun(lib, m, s[|c|..], cs[1..], us[1..], z, used - |c|);
      assert us == [us[0]] + us[1..];
    }
  }

  lemma StopNotEmpty(z: seq<byte>)
    requires IsStop(z)
    ensures z != []
  {
  }

  lemma FieldsIff(lib: Library, m: Message, cs: seq<seq<byte>>, us: seq<Update>)
    requires PayloadsSay(lib, m)
    ensures AreFields(lib, m, cs, us) <==> AreFieldsOf(lib, m, cs, us)
  {
    hide PayloadsSay, IsField, IsFieldOf;
    forall i | 0 <= i < |cs| == |us| ensures IsField(lib, m, cs[i], us[i]) <==> IsFieldOf(lib, m, cs[i], us[i]) {
      FieldIff(lib, m, cs[i], us[i]);
    }
  }

  /** The decoding loop reads exactly what the grammar says. */
  lemma RunIff(lib: Library, m: Message, s: seq<byte>, us: seq<Update>, used: nat)
    requires PayloadsSay(lib, m)
    ensures Run(lib, m, s) == Success(Read(us, used)) <==> Reads(lib, m, s, us, used)
  {
    hide PayloadsSay, Run, AreFields, AreFieldsOf, Takes;
    if Run(lib, m, s) == Success(Read(us, used)) {
      var cs, z := RunReads(lib, m, s);
      FieldsIff(lib, m, cs, us);
    }
    if Reads(lib, m, s, us, used) {
      var cs, z :| AreFieldsOf(lib, m, cs, us) && Takes(s, cs, z, used);
      FieldsIff(lib, m, cs, us);
      ReadsRun(lib, m, s, cs, us, z, used);
    }
  }

  // ----- The kinds of message -----

  lemma Signed(v: nat, seconds: i64)
    ensures ToI64(v % TWO_64) == seconds <==> (v - seconds) % TWO_64 == 0
  {
    var q, r := v / TWO_64, v % TWO_64;
    assert v == q * TWO_64 + r;
    var k := (v - seconds) / TWO_64;
    assert v - seconds == k * TWO_64 + (v - seconds) % TWO_64;
    if (v - seconds) % TWO_64 == 0 {
      assert seconds == r + (q - k) * TWO_64;
      assert q - k == 0 || q - k == -1;
    }
    if ToI64(r) == seconds {
      assert v - seconds == (q + if r < TWO_63 then 0 else 1) * TWO_64;
    }
  }

  lemma HoldsIff(body: seq<byte>, content: seq<byte>)
    ensures Prefixed(body) == Success(Read(content, |body|)) <==> Holds(body, content)
  {
    hide Prefixed, IsDelimited;
    Whole(body);
    PrefixedIff(body, content, |body|);
    forall n: nat | IsDelimited(body, n) ensures n <= |body| && body[n..|body|] == body[n..] {
      DelimitedWithin(body, n);
    }
  }

  lemma SkippedIff(wireType: nat, body: seq<byte>, u: Update)
    ensures Skip(wireType, body) == Success(Read(u, |body|)) <==> IsBody(wireType, body) && u == Skipped
  {
    hide Skip, IsBody;
    Whole(body);
    SkipIff(wireType, body, |body|);
  }

  lemma VarintIff(body: seq<byte>, v: nat)
    ensures Decode32(body) == Success(Read(v, |body|)) <==> IsVarint(body, 5) && v == ValueOf(body) % TWO_32
    ensures Decode64(body) == Success(Read(v, |body|)) <==> IsVarint(body, 10) && v == ValueOf(body) % TWO_64
  {
    hide Decode32, Decode64, IsVarint;
    Whole(body);
    Decode32Iff(body, v, |body|);
    Decode64Iff(body, v, |body|);
  }

  lemma SatsSay(lib: Library)
    ensures PayloadsSay(lib, SatsMessage)
  {
    hide Decode64, Skip, IsBody, IsVarint;
    forall tag: nat, body, u | tag != 0 ensures PayloadSays(lib, SatsMessage, tag, body, u) {
      VarintIff(body, ValueOf(body) % TWO_64);
      SkippedIff(tag % 8, body, u);
      if Decode64(body).Success? {
        VarintIff(body, Decode64(body).value.value);
      }
    }
  }

  lemma TokensSay(lib: Library)
    ensures PayloadsSay(lib, TokensMessage)
  {
    hide Prefixed, Skip, IsBody, Holds, BigEndian;
    forall tag: nat, body, u | tag != 0 ensures PayloadSays(lib, TokensMessage, tag, body, u) {
      forall content ensures Prefixed(body) == Success(Read(content, |body|)) <==> Holds(body, content) {
        HoldsIff(body, content);
      }
      SkippedIff(tag % 8, body, u);
    }
  }

  lemma TimestampSays(lib: Library)
    ensures PayloadsSay(lib, TimestampMessage)
  {
    hide Decode64, Decode32, Skip, IsBody, IsVarint, ToI64;
    forall tag: nat, body, u | tag != 0 ensures PayloadSays(lib, TimestampMessage, tag, body, u) {
      VarintIff(body, ValueOf(body) % TWO_64);
      VarintIff(body, ValueOf(body) % TWO_32);
      if Decode64(body).Success? {
        VarintIff(body, Decode64(body).value.value);
      }
      if Decode32(body).Success? {
        VarintIff(body, Decode32(body).value.value);
      }
      if u.Seconds? {
        Signed(ValueOf(body), u.seconds);
      }
      SkippedIff(tag % 8, body, u);
    }
  }

  // ----- The messages -----

  /** The one reading of a message, if it has one. */
  lemma ReadsOnce(lib: Library, m: Message, s: seq<byte>)
    requires PayloadsSay(lib, m)
    ensures Run(lib, m, s).Success? ==> Reads(lib, m, s, Run(lib, m, s).value.value, Run(lib, m, s).value.used)
    ensures forall us, used :: Reads(lib, m, s, us, used) ==> Run(lib, m, s) == Success(Read(us, used))
  {
    hide PayloadsSay, Run, Reads;
    if Run(lib, m, s).Success? {
      RunIff(lib, m, s, Run(lib, m, s).value.value, Run(lib, m, s).value.used);
    }
    forall us, used: nat | Reads(lib, m, s, us, used) ensures Run(lib, m, s) == Success(Read(us, used)) {
      RunIff(lib, m, s, us, used);
    }
  }

  lemma CollectedSats(us: seq<Update>, p: PaymentType)
    ensures FinishSats(Collect(us)) == Success(p) <==> MakesSats(us, p)
  {
    hide Collect, LastIs;
    if p.Sats? {
      CollectedIs(us, SatsAmount(p.sats));
    }
  }

  lemma SatsIff(lib: Library, s: seq<byte>, p: PaymentType, used: nat)
    ensures DecodeSats(lib, s) == Success(Read(p, used)) <==> exists us :: Reads(lib, SatsMessage, s, us, used) && MakesSats(us, p)
  {
    hide Run, Reads, Collect, MakesSats, FinishSats, PayloadsSay;
    SatsSay(lib);
    ReadsOnce(lib, SatsMessage, s);
    if Run(lib, SatsMessage, s).Success? {
      CollectedSats(Run(lib, SatsMessage, s).value.value, p);
    }
  }

  lemma CollectedTokens(us: seq<Update>, p: PaymentType)
    ensures FinishTokens(Collect(us)) == Success(p) <==> MakesTokens(us, p)
  {
    hide Collect, LastIs;
    if p.Tokens? {
      CollectedIs(us, TokenIdentifier(p.tokenIdentifier));
      CollectedIs(us, TokenAmount(p.amount));
    }
  }

  lemma TokensIff(lib: Library, s: seq<byte>, p: PaymentType, used: nat)
    ensures DecodeTokens(lib, s) == Success(Read(p, used)) <==> exists us :: Reads(lib, TokensMessage, s, us, used) && MakesTokens(us, p)
  {
    hide Run, Reads, Collect, MakesTokens, FinishTokens, PayloadsSay;
    TokensSay(lib);
    ReadsOnce(lib, TokensMessage, s);
    if Run(lib, TokensMessage, s).Success? {
      CollectedTokens(Run(lib, TokensMessage, s).value.value, p);
    }
  }

  /** The instant that a timestamp message stands for. */
  function Instant(lib: Library, s: seq<byte>): Result<DateTime, DecodeError> {
    var t :- DecodeTimestamp(lib, s);
    ToDateTime(lib, t)
  }

  lemma CollectedInstant(lib: Library, us: seq<Update>, d: DateTime)
    ensures ToDateTime(lib, FinishTimestamp(Collect(us))) == Success(d) <==> MakesInstant(lib, us, d)
  {
    hide Collect, LastIs, NoneLike;
    forall v: i64 ensures LastIs(us, Seconds(v)) <==> Collect(us).seconds == Some(v) {
      CollectedIs(us, Seconds(v));
    }
    forall v: i32 ensures LastIs(us, Nanos(v)) <==> Collect(us).nanos == Some(v) {
      CollectedIs(us, Nanos(v));
    }
    CollectedIs(us, Seconds(0));
    CollectedIs(us, Nanos(0));
  }

  lemma InstantIff(lib: Library, s: seq<byte>, d: DateTime)
    ensures Instant(lib, s) == Success(d) ==>
              exists us, used: nat :: Reads(lib, TimestampMessage, s, us, used) && MakesInstant(lib, us, d)
    ensures forall us, used: nat :: Reads(lib, TimestampMessage, s, us, used) && MakesInstant(lib, us, d) ==>
              Instant(lib, s) == Success(d)
  {
    hide Run, Reads, Collect, MakesInstant, FinishTimestamp, ToDateTime, PayloadsSay;
    TimestampSays(lib);
    ReadsOnce(lib, TimestampMessage, s);
    if Run(lib, TimestampMessage, s).Success? {
      CollectedInstant(lib, Run(lib, TimestampMessage, s).value.value, d);
    }
  }

  lemma InvoiceSays(lib: Library)
    ensures PayloadsSay(lib, InvoiceMessage)
  {
    hide Payload, Says;
    forall tag: nat, body, u | tag != 0 ensures PayloadSays(lib, InvoiceMessage, tag, body, u) {
      InvoicePayload(lib, tag, body, u);
    }
  }

  /** What the content of a field comes to in the decoder. */
  function FromContent(lib: Library, field: nat, content: seq<byte>): Result<Update, DecodeError> {
    match field
    case 2 => if |content| != UUID_SIZE then Failure(InvalidUuidBytesLength) else Success(Id(content))
    case 3 => var p :- DecodeTokens(lib, content); Success(Payment(p.value))
    case 4 => var p :- DecodeSats(lib, content); Success(Payment(p.value))
    case 5 => if lib.isUtf8(content) then Success(Memo(content)) else Failure(Utf8)
    case 6 => Success(SenderKey(content))
    case 7 => var d :- Instant(lib, content); Success(Expiry(d))
    case _ => Failure(InvalidWireType)
  }

  lemma ContentIff(lib: Library, field: nat, content: seq<byte>, u: Update)
    ensures FromContent(lib, field, content) == Success(u) <==> SaysContent(lib, field, content, u)
  {
    hide DecodeTokens, DecodeSats, Instant, Reads, MakesTokens, MakesSats, MakesInstant;
    if field == 3 && u.Payment? {
      if DecodeTokens(lib, content).Success? {
        TokensIff(lib, content, u.payment, DecodeTokens(lib, content).value.used);
      }
      forall us, used: nat | Reads(lib, TokensMessage, content, us, used) && MakesTokens(us, u.payment)
        ensures DecodeTokens(lib, content) == Success(Read(u.payment, used))
      {
        TokensIff(lib, content, u.payment, used);
      }
    }
    if field == 4 && u.Payment? {
      if DecodeSats(lib, content).Success? {
        SatsIff(lib, content, u.payment, DecodeSats(lib, content).value.used);
      }
      forall us, used: nat | Reads(lib, SatsMessage, content, us, used) && MakesSats(us, u.payment)
        ensures DecodeSats(lib, content) == Success(Read(u.payment, used))
      {
        SatsIff(lib, content, u.payment, used);
      }
    }
    if field == 7 && u.Expiry? {
      InstantIff(lib, content, u.expiry);
    }
  }

  function FromPrefixed(lib: Library, field: nat, body: seq<byte>): Result<Read<Update>, DecodeError> {
    var b :- Prefixed(body);
    var u :- FromContent(lib, field, b.value);
    Success(Read(u, b.used))
  }

  /** An invoice's field of wire type 2 in the decoder: its content, and what that comes to. */
  lemma InvoiceContent(lib: Library, tag: nat, body: seq<byte>)
    requires 2 <= tag / 8 <= 7
    ensures Payload(lib, InvoiceMessage, tag, body) ==
            if tag % 8 != 2 then Failure(InvalidWireType) else FromPrefixed(lib, tag / 8, body)
  {
    hide Prefixed, DecodeTokens, DecodeSats, DecodeTimestamp, ToDateTime;
  }

  lemma InvoicePayload(lib: Library, tag: nat, body: seq<byte>, u: Update)
    requires tag != 0
    ensures PayloadSays(lib, InvoiceMessage, tag, body, u)
  {
    if 2 <= tag / 8 <= 7 {
      InvoiceDelimited(lib, tag, body, u);
    } else {
      InvoicePlain(lib, tag, body, u);
    }
  }

  lemma InvoiceDelimited(lib: Library, tag: nat, body: seq<byte>, u: Update)
    requires 2 <= tag / 8 <= 7
    ensures PayloadSays(lib, InvoiceMessage, tag, body, u)
  {
    hide Payload, Prefixed, FromContent, SaysContent, Holds;
    InvoiceContent(lib, tag, body);
    forall content ensures Prefixed(body) == Success(Read(content, |body|)) <==> Holds(body, content) {
      HoldsIff(body, content);
    }
    forall content ensures FromContent(lib, tag / 8, content) == Success(u) <==> SaysContent(lib, tag / 8, content, u) {
      ContentIff(lib, tag / 8, content, u);
    }
  }

  lemma InvoicePlain(lib: Library, tag: nat, body: seq<byte>, u: Update)
    requires !(2 <= tag / 8 <= 7)
    ensures PayloadSays(lib, InvoiceMessage, tag, body, u)
  {
    hide Decode32, Skip, IsBody, IsVarint, Prefixed, DecodeTokens, DecodeSats, DecodeTimestamp, SaysContent, Holds;
    VarintIff(body, ValueOf(body) % TWO_32);
    if Decode32(body).Success? {
      VarintIff(body, Decode32(body).value.value);
    }
    SkippedIff(tag % 8, body, u);
  }

  lemma CollectedInvoice(lib: Library, us: seq<Update>, x: InvoiceFields)
    ensures FinishInvoice(lib, Collect(us)) == Success(x) <==> MakesInvoice(lib, us, x)
  {
    hide Collect, LastIs, NoneLike;
    CollectedIs(us, Version(x.version));
    CollectedIs(us, Id(x.id));
    CollectedIs(us, Payment(x.paymentType));
    CollectedIs(us, Memo(if x.memo.Some? then x.memo.value else []));
    CollectedIs(us, Expiry(if x.expiryTime.Some? then x.expiryTime.value else DateTime(0, 0)));
    CollectedIs(us, SenderKey([]));
    forall bs ensures LastIs(us, SenderKey(bs)) <==> Collect(us).key == Some(bs) {
      CollectedIs(us, SenderKey(bs));
    }
  }

  /** The decoder of invoices accepts a byte string, taking `used` bytes, exactly when those are fields followed by the end
      or a zero tag, every known field is well formed, the version, the identifier and a payment are there, and the invoice is
      made of the last value of each. */
  lemma InvoiceIff(lib: Library, s: seq<byte>, x: InvoiceFields, used: nat)
    ensures DecodeInvoice(lib, s) == Success(Read(x, used))
       <==> exists us :: Reads(lib, InvoiceMessage, s, us, used) && MakesInvoice(lib, us, x)
  {
    hide Run, Reads, Collect, MakesInvoice, FinishInvoice, PayloadsSay;
    InvoiceSays(lib);
    ReadsOnce(lib, InvoiceMessage, s);
    if Run(lib, InvoiceMessage, s).Success? {
      CollectedInvoice(lib, Run(lib, InvoiceMessage, s).value.value, x);
    }
  }

  /** And the fields that must be there are asked for in this order. */
  lemma MissingFieldIff(lib: Library, s: seq<byte>, us: seq<Update>, used: nat)
    requires Reads(lib, InvoiceMessage, s, us, used)
    ensures DecodeInvoice(lib, s) == Failure(MissingField("Missing version")) <==> NoneLike(us, Version(0))
    ensures DecodeInvoice(lib, s) == Failure(MissingField("Missing id")) <==> !NoneLike(us, Version(0)) && NoneLike(us, Id([]))
    ensures DecodeInvoice(lib, s) == Failure(MissingField("Missing payment type"))
       <==> !NoneLike(us, Version(0)) && !NoneLike(us, Id([])) && NoneLike(us, Payment(Sats(0)))
  {
    hide Run, Reads, Collect, NoneLike, PayloadsSay;
    InvoiceSays(lib);
    ReadsOnce(lib, InvoiceMessage, s);
    CollectedIs(us, Version(0));
    CollectedIs(us, Id([]));
    CollectedIs(us, Payment(Sats(0)));
    assert "Missing version" != "Missing id" && "Missing id" != "Missing payment type" && "Missing version" != "Missing payment type" by {
      assert |"Missing version"| == 15 && |"Missing id"| == 10 && |"Missing payment type"| == 20;
    }
  }

  // ----- What is written -----

  /** One tag byte and then a varint, or prefixed bytes, in the shortest form. */
  ghost predicate IsShortest(c: seq<byte>) {
    && |c| > 1 && 0 < c[0] < 0x80
    && ((c[0] % 8 == 0 && exists v :: c[1..] == Encode(v)) || (c[0] % 8 == 2 && exists bs :: |bs| < TWO_32 && c[1..] == Encode(|bs|) + bs))
  }

  /** The tag of the invoice field that assigns `u`. */
  function FirstByte(u: Update): nat {
    match u
    case Version(_) => 0x08
    case Id(_) => 0x12
    case Payment(p) => if p.Sats? then 0x22 else 0x1a
    case Memo(_) => 0x2a
    case SenderKey(_) => 0x32
    case Expiry(_) => 0x3a
    case _ => 0
  }

  /** The encoding of an invoice: its version and identifier, what it has of memo, key and expiry, and its payment, one field
      each, in this order and in the shortest form. */
  lemma EncodingIs(lib: Library, x: InvoiceFields) returns (cs: seq<seq<byte>>, us: seq<Update>)
    requires Lawful(lib) && Representable(lib, x) && Encodable(x)
    ensures EncodeInvoice(lib, x) == Flatten(cs) && AreFieldsOf(lib, InvoiceMessage, cs, us)
    ensures us == [Version(x.version), Id(x.id)] + (if x.memo.Some? then [Memo(x.memo.value)] else [])
                  + (if x.senderPublicKey.Some? then [SenderKey(lib.serializeKey(x.senderPublicKey.value))] else [])
                  + (if x.expiryTime.Some? then [Expiry(x.expiryTime.value)] else []) + [Payment(x.paymentType)]
    ensures |cs| == |us| && forall i :: 0 <= i < |us| ==> Shortest(cs[i], us[i])
  {
    hide IsFieldOf, IsField, PayloadsSay, Shortest, Flatten, BytesChunk, VarintChunk, PaymentChunk, TimestampChunks;
    cs, us := InvoiceChunks(lib, x), InvoiceUpdates(lib, x);
    InvoiceFieldsOf(lib, x);
    InvoiceSays(lib);
    FieldsIff(lib, InvoiceMessage, cs, us);
    ChunksShortest(lib, x);
  }

  /** The field is in the shortest form, with the tag of what it assigns. */
  ghost predicate Shortest(c: seq<byte>, u: Update) {
    IsShortest(c) && c[0] == FirstByte(u)
  }

  lemma ChunksShortest(lib: Library, x: InvoiceFields)
    requires Lawful(lib) && Representable(lib, x) && Encodable(x)
    ensures var cs, us := InvoiceChunks(lib, x), InvoiceUpdates(lib, x);
            |cs| == |us| && forall i :: 0 <= i < |us| ==> Shortest(cs[i], us[i])
  {
    hide IsShortest, BytesChunk, VarintChunk, PaymentChunk, TimestampChunks, Flatten;
    VarintShortest(0x08, x.version);
    BytesShortest(0x12, x.id);
    if x.memo.Some? {
      BytesShortest(0x2a, x.memo.value);
    }
    if x.senderPublicKey.Some? {
      BytesShortest(0x32, lib.serializeKey(x.senderPublicKey.value));
    }
    if x.expiryTime.Some? {
      var d := x.expiryTime.value;
      TimestampBack(lib, d.seconds, SubsecNanos(d));
      BytesShortest(0x3a, Flatten(TimestampChunks(d.seconds, SubsecNanos(d))));
    }
    PaymentShortest(lib, x.paymentType);
  }

  lemma VarintShortest(tag: byte, v: nat)
    requires 0 < tag < TWO_7 && tag % 8 == 0
    ensures IsShortest(VarintChunk(tag, v)) && VarintChunk(tag, v)[0] == tag
  {
    assert VarintChunk(tag, v)[1..] == Encode(v);
  }

  lemma BytesShortest(tag: byte, bs: seq<byte>)
    requires 0 < tag < TWO_7 && tag % 8 == 2 && |bs| < TWO_32
    ensures IsShortest(BytesChunk(tag, bs)) && BytesChunk(tag, bs)[0] == tag
  {
    assert BytesChunk(tag, bs)[1..] == Encode(|bs|) + bs;
  }

  lemma PaymentShortest(lib: Library, p: PaymentType)
    requires p.Tokens? ==> |p.tokenIdentifier| == TOKEN_IDENTIFIER_SIZE
    ensures IsShortest(PaymentChunk(p)) && PaymentChunk(p)[0] == if p.Sats? then 0x22 else 0x1a
  {
    hide IsShortest, SatsChunks, TokensChunks, Flatten;
    match p {
      case Sats(amount) =>
        SatsBack(lib, amount);
        BytesShortest(0x22, Flatten(SatsChunks(amount)));
      case Tokens(token, amount) =>
        TokensBack(lib, token, amount);
        BytesShortest(0x1a, Flatten(TokensChunks(token, amount)));
    }
  }

  /** A timestamp is written without its zero fields. */
  lemma ZerosLeftOut(lib: Library, seconds: i64, nanos: i32, us: seq<Update>, used: nat)
    requires 0 <= nanos && Reads(lib, TimestampMessage, Flatten(TimestampChunks(seconds, nanos)), us, used)
    ensures us == (if seconds == 0 then [] else [Seconds(seconds)]) + (if nanos == 0 then [] else [Nanos(nanos)])
  {
    hide Run, IsField, VarintChunk, Flatten, Reads, PayloadsSay;
    var s := Flatten(TimestampChunks(seconds, nanos));
    TimestampSays(lib);
    ReadsOnce(lib, TimestampMessage, s);
    TimestampFields(lib, seconds, nanos);
    var written := (if seconds != 0 then [Seconds(seconds)] else []) + (if nanos != 0 then [Nanos(nanos)] else []);
    RunFields(lib, TimestampMessage, TimestampChunks(seconds, nanos), written);
  }
}

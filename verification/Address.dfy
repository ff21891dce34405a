/**
 * The payload of a Spark address: a public key, then optionally an invoice, then optionally a signature.
 */
module Address {
  import opened Wrappers
  import opened Machine
  import opened Varint
  import opened Wire
  import opened Grammar
  import opened WireLaws
  import opened Invoice
  import opened InvoiceCodec
  import opened Reading

  datatype AddressPayload = AddressPayload(key: seq<byte>, invoice: Option<InvoiceFields>, signature: Option<seq<byte>>)

  datatype AddressError = BadProto

  const KEY_TAG: byte := 0x0a
  const INVOICE_TAG: byte := 0x12
  const SIGNATURE_TAG: byte := 0x1a

  // ----- Specification -----

  /** The part of the payload that follows the key. */
  function EncodeTail(lib: Library, invoice: Option<InvoiceFields>, signature: Option<seq<byte>>): seq<byte>
    requires invoice.Some? ==> Representable(lib, invoice.value)
  {
    (if invoice.Some? then BytesChunk(INVOICE_TAG, EncodeInvoice(lib, invoice.value)) else [])
    + EncodeSignature(signature)
  }

  function EncodeSignature(signature: Option<seq<byte>>): seq<byte> {
    if signature.Some? then BytesChunk(SIGNATURE_TAG, signature.value) else []
  }

  function EncodePayload(lib: Library, p: AddressPayload): seq<byte>
    requires |p.key| < TWO_8 && (p.invoice.Some? ==> Representable(lib, p.invoice.value))
  {
    [KEY_TAG, |p.key|] + p.key + EncodeTail(lib, p.invoice, p.signature)
  }

  /** A length and the bytes from there on, of which it says how many belong. */
  function LengthAndRest(s: seq<byte>): (r: Result<(nat, seq<byte>), AddressError>)
    ensures r.Success? ==> r.value.0 <= |r.value.1| && r.value.0 < TWO_32
  {
    match Decode32(s)
    case Failure(_) => Failure(BadProto)
    case Success(l) => if l.used + l.value > |s| then Failure(BadProto) else Success((l.value, s[l.used..]))
  }

  /** The optional invoice; what follows starts where its decoder stopped. */
  function DecodeOptionalInvoice(lib: Library, s: seq<byte>): Result<(Option<InvoiceFields>, seq<byte>), AddressError> {
    if s == [] || s[0] != INVOICE_TAG then Success((None, s))
    else
      var l :- LengthAndRest(s[1..]);
      match DecodeInvoice(lib, l.1[..l.0])
      case Failure(_) => Failure(BadProto)
      case Success(d) => PrefixDetermined(lib, l.1[..l.0]); Success((Some(d.value), l.1[d.used..]))
  }

  function DecodeOptionalSignature(s: seq<byte>): Result<Option<seq<byte>>, AddressError> {
    if s == [] || s[0] != SIGNATURE_TAG then Success(None)
    else
      var l :- LengthAndRest(s[1..]);
      Success(Some(l.1[..l.0]))
  }

  function DecodePayload(lib: Library, s: seq<byte>): Result<AddressPayload, AddressError> {
    if |s| < 2 || s[0] != KEY_TAG || 2 + s[1] > |s| then Failure(BadProto)
    else
      var n := 2 + s[1] as nat;
      var i :- DecodeOptionalInvoice(lib, s[n..]);
      var g :- DecodeOptionalSignature(i.1);
      Success(AddressPayload(s[2..n], i.0, g))
  }

  // ----- The program's straight-line code -----

  method EncodeProto(lib: Library, p: AddressPayload) returns (out: seq<byte>)
    requires |p.key| < TWO_8 && (p.invoice.Some? ==> Representable(lib, p.invoice.value))
    ensures out == EncodePayload(lib, p)
  {
    hide EncodeInvoice, Representable, LengthPrefixed, BytesChunk;
    out := [KEY_TAG];
    out := out + [|p.key|];
    out := out + p.key;
    ghost var head := out;
    if p.invoice.Some? {
      ChunkWritten(out, INVOICE_TAG, EncodeInvoice(lib, p.invoice.value));
      out := out + [INVOICE_TAG];
      var bytes := EncodeInvoiceProto(lib, p.invoice.value);
      out := WriteLengthPrefixed(out, bytes);
    }
    ghost var middle := out;
    if p.signature.Some? {
      ChunkWritten(out, SIGNATURE_TAG, p.signature.value);
      out := out + [SIGNATURE_TAG];
      out := WriteLengthPrefixed(out, p.signature.value);
    }
    assert out == middle + EncodeSignature(p.signature);
    hide EncodeSignature;
    assert out == head + EncodeTail(lib, p.invoice, p.signature);
  }

  method DecodeProto(lib: Library, buf: seq<byte>) returns (r: Result<AddressPayload, AddressError>)
    ensures r == DecodePayload(lib, buf)
  {
    hide DecodeOptionalInvoice, DecodeOptionalSignature;
    var pos: nat := 0;
    if buf == [] || buf[pos] != KEY_TAG {
      return Failure(BadProto);
    }
    pos := pos + 1;
    if pos >= |buf| {
      return Failure(BadProto);
    }
    var keyLen := buf[pos];
    pos := pos + 1;
    if pos + keyLen > |buf| {
      return Failure(BadProto);
    }
    var key := buf[pos..pos + keyLen];
    pos := pos + keyLen;

    var invoice, signature;
    invoice, pos := ReadOptionalInvoice(lib, buf, pos);
    if invoice.Failure? {
      return Failure(invoice.error);
    }
    signature, pos := ReadOptionalSignature(buf, pos);
    if signature.Failure? {
      return Failure(signature.error);
    }
    return Success(AddressPayload(key, invoice.value, signature.value));
  }

  /** The tag has been read: the length, which must not run past the buffer. */
  method ReadBoundedLength(buf: seq<byte>, pos: nat) returns (r: Result<nat, AddressError>, pos': nat)
    requires pos <= |buf|
    ensures pos <= pos' <= |buf|
    ensures match LengthAndRest(buf[pos..])
            case Success(l) => r == Success(l.0) && l.1 == buf[pos'..]
            case Failure(e) => r == Failure(e)
  {
    hide Decode32;
    var len;
    len, pos' := ReadVarint32(buf, pos);
    if len.Failure? || pos' + len.value > |buf| {
      return Failure(BadProto), pos';
    }
    assert buf[pos..][Decode32(buf[pos..]).value.used..] == buf[pos'..];
    return Success(len.value), pos';
  }

  /** The section of the decoder for the optional invoice. */
  method ReadOptionalInvoice(lib: Library, buf: seq<byte>, pos: nat)
    returns (r: Result<Option<InvoiceFields>, AddressError>, pos': nat)
    requires pos <= |buf|
    ensures pos <= pos' <= |buf|
    ensures match DecodeOptionalInvoice(lib, buf[pos..])
            case Success(d) => r == Success(d.0) && d.1 == buf[pos'..]
            case Failure(e) => r == Failure(e)
  {
    hide LengthAndRest, DecodeInvoice;
    pos' := pos;
    r := Success(None);
    if pos' < |buf| && buf[pos'] == INVOICE_TAG {
      assert buf[pos + 1..] == buf[pos..][1..];
      var len;
      len, pos' := ReadBoundedLength(buf, pos' + 1);
      if len.Failure? {
        return Failure(len.error), pos';
      }
      var body := buf[pos'..pos' + len.value];
      assert body == buf[pos'..][..len.value];
      var decoded := DecodeInvoiceProto(lib, body);
      if decoded.Failure? {
        return Failure(BadProto), pos';
      }
      PrefixDetermined(lib, body);
      assert buf[pos'..][decoded.value.used..] == buf[pos' + decoded.value.used..];
      return Success(Some(decoded.value.value)), pos' + decoded.value.used;
    }
  }

  /** The section of the decoder for the optional signature. */
  method ReadOptionalSignature(buf: seq<byte>, pos: nat) returns (r: Result<Option<seq<byte>>, AddressError>, pos': nat)
    requires pos <= |buf|
    ensures pos <= pos' <= |buf|
    ensures r == DecodeOptionalSignature(buf[pos..])
  {
    hide LengthAndRest;
    pos' := pos;
    r := Success(None);
    if pos' < |buf| && buf[pos'] == SIGNATURE_TAG {
      assert buf[pos + 1..] == buf[pos..][1..];
      var len;
      len, pos' := ReadBoundedLength(buf, pos' + 1);
      if len.Failure? {
        return Failure(len.error), pos';
      }
      assert buf[pos'..pos' + len.value] == buf[pos'..][..len.value];
      return Success(Some(buf[pos'..pos' + len.value])), pos' + len.value;
    }
  }

  // ----- A truncated invoice does not decode -----

  lemma {:induction false} RunOfPrefix(lib: Library, m: Message, cs: seq<seq<byte>>, us: seq<Update>, n: nat)
    returns (k: nat)
    requires AreFields(lib, m, cs, us) && n < |Flatten(cs)|
    requires Run(lib, m, Flatten(cs)[..n]).Success?
    ensures k < |us| && Run(lib, m, Flatten(cs)[..n]).value.value == us[..k]
    decreases |cs|
  {
    hide Run, Round;
    var s, p := Flatten(cs), Flatten(cs)[..n];
    var c := cs[0];
    if n == 0 {
      RunEmpty(lib, m);
      k := 0;
    } else {
      RunUnfolds(lib, m, p);
      var used := Round(lib, m, p).value.used;
      assert p[..used] == s[..used];
      RoundExtends(lib, m, p, s);
      assert IsField(lib, m, cs[0], us[0]);
      assert s[..|c|] == c == c[..|c|];
      RoundExtends(lib, m, c, s);
      assert Flatten(cs)[|c|..] == Flatten(cs[1..]);
      assert p[|c|..] == Flatten(cs[1..])[..n - |c|];
      assert AreFields(lib, m, cs[1..], us[1..]) by {
        forall i | 0 <= i < |cs| - 1 ensures IsField(lib, m, cs[1..][i], us[1..][i]) {
          assert IsField(lib, m, cs[i + 1], us[i + 1]);
        }
      }
      var j := RunOfPrefix(lib, m, cs[1..], us[1..], n - |c|);
      k := j + 1;
      assert [us[0]] + us[1..][..j] == us[..k];
    }
  }

  lemma {:induction false} NoPaymentYet(us: seq<Update>)
    requires forall u :: u in us ==> !u.Payment?
    ensures Collect(us).payment.None?
  {
    if us != [] {
      NoPaymentYet(us[..|us| - 1]);
      assert us[|us| - 1] in us;
    }
  }

  /** No proper prefix of an encoded invoice decodes: the payment, which is mandatory, is written last. */
  lemma TruncatedInvoiceFails(lib: Library, x: InvoiceFields, n: nat)
    requires Lawful(lib) && Representable(lib, x) && Encodable(x)
    requires n < |EncodeInvoice(lib, x)|
    ensures DecodeInvoice(lib, EncodeInvoice(lib, x)[..n]).Failure?
  {
    hide Run, InvoiceChunks, Collect, IsField;
    if Run(lib, InvoiceMessage, EncodeInvoice(lib, x)[..n]).Success? {
      InvoiceFieldsOf(lib, x);
      var us := InvoiceUpdates(lib, x);
      var k := RunOfPrefix(lib, InvoiceMessage, InvoiceChunks(lib, x), us, n);
      assert forall i :: 0 <= i < |us| - 1 ==> !us[i].Payment?;
      NoPaymentYet(us[..k]);
    }
  }

  // ----- The round trip -----

  lemma LengthBack(bs: seq<byte>, t: seq<byte>)
    ensures Decode32(LengthPrefixed(bs) + t) == Success(Read(|bs| % TWO_32, |Encode(|bs| % TWO_32)|))
    ensures (LengthPrefixed(bs) + t)[|Encode(|bs| % TWO_32)|..] == bs + t
  {
    hide Decode32, Encode;
    ReadBack(|bs| % TWO_32, bs + t);
    assert LengthPrefixed(bs) + t == Encode(|bs| % TWO_32) + (bs + t);
  }

  lemma LengthAndRestBack(tag: byte, bs: seq<byte>, t: seq<byte>)
    ensures LengthAndRest((BytesChunk(tag, bs) + t)[1..]) == Success((|bs| % TWO_32, bs + t))
  {
    hide Decode32, Encode;
    var e := Encode(|bs| % TWO_32);
    assert (BytesChunk(tag, bs) + t)[1..] == LengthPrefixed(bs) + t == e + (bs + t);
    LengthBack(bs, t);
    assert |bs| % TWO_32 <= |bs|;
  }

  lemma SignatureBack(signature: Option<seq<byte>>)
    ensures DecodeOptionalSignature(EncodeSignature(signature)) == Success(signature)
            <==> (signature.Some? ==> |signature.value| < TWO_32)
  {
    hide LengthAndRest, LengthPrefixed;
    if signature.Some? {
      LengthAndRestBack(SIGNATURE_TAG, signature.value, []);
      var s := EncodeSignature(signature);
      assert s == BytesChunk(SIGNATURE_TAG, signature.value) + [];
      assert signature.value + [] == signature.value;
      if |signature.value| < TWO_32 {
        assert signature.value[..|signature.value|] == signature.value;
      }
    }
  }

  /** The invoice comes back, with the signature's bytes left over, exactly when it survives its own round trip and
      its encoding fits the length prefix. */
  lemma InvoiceBack(lib: Library, x: InvoiceFields, t: seq<byte>)
    requires Lawful(lib) && Representable(lib, x)
    ensures var r := DecodeOptionalInvoice(lib, BytesChunk(INVOICE_TAG, EncodeInvoice(lib, x)) + t);
            if Encodable(x) && |EncodeInvoice(lib, x)| < TWO_32 then r == Success((Some(x), t))
            else r.Success? ==> r.value.0 != Some(x)
  {
    hide DecodeInvoice, EncodeInvoice, Encodable, LengthAndRest, LengthPrefixed;
    var e := EncodeInvoice(lib, x);
    var s := BytesChunk(INVOICE_TAG, e) + t;
    LengthAndRestBack(INVOICE_TAG, e, t);
    var l := |e| % TWO_32;
    assert (e + t)[..l] == e[..l];
    if Encodable(x) {
      if |e| < TWO_32 {
        assert e[..l] == e && (e + t)[|e|..] == t;
        RoundTrip(lib, x);
      } else {
        TruncatedInvoiceFails(lib, x, l);
      }
    } else if DecodeInvoice(lib, e[..l]).Success? {
      DecodedIsEncodable(lib, e[..l]);
    }
  }

  /** The address payload round trip, for every key of at most 255 bytes: it holds exactly when the invoice is
      encodable within 2^32 bytes and the signature is shorter than that. */
  lemma AddressRoundTrip(lib: Library, p: AddressPayload)
    requires Lawful(lib) && |p.key| < TWO_8 && (p.invoice.Some? ==> Representable(lib, p.invoice.value))
    ensures DecodePayload(lib, EncodePayload(lib, p)) == Success(p) <==>
            && (p.invoice.Some? ==> Encodable(p.invoice.value) && |EncodeInvoice(lib, p.invoice.value)| < TWO_32)
            && (p.signature.Some? ==> |p.signature.value| < TWO_32)
  {
    hide DecodeOptionalInvoice, DecodeOptionalSignature, EncodeInvoice, Encodable, Representable, EncodeSignature,
         BytesChunk;
    var s, n := EncodePayload(lib, p), 2 + |p.key|;
    assert s[0] == KEY_TAG && s[1] == |p.key| && s[2..n] == p.key;
    assert s[n..] == EncodeTail(lib, p.invoice, p.signature);
    var t := EncodeSignature(p.signature);
    SignatureBack(p.signature);
    if p.invoice.Some? {
      InvoiceBack(lib, p.invoice.value, t);
    } else {
      assert s[n..] == t;
      NoInvoice(lib, p.signature);
    }
  }

  lemma NoInvoice(lib: Library, signature: Option<seq<byte>>)
    ensures DecodeOptionalInvoice(lib, EncodeSignature(signature)) == Success((None, EncodeSignature(signature)))
  {
  }

  // ----- What the decoder of payloads reads -----

  /** `n` bytes of length prefix, as many bytes of content as it says, and whatever follows. */
  ghost predicate StartsPrefixed(s: seq<byte>, n: nat, content: seq<byte>) {
    && n <= |s| && IsVarint(s[..n], 5) && ValueOf(s[..n]) % 0x1_0000_0000 == |content|
    && n + |content| <= |s| && s[n..n + |content|] == content
  }

  /** The optional invoice takes `i` bytes: none if the next byte is not its tag, otherwise the tag, the length and what the
      invoice itself takes of the bytes announced. */
  ghost predicate InvoiceAt(lib: Library, t: seq<byte>, invoice: Option<InvoiceFields>, i: nat) {
    if invoice.None? then i == 0 && (t == [] || t[0] != 0x12)
    else
      && t != [] && t[0] == 0x12
      && exists n: nat, content, us, used: nat ::
           && StartsPrefixed(t[1..], n, content) && Reads(lib, InvoiceMessage, content, us, used)
           && MakesInvoice(lib, us, invoice.value) && i == 1 + n + used
  }

  ghost predicate SignatureAt(t: seq<byte>, signature: Option<seq<byte>>) {
    if signature.None? then t == [] || t[0] != 0x1a
    else t != [] && t[0] == 0x1a && exists n: nat :: StartsPrefixed(t[1..], n, signature.value)
  }

  ghost predicate TailAt(lib: Library, t: seq<byte>, p: AddressPayload, i: nat) {
    i <= |t| && InvoiceAt(lib, t, p.invoice, i) && SignatureAt(t[i..], p.signature)
  }

  ghost predicate PayloadAt(lib: Library, s: seq<byte>, p: AddressPayload) {
    && |s| >= 2 + |p.key| && s[0] == 0x0a && s[1] == |p.key| && s[2..2 + |p.key|] == p.key
    && HasTail(lib, s[2 + |p.key|..], p)
  }

  ghost predicate HasTail(lib: Library, t: seq<byte>, p: AddressPayload) {
    exists i: nat :: TailAt(lib, t, p, i)
  }

  lemma StartsIff(s: seq<byte>, content: seq<byte>, n: nat)
    ensures StartsPrefixed(s, n, content)
       <==> Decode32(s) == Success(Read(|content|, n)) && n + |content| <= |s| && s[n..n + |content|] == content
  {
    hide Decode32;
    Decode32Iff(s, |content|, n);
  }

  lemma SignatureIff(t: seq<byte>, signature: Option<seq<byte>>)
    ensures DecodeOptionalSignature(t) == Success(signature) <==> SignatureAt(t, signature)
  {
    hide Decode32, StartsPrefixed;
    if t != [] && t[0] == 0x1a && signature.Some? {
      var s, g := t[1..], signature.value;
      if DecodeOptionalSignature(t) == Success(signature) {
        var l := Decode32(s).value;
        assert g == s[l.used..][..l.value] == s[l.used..l.used + l.value];
        StartsIff(s, g, l.used);
      }
      if n: nat :| StartsPrefixed(s, n, g) {
        StartsIff(s, g, n);
        assert s[n..][..|g|] == s[n..n + |g|];
      }
    }
  }

  lemma InvoiceFound(lib: Library, t: seq<byte>, x: InvoiceFields)
    requires t != [] && t[0] == 0x12 && DecodeOptionalInvoice(lib, t).Success?
    requires DecodeOptionalInvoice(lib, t).value.0 == Some(x)
    ensures exists k: nat :: k <= |t| && t[k..] == DecodeOptionalInvoice(lib, t).value.1 && InvoiceAt(lib, t, Some(x), k)
  {
    hide Decode32, StartsPrefixed, DecodeInvoice, Reads, MakesInvoice;
    var s, l := t[1..], Decode32(t[1..]).value;
    var content := s[l.used..][..l.value];
    assert content == s[l.used..l.used + l.value];
    StartsIff(s, content, l.used);
    var d := DecodeInvoice(lib, content).value;
    PrefixDetermined(lib, content);
    InvoiceIff(lib, content, x, d.used);
    var us :| Reads(lib, InvoiceMessage, content, us, d.used) && MakesInvoice(lib, us, x);
    var k := 1 + l.used + d.used;
    assert t[k..] == s[l.used..][d.used..];
    assert InvoiceAt(lib, t, Some(x), k);
  }

  lemma InvoiceRead(lib: Library, t: seq<byte>, x: InvoiceFields, n: nat, content: seq<byte>, us: seq<Update>, used: nat)
    requires t != [] && t[0] == 0x12 && StartsPrefixed(t[1..], n, content)
    requires Reads(lib, InvoiceMessage, content, us, used) && MakesInvoice(lib, us, x)
    ensures 1 + n + used <= |t| && DecodeOptionalInvoice(lib, t) == Success((Some(x), t[1 + n + used..]))
  {
    hide Decode32, StartsPrefixed, DecodeInvoice, Reads, MakesInvoice;
    var s := t[1..];
    StartsIff(s, content, n);
    assert s[n..][..|content|] == s[n..n + |content|] == content;
    InvoiceIff(lib, content, x, used);
    PrefixDetermined(lib, content);
    assert t[1 + n + used..] == s[n..][used..];
  }

  /** The optional invoice is there as decoded, and what it leaves is a tail of the bytes. */
  lemma InvoiceDecoded(lib: Library, t: seq<byte>) returns (i: nat)
    requires DecodeOptionalInvoice(lib, t).Success?
    ensures var d := DecodeOptionalInvoice(lib, t).value; i <= |t| && d.1 == t[i..] && InvoiceAt(lib, t, d.0, i)
  {
    hide Decode32, DecodeInvoice;
    i := 0;
    var o := DecodeOptionalInvoice(lib, t).value.0;
    if t != [] && t[0] == 0x12 {
      hide InvoiceAt;
      InvoiceFound(lib, t, o.value);
      var k: nat :| k <= |t| && t[k..] == DecodeOptionalInvoice(lib, t).value.1 && InvoiceAt(lib, t, o, k);
      i := k;
    }
  }

  lemma InvoiceDecodes(lib: Library, t: seq<byte>, invoice: Option<InvoiceFields>, i: nat)
    requires InvoiceAt(lib, t, invoice, i)
    ensures i <= |t| && DecodeOptionalInvoice(lib, t) == Success((invoice, t[i..]))
  {
    hide Decode32, StartsPrefixed, DecodeInvoice, Reads, MakesInvoice;
    if invoice.Some? {
      hide DecodeOptionalInvoice;
      var n: nat, content, us, used: nat :|
        && StartsPrefixed(t[1..], n, content) && Reads(lib, InvoiceMessage, content, us, used)
        && MakesInvoice(lib, us, invoice.value) && i == 1 + n + used;
      InvoiceRead(lib, t, invoice.value, n, content, us, used);
    }
  }

  /** The decoder of payloads accepts exactly a key with its tag and length byte, then what its tag says is an invoice, then
      what its tag says is a signature, then anything. */
  lemma PayloadIff(lib: Library, s: seq<byte>, p: AddressPayload)
    ensures DecodePayload(lib, s) == Success(p) <==> PayloadAt(lib, s, p)
  {
    hide DecodeOptionalInvoice, DecodeOptionalSignature, InvoiceAt, SignatureAt;
    if DecodePayload(lib, s) == Success(p) {
      var t := s[2 + |p.key|..];
      var i := InvoiceDecoded(lib, t);
      SignatureIff(t[i..], p.signature);
      assert TailAt(lib, t, p, i);
    }
    if PayloadAt(lib, s, p) {
      var t := s[2 + |p.key|..];
      var i: nat :| TailAt(lib, t, p, i);
      InvoiceDecodes(lib, t, p.invoice, i);
      SignatureIff(t[i..], p.signature);
    }
  }
}

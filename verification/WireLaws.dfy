/**
 * Laws of the decoding loop that hold for every message kind: a field is read from its own bytes alone, so
 * fields can be split off, inserted, reordered and repeated.
 */
module WireLaws {
  import opened Wrappers
  import opened Machine
  import opened Varint
  import opened Wire
  import opened Grammar
  import opened Sequences

  /** The two byte strings agree on their first `n` bytes, and both have that many. */
  ghost predicate Agree(s: seq<byte>, t: seq<byte>, n: nat) {
    n <= |s| && n <= |t| && s[..n] == t[..n]
  }

  lemma AgreeTail(s: seq<byte>, t: seq<byte>, k: nat, n: nat)
    requires k <= n && Agree(s, t, n)
    ensures Agree(s, t, k) && Agree(s[k..], t[k..], n - k) && s[k..n] == t[k..n]
  {
    assert s[..k] == s[..n][..k] && t[..k] == t[..n][..k];
    assert s[k..][..n - k] == s[..n][k..] && t[k..][..n - k] == t[..n][k..];
    assert s[k..n] == s[..n][k..] && t[k..n] == t[..n][k..];
  }

  lemma VarintExtends(s: seq<byte>, t: seq<byte>)
    ensures Decode32(s).Success? && Agree(s, t, Decode32(s).value.used) ==> Decode32(t) == Decode32(s)
    ensures Decode64(s).Success? && Agree(s, t, Decode64(s).value.used) ==> Decode64(t) == Decode64(s)
  {
    if Decode32(s).Success? && Agree(s, t, Decode32(s).value.used) {
      ReadExtends(s, t, MAX_LEN_32, TWO_32);
    }
    if Decode64(s).Success? && Agree(s, t, Decode64(s).value.used) {
      ReadExtends(s, t, MAX_LEN_64, TWO_64);
    }
  }

  lemma PrefixedExtends(s: seq<byte>, t: seq<byte>)
    requires Prefixed(s).Success? && Agree(s, t, Prefixed(s).value.used)
    ensures Prefixed(t) == Prefixed(s)
  {
    var k := Decode32(s).value.used;
    AgreeTail(s, t, k, Prefixed(s).value.used);
    VarintExtends(s, t);
  }

  lemma SkipExtends(wireType: nat, s: seq<byte>, t: seq<byte>)
    requires Skip(wireType, s).Success? && Agree(s, t, Skip(wireType, s).value.used)
    ensures Skip(wireType, t) == Skip(wireType, s)
  {
    VarintExtends(s, t);
    if wireType == 2 {
      PrefixedExtends(s, t);
    }
  }

  lemma PayloadExtends(lib: Library, m: Message, tag: nat, s: seq<byte>, t: seq<byte>)
    requires Payload(lib, m, tag, s).Success? && Agree(s, t, Payload(lib, m, tag, s).value.used)
    ensures Payload(lib, m, tag, t) == Payload(lib, m, tag, s)
  {
    hide Decode32, Decode64, Prefixed, Skip, Agree, DecodeSats, DecodeTokens, DecodeTimestamp, ToDateTime;
    VarintExtends(s, t);
    if Prefixed(s).Success? && Agree(s, t, Prefixed(s).value.used) {
      PrefixedExtends(s, t);
    }
    if Skip(tag % 8, s).Success? && Agree(s, t, Skip(tag % 8, s).value.used) {
      SkipExtends(tag % 8, s, t);
    }
  }

  lemma RoundExtends(lib: Library, m: Message, s: seq<byte>, t: seq<byte>)
    requires Round(lib, m, s).Success? && Agree(s, t, Round(lib, m, s).value.used)
    ensures Round(lib, m, t) == Round(lib, m, s)
  {
    hide Payload, Decode32;
    var n, tag := Round(lib, m, s).value.used, Decode32(s).value;
    AgreeTail(s, t, tag.used, n);
    VarintExtends(s, t);
    if tag.value != 0 {
      PayloadExtends(lib, m, tag.value, s[tag.used..], t[tag.used..]);
    }
  }

  /** What the loop does with a result after one more field. */
  function After(u: Update, n: nat, r: Result<Read<seq<Update>>, DecodeError>): Result<Read<seq<Update>>, DecodeError> {
    match r
    case Success(d) => Success(Read([u] + d.value, n + d.used))
    case Failure(e) => Failure(e)
  }

  lemma RunUnfolds(lib: Library, m: Message, s: seq<byte>)
    requires s != []
    ensures Round(lib, m, s).Failure? ==> Run(lib, m, s) == Failure(Round(lib, m, s).error)
    ensures Round(lib, m, s).Success? ==>
              var step := Round(lib, m, s).value;
              Run(lib, m, s) == if step.Stop? then Success(Read([], step.used)) else After(step.update, step.used, Run(lib, m, s[step.used..]))
  {
    hide Round;
  }

  lemma RunEmpty(lib: Library, m: Message)
    ensures Run(lib, m, []) == Success(Read([], 0))
  {
  }

  // ----- Field boundaries -----

  /** The loop over `s` gets to position `b` by whole fields. */
  ghost predicate Reaches(lib: Library, m: Message, s: seq<byte>, b: nat)
    decreases b
  {
    b == 0 ||
    (s != [] && match Round(lib, m, s)
                case Success(Field(_, n)) => n <= b && Reaches(lib, m, s[n..], b - n)
                case _ => false)
  }

  lemma {:induction false} ReachesWithin(lib: Library, m: Message, s: seq<byte>, b: nat)
    requires Reaches(lib, m, s, b)
    ensures b <= |s|
    decreases b
  {
    hide Round;
    if b > 0 {
      var n := Round(lib, m, s).value.used;
      ReachesWithin(lib, m, s[n..], b - n);
    }
  }

  /** A tag this message kind gives no meaning to. */
  ghost predicate IsUnknownTag(m: Message, tag: nat) {
    match m
    case SatsMessage => tag != 0x08
    case TokensMessage => tag != 0x0a && tag != 0x12
    case TimestampMessage => tag / 8 != 1 && tag / 8 != 2
    case InvoiceMessage => !(1 <= tag / 8 <= 7)
  }

  /** The first `n` bytes are the tag of a field, and the rest is its body. */
  ghost predicate IsTagged(c: seq<byte>, n: nat, tag: nat) {
    n <= |c| && IsVarint(c[..n], 5) && tag == ValueOf(c[..n]) % 0x1_0000_0000 && tag != 0
  }

  /** `c` is one well-formed field that this message kind does not know: a tag and the body its wire type asks for. */
  ghost predicate IsUnknownField(m: Message, c: seq<byte>) {
    exists n: nat, tag: nat :: IsTagged(c, n, tag) && IsUnknownTag(m, tag) && IsBody(tag % 8, c[n..])
  }

  function Insert(s: seq<byte>, b: nat, c: seq<byte>): seq<byte>
    requires b <= |s|
  {
    s[..b] + c + s[b..]
  }

  /** `vs` is `us` with one skipped field put in somewhere. */
  ghost predicate OneSkipMore(us: seq<Update>, vs: seq<Update>) {
    exists i :: 0 <= i <= |us| && vs == us[..i] + [Skipped] + us[i..]
  }

  lemma {:induction false} CollectAppend(us: seq<Update>, vs: seq<Update>, ws: seq<Update>)
    requires Collect(us) == Collect(vs)
    ensures Collect(us + ws) == Collect(vs + ws)
  {
    if ws == [] {
      assert us + ws == us && vs + ws == vs;
    } else {
      var n := |ws| - 1;
      CollectAppend(us, vs, ws[..n]);
      assert (us + ws)[..|us + ws| - 1] == us + ws[..n] && (vs + ws)[..|vs + ws| - 1] == vs + ws[..n];
    }
  }

  lemma CollectSkip(us: seq<Update>, vs: seq<Update>)
    requires OneSkipMore(us, vs)
    ensures Collect(us) == Collect(vs)
  {
    var i :| 0 <= i <= |us| && vs == us[..i] + [Skipped] + us[i..];
    assert (us[..i] + [Skipped])[..i] == us[..i];
    CollectAppend(us[..i], us[..i] + [Skipped], us[i..]);
    assert us == us[..i] + us[i..];
  }

  /** The same outcome, `k` bytes further on and with one skipped field more. */
  ghost predicate SkipsMore(r: Result<Read<seq<Update>>, DecodeError>, r': Result<Read<seq<Update>>, DecodeError>,
                            k: nat) {
    match r
    case Success(d) => r'.Success? && OneSkipMore(d.value, r'.value.value) && r'.value.used == d.used + k
    case Failure(_) => r' == r
  }

  lemma UnknownFieldRound(lib: Library, m: Message, c: seq<byte>)
    requires IsUnknownField(m, c)
    ensures c != [] && Round(lib, m, c) == Success(Field(Skipped, |c|))
  {
    hide Decode32, Skip, IsBody, IsVarint;
    var n: nat, tag: nat :| IsTagged(c, n, tag) && IsUnknownTag(m, tag) && IsBody(tag % 8, c[n..]);
    Decode32Iff(c, tag, n);
    Whole(c[n..]);
    SkipIff(tag % 8, c[n..], |c[n..]|);
  }

  lemma SkipsMoreNow(r: Result<Read<seq<Update>>, DecodeError>, k: nat)
    ensures SkipsMore(r, After(Skipped, k, r), k)
  {
    if r.Success? {
      var us := r.value.value;
      assert [Skipped] + us == us[..0] + [Skipped] + us[0..];
    }
  }

  lemma SkipsMoreAfter(u: Update, n: nat, r: Result<Read<seq<Update>>, DecodeError>,
                       r': Result<Read<seq<Update>>, DecodeError>, k: nat)
    requires SkipsMore(r, r', k)
    ensures SkipsMore(After(u, n, r), After(u, n, r'), k)
  {
    if r.Success? {
      var us := r.value.value;
      var i :| 0 <= i <= |us| && r'.value.value == us[..i] + [Skipped] + us[i..];
      assert [u] + r'.value.value == ([u] + us)[..i + 1] + [Skipped] + ([u] + us)[i + 1..];
    }
  }

  lemma UnfoldInsert(s: seq<byte>, b: nat, c: seq<byte>)
    requires b <= |s| && c != []
    ensures Insert(s, b, c) != []
    ensures b == 0 ==> Insert(s, b, c)[|c|..] == s && Agree(c, Insert(s, b, c), |c|)
  {
  }

  lemma InsertTail(s: seq<byte>, b: nat, c: seq<byte>, n: nat)
    requires n <= b <= |s|
    ensures Agree(s, Insert(s, b, c), n) && Insert(s, b, c)[n..] == Insert(s[n..], b - n, c)
  {
    assert s[n..b] == s[n..][..b - n] && s[b..] == s[n..][b - n..];
  }

  lemma {:induction false} RunInsert(lib: Library, m: Message, s: seq<byte>, b: nat, c: seq<byte>)
    requires Reaches(lib, m, s, b) && b <= |s| && IsUnknownField(m, c)
    ensures SkipsMore(Run(lib, m, s), Run(lib, m, Insert(s, b, c)), |c|)
    decreases b
  {
    hide Run, Round, IsUnknownField, SkipsMore, Insert, Agree;
    var t := Insert(s, b, c);
    UnknownFieldRound(lib, m, c);
    RunUnfolds(lib, m, t) by { UnfoldInsert(s, b, c); }
    if b == 0 {
      UnfoldInsert(s, b, c);
      RoundExtends(lib, m, c, t);
      SkipsMoreNow(Run(lib, m, s), |c|);
    } else {
      var Field(u, n) := Round(lib, m, s).value;
      InsertTail(s, b, c, n);
      RoundExtends(lib, m, s, t);
      RunUnfolds(lib, m, s);
      RunInsert(lib, m, s[n..], b - n, c);
      SkipsMoreAfter(u, n, Run(lib, m, s[n..]), Run(lib, m, t[n..]), |c|);
    }
  }

  function Later<T>(r: Result<Read<T>, DecodeError>, k: nat): Result<Read<T>, DecodeError> {
    match r
    case Success(d) => Success(Read(d.value, d.used + k))
    case Failure(e) => Failure(e)
  }

  /** Forward compatibility: an unknown field put in at any field boundary changes neither the value decoded nor
      the error reported; it is counted among the bytes taken. */
  lemma UnknownFieldIgnored(lib: Library, m: Message, s: seq<byte>, b: nat, c: seq<byte>)
    requires Reaches(lib, m, s, b) && b <= |s| && IsUnknownField(m, c)
    ensures m == SatsMessage ==> DecodeSats(lib, Insert(s, b, c)) == Later(DecodeSats(lib, s), |c|)
    ensures m == TokensMessage ==> DecodeTokens(lib, Insert(s, b, c)) == Later(DecodeTokens(lib, s), |c|)
    ensures m == TimestampMessage ==> DecodeTimestamp(lib, Insert(s, b, c)) == DecodeTimestamp(lib, s)
    ensures m == InvoiceMessage ==> DecodeInvoice(lib, Insert(s, b, c)) == Later(DecodeInvoice(lib, s), |c|)
  {
    hide Run, Round, Reaches, IsUnknownField, Insert, Collect, FinishSats, FinishTokens, FinishTimestamp, FinishInvoice;
    RunInsert(lib, m, s, b, c);
    if Run(lib, m, s).Success? {
      CollectSkip(Run(lib, m, s).value.value, Run(lib, m, Insert(s, b, c)).value.value);
    }
  }

  // ----- Prefixes -----

  lemma {:induction false} RunPrefix(lib: Library, m: Message, s: seq<byte>)
    requires Run(lib, m, s).Success?
    ensures Run(lib, m, s[..Run(lib, m, s).value.used]) == Run(lib, m, s)
    decreases |s|
  {
    hide Run, Round;
    if s == [] {
      RunEmpty(lib, m);
    } else {
      RunUnfolds(lib, m, s);
      var k := Run(lib, m, s).value.used;
      var n := Round(lib, m, s).value.used;
      var t := s[..k];
      assert s[..n] == t[..n];
      RoundExtends(lib, m, s, t);
      RunUnfolds(lib, m, t);
      if Round(lib, m, s).value.Field? {
        RunPrefix(lib, m, s[n..]);
        assert t[n..] == s[n..][..k - n];
      }
    }
  }

  /** A decoder that says it took `n` bytes is decided by those bytes: it decodes them alone to the same value. */
  lemma PrefixDetermined(lib: Library, s: seq<byte>)
    ensures DecodeSats(lib, s).Success? ==>
              DecodeSats(lib, s).value.used <= |s| && DecodeSats(lib, s[..DecodeSats(lib, s).value.used]) == DecodeSats(lib, s)
    ensures DecodeTokens(lib, s).Success? ==>
              DecodeTokens(lib, s).value.used <= |s| && DecodeTokens(lib, s[..DecodeTokens(lib, s).value.used]) == DecodeTokens(lib, s)
    ensures DecodeInvoice(lib, s).Success? ==>
              DecodeInvoice(lib, s).value.used <= |s| && DecodeInvoice(lib, s[..DecodeInvoice(lib, s).value.used]) == DecodeInvoice(lib, s)
  {
    hide Run, Collect, FinishSats, FinishTokens, FinishInvoice;
    if DecodeSats(lib, s).Success? { RunPrefix(lib, SatsMessage, s); }
    if DecodeTokens(lib, s).Success? { RunPrefix(lib, TokensMessage, s); }
    if DecodeInvoice(lib, s).Success? { RunPrefix(lib, InvoiceMessage, s); }
  }

  // ----- Sequences of fields -----

  /** `c` is exactly one field, which assigns `u`. */
  ghost predicate IsField(lib: Library, m: Message, c: seq<byte>, u: Update) {
    c != [] && Round(lib, m, c) == Success(Field(u, |c|))
  }

  ghost predicate AreFields(lib: Library, m: Message, cs: seq<seq<byte>>, us: seq<Update>) {
    |cs| == |us| && forall i :: 0 <= i < |cs| ==> IsField(lib, m, cs[i], us[i])
  }

  function Flatten(cs: seq<seq<byte>>): seq<byte> {
    if cs == [] then [] else cs[0] + Flatten(cs[1..])
  }

  lemma {:induction false} FlattenSnoc(cs: seq<seq<byte>>, c: seq<byte>)
    ensures Flatten(cs + [c]) == Flatten(cs) + c
  {
    if cs == [] {
      assert Flatten([c]) == c + Flatten([]) == c;
    } else {
      assert (cs + [c])[1..] == cs[1..] + [c];
      FlattenSnoc(cs[1..], c);
    }
  }

  /** A string of fields is decoded field by field. */
  lemma {:induction false} RunFields(lib: Library, m: Message, cs: seq<seq<byte>>, us: seq<Update>)
    requires AreFields(lib, m, cs, us)
    ensures Run(lib, m, Flatten(cs)) == Success(Read(us, |Flatten(cs)|))
  {
    hide Run, Round;
    if cs == [] {
      RunEmpty(lib, m);
    } else {
      var c, t := cs[0], Flatten(cs);
      assert IsField(lib, m, cs[0], us[0]);
      assert t[..|c|] == c == c[..|c|] && t[|c|..] == Flatten(cs[1..]);
      RoundExtends(lib, m, c, t);
      RunUnfolds(lib, m, t);
      assert AreFields(lib, m, cs[1..], us[1..]) by {
        forall i | 0 <= i < |cs| - 1 ensures IsField(lib, m, cs[1..][i], us[1..][i]) {
          assert IsField(lib, m, cs[i + 1], us[i + 1]);
        }
      }
      RunFields(lib, m, cs[1..], us[1..]);
      assert us == [us[0]] + us[1..];
    }
  }

  // ----- Order -----

  /** The variable of the decoder that an update assigns; the two payments share one. */
  function SlotOf(u: Update): nat {
    match u
    case Skipped => 0
    case SatsAmount(_) => 1
    case TokenIdentifier(_) => 2
    case TokenAmount(_) => 3
    case Seconds(_) => 4
    case Nanos(_) => 5
    case Version(_) => 6
    case Id(_) => 7
    case Payment(_) => 8
    case Memo(_) => 9
    case SenderKey(_) => 10
    case Expiry(_) => 11
  }

  ghost predicate DistinctSlots(us: seq<Update>) {
    forall i, j :: 0 <= i < j < |us| ==> SlotOf(us[i]) != SlotOf(us[j])
  }

  lemma ApplyCommutes(slots: Slots, u: Update, v: Update)
    requires SlotOf(u) != SlotOf(v)
    ensures Apply(Apply(slots, u), v) == Apply(Apply(slots, v), u)
  {
  }

  /** An update that shares its variable with none after it can be made last. */
  lemma {:induction false} CollectMoveLast(us: seq<Update>, i: nat)
    requires i < |us| && forall j :: i < j < |us| ==> SlotOf(us[i]) != SlotOf(us[j])
    ensures Collect(us) == Apply(Collect(Remove(us, i)), us[i])
  {
    var n := |us| - 1;
    if i == n {
      assert Remove(us, i) == us[..n];
    } else {
      var vs := us[..n];
      CollectMoveLast(vs, i);
      assert Remove(us, i)[..n - 1] == Remove(vs, i);
      ApplyCommutes(Collect(Remove(vs, i)), us[i], us[n]);
    }
  }

  /** Updates of distinct variables give the same result in every order. */
  lemma {:induction false} CollectPermuted(us: seq<Update>, vs: seq<Update>)
    requires DistinctSlots(us) && multiset(us) == multiset(vs)
    ensures Collect(us) == Collect(vs)
    decreases |vs|
  {
    if vs == [] {
      assert |us| == |multiset(us)| == |multiset(vs)|;
      assert us == vs;
    } else {
      hide Collect, Apply, SlotOf;
      var n := |vs| - 1;
      assert vs[n] in multiset(us);
      var i :| 0 <= i < |us| && us[i] == vs[n];
      CollectMoveLast(us, i);
      CollectMoveLast(vs, n);
      RemoveSame(us, i, vs, n);
      CollectPermuted(Remove(us, i), Remove(vs, n));
    }
  }
}

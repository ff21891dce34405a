/**
 * The normal form of values and messages, told without hashing: what is unset, zero or null is left out, the two zeros and
 * all NaNs are one, a timestamp has both its fields. Two messages of one type have the same canonical tree exactly when
 * they have the same normal form; so equal digests mean equal normal forms, or a collision.
 */
module HashNormal {
  import opened Wrappers
  import opened Machine
  import opened HashTree
  import opened HashMeaning
  import opened Hashing
  import opened Hasher
  import opened HashUniqueness

  /** `Invalid` cannot be hashed, `Absent` has no digest. */
  datatype Norm = Invalid | Absent | Present(value: Value)

  // ----- Scalars -----

  /** As in section 3.4 of IEEE 754: all ones in the exponent and something in the fraction. */
  predicate IsNaN(bits: u64) {
    bits / 0x10_0000_0000_0000 % 0x800 == 0x7FF && bits % 0x10_0000_0000_0000 != 0
  }

  /** Nothing but the sign. */
  predicate IsZeroFloat(bits: u64) {
    bits % TWO_63 == 0
  }

  function PlainBits(bits: u64): u64 {
    if IsZeroFloat(bits) then 0 else if IsNaN(bits) then 0x7FF8_0000_0000_0000 else bits
  }

  function ZeroOf(kind: Kind): Value {
    match kind
    case BoolKind => BoolValue(false)
    case DoubleKind => F64Value(0)
    case Int32Kind => I32Value(0)
    case Int64Kind => I64Value(0)
    case Uint32Kind => U32Value(0)
    case Uint64Kind => U64Value(0)
    case StringKind => StringValue([])
    case BytesKind => BytesValue([])
    case EnumKind(d) => EnumValue(d)
    case MessageKind(name) => MessageValue(Message(name, map[]))
  }

  /** A scalar of the same type as `z`. */
  function NormLike(z: Value, v: Value): Norm {
    match z
    case BoolValue(_) => if v.BoolValue? then Present(v) else Invalid
    case I32Value(_) => if v.I32Value? then Present(v) else Invalid
    case I64Value(_) => if v.I64Value? then Present(v) else Invalid
    case U32Value(_) => if v.U32Value? then Present(v) else Invalid
    case U64Value(_) => if v.U64Value? then Present(v) else Invalid
    case F64Value(_) => if v.F64Value? then Present(F64Value(PlainBits(v.bits))) else Invalid
    case StringValue(_) => if v.StringValue? then Present(v) else Invalid
    case BytesValue(_) => if v.BytesValue? then Present(v) else Invalid
    case EnumValue(_) => if v.EnumValue? then Present(v) else Invalid
    case _ => Invalid
  }

  /** A field that is stored with the value it has when it is not. */
  predicate IsUnset(kind: Kind, v: Value) {
    if kind.MessageKind? then v == ZeroOf(kind) else NormLike(ZeroOf(kind), v) == Present(ZeroOf(kind))
  }

  /** A `Value` with the null member, or with no member. */
  predicate IsNullish(v: Value) {
    v.MessageValue? && v.m.desc == VALUE && (1 in v.m.fields || forall n | 2 <= n <= 6 :: n !in v.m.fields)
  }

  function StoredOr(m: Message, n: u32, z: Value): Value {
    if n in m.fields then m.fields[n] else z
  }

  /** The zero of the one field of a wrapper type. */
  function WrapperZero(desc: string): Option<Value> {
    if desc == "google.protobuf.BoolValue" then Some(BoolValue(false))
    else if desc == "google.protobuf.Int32Value" then Some(I32Value(0))
    else if desc == "google.protobuf.Int64Value" then Some(I64Value(0))
    else if desc == "google.protobuf.UInt32Value" then Some(U32Value(0))
    else if desc == "google.protobuf.UInt64Value" then Some(U64Value(0))
    else if desc == "google.protobuf.DoubleValue" then Some(F64Value(0))
    else if desc == "google.protobuf.StringValue" then Some(StringValue([]))
    else None
  }

  // ----- Values and messages -----

  /** A message of type `desc` with one field, if the field is there. */
  function InMessage(desc: string, n: u32, x: Norm): Norm {
    if x.Present? then Present(MessageValue(Message(desc, map[n := x.value]))) else x
  }

  ghost function NormValue(pool: Pool, kind: Kind, v: Value): Norm
    decreases v, 3
  {
    if !kind.MessageKind? then NormLike(ZeroOf(kind), v)
    else if v.MessageValue? then NormMessage(pool, v.m)
    else Invalid
  }

  ghost function NormMessage(pool: Pool, m: Message): Norm
    decreases m, 2
  {
    if m.desc == ANY then Invalid
    else if WrapperZero(m.desc).Some? then
      InMessage(m.desc, 1, NormLike(WrapperZero(m.desc).value, StoredOr(m, 1, WrapperZero(m.desc).value)))
    else if m.desc == STRUCT then NormStruct(pool, m)
    else if m.desc == TIMESTAMP || m.desc == DURATION then NormInstant(m)
    else if m.desc == LIST then NormList(pool, m)
    else if m.desc == VALUE then NormOneof(pool, m)
    else NormPlain(pool, m)
  }

  /** Seconds and nanoseconds, both there. */
  function NormInstant(m: Message): Norm {
    var seconds, nanos := NormLike(I64Value(0), StoredOr(m, 1, I64Value(0))), NormLike(I32Value(0), StoredOr(m, 2, I32Value(0)));
    if seconds.Invalid? || nanos.Invalid? then Invalid
    else Present(MessageValue(Message(m.desc, map[1 := seconds.value, 2 := nanos.value])))
  }

  /** The fields that the type knows and that do not hold their zero. */
  ghost function SetFields(pool: Pool, m: Message): set<u32> {
    set n | n in m.fields && n in pool(m.desc) && pool(m.desc)[n].number == n && !IsUnset(pool(m.desc)[n].kind, m.fields[n])
  }

  ghost function NormPlain(pool: Pool, m: Message): Norm
    decreases m, 1
  {
    var fields, ns := pool(m.desc), SetFields(pool, m);
    if exists n :: n in ns && NormField(pool, fields[n], m.fields[n]).Invalid? then Invalid
    else
      Present(MessageValue(Message(m.desc, map n | n in ns && NormField(pool, fields[n], m.fields[n]).Present?
                                             :: NormField(pool, fields[n], m.fields[n]).value)))
  }

  ghost function NormField(pool: Pool, fd: FieldDesc, v: Value): Norm
    decreases v, 5
  {
    match fd.card
    case Repeated => if v.ListValue? then NormItems(pool, fd.kind, v) else Invalid
    case MapOf(key) => if v.MapValue? then NormMap(pool, key, fd.kind, v) else Invalid
    case Singular => NormValue(pool, fd.kind, v)
  }

  /** The items that have a digest. */
  ghost function KeptItems(pool: Pool, kind: Kind, items: seq<Value>): seq<Value>
    decreases items, 4
  {
    if items == [] then []
    else
      var last := NormValue(pool, kind, items[|items| - 1]);
      KeptItems(pool, kind, items[..|items| - 1]) + if last.Present? then [last.value] else []
  }

  ghost function NormItems(pool: Pool, kind: Kind, v: Value): Norm
    requires v.ListValue?
    decreases v, 4
  {
    if v.items == [] then Absent
    else if exists x :: x in v.items && NormValue(pool, kind, x).Invalid? then Invalid
    else Present(ListValue(KeptItems(pool, kind, v.items)))
  }

  ghost function NormEntry(pool: Pool, keyKind: Kind, kind: Kind, v: Value, k: MapKey): Norm
    requires v.MapValue? && k in v.entries
    decreases v, 0
  {
    if NormLike(ZeroOf(keyKind), KeyValue(k)).Invalid? then Invalid else NormValue(pool, kind, v.entries[k])
  }

  /** The keys of a map whose values are not null. */
  function LiveOf(v: Value): (ks: set<MapKey>)
    requires v.MapValue?
    ensures ks <= v.entries.Keys
  {
    set k | k in v.entries && !IsNullish(v.entries[k])
  }

  /** The map without nulls, if all the rest has digests. */
  ghost function NormMap(pool: Pool, keyKind: Kind, kind: Kind, v: Value): Norm
    requires v.MapValue?
    decreases v, 2
  {
    var ks := LiveOf(v);
    if exists k :: k in ks && NormEntry(pool, keyKind, kind, v, k).Absent? then Absent
    else if exists k :: k in ks && NormEntry(pool, keyKind, kind, v, k).Invalid? then Invalid
    else if ks == {} then Absent
    else Present(MapValue(map k | k in ks :: NormEntry(pool, keyKind, kind, v, k).value))
  }

  /** The entries stored in a struct. */
  function Members(m: Message): Option<map<MapKey, Value>> {
    if 1 !in m.fields then Some(map[])
    else if m.fields[1].MapValue? then Some(m.fields[1].entries)
    else None
  }

  /** One entry of a struct; null is absent. */
  ghost function NormMember(pool: Pool, m: Message, k: MapKey): Norm
    requires Members(m).Some? && k in Members(m).value
    decreases m, 0
  {
    var v := Members(m).value[k];
    if !k.StringKey? then Invalid
    else if IsNullish(v) then Absent
    else if v.MessageValue? then NormMessage(pool, v.m)
    else Invalid
  }

  ghost function NormStruct(pool: Pool, m: Message): Norm
    decreases m, 1
  {
    if Members(m).None? then Invalid
    else
      var es := Members(m).value;
      if exists k :: k in es && NormMember(pool, m, k).Invalid? then Invalid
      else
        Present(MessageValue(Message(STRUCT, map[1 := MapValue(map k | k in es && NormMember(pool, m, k).Present?
                                                                  :: NormMember(pool, m, k).value)])))
  }

  ghost function NormList(pool: Pool, m: Message): Norm
    decreases m, 1
  {
    if 1 !in m.fields then Absent
    else if !m.fields[1].ListValue? then Invalid
    else InMessage(LIST, 1, NormItems(pool, MessageKind(VALUE), m.fields[1]))
  }

  /** The first member that is set. */
  ghost function NormOneof(pool: Pool, m: Message): Norm
    decreases m, 1
  {
    if 1 in m.fields then Invalid
    else if 2 in m.fields then InMessage(VALUE, 2, NormLike(F64Value(0), m.fields[2]))
    else if 3 in m.fields then InMessage(VALUE, 3, NormLike(StringValue([]), m.fields[3]))
    else if 4 in m.fields then InMessage(VALUE, 4, NormLike(BoolValue(false), m.fields[4]))
    else if 5 in m.fields then (if m.fields[5].MessageValue? then InMessage(VALUE, 5, NormStruct(pool, m.fields[5].m)) else Invalid)
    else if 6 in m.fields then (if m.fields[6].MessageValue? then InMessage(VALUE, 6, NormList(pool, m.fields[6].m)) else Invalid)
    else Invalid
  }

  // ----- What fails and what has no digest -----

  /** Invalid is what fails, absent what hashes to nothing. */
  ghost predicate Fits(x: Meaning, n: Norm) {
    (x.Fails? <==> n.Invalid?) && (IsNothing(x) <==> n.Absent?)
  }

  lemma FloatsFit(a: u64, b: u64)
    ensures NormalFloat(a) == NormalFloat(b) <==> PlainBits(a) == PlainBits(b)
    ensures IsZeroFloat(a) <==> a == 0 || a == NEGATIVE_ZERO
  {
  }

  lemma ScalarFits(kind: Kind, v: Value)
    requires !kind.MessageKind?
    ensures ToScalar(kind, v).Some? <==> NormLike(ZeroOf(kind), v).Present?
    ensures ToScalar(kind, v).None? <==> NormLike(ZeroOf(kind), v).Invalid?
  {
    hide PlainBits, NormalFloat;
  }

  lemma ScalarsFit(kind: Kind, v: Value, w: Value)
    requires !kind.MessageKind? && ToScalar(kind, v).Some? && ToScalar(kind, w).Some?
    ensures ToScalar(kind, v) == ToScalar(kind, w) <==> NormLike(ZeroOf(kind), v) == NormLike(ZeroOf(kind), w)
  {
    hide PlainBits, NormalFloat;
    if kind.DoubleKind? {
      FloatsFit(v.bits, w.bits);
    }
  }

  lemma DefaultsFit(kind: Kind, v: Value)
    ensures IsDefault(kind, v) <==> IsUnset(kind, v)
  {
    if kind.DoubleKind? && v.F64Value? {
      FloatsFit(v.bits, 0);
    }
  }

  lemma NullsFit(v: Value)
    ensures IsNull(v) <==> IsNullish(v)
  {
    if v.MessageValue? && IsNull(v) && 1 !in v.m.fields {
      forall n | 2 <= n <= 6 ensures n !in v.m.fields {
        assert n == 2 || n == 3 || n == 4 || n == 5 || n == 6;
      }
    }
  }

  lemma WrappersFit(desc: string)
    ensures WrapperZero(desc).Some? <==> WrappedKind(desc).Some?
    ensures WrappedKind(desc).Some? ==> !WrappedKind(desc).value.MessageKind? && ZeroOf(WrappedKind(desc).value) == WrapperZero(desc).value
  {
  }

  lemma StoredFits(kind: Kind, m: Message, n: u32)
    requires !kind.MessageKind?
    ensures StoredScalar(kind, m, n) == ToScalar(kind, StoredOr(m, n, ZeroOf(kind)))
  {
  }

  lemma ValueFits(pool: Pool, kind: Kind, v: Value)
    ensures Fits(ValueMeaning(pool, kind, v), NormValue(pool, kind, v))
    decreases v, 13
  {
    hide MessageMeaning, NormMessage, ToScalar, NormLike, ZeroOf;
    if !kind.MessageKind? {
      ScalarFits(kind, v);
    } else if v.MessageValue? {
      MessageFits(pool, v.m);
    }
  }

  lemma MessageFits(pool: Pool, m: Message)
    ensures Fits(MessageMeaning(pool, m), NormMessage(pool, m))
    decreases m, 12
  {
    hide WrappedKind, WrapperZero, StoredScalar, ToScalar, StructMeaning, NormStruct, TimestampMeaning, NormInstant,
         ListMessageMeaning, NormList, OneofMeaning, NormOneof, PlainMeaning, NormPlain, NormLike, StoredOr;
    WrappersFit(m.desc);
    if m.desc != ANY {
      if WrappedKind(m.desc).Some? {
        var kind := WrappedKind(m.desc).value;
        StoredFits(kind, m, 1);
        ScalarFits(kind, StoredOr(m, 1, ZeroOf(kind)));
      } else if m.desc == STRUCT {
        StructFits(pool, m);
      } else if m.desc == TIMESTAMP || m.desc == DURATION {
        InstantFits(m);
      } else if m.desc == LIST {
        ListFits(pool, m);
      } else if m.desc == VALUE {
        OneofFits(pool, m);
      } else {
        PlainFits(pool, m);
      }
    }
  }

  lemma InstantFits(m: Message)
    ensures Fits(TimestampMeaning(m), NormInstant(m))
  {
    hide StoredScalar, ToScalar, StoredOr, NormLike;
    StoredFits(Int64Kind, m, 1);
    StoredFits(Int32Kind, m, 2);
    ScalarFits(Int64Kind, StoredOr(m, 1, I64Value(0)));
    ScalarFits(Int32Kind, StoredOr(m, 2, I32Value(0)));
  }

  lemma FieldFits(pool: Pool, fd: FieldDesc, v: Value)
    ensures Fits(FieldMeaning(pool, fd, v), NormField(pool, fd, v))
    decreases v, 15
  {
    hide ItemsMeaning, NormItems, MapMeaning, NormMap, ValueMeaning, NormValue;
    match fd.card {
      case Repeated => if v.ListValue? { ItemsFit(pool, fd.kind, v); }
      case MapOf(key) => if v.MapValue? { MapFits(pool, key, fd.kind, v); }
      case Singular => ValueFits(pool, fd.kind, v);
    }
  }

  lemma ItemsFit(pool: Pool, kind: Kind, v: Value)
    requires v.ListValue?
    ensures Fits(ItemsMeaning(pool, kind, v), NormItems(pool, kind, v))
    decreases v, 14
  {
    hide ValueMeaning, NormValue, ItemTrees, KeptItems;
    forall x | x in v.items ensures Fits(ValueMeaning(pool, kind, x), NormValue(pool, kind, x)) {
      ValueFits(pool, kind, x);
    }
  }

  /** What is stored, known and not zero, but not counted as set, is an empty list or map. */
  lemma SetsFit(pool: Pool, m: Message)
    ensures HashedFields(pool, m) <= SetFields(pool, m)
    ensures forall n :: n in SetFields(pool, m) && n !in HashedFields(pool, m) ==>
              NormField(pool, pool(m.desc)[n], m.fields[n]).Absent?
  {
    hide IsDefault, IsUnset, ZeroOf, NormLike;
    forall n | n in m.fields && n in pool(m.desc) ensures IsDefault(pool(m.desc)[n].kind, m.fields[n]) <==> IsUnset(pool(m.desc)[n].kind, m.fields[n]) {
      DefaultsFit(pool(m.desc)[n].kind, m.fields[n]);
    }
    forall n | n in SetFields(pool, m) && n !in HashedFields(pool, m)
      ensures NormField(pool, pool(m.desc)[n], m.fields[n]).Absent?
    {
      var fd := pool(m.desc)[n];
      assert !HasField(fd, m);
      NoneLive();
    }
  }

  lemma PlainFits(pool: Pool, m: Message)
    ensures Fits(PlainMeaning(pool, m), NormPlain(pool, m))
    decreases m, 11
  {
    hide FieldMeaning, NormField, HashedFields, SetFields;
    SetsFit(pool, m);
    SetsAre(pool, m);
    forall n | n in SetFields(pool, m)
      ensures Fits(FieldMeaning(pool, pool(m.desc)[n], m.fields[n]), NormField(pool, pool(m.desc)[n], m.fields[n]))
    {
      FieldFits(pool, pool(m.desc)[n], m.fields[n]);
    }
  }

  lemma SetsAre(pool: Pool, m: Message)
    ensures forall n :: n in SetFields(pool, m) ==> n in m.fields && n in pool(m.desc)
    ensures forall n :: n in HashedFields(pool, m) ==> n in m.fields && n in pool(m.desc)
  {
  }

  lemma EntryFits(pool: Pool, keyKind: Kind, kind: Kind, v: Value, k: MapKey)
    requires v.MapValue? && k in v.entries
    ensures Fits(EntryMeaning(pool, keyKind, kind, v, k), NormEntry(pool, keyKind, kind, v, k))
    decreases v, 9
  {
    hide ValueMeaning, NormValue, ToScalar, NormLike, ZeroOf, KeyValue;
    KeysFit(keyKind, k);
    ValueFits(pool, kind, v.entries[k]);
  }

  lemma KeysFit(keyKind: Kind, k: MapKey)
    ensures ToScalar(keyKind, KeyValue(k)).None? <==> NormLike(ZeroOf(keyKind), KeyValue(k)).Invalid?
  {
  }

  lemma NoneLive()
    ensures LiveOf(MapValue(map[])) == {}
  {
  }

  lemma LiveFits(v: Value)
    requires v.MapValue?
    ensures LiveKeys(v) == LiveOf(v)
  {
    hide IsNull, IsNullish;
    forall k | k in v.entries ensures IsNull(v.entries[k]) <==> IsNullish(v.entries[k]) {
      NullsFit(v.entries[k]);
    }
  }

  ghost predicate SomeNothing(pool: Pool, keyKind: Kind, kind: Kind, v: Value)
    requires v.MapValue?
  {
    exists k :: k in LiveKeys(v) && IsNothing(EntryMeaning(pool, keyKind, kind, v, k))
  }

  ghost predicate SomeFails(pool: Pool, keyKind: Kind, kind: Kind, v: Value)
    requires v.MapValue?
  {
    exists k :: k in LiveKeys(v) && EntryMeaning(pool, keyKind, kind, v, k).Fails?
  }

  lemma NobodyLives(pool: Pool, keyKind: Kind, kind: Kind, v: Value)
    requires v.MapValue? && LiveKeys(v) == {}
    ensures MapMeaning(pool, keyKind, kind, v) == Means(None, false)
  {
    hide EntryMeaning, MapDict, LiveKeys;
  }

  lemma NothingIff(pool: Pool, keyKind: Kind, kind: Kind, v: Value)
    requires v.MapValue? && LiveKeys(v) != {}
    ensures IsNothing(MapMeaning(pool, keyKind, kind, v)) <==> SomeNothing(pool, keyKind, kind, v)
  {
    hide EntryMeaning, MapDict, LiveKeys;
  }

  lemma MeaningFails(pool: Pool, keyKind: Kind, kind: Kind, v: Value)
    requires v.MapValue?
    ensures MapMeaning(pool, keyKind, kind, v).Fails?
       <==> !SomeNothing(pool, keyKind, kind, v) && SomeFails(pool, keyKind, kind, v)
  {
    hide EntryMeaning, MapDict, LiveKeys;
  }

  ghost predicate SomeAbsent(pool: Pool, keyKind: Kind, kind: Kind, v: Value)
    requires v.MapValue?
  {
    exists k :: k in LiveOf(v) && NormEntry(pool, keyKind, kind, v, k).Absent?
  }

  ghost predicate SomeInvalid(pool: Pool, keyKind: Kind, kind: Kind, v: Value)
    requires v.MapValue?
  {
    exists k :: k in LiveOf(v) && NormEntry(pool, keyKind, kind, v, k).Invalid?
  }

  lemma NormCases(pool: Pool, keyKind: Kind, kind: Kind, v: Value)
    requires v.MapValue?
    ensures var x, absent := NormMap(pool, keyKind, kind, v), SomeAbsent(pool, keyKind, kind, v);
            && (x.Absent? <==> absent || LiveOf(v) == {})
            && (x.Invalid? <==> !absent && SomeInvalid(pool, keyKind, kind, v))
  {
    hide NormEntry, LiveOf;
  }

  lemma EntriesFit(pool: Pool, keyKind: Kind, kind: Kind, v: Value)
    requires v.MapValue? && LiveKeys(v) == LiveOf(v)
    ensures SomeNothing(pool, keyKind, kind, v) <==> SomeAbsent(pool, keyKind, kind, v)
    ensures SomeFails(pool, keyKind, kind, v) <==> SomeInvalid(pool, keyKind, kind, v)
    decreases v, 10
  {
    hide EntryMeaning, NormEntry, LiveKeys, LiveOf;
    forall k | k in LiveOf(v) ensures Fits(EntryMeaning(pool, keyKind, kind, v, k), NormEntry(pool, keyKind, kind, v, k)) {
      EntryFits(pool, keyKind, kind, v, k);
    }
  }

  lemma MapFits(pool: Pool, keyKind: Kind, kind: Kind, v: Value)
    requires v.MapValue?
    ensures Fits(MapMeaning(pool, keyKind, kind, v), NormMap(pool, keyKind, kind, v))
    decreases v, 11
  {
    hide MapMeaning, NormMap, LiveKeys, LiveOf, SomeNothing, SomeFails, SomeAbsent, SomeInvalid;
    LiveFits(v);
    EntriesFit(pool, keyKind, kind, v);
    MeaningFails(pool, keyKind, kind, v);
    NormCases(pool, keyKind, kind, v);
    if LiveKeys(v) == {} {
      NobodyLives(pool, keyKind, kind, v);
    } else {
      NothingIff(pool, keyKind, kind, v);
    }
  }

  lemma MemberFits(pool: Pool, m: Message, k: MapKey)
    requires Members(m).Some? && k in Members(m).value
    ensures Fits(StructEntryMeaning(pool, m, k), NormMember(pool, m, k))
    decreases m, 10
  {
    hide MessageMeaning, NormMessage, IsNull, IsNullish;
    var v := Members(m).value[k];
    NullsFit(v);
    if v.MessageValue? {
      MessageFits(pool, v.m);
    }
  }

  lemma StructFits(pool: Pool, m: Message)
    ensures Fits(StructMeaning(pool, m), NormStruct(pool, m))
    decreases m, 11
  {
    hide StructEntryMeaning, NormMember;
    if Members(m).Some? {
      forall k | k in Members(m).value ensures Fits(StructEntryMeaning(pool, m, k), NormMember(pool, m, k)) {
        MemberFits(pool, m, k);
      }
    }
  }

  lemma ListFits(pool: Pool, m: Message)
    ensures Fits(ListMessageMeaning(pool, m), NormList(pool, m))
    decreases m, 11
  {
    hide ItemsMeaning, NormItems;
    if 1 in m.fields && m.fields[1].ListValue? {
      ItemsFit(pool, MessageKind(VALUE), m.fields[1]);
    }
  }

  lemma OneofFits(pool: Pool, m: Message)
    ensures Fits(OneofMeaning(pool, m), NormOneof(pool, m))
    decreases m, 11
  {
    hide StructMeaning, NormStruct, ListMessageMeaning, NormList;
    if 5 in m.fields && m.fields[5].MessageValue? {
      StructFits(pool, m.fields[5].m);
    }
    if 6 in m.fields && m.fields[6].MessageValue? {
      ListFits(pool, m.fields[6].m);
    }
  }

  // ----- Equal trees are equal normal forms -----

  ghost predicate HasTree(x: Meaning) {
    x.Means? && x.tree.Some?
  }

  /** If both have trees, these are equal exactly when the normal forms are. */
  ghost predicate Match(x: Meaning, a: Norm, y: Meaning, b: Norm) {
    HasTree(x) && HasTree(y) ==> (x.tree == y.tree <==> a == b)
  }

  lemma InMessageIff(desc: string, i: u32, x: Norm, j: u32, y: Norm)
    requires x.Present? && y.Present?
    ensures InMessage(desc, i, x) == InMessage(desc, j, y) <==> i == j && x == y
  {
    var a, b := map[i := x.value], map[j := y.value];
    assert a == b ==> i in b && a[i] == b[i];
  }

  lemma ValuesMatch(pool: Pool, kind: Kind, v: Value, w: Value)
    requires TypedValue(pool, kind, v) && TypedValue(pool, kind, w)
    ensures Match(ValueMeaning(pool, kind, v), NormValue(pool, kind, v), ValueMeaning(pool, kind, w), NormValue(pool, kind, w))
    decreases v, 13
  {
    if !kind.MessageKind? {
      hide ValueMeaning, NormValue, TypedValue;
      ScalarsMatch(pool, kind, v, w);
    } else {
      hide MessageMeaning, NormMessage, TypedMessage, ToScalar, NormLike, ZeroOf;
      if v.MessageValue? && w.MessageValue? {
        MessagesMatch(pool, v.m, w.m);
      }
    }
  }

  lemma ScalarsMatch(pool: Pool, kind: Kind, v: Value, w: Value)
    requires !kind.MessageKind?
    ensures Match(ValueMeaning(pool, kind, v), NormValue(pool, kind, v), ValueMeaning(pool, kind, w), NormValue(pool, kind, w))
  {
    hide MessageMeaning, NormMessage, ToScalar, NormLike, ZeroOf;
    if ToScalar(kind, v).Some? && ToScalar(kind, w).Some? {
      ScalarsFit(kind, v, w);
    }
  }

  lemma MessagesMatch(pool: Pool, m: Message, n: Message)
    requires m.desc == n.desc && TypedMessage(pool, m) && TypedMessage(pool, n)
    ensures Match(MessageMeaning(pool, m), NormMessage(pool, m), MessageMeaning(pool, n), NormMessage(pool, n))
    decreases m, 12
  {
    hide WrappedKind, WrapperZero, StructMeaning, NormStruct, TimestampMeaning, NormInstant, StoredScalar, StoredOr,
         ListMessageMeaning, NormList, OneofMeaning, NormOneof, PlainMeaning, NormPlain, NormLike, TypedMessage, IsPlain;
    WrappersFit(m.desc);
    if m.desc != ANY {
      if WrappedKind(m.desc).Some? {
        WrappedMatch(m, n);
      } else if m.desc == STRUCT {
        StructsMatch(pool, m, n);
      } else if m.desc == TIMESTAMP || m.desc == DURATION {
        InstantsMatch(m, n);
      } else if m.desc == LIST {
        ListsMatch(pool, m, n);
      } else if m.desc == VALUE {
        OneofsMatch(pool, m, n);
      } else {
        PlainNow(m.desc);
        PlainsMatch(pool, m, n);
      }
    }
  }

  lemma PlainNow(desc: string)
    requires desc != ANY && desc != STRUCT && desc != TIMESTAMP && desc != DURATION && desc != LIST && desc != VALUE
    requires WrappedKind(desc).None?
    ensures IsPlain(desc)
  {
  }

  lemma WrappedMatch(m: Message, n: Message)
    requires m.desc == n.desc && WrappedKind(m.desc).Some?
    ensures var kind, z := WrappedKind(m.desc).value, WrapperZero(m.desc).value;
            Match(OfScalar(StoredScalar(kind, m, WRAPPED_VALUE)), InMessage(m.desc, 1, NormLike(z, StoredOr(m, 1, z))),
                  OfScalar(StoredScalar(kind, n, WRAPPED_VALUE)), InMessage(m.desc, 1, NormLike(z, StoredOr(n, 1, z))))
  {
    hide WrappedKind, WrapperZero, StoredScalar, ToScalar, StoredOr, NormLike, InMessage;
    WrappersFit(m.desc);
    StoredMatch(WrappedKind(m.desc).value, m, n, 1);
    var z := WrapperZero(m.desc).value;
    var x, y := NormLike(z, StoredOr(m, 1, z)), NormLike(z, StoredOr(n, 1, z));
    if x.Present? && y.Present? {
      InMessageIff(m.desc, 1, x, 1, y);
    }
  }

  lemma StoredMatch(kind: Kind, m: Message, n: Message, i: u32)
    requires !kind.MessageKind?
    ensures var z := ZeroOf(kind); var x, y := NormLike(z, StoredOr(m, i, z)), NormLike(z, StoredOr(n, i, z));
            && (StoredScalar(kind, m, i).Some? <==> x.Present?) && (StoredScalar(kind, n, i).Some? <==> y.Present?)
            && (x.Present? && y.Present? ==> (StoredScalar(kind, m, i) == StoredScalar(kind, n, i) <==> x == y))
  {
    hide StoredScalar, ToScalar, StoredOr, NormLike, ZeroOf;
    StoredFits(kind, m, i);
    StoredFits(kind, n, i);
    var v, w := StoredOr(m, i, ZeroOf(kind)), StoredOr(n, i, ZeroOf(kind));
    ScalarFits(kind, v);
    ScalarFits(kind, w);
    if ToScalar(kind, v).Some? && ToScalar(kind, w).Some? {
      ScalarsFit(kind, v, w);
    }
  }

  /** Timestamps have equal trees exactly when their seconds and their nanoseconds are equal. */
  lemma InstantsMatch(m: Message, n: Message)
    requires m.desc == n.desc
    ensures Match(TimestampMeaning(m), NormInstant(m), TimestampMeaning(n), NormInstant(n))
  {
    hide StoredScalar, StoredOr, NormLike;
    StoredMatch(Int64Kind, m, n, 1);
    StoredMatch(Int32Kind, m, n, 2);
    if HasTree(TimestampMeaning(m)) && HasTree(TimestampMeaning(n)) {
      PairIff(StoredScalar(Int64Kind, m, 1).value, StoredScalar(Int32Kind, m, 2).value,
              StoredScalar(Int64Kind, n, 1).value, StoredScalar(Int32Kind, n, 2).value);
      FieldsIff(m.desc, NormLike(I64Value(0), StoredOr(m, 1, I64Value(0))).value, NormLike(I32Value(0), StoredOr(m, 2, I32Value(0))).value,
                NormLike(I64Value(0), StoredOr(n, 1, I64Value(0))).value, NormLike(I32Value(0), StoredOr(n, 2, I32Value(0))).value);
    }
  }

  /** Said without normal forms: what is not stored counts as zero, and seconds and nanoseconds both count. */
  lemma TimestampsIff(m: Message, n: Message)
    requires m.desc == n.desc && HasTree(TimestampMeaning(m)) && HasTree(TimestampMeaning(n))
    ensures TimestampMeaning(m).tree == TimestampMeaning(n).tree
       <==> StoredOr(m, SECONDS, I64Value(0)) == StoredOr(n, SECONDS, I64Value(0)) && StoredOr(m, NANOS, I32Value(0)) == StoredOr(n, NANOS, I32Value(0))
  {
    hide TimestampMeaning, StoredOr;
    InstantsMatch(m, n);
    InstantFits(m);
    InstantFits(n);
    FieldsIff(m.desc, StoredOr(m, 1, I64Value(0)), StoredOr(m, 2, I32Value(0)), StoredOr(n, 1, I64Value(0)), StoredOr(n, 2, I32Value(0)));
  }

  lemma PairIff(a: Scalar, b: Scalar, c: Scalar, d: Scalar)
    ensures ListNode([Leaf(a), Leaf(b)]) == ListNode([Leaf(c), Leaf(d)]) <==> a == c && b == d
  {
    var x, y := [Leaf(a), Leaf(b)], [Leaf(c), Leaf(d)];
    assert x == y ==> x[0] == y[0] && x[1] == y[1];
  }

  lemma FieldsIff(desc: string, a: Value, b: Value, c: Value, d: Value)
    ensures Message(desc, map[1 := a, 2 := b]) == Message(desc, map[1 := c, 2 := d]) <==> a == c && b == d
  {
    var x, y := map[1 := a, 2 := b], map[1 := c, 2 := d];
    assert x == y ==> x[1] == y[1] && x[2] == y[2];
  }

  lemma FieldsMatch(pool: Pool, fd: FieldDesc, v: Value, w: Value)
    requires TypedField(pool, fd, v) && TypedField(pool, fd, w)
    ensures Match(FieldMeaning(pool, fd, v), NormField(pool, fd, v), FieldMeaning(pool, fd, w), NormField(pool, fd, w))
    decreases v, 15
  {
    hide ItemsMeaning, NormItems, MapMeaning, NormMap, ValueMeaning, NormValue, TypedItems, TypedEntries, TypedValue;
    match fd.card {
      case Repeated => if v.ListValue? && w.ListValue? { ItemsMatch(pool, fd.kind, v, w); }
      case MapOf(key) => if v.MapValue? && w.MapValue? { MapsMatch(pool, key, fd.kind, v, w); }
      case Singular => ValuesMatch(pool, fd.kind, v, w);
    }
  }

  // ----- Lists -----

  /** `x` has the tree `t` and the normal form `a`. */
  ghost predicate Is(pool: Pool, kind: Kind, x: Value, t: Tree, a: Value) {
    ValueMeaning(pool, kind, x).Means? && ValueMeaning(pool, kind, x).tree == Some(t) && NormValue(pool, kind, x) == Present(a)
  }

  /** The items that are kept, with their trees and normal forms. */
  lemma {:induction false} KeptAre(pool: Pool, kind: Kind, items: seq<Value>) returns (kept: seq<Value>)
    requires forall x :: x in items ==> ValueMeaning(pool, kind, x).Means?
    ensures |kept| == |ItemTrees(pool, kind, items)| == |KeptItems(pool, kind, items)|
    ensures forall i :: 0 <= i < |kept| ==>
              kept[i] in items && Is(pool, kind, kept[i], ItemTrees(pool, kind, items)[i], KeptItems(pool, kind, items)[i])
    decreases |items|
  {
    hide ValueMeaning, NormValue;
    if items == [] {
      kept := [];
    } else {
      var rest, last := items[..|items| - 1], items[|items| - 1];
      kept := KeptAre(pool, kind, rest);
      ValueFits(pool, kind, last);
      if ValueMeaning(pool, kind, last).tree.Some? {
        kept := kept + [last];
      }
    }
  }

  lemma ItemsMatch(pool: Pool, kind: Kind, v: Value, w: Value)
    requires v.ListValue? && w.ListValue? && TypedItems(pool, kind, v) && TypedItems(pool, kind, w)
    ensures Match(ItemsMeaning(pool, kind, v), NormItems(pool, kind, v), ItemsMeaning(pool, kind, w), NormItems(pool, kind, w))
    decreases v, 14
  {
    hide ItemsMeaning, NormItems;
    if HasTree(ItemsMeaning(pool, kind, v)) && HasTree(ItemsMeaning(pool, kind, w)) {
      hide ItemTrees, KeptItems, ValueMeaning, NormValue, TypedValue;
      ListShape(pool, kind, v);
      ListShape(pool, kind, w);
      var a := KeptAre(pool, kind, v.items);
      var b := KeptAre(pool, kind, w.items);
      var t, u := ItemTrees(pool, kind, v.items), ItemTrees(pool, kind, w.items);
      var x, y := KeptItems(pool, kind, v.items), KeptItems(pool, kind, w.items);
      if |a| == |b| {
        forall i | 0 <= i < |a| ensures t[i] == u[i] <==> x[i] == y[i] {
          assert Is(pool, kind, a[i], t[i], x[i]) && Is(pool, kind, b[i], u[i], y[i]);
          assert a[i] in v.items && b[i] in w.items;
          ValuesMatch(pool, kind, a[i], b[i]);
        }
        SequencesMatch(t, u, x, y);
      }
    }
  }

  lemma SequencesMatch(t: seq<Tree>, u: seq<Tree>, x: seq<Value>, y: seq<Value>)
    requires |t| == |u| == |x| == |y| && forall i :: 0 <= i < |t| ==> (t[i] == u[i] <==> x[i] == y[i])
    ensures t == u <==> x == y
  {
    assert t == u <==> forall i :: 0 <= i < |t| ==> t[i] == u[i];
    assert x == y <==> forall i :: 0 <= i < |t| ==> x[i] == y[i];
  }

  lemma ListShape(pool: Pool, kind: Kind, v: Value)
    requires v.ListValue? && HasTree(ItemsMeaning(pool, kind, v))
    ensures forall x :: x in v.items ==> ValueMeaning(pool, kind, x).Means?
    ensures ItemsMeaning(pool, kind, v).tree == Some(ListNode(ItemTrees(pool, kind, v.items)))
    ensures NormItems(pool, kind, v) == Present(ListValue(KeptItems(pool, kind, v.items)))
  {
    ItemsFit(pool, kind, v);
    hide ValueMeaning, NormValue, ItemTrees, KeptItems;
  }

  // ----- Maps -----

  /** The tree under one key, if the key is live. */
  ghost function TreeUnder(pool: Pool, keyKind: Kind, kind: Kind, v: Value, k: MapKey): Option<Tree>
    requires v.MapValue?
  {
    if k in LiveKeys(v) && HasTree(EntryMeaning(pool, keyKind, kind, v, k)) then EntryMeaning(pool, keyKind, kind, v, k).tree else None
  }

  ghost function NormUnder(pool: Pool, keyKind: Kind, kind: Kind, v: Value, k: MapKey): Norm
    requires v.MapValue?
  {
    if k in LiveOf(v) then NormEntry(pool, keyKind, kind, v, k) else Absent
  }

  lemma MapHolds(pool: Pool, keyKind: Kind, kind: Kind, v: Value)
    requires v.MapValue? && HasTree(MapMeaning(pool, keyKind, kind, v))
    ensures var t := MapMeaning(pool, keyKind, kind, v).tree.value;
            && t.DictNode? && !t.byNumber
            && (forall k :: TreeUnder(pool, keyKind, kind, v, k).Some? ==>
                  var s := ToScalar(keyKind, KeyValue(k));
                  s.Some? && s.value in t.entries && Some(t.entries[s.value]) == TreeUnder(pool, keyKind, kind, v, k))
            && (forall s :: s in t.entries ==> Under(pool, keyKind, kind, v, s))
  {
    hide EntryMeaning, LiveKeys, ToScalar, KeyValue, MapMeaning;
    MapLive(pool, keyKind, kind, v);
    MapTree(pool, keyKind, kind, v);
    var t := MapMeaning(pool, keyKind, kind, v).tree.value;
    forall s | s in t.entries ensures Under(pool, keyKind, kind, v, s) {
      var k :| k in LiveKeys(v) && ToScalar(keyKind, KeyValue(k)) == Some(s);
      assert TreeUnder(pool, keyKind, kind, v, k).Some?;
    }
  }

  /** The scalar comes from a key with a tree. */
  ghost predicate Under(pool: Pool, keyKind: Kind, kind: Kind, v: Value, s: Scalar)
    requires v.MapValue?
  {
    exists k :: TreeUnder(pool, keyKind, kind, v, k).Some? && ToScalar(keyKind, KeyValue(k)) == Some(s)
  }

  lemma MapLive(pool: Pool, keyKind: Kind, kind: Kind, v: Value)
    requires v.MapValue? && HasTree(MapMeaning(pool, keyKind, kind, v))
    ensures LiveKeys(v) != {}
    ensures forall k :: k in LiveKeys(v) ==> HasTree(EntryMeaning(pool, keyKind, kind, v, k))
  {
    hide EntryMeaning, LiveKeys, MapDict;
  }

  /** Equal trees hold the same under every key: different keys are different scalars. */
  lemma MapTreesHold(pool: Pool, keyKind: Kind, kind: Kind, v: Value, w: Value, k: MapKey)
    requires v.MapValue? && w.MapValue?
    requires HasTree(MapMeaning(pool, keyKind, kind, v)) && HasTree(MapMeaning(pool, keyKind, kind, w))
    requires MapMeaning(pool, keyKind, kind, v).tree == MapMeaning(pool, keyKind, kind, w).tree
    requires TreeUnder(pool, keyKind, kind, v, k).Some?
    ensures TreeUnder(pool, keyKind, kind, w, k) == TreeUnder(pool, keyKind, kind, v, k)
  {
    hide MapMeaning, TreeUnder, ToScalar, KeyValue;
    MapHolds(pool, keyKind, kind, v);
    MapHolds(pool, keyKind, kind, w);
    var s := ToScalar(keyKind, KeyValue(k)).value;
    var j :| TreeUnder(pool, keyKind, kind, w, j).Some? && ToScalar(keyKind, KeyValue(j)) == Some(s);
    KeysDistinct(keyKind, k, j);
  }

  lemma MapTreesIff(pool: Pool, keyKind: Kind, kind: Kind, v: Value, w: Value)
    requires v.MapValue? && w.MapValue?
    requires HasTree(MapMeaning(pool, keyKind, kind, v)) && HasTree(MapMeaning(pool, keyKind, kind, w))
    ensures MapMeaning(pool, keyKind, kind, v).tree == MapMeaning(pool, keyKind, kind, w).tree
       <==> forall k :: TreeUnder(pool, keyKind, kind, v, k) == TreeUnder(pool, keyKind, kind, w, k)
  {
    hide MapMeaning, TreeUnder, ToScalar, KeyValue;
    MapHolds(pool, keyKind, kind, v);
    MapHolds(pool, keyKind, kind, w);
    var t, u := MapMeaning(pool, keyKind, kind, v).tree.value, MapMeaning(pool, keyKind, kind, w).tree.value;
    if t == u {
      forall k ensures TreeUnder(pool, keyKind, kind, v, k) == TreeUnder(pool, keyKind, kind, w, k) {
        if TreeUnder(pool, keyKind, kind, v, k).Some? {
          MapTreesHold(pool, keyKind, kind, v, w, k);
        } else if TreeUnder(pool, keyKind, kind, w, k).Some? {
          MapTreesHold(pool, keyKind, kind, w, v, k);
        }
      }
    }
    if forall k :: TreeUnder(pool, keyKind, kind, v, k) == TreeUnder(pool, keyKind, kind, w, k) {
      MapWithin(pool, keyKind, kind, v, w, t, u);
      MapWithin(pool, keyKind, kind, w, v, u, t);
      assert t.entries == u.entries;
    }
  }

  lemma MapWithin(pool: Pool, keyKind: Kind, kind: Kind, v: Value, w: Value, t: Tree, u: Tree)
    requires v.MapValue? && w.MapValue? && t.DictNode? && u.DictNode?
    requires forall s :: s in t.entries ==> Under(pool, keyKind, kind, v, s)
    requires forall k :: TreeUnder(pool, keyKind, kind, v, k).Some? ==>
               var s := ToScalar(keyKind, KeyValue(k));
               s.Some? && s.value in t.entries && Some(t.entries[s.value]) == TreeUnder(pool, keyKind, kind, v, k)
    requires forall k :: TreeUnder(pool, keyKind, kind, w, k).Some? ==>
               var s := ToScalar(keyKind, KeyValue(k));
               s.Some? && s.value in u.entries && Some(u.entries[s.value]) == TreeUnder(pool, keyKind, kind, w, k)
    requires forall k :: TreeUnder(pool, keyKind, kind, v, k) == TreeUnder(pool, keyKind, kind, w, k)
    ensures forall s :: s in t.entries ==> s in u.entries && t.entries[s] == u.entries[s]
  {
    hide TreeUnder, ToScalar, KeyValue;
    forall s | s in t.entries ensures s in u.entries && t.entries[s] == u.entries[s] {
      assert Under(pool, keyKind, kind, v, s);
      var k :| TreeUnder(pool, keyKind, kind, v, k).Some? && ToScalar(keyKind, KeyValue(k)) == Some(s);
      assert TreeUnder(pool, keyKind, kind, w, k).Some?;
    }
  }

  lemma NormMapHolds(pool: Pool, keyKind: Kind, kind: Kind, v: Value)
    requires v.MapValue? && NormMap(pool, keyKind, kind, v).Present?
    ensures NormMap(pool, keyKind, kind, v).value.MapValue?
    ensures var x := NormMap(pool, keyKind, kind, v).value.entries;
            forall k :: NormUnder(pool, keyKind, kind, v, k) == if k in x then Present(x[k]) else Absent
  {
    hide NormEntry, LiveOf;
  }

  lemma NormMapsIff(pool: Pool, keyKind: Kind, kind: Kind, v: Value, w: Value)
    requires v.MapValue? && w.MapValue?
    requires NormMap(pool, keyKind, kind, v).Present? && NormMap(pool, keyKind, kind, w).Present?
    ensures NormMap(pool, keyKind, kind, v) == NormMap(pool, keyKind, kind, w)
       <==> forall k :: NormUnder(pool, keyKind, kind, v, k) == NormUnder(pool, keyKind, kind, w, k)
  {
    hide NormMap, NormUnder;
    NormMapHolds(pool, keyKind, kind, v);
    NormMapHolds(pool, keyKind, kind, w);
    var x, y := NormMap(pool, keyKind, kind, v).value.entries, NormMap(pool, keyKind, kind, w).value.entries;
    if forall k :: NormUnder(pool, keyKind, kind, v, k) == NormUnder(pool, keyKind, kind, w, k) {
      forall k ensures (k in x <==> k in y) && (k in x ==> x[k] == y[k]) {
        assert NormUnder(pool, keyKind, kind, v, k) == NormUnder(pool, keyKind, kind, w, k);
      }
      assert x == y;
    }
  }

  lemma UnderMatch(pool: Pool, keyKind: Kind, kind: Kind, v: Value, w: Value, k: MapKey)
    requires v.MapValue? && w.MapValue? && TypedEntries(pool, kind, v) && TypedEntries(pool, kind, w)
    requires HasTree(MapMeaning(pool, keyKind, kind, v)) && HasTree(MapMeaning(pool, keyKind, kind, w))
    ensures TreeUnder(pool, keyKind, kind, v, k) == TreeUnder(pool, keyKind, kind, w, k)
       <==> NormUnder(pool, keyKind, kind, v, k) == NormUnder(pool, keyKind, kind, w, k)
    decreases v, 9
  {
    hide EntryMeaning, NormEntry, MapMeaning, LiveKeys, LiveOf, TypedEntries;
    UnderFits(pool, keyKind, kind, v, k);
    UnderFits(pool, keyKind, kind, w, k);
    if k in LiveOf(v) && k in LiveOf(w) {
      EntriesMatch(pool, keyKind, kind, v, w, k);
    }
  }

  lemma UnderFits(pool: Pool, keyKind: Kind, kind: Kind, v: Value, k: MapKey)
    requires v.MapValue? && HasTree(MapMeaning(pool, keyKind, kind, v))
    ensures k in LiveKeys(v) <==> k in LiveOf(v)
    ensures k in LiveOf(v) ==> HasTree(EntryMeaning(pool, keyKind, kind, v, k)) && NormEntry(pool, keyKind, kind, v, k).Present?
  {
    hide EntryMeaning, NormEntry, MapMeaning, LiveKeys, LiveOf;
    LiveFits(v);
    MapLive(pool, keyKind, kind, v);
    if k in LiveOf(v) {
      EntryFits(pool, keyKind, kind, v, k);
    }
  }

  lemma EntriesMatch(pool: Pool, keyKind: Kind, kind: Kind, v: Value, w: Value, k: MapKey)
    requires v.MapValue? && w.MapValue? && k in v.entries && k in w.entries
    requires TypedEntries(pool, kind, v) && TypedEntries(pool, kind, w)
    requires HasTree(EntryMeaning(pool, keyKind, kind, v, k)) && HasTree(EntryMeaning(pool, keyKind, kind, w, k))
    ensures EntryMeaning(pool, keyKind, kind, v, k).tree == EntryMeaning(pool, keyKind, kind, w, k).tree
       <==> NormEntry(pool, keyKind, kind, v, k) == NormEntry(pool, keyKind, kind, w, k)
    decreases v, 8
  {
    hide ValueMeaning, NormValue, ToScalar, NormLike, ZeroOf, KeyValue, TypedValue;
    KeysFit(keyKind, k);
    ValuesMatch(pool, kind, v.entries[k], w.entries[k]);
  }

  lemma MapsMatch(pool: Pool, keyKind: Kind, kind: Kind, v: Value, w: Value)
    requires v.MapValue? && w.MapValue? && TypedEntries(pool, kind, v) && TypedEntries(pool, kind, w)
    ensures Match(MapMeaning(pool, keyKind, kind, v), NormMap(pool, keyKind, kind, v),
                  MapMeaning(pool, keyKind, kind, w), NormMap(pool, keyKind, kind, w))
    decreases v, 10
  {
    hide MapMeaning, NormMap, TreeUnder, NormUnder, TypedEntries;
    if HasTree(MapMeaning(pool, keyKind, kind, v)) && HasTree(MapMeaning(pool, keyKind, kind, w)) {
      MapFits(pool, keyKind, kind, v);
      MapFits(pool, keyKind, kind, w);
      MapTreesIff(pool, keyKind, kind, v, w);
      NormMapsIff(pool, keyKind, kind, v, w);
      forall k
        ensures TreeUnder(pool, keyKind, kind, v, k) == TreeUnder(pool, keyKind, kind, w, k)
           <==> NormUnder(pool, keyKind, kind, v, k) == NormUnder(pool, keyKind, kind, w, k)
      {
        UnderMatch(pool, keyKind, kind, v, w, k);
      }
    }
  }

  // ----- Structs, lists and oneofs -----

  /** The tree a struct has under a key. */
  ghost function TreeIn(pool: Pool, m: Message, k: MapKey): Option<Tree> {
    if StructEntries(m).Some? && k in StructEntries(m).value && HasTree(StructEntryMeaning(pool, m, k))
    then StructEntryMeaning(pool, m, k).tree else None
  }

  ghost function NormIn(pool: Pool, m: Message, k: MapKey): Norm {
    if Members(m).Some? && k in Members(m).value then NormMember(pool, m, k) else Absent
  }

  lemma StructHolds(pool: Pool, m: Message)
    requires HasTree(StructMeaning(pool, m))
    ensures StructMeaning(pool, m).tree.value.DictNode? && !StructMeaning(pool, m).tree.value.byNumber
    ensures var es := StructMeaning(pool, m).tree.value.entries;
            && (forall k :: TreeIn(pool, m, k).Some? ==>
                  k.StringKey? && StringScalar(k.s) in es && Some(es[StringScalar(k.s)]) == TreeIn(pool, m, k))
            && (forall s :: s in es ==> s.StringScalar? && TreeIn(pool, m, StringKey(s.s)).Some?)
  {
    hide StructEntries, StructEntryMeaning;
    NoneFails(pool, m);
    hide StructMeaning;
    StructTree(pool, m);
  }

  lemma NoneFails(pool: Pool, m: Message)
    requires HasTree(StructMeaning(pool, m))
    ensures StructEntries(m).Some? && forall k :: k in StructEntries(m).value ==> StructEntryMeaning(pool, m, k).Means?
  {
    hide StructEntries, StructEntryMeaning;
  }

  lemma StructTreesIff(pool: Pool, m: Message, n: Message)
    requires HasTree(StructMeaning(pool, m)) && HasTree(StructMeaning(pool, n))
    ensures StructMeaning(pool, m).tree == StructMeaning(pool, n).tree
       <==> forall k :: TreeIn(pool, m, k) == TreeIn(pool, n, k)
  {
    hide StructMeaning, TreeIn;
    StructHolds(pool, m);
    StructHolds(pool, n);
    var t, u := StructMeaning(pool, m).tree.value, StructMeaning(pool, n).tree.value;
    if t == u {
      forall k ensures TreeIn(pool, m, k) == TreeIn(pool, n, k) {
        assert k.StringKey? ==> k == StringKey(StringScalar(k.s).s);
      }
    }
    if forall k :: TreeIn(pool, m, k) == TreeIn(pool, n, k) {
      forall s ensures (s in t.entries <==> s in u.entries) && (s in t.entries ==> t.entries[s] == u.entries[s]) {
        if s.StringScalar? {
          assert TreeIn(pool, m, StringKey(s.s)) == TreeIn(pool, n, StringKey(s.s));
        }
      }
      assert t.entries == u.entries;
    }
  }

  lemma NormStructHolds(pool: Pool, m: Message)
    requires NormStruct(pool, m).Present?
    ensures var x := NormStruct(pool, m).value;
            && x.MessageValue? && 1 in x.m.fields && x.m.fields[1].MapValue?
            && x == MessageValue(Message(STRUCT, map[1 := MapValue(x.m.fields[1].entries)]))
            && forall k :: NormIn(pool, m, k) == if k in x.m.fields[1].entries then Present(x.m.fields[1].entries[k]) else Absent
  {
    hide NormMember, Members;
  }

  lemma NormStructsIff(pool: Pool, m: Message, n: Message)
    requires NormStruct(pool, m).Present? && NormStruct(pool, n).Present?
    ensures NormStruct(pool, m) == NormStruct(pool, n) <==> forall k :: NormIn(pool, m, k) == NormIn(pool, n, k)
  {
    hide NormStruct, NormIn;
    NormStructHolds(pool, m);
    NormStructHolds(pool, n);
    var x, y := NormStruct(pool, m).value.m.fields[1].entries, NormStruct(pool, n).value.m.fields[1].entries;
    if forall k :: NormIn(pool, m, k) == NormIn(pool, n, k) {
      forall k ensures (k in x <==> k in y) && (k in x ==> x[k] == y[k]) {
        assert NormIn(pool, m, k) == NormIn(pool, n, k);
      }
      assert x == y;
    }
  }

  lemma InFits(pool: Pool, m: Message, k: MapKey)
    requires HasTree(StructMeaning(pool, m))
    ensures TreeIn(pool, m, k).Some? <==> NormIn(pool, m, k).Present?
    ensures TreeIn(pool, m, k).None? <==> NormIn(pool, m, k).Absent?
  {
    hide StructEntryMeaning, NormMember;
    if Members(m).Some? && k in Members(m).value {
      MemberFits(pool, m, k);
    }
  }

  lemma InMatch(pool: Pool, m: Message, n: Message, k: MapKey)
    requires m.desc == STRUCT && n.desc == STRUCT && TypedMessage(pool, m) && TypedMessage(pool, n)
    requires HasTree(StructMeaning(pool, m)) && HasTree(StructMeaning(pool, n))
    ensures TreeIn(pool, m, k) == TreeIn(pool, n, k) <==> NormIn(pool, m, k) == NormIn(pool, n, k)
    decreases m, 10
  {
    hide StructMeaning, TreeIn, NormIn, TypedMessage;
    InFits(pool, m, k);
    InFits(pool, n, k);
    if TreeIn(pool, m, k).Some? && TreeIn(pool, n, k).Some? {
      MembersMatch(pool, m, n, k);
    }
  }

  lemma MembersMatch(pool: Pool, m: Message, n: Message, k: MapKey)
    requires m.desc == STRUCT && n.desc == STRUCT && TypedMessage(pool, m) && TypedMessage(pool, n)
    requires TreeIn(pool, m, k).Some? && TreeIn(pool, n, k).Some?
    ensures TreeIn(pool, m, k) == TreeIn(pool, n, k) <==> NormIn(pool, m, k) == NormIn(pool, n, k)
    decreases m, 9
  {
    hide MessageMeaning, NormMessage, IsNull, IsNullish, IsPlain;
    var v, w := Members(m).value[k], Members(n).value[k];
    NullsFit(v);
    NullsFit(w);
    assert TypedValue(pool, MessageKind(VALUE), v) && TypedValue(pool, MessageKind(VALUE), w);
    hide TypedMessage;
    MessagesMatch(pool, v.m, w.m);
  }

  lemma StructsMatch(pool: Pool, m: Message, n: Message)
    requires m.desc == STRUCT && n.desc == STRUCT && TypedMessage(pool, m) && TypedMessage(pool, n)
    ensures Match(StructMeaning(pool, m), NormStruct(pool, m), StructMeaning(pool, n), NormStruct(pool, n))
    decreases m, 11
  {
    hide StructMeaning, NormStruct, TreeIn, NormIn, TypedMessage;
    if HasTree(StructMeaning(pool, m)) && HasTree(StructMeaning(pool, n)) {
      StructFits(pool, m);
      StructFits(pool, n);
      StructTreesIff(pool, m, n);
      NormStructsIff(pool, m, n);
      forall k ensures TreeIn(pool, m, k) == TreeIn(pool, n, k) <==> NormIn(pool, m, k) == NormIn(pool, n, k) {
        InMatch(pool, m, n, k);
      }
    }
  }

  lemma ListsMatch(pool: Pool, m: Message, n: Message)
    requires m.desc == LIST && n.desc == LIST && TypedMessage(pool, m) && TypedMessage(pool, n)
    ensures Match(ListMessageMeaning(pool, m), NormList(pool, m), ListMessageMeaning(pool, n), NormList(pool, n))
    decreases m, 11
  {
    hide ItemsMeaning, NormItems, TypedItems, InMessage, IsPlain;
    if HasTree(ListMessageMeaning(pool, m)) && HasTree(ListMessageMeaning(pool, n)) {
      var v, w := m.fields[1], n.fields[1];
      ItemsMatch(pool, MessageKind(VALUE), v, w);
      ItemsFit(pool, MessageKind(VALUE), v);
      ItemsFit(pool, MessageKind(VALUE), w);
      InMessageIff(LIST, 1, NormItems(pool, MessageKind(VALUE), v), 1, NormItems(pool, MessageKind(VALUE), w));
    }
  }

  /** The member that is set, and its norm. */
  ghost function MemberNorm(pool: Pool, m: Message): (u32, Norm)
    requires OneofMeaning(pool, m).Means?
  {
    var a := ActiveMember(m);
    if a == 2 then (2, NormLike(F64Value(0), m.fields[2]))
    else if a == 3 then (3, NormLike(StringValue([]), m.fields[3]))
    else if a == 4 then (4, NormLike(BoolValue(false), m.fields[4]))
    else if a == 5 then (5, NormStruct(pool, m.fields[5].m))
    else (6, NormList(pool, m.fields[6].m))
  }

  lemma OneofIs(pool: Pool, m: Message)
    requires HasTree(OneofMeaning(pool, m))
    ensures MemberNorm(pool, m).1.Present?
    ensures NormOneof(pool, m) == InMessage(VALUE, MemberNorm(pool, m).0, MemberNorm(pool, m).1)
  {
    OneofFits(pool, m);
    hide StructMeaning, NormStruct, ListMessageMeaning, NormList, NormLike;
  }

  /** Trees of different members are of different kinds. */
  lemma MembersApart(pool: Pool, m: Message)
    requires HasTree(OneofMeaning(pool, m))
    ensures var t := OneofMeaning(pool, m).tree.value;
            ActiveMember(m) == if t.DictNode? then 5 else if t.ListNode? then 6 else if t.scalar.FloatScalar? then 2
                               else if t.scalar.StringScalar? then 3 else 4
  {
    hide ListMessageMeaning, StructMeaning;
    if ActiveMember(m) == 5 {
      StructTreeOf(pool, m.fields[5].m);
    } else if ActiveMember(m) == 6 {
      ListTreeOf(pool, m.fields[6].m);
    }
  }

  lemma ListTreeOf(pool: Pool, m: Message)
    requires HasTree(ListMessageMeaning(pool, m))
    ensures ListMessageMeaning(pool, m).tree.value.ListNode?
  {
    hide ValueMeaning, ItemTrees;
  }

  lemma OneofsMatch(pool: Pool, m: Message, n: Message)
    requires m.desc == VALUE && n.desc == VALUE && TypedMessage(pool, m) && TypedMessage(pool, n)
    ensures Match(OneofMeaning(pool, m), NormOneof(pool, m), OneofMeaning(pool, n), NormOneof(pool, n))
    decreases m, 11
  {
    hide StructMeaning, NormStruct, ListMessageMeaning, NormList, InMessage, NormOneof, IsPlain;
    if HasTree(OneofMeaning(pool, m)) && HasTree(OneofMeaning(pool, n)) {
      OneofIs(pool, m);
      OneofIs(pool, n);
      MembersApart(pool, m);
      MembersApart(pool, n);
      InMessageIff(VALUE, MemberNorm(pool, m).0, MemberNorm(pool, m).1, MemberNorm(pool, n).0, MemberNorm(pool, n).1);
      if ActiveMember(m) == ActiveMember(n) {
        SameMember(pool, m, n);
      }
    }
  }

  lemma SameMember(pool: Pool, m: Message, n: Message)
    requires m.desc == VALUE && n.desc == VALUE && TypedMessage(pool, m) && TypedMessage(pool, n)
    requires HasTree(OneofMeaning(pool, m)) && HasTree(OneofMeaning(pool, n)) && ActiveMember(m) == ActiveMember(n)
    ensures OneofMeaning(pool, m).tree == OneofMeaning(pool, n).tree <==> MemberNorm(pool, m).1 == MemberNorm(pool, n).1
    decreases m, 10
  {
    hide StructMeaning, NormStruct, ListMessageMeaning, NormList, IsPlain, ToScalar, NormLike;
    var a := ActiveMember(m);
    if a == 2 {
      ScalarsFit(DoubleKind, m.fields[2], n.fields[2]);
    } else if a == 3 {
      ScalarsFit(StringKind, m.fields[3], n.fields[3]);
    } else if a == 4 {
      ScalarsFit(BoolKind, m.fields[4], n.fields[4]);
    } else if a == 5 {
      StructsMatch(pool, m.fields[5].m, n.fields[5].m);
    } else {
      ListsMatch(pool, m.fields[6].m, n.fields[6].m);
    }
  }

  // ----- Plain messages -----

  /** The tree a plain message has for a field. */
  ghost function TreeOf(pool: Pool, m: Message, i: u32): Option<Tree> {
    if i in HashedFields(pool, m) && HasTree(FieldMeaning(pool, pool(m.desc)[i], m.fields[i]))
    then FieldMeaning(pool, pool(m.desc)[i], m.fields[i]).tree else None
  }

  ghost function NormOf(pool: Pool, m: Message, i: u32): Norm {
    if i in SetFields(pool, m) then NormField(pool, pool(m.desc)[i], m.fields[i]) else Absent
  }

  lemma PlainHolds(pool: Pool, m: Message)
    requires HasTree(PlainMeaning(pool, m))
    ensures PlainMeaning(pool, m).tree.value.DictNode? && PlainMeaning(pool, m).tree.value.byNumber
    ensures var es := PlainMeaning(pool, m).tree.value.entries;
            && (forall i: u32 :: TreeOf(pool, m, i).Some? ==> IntScalar(i) in es && Some(es[IntScalar(i)]) == TreeOf(pool, m, i))
            && (forall s :: s in es ==> s.IntScalar? && s.n < TWO_32 && TreeOf(pool, m, s.n).Some?)
  {
    hide FieldMeaning, HashedFields;
    SetsAre(pool, m);
    assert forall i :: i in HashedFields(pool, m) ==> FieldMeaning(pool, pool(m.desc)[i], m.fields[i]).Means?;
    hide PlainMeaning;
    PlainTree(pool, m);
  }

  lemma PlainTreesIff(pool: Pool, m: Message, n: Message)
    requires HasTree(PlainMeaning(pool, m)) && HasTree(PlainMeaning(pool, n))
    ensures PlainMeaning(pool, m).tree == PlainMeaning(pool, n).tree <==> forall i :: TreeOf(pool, m, i) == TreeOf(pool, n, i)
  {
    hide PlainMeaning, TreeOf;
    PlainHolds(pool, m);
    PlainHolds(pool, n);
    var t, u := PlainMeaning(pool, m).tree.value, PlainMeaning(pool, n).tree.value;
    if t == u {
      forall i: u32 ensures TreeOf(pool, m, i) == TreeOf(pool, n, i) {
        assert i == IntScalar(i).n;
      }
    }
    if forall i :: TreeOf(pool, m, i) == TreeOf(pool, n, i) {
      forall s ensures (s in t.entries <==> s in u.entries) && (s in t.entries ==> t.entries[s] == u.entries[s]) {
        if s.IntScalar? && s.n < TWO_32 {
          assert TreeOf(pool, m, s.n) == TreeOf(pool, n, s.n);
        }
      }
      assert t.entries == u.entries;
    }
  }

  lemma NormPlainHolds(pool: Pool, m: Message)
    requires NormPlain(pool, m).Present?
    ensures var x := NormPlain(pool, m).value;
            && x.MessageValue? && x == MessageValue(Message(m.desc, x.m.fields))
            && forall i :: NormOf(pool, m, i) == if i in x.m.fields then Present(x.m.fields[i]) else Absent
  {
    hide NormField, SetFields;
    SetsAre(pool, m);
  }

  lemma NormPlainsIff(pool: Pool, m: Message, n: Message)
    requires m.desc == n.desc && NormPlain(pool, m).Present? && NormPlain(pool, n).Present?
    ensures NormPlain(pool, m) == NormPlain(pool, n) <==> forall i :: NormOf(pool, m, i) == NormOf(pool, n, i)
  {
    hide NormPlain, NormOf;
    NormPlainHolds(pool, m);
    NormPlainHolds(pool, n);
    var x, y := NormPlain(pool, m).value.m.fields, NormPlain(pool, n).value.m.fields;
    if forall i :: NormOf(pool, m, i) == NormOf(pool, n, i) {
      forall i: u32 ensures (i in x <==> i in y) && (i in x ==> x[i] == y[i]) {
        assert NormOf(pool, m, i) == NormOf(pool, n, i);
      }
      assert x == y;
    }
  }

  lemma OfFits(pool: Pool, m: Message, i: u32)
    requires HasTree(PlainMeaning(pool, m))
    ensures TreeOf(pool, m, i).Some? <==> NormOf(pool, m, i).Present?
    ensures TreeOf(pool, m, i).None? <==> NormOf(pool, m, i).Absent?
  {
    hide FieldMeaning, NormField, HashedFields, SetFields;
    SetsFit(pool, m);
    SetsAre(pool, m);
    if i in SetFields(pool, m) {
      FieldFits(pool, pool(m.desc)[i], m.fields[i]);
    }
  }

  lemma OfMatch(pool: Pool, m: Message, n: Message, i: u32)
    requires m.desc == n.desc && IsPlain(m.desc) && TypedMessage(pool, m) && TypedMessage(pool, n)
    requires HasTree(PlainMeaning(pool, m)) && HasTree(PlainMeaning(pool, n))
    ensures TreeOf(pool, m, i) == TreeOf(pool, n, i) <==> NormOf(pool, m, i) == NormOf(pool, n, i)
    decreases m, 10
  {
    OfFits(pool, m, i);
    OfFits(pool, n, i);
    hide PlainMeaning, FieldMeaning, NormField, TypedField, IsPlain, WrappedKind, HashedFields, SetFields;
    SetsAre(pool, m);
    SetsAre(pool, n);
    if TreeOf(pool, m, i).Some? && TreeOf(pool, n, i).Some? {
      FieldsMatch(pool, pool(m.desc)[i], m.fields[i], n.fields[i]);
    }
  }

  lemma PlainsMatch(pool: Pool, m: Message, n: Message)
    requires m.desc == n.desc && IsPlain(m.desc) && TypedMessage(pool, m) && TypedMessage(pool, n)
    ensures Match(PlainMeaning(pool, m), NormPlain(pool, m), PlainMeaning(pool, n), NormPlain(pool, n))
    decreases m, 11
  {
    hide PlainMeaning, NormPlain, TreeOf, NormOf, TypedMessage, IsPlain;
    if HasTree(PlainMeaning(pool, m)) && HasTree(PlainMeaning(pool, n)) {
      PlainFits(pool, m);
      PlainFits(pool, n);
      PlainTreesIff(pool, m, n);
      NormPlainsIff(pool, m, n);
      forall i: u32 ensures TreeOf(pool, m, i) == TreeOf(pool, n, i) <==> NormOf(pool, m, i) == NormOf(pool, n, i) {
        OfMatch(pool, m, n, i);
      }
    }
  }

  // ----- What digests say -----

  /** What can be hashed, and to what: a message fails in every run exactly when its normal form is invalid, and hashes to
      nothing exactly when it is absent. */
  lemma NormalFormFits(pool: Pool, m: Message)
    ensures MessageMeaning(pool, m).Fails? <==> NormMessage(pool, m).Invalid?
    ensures IsNothing(MessageMeaning(pool, m)) <==> NormMessage(pool, m).Absent?
  {
    hide MessageMeaning, NormMessage;
    MessageFits(pool, m);
  }

  /** Two messages of one type that can be hashed have equal canonical trees exactly when they have equal normal forms. */
  lemma TreesIffNormal(pool: Pool, m: Message, n: Message)
    requires m.desc == n.desc && TypedMessage(pool, m) && TypedMessage(pool, n)
    requires NormMessage(pool, m).Present? && NormMessage(pool, n).Present?
    ensures HasTree(MessageMeaning(pool, m)) && HasTree(MessageMeaning(pool, n))
    ensures MessageMeaning(pool, m).tree == MessageMeaning(pool, n).tree <==> NormMessage(pool, m) == NormMessage(pool, n)
  {
    hide MessageMeaning, NormMessage, TypedMessage;
    MessageFits(pool, m);
    MessageFits(pool, n);
    MessagesMatch(pool, m, n);
  }

  /** Two messages of one type that were hashed to one digest have one normal form, or there is a collision: two different
      strings, hashed for them, with the same hash. */
  lemma EqualDigestsEqualMessages(H: Hash, pool: Pool, m: Message, n: Message, d: Digest)
    requires m.desc == n.desc && TypedMessage(pool, m) && TypedMessage(pool, n)
    requires Agrees(H, MessageMeaning(pool, m), Success(Some(d)))
    requires Agrees(H, MessageMeaning(pool, n), Success(Some(d)))
    ensures var t, u := MessageMeaning(pool, m).tree.value, MessageMeaning(pool, n).tree.value;
            NormMessage(pool, m) == NormMessage(pool, n) || Collide(H, t, u) || KeyClash(H, t) || KeyClash(H, u)
    ensures NormMessage(pool, m).Present? && NormMessage(pool, n).Present?
  {
    hide MessageMeaning, NormMessage, TypedMessage, Collide, KeyClash, TreeDigest;
    EqualDigestsEqualTrees(H, pool, m, n, d);
    MessageFits(pool, m);
    MessageFits(pool, n);
    MessagesMatch(pool, m, n);
  }

  /** And the other way round: messages of one type with one normal form are hashed to one digest in all runs that do not
      fail, unless two keys of one map have the same digest. */
  lemma EqualMessagesEqualDigests(H: Hash, pool: Pool, m: Message, n: Message, r: Result<Option<Digest>, HashError>,
                                  s: Result<Option<Digest>, HashError>)
    requires m.desc == n.desc && TypedMessage(pool, m) && TypedMessage(pool, n)
    requires NormMessage(pool, m) == NormMessage(pool, n)
    requires Agrees(H, MessageMeaning(pool, m), r) && Agrees(H, MessageMeaning(pool, n), s) && r.Success? && s.Success?
    ensures r == s || (MessageMeaning(pool, m).tree.Some? && KeyClash(H, MessageMeaning(pool, m).tree.value))
  {
    hide MessageMeaning, NormMessage, TypedMessage, KeyClash, TreeDigest;
    MessageFits(pool, m);
    MessageFits(pool, n);
    MessagesMatch(pool, m, n);
  }
}

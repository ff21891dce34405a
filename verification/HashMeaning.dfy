/**
 * Dynamic protobuf values and what the hasher makes of them.
 *
 * `Meaning` is the canonical tree of a value. A map with one entry that hashes to nothing and another that fails
 * can go either way, since the entries are visited in no fixed order; `mayFail` records that.
 */
module HashMeaning {
  import opened Wrappers
  import opened Machine
  import opened HashTree

  // ----- Descriptors -----

  /** Field kinds; the three signed 32-bit encodings share an arm of the hasher, and so on for the other widths. */
  datatype Kind =
    | BoolKind
    | DoubleKind
    | Int32Kind
    | Int64Kind
    | Uint32Kind
    | Uint64Kind
    | StringKind
    | BytesKind
    | EnumKind(default: i32)
    | MessageKind(name: string)

  datatype Cardinality = Singular | Repeated | MapOf(key: Kind)

  /** A map field's `kind` is that of its values. `presence` says that being set is tracked apart from the value. */
  datatype FieldDesc = FieldDesc(number: u32, kind: Kind, card: Cardinality, presence: bool)

  /** The fields of each message type that has no special treatment, by number. */
  type Pool = string -> map<u32, FieldDesc>

  // ----- Values -----

  datatype MapKey =
    | BoolKey(b: bool)
    | I32Key(i32: i32)
    | I64Key(i64: i64)
    | U32Key(u32: u32)
    | U64Key(u64: u64)
    | StringKey(s: seq<byte>)

  /** Doubles are their bit patterns, strings their UTF-8 bytes. */
  datatype Value =
    | BoolValue(b: bool)
    | I32Value(i32: i32)
    | I64Value(i64: i64)
    | U32Value(u32: u32)
    | U64Value(u64: u64)
    | F64Value(bits: u64)
    | StringValue(s: seq<byte>)
    | BytesValue(r: seq<byte>)
    | EnumValue(n: i32)
    | MessageValue(m: Message)
    | ListValue(items: seq<Value>)
    | MapValue(entries: map<MapKey, Value>)

  /** A message: its type and the fields stored in it. */
  datatype Message = Message(desc: string, fields: map<u32, Value>)

  function KeyValue(k: MapKey): Value {
    match k
    case BoolKey(b) => BoolValue(b)
    case I32Key(n) => I32Value(n)
    case I64Key(n) => I64Value(n)
    case U32Key(n) => U32Value(n)
    case U64Key(n) => U64Value(n)
    case StringKey(s) => StringValue(s)
  }

  const NEGATIVE_ZERO: u64 := TWO_63
  const INFINITY_BITS: u64 := 0x7FF0_0000_0000_0000
  const NAN_BITS: u64 := 0x7FF8_0000_0000_0001

  /** Negative zero becomes zero, every NaN the same NaN. */
  function NormalFloat(bits: u64): u64 {
    if bits == NEGATIVE_ZERO then 0
    else if bits % TWO_63 > INFINITY_BITS then NAN_BITS
    else bits
  }

  /** Comparison with a default is equality of values, for which the two zeros are equal. */
  function IsDefault(kind: Kind, v: Value): bool {
    match kind
    case BoolKind => v == BoolValue(false)
    case DoubleKind => v == F64Value(0) || v == F64Value(NEGATIVE_ZERO)
    case Int32Kind => v == I32Value(0)
    case Int64Kind => v == I64Value(0)
    case Uint32Kind => v == U32Value(0)
    case Uint64Kind => v == U64Value(0)
    case StringKind => v == StringValue([])
    case BytesKind => v == BytesValue([])
    case EnumKind(d) => v == EnumValue(d)
    case MessageKind(name) => v == MessageValue(Message(name, map[]))
  }

  function HasField(fd: FieldDesc, m: Message): bool {
    fd.number in m.fields &&
    (fd.presence ||
     match fd.card
     case Singular => !IsDefault(fd.kind, m.fields[fd.number])
     case Repeated => m.fields[fd.number] != ListValue([])
     case MapOf(_) => m.fields[fd.number] != MapValue(map[]))
  }

  /** A scalar of the expected kind, as it is hashed. */
  function ToScalar(kind: Kind, v: Value): Option<Scalar> {
    match kind
    case BoolKind => if v.BoolValue? then Some(BoolScalar(v.b)) else None
    case DoubleKind => if v.F64Value? then Some(FloatScalar(NormalFloat(v.bits))) else None
    case Int32Kind => if v.I32Value? then Some(IntScalar(ToU64(v.i32))) else None
    case Int64Kind => if v.I64Value? then Some(IntScalar(ToU64(v.i64))) else None
    case Uint32Kind => if v.U32Value? then Some(IntScalar(v.u32)) else None
    case Uint64Kind => if v.U64Value? then Some(IntScalar(v.u64)) else None
    case StringKind => if v.StringValue? then Some(StringScalar(v.s)) else None
    case BytesKind => if v.BytesValue? then Some(BytesScalar(v.r)) else None
    case EnumKind(_) => if v.EnumValue? then Some(IntScalar(ToU64(v.n))) else None
    case MessageKind(_) => None
  }

  // ----- The message types with special treatment, as their published definitions number their fields -----

  const ANY := "google.protobuf.Any"
  const STRUCT := "google.protobuf.Struct"
  const TIMESTAMP := "google.protobuf.Timestamp"
  const DURATION := "google.protobuf.Duration"
  const LIST := "google.protobuf.ListValue"
  const VALUE := "google.protobuf.Value"

  /** The kind of the one field of a wrapper type. */
  function WrappedKind(desc: string): Option<Kind> {
    if desc == "google.protobuf.BoolValue" then Some(BoolKind)
    else if desc == "google.protobuf.Int32Value" then Some(Int32Kind)
    else if desc == "google.protobuf.Int64Value" then Some(Int64Kind)
    else if desc == "google.protobuf.UInt32Value" then Some(Uint32Kind)
    else if desc == "google.protobuf.UInt64Value" then Some(Uint64Kind)
    else if desc == "google.protobuf.DoubleValue" then Some(DoubleKind)
    else if desc == "google.protobuf.StringValue" then Some(StringKind)
    else None
  }

  function IsPlain(desc: string): bool {
    desc !in {ANY, STRUCT, TIMESTAMP, DURATION, LIST, VALUE} && WrappedKind(desc).None?
  }

  const WRAPPED_VALUE: u32 := 1
  const STRUCT_FIELDS: u32 := 1
  const LIST_VALUES: u32 := 1
  const SECONDS: u32 := 1
  const NANOS: u32 := 2
  const NULL_MEMBER: u32 := 1
  const NUMBER_MEMBER: u32 := 2
  const STRING_MEMBER: u32 := 3
  const BOOL_MEMBER: u32 := 4
  const STRUCT_MEMBER: u32 := 5
  const LIST_MEMBER: u32 := 6

  /** The first member of a `Value`'s oneof that is set; zero if none is. */
  function ActiveMember(m: Message): u32 {
    if NULL_MEMBER in m.fields then NULL_MEMBER
    else if NUMBER_MEMBER in m.fields then NUMBER_MEMBER
    else if STRING_MEMBER in m.fields then STRING_MEMBER
    else if BOOL_MEMBER in m.fields then BOOL_MEMBER
    else if STRUCT_MEMBER in m.fields then STRUCT_MEMBER
    else if LIST_MEMBER in m.fields then LIST_MEMBER
    else 0
  }

  function IsNull(v: Value): bool {
    v.MessageValue? && v.m.desc == VALUE && (ActiveMember(v.m) == 0 || ActiveMember(v.m) == NULL_MEMBER)
  }

  /** A stored scalar field, or the default of its kind. */
  function StoredScalar(kind: Kind, m: Message, number: u32): Option<Scalar> {
    if number in m.fields then ToScalar(kind, m.fields[number])
    else
      match kind
      case BoolKind => Some(BoolScalar(false))
      case DoubleKind => Some(FloatScalar(0))
      case StringKind => Some(StringScalar([]))
      case BytesKind => Some(BytesScalar([]))
      case EnumKind(d) => Some(IntScalar(ToU64(d)))
      case MessageKind(_) => None
      case _ => Some(IntScalar(0))
  }

  // ----- Meaning -----

  /** What every run of the hasher on a value comes to: it fails, or it gives the digest of `tree` (nothing for
      `None`) unless, where `mayFail`, it fails. */
  datatype Meaning = Fails | Means(tree: Option<Tree>, mayFail: bool)

  function OfScalar(s: Option<Scalar>): Meaning {
    if s.None? then Fails else Means(Some(Leaf(s.value)), false)
  }

  ghost predicate MayFail(x: Meaning) {
    x.Fails? || x.mayFail
  }

  ghost function ValueMeaning(pool: Pool, kind: Kind, v: Value): Meaning
    decreases v, 3
  {
    if kind.MessageKind? then (if v.MessageValue? then MessageMeaning(pool, v.m) else Fails)
    else OfScalar(ToScalar(kind, v))
  }

  ghost function MessageMeaning(pool: Pool, m: Message): Meaning
    decreases m, 2
  {
    if m.desc == ANY then Fails
    else if WrappedKind(m.desc).Some? then OfScalar(StoredScalar(WrappedKind(m.desc).value, m, WRAPPED_VALUE))
    else if m.desc == STRUCT then StructMeaning(pool, m)
    else if m.desc == TIMESTAMP || m.desc == DURATION then TimestampMeaning(m)
    else if m.desc == LIST then ListMessageMeaning(pool, m)
    else if m.desc == VALUE then OneofMeaning(pool, m)
    else PlainMeaning(pool, m)
  }

  function TimestampMeaning(m: Message): Meaning {
    var s, n := StoredScalar(Int64Kind, m, SECONDS), StoredScalar(Int32Kind, m, NANOS);
    if s.None? || n.None? then Fails else Means(Some(ListNode([Leaf(s.value), Leaf(n.value)])), false)
  }

  /** The fields of a plain message that are hashed: stored, known, set and not default. */
  ghost function HashedFields(pool: Pool, m: Message): set<u32> {
    set n | n in m.fields && n in pool(m.desc) && pool(m.desc)[n].number == n
            && HasField(pool(m.desc)[n], m) && !IsDefault(pool(m.desc)[n].kind, m.fields[n])
  }

  ghost function PlainMeaning(pool: Pool, m: Message): Meaning
    decreases m, 1
  {
    var fields := pool(m.desc);
    var ns := HashedFields(pool, m);
    if exists n :: n in ns && FieldMeaning(pool, fields[n], m.fields[n]).Fails? then Fails
    else
      Means(Some(DictNode(true, map n | n in ns && FieldMeaning(pool, fields[n], m.fields[n]).tree.Some?
                                    :: IntScalar(n) := FieldMeaning(pool, fields[n], m.fields[n]).tree.value)),
            exists n :: n in ns && MayFail(FieldMeaning(pool, fields[n], m.fields[n])))
  }

  ghost function FieldMeaning(pool: Pool, fd: FieldDesc, v: Value): Meaning
    decreases v, 5
  {
    match fd.card
    case Repeated => if v.ListValue? then ItemsMeaning(pool, fd.kind, v) else Fails
    case MapOf(key) => if v.MapValue? then MapMeaning(pool, key, fd.kind, v) else Fails
    case Singular => ValueMeaning(pool, fd.kind, v)
  }

  /** The trees of the items that have one; defined when none fails. */
  ghost function ItemTrees(pool: Pool, kind: Kind, items: seq<Value>): seq<Tree>
    requires forall v :: v in items ==> ValueMeaning(pool, kind, v).Means?
    decreases items, 4
  {
    if items == [] then []
    else
      var rest := items[..|items| - 1];
      var last := ValueMeaning(pool, kind, items[|items| - 1]);
      ItemTrees(pool, kind, rest) + if last.tree.Some? then [last.tree.value] else []
  }

  ghost function ItemsMeaning(pool: Pool, kind: Kind, v: Value): Meaning
    requires v.ListValue?
    decreases v, 4
  {
    if v.items == [] then Means(None, false)
    else if exists x :: x in v.items && ValueMeaning(pool, kind, x).Fails? then Fails
    else Means(Some(ListNode(ItemTrees(pool, kind, v.items))), exists x :: x in v.items && MayFail(ValueMeaning(pool, kind, x)))
  }

  /** One map entry: its key fails or has a scalar, and then its value counts. */
  ghost function EntryMeaning(pool: Pool, keyKind: Kind, kind: Kind, v: Value, k: MapKey): (x: Meaning)
    requires v.MapValue? && k in v.entries
    ensures x.Means? ==> ToScalar(keyKind, KeyValue(k)).Some?
    decreases v, 0
  {
    if ToScalar(keyKind, KeyValue(k)).None? then Fails else ValueMeaning(pool, kind, v.entries[k])
  }

  lemma KeysDistinct(keyKind: Kind, j: MapKey, k: MapKey)
    requires ToScalar(keyKind, KeyValue(j)).Some? && ToScalar(keyKind, KeyValue(j)) == ToScalar(keyKind, KeyValue(k))
    ensures j == k
  {
  }

  /** The keys of a map whose values are not null. */
  function LiveKeys(v: Value): (ks: set<MapKey>)
    requires v.MapValue?
    ensures ks <= v.entries.Keys
  {
    set k | k in v.entries && !IsNull(v.entries[k])
  }

  /** The dictionary of a map all of whose live entries have trees. */
  ghost function MapDict(pool: Pool, keyKind: Kind, kind: Kind, v: Value): (d: map<Scalar, Tree>)
    requires v.MapValue?
    requires forall k :: k in LiveKeys(v) ==>
               EntryMeaning(pool, keyKind, kind, v, k).Means? && EntryMeaning(pool, keyKind, kind, v, k).tree.Some?
    ensures forall s :: s in d ==> exists k :: k in LiveKeys(v) && ToScalar(keyKind, KeyValue(k)) == Some(s)
    ensures forall k :: k in LiveKeys(v) ==>
              && ToScalar(keyKind, KeyValue(k)).Some? && ToScalar(keyKind, KeyValue(k)).value in d
              && Some(d[ToScalar(keyKind, KeyValue(k)).value]) == EntryMeaning(pool, keyKind, kind, v, k).tree
    decreases v, 1
  {
    assert forall k :: k in LiveKeys(v) ==> EntryMeaning(pool, keyKind, kind, v, k).Means? && ToScalar(keyKind, KeyValue(k)).Some?;
    forall j, k | j in LiveKeys(v) && k in LiveKeys(v) && ToScalar(keyKind, KeyValue(j)) == ToScalar(keyKind, KeyValue(k)) ensures j == k {
      KeysDistinct(keyKind, j, k);
    }
    map k | k in LiveKeys(v) :: ToScalar(keyKind, KeyValue(k)).value := EntryMeaning(pool, keyKind, kind, v, k).tree.value
  }

  /** One entry that hashes to nothing drops the whole map; nulls are passed over. */
  ghost function MapMeaning(pool: Pool, keyKind: Kind, kind: Kind, v: Value): Meaning
    requires v.MapValue?
    decreases v, 2
  {
    var ks := LiveKeys(v);
    var mayFail := exists k :: k in ks && MayFail(EntryMeaning(pool, keyKind, kind, v, k));
    if exists k :: k in ks && IsNothing(EntryMeaning(pool, keyKind, kind, v, k)) then Means(None, mayFail)
    else if exists k :: k in ks && EntryMeaning(pool, keyKind, kind, v, k).Fails? then Fails
    else if ks == {} then Means(None, false)
    else Means(Some(DictNode(false, MapDict(pool, keyKind, kind, v))), mayFail)
  }

  ghost predicate IsNothing(x: Meaning) {
    x.Means? && x.tree.None?
  }

  // ----- Structs, lists and values -----

  /** The entries of a struct; none is stored for the empty one. */
  function StructEntries(m: Message): Option<map<MapKey, Value>> {
    if STRUCT_FIELDS !in m.fields then Some(map[])
    else if m.fields[STRUCT_FIELDS].MapValue? then Some(m.fields[STRUCT_FIELDS].entries)
    else None
  }

  /** One struct entry; its key is looked at before a null value is passed over. */
  ghost function StructEntryMeaning(pool: Pool, m: Message, k: MapKey): Meaning
    requires StructEntries(m).Some? && k in StructEntries(m).value
    decreases m, 0
  {
    var v := StructEntries(m).value[k];
    if !k.StringKey? then Fails
    else if IsNull(v) then Means(None, false)
    else if v.MessageValue? then MessageMeaning(pool, v.m)
    else Fails
  }

  /** An entry that hashes to nothing is dropped alone. */
  ghost function StructMeaning(pool: Pool, m: Message): Meaning
    decreases m, 1
  {
    var es := StructEntries(m);
    if es.None? then Fails
    else if exists k :: k in es.value && StructEntryMeaning(pool, m, k).Fails? then Fails
    else
      Means(Some(DictNode(false, map k | k in es.value && StructEntryMeaning(pool, m, k).tree.Some?
                                     :: StringScalar(k.s) := StructEntryMeaning(pool, m, k).tree.value)),
            exists k :: k in es.value && MayFail(StructEntryMeaning(pool, m, k)))
  }

  ghost function ListMessageMeaning(pool: Pool, m: Message): Meaning
    decreases m, 1
  {
    if LIST_VALUES !in m.fields then Means(None, false)
    else if m.fields[LIST_VALUES].ListValue? then ItemsMeaning(pool, MessageKind(VALUE), m.fields[LIST_VALUES])
    else Fails
  }

  ghost function OneofMeaning(pool: Pool, m: Message): Meaning
    decreases m, 1
  {
    var a := ActiveMember(m);
    if a == NUMBER_MEMBER then OfScalar(ToScalar(DoubleKind, m.fields[a]))
    else if a == STRING_MEMBER then OfScalar(ToScalar(StringKind, m.fields[a]))
    else if a == BOOL_MEMBER then OfScalar(ToScalar(BoolKind, m.fields[a]))
    else if a == STRUCT_MEMBER then (if m.fields[a].MessageValue? then StructMeaning(pool, m.fields[a].m) else Fails)
    else if a == LIST_MEMBER then (if m.fields[a].MessageValue? then ListMessageMeaning(pool, m.fields[a].m) else Fails)
    else Fails
  }
}

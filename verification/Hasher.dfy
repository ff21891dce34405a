/**
 * The recursive hasher: values, messages, lists, maps, structs and oneofs.
 */
module Hasher {
  import opened Wrappers
  import opened Machine
  import opened HashTree
  import opened HashMeaning
  import opened Hashing
  import opened HashWalk

  /** `hash_bool`, `hash_u64`, `hash_f64`, `hash_string` and `hash_bytes`: an identifier and then the value. */
  method HashScalar(H: Hash, s: Scalar) returns (d: Digest)
    ensures d == H(ScalarBytes(s))
    ensures s.BoolScalar? ==> d == H([98, if s.b then 49 else 48])
    ensures s.IntScalar? ==> exists bs :: |bs| == 8 && BigEndian(bs) == s.n && d == H([105] + bs)
    ensures s.FloatScalar? ==> exists bs :: |bs| == 8 && BigEndian(bs) == s.bits && d == H([102] + bs)
    ensures s.StringScalar? ==> d == H([117] + s.s)
    ensures s.BytesScalar? ==> d == H([114] + s.r)
  {
    var engine: seq<byte>;
    match s {
      case BoolScalar(b) =>
        engine := [BOOL_IDENTIFIER];
        engine := engine + [if b then 49 else 48];
        assert engine == ScalarBytes(s);
      case IntScalar(n) =>
        engine := [INT_IDENTIFIER];
        engine := engine + FixedBigEndian(n, 8);
      case FloatScalar(bits) =>
        engine := [FLOAT_IDENTIFIER];
        engine := engine + FixedBigEndian(bits, 8);
      case StringScalar(u) =>
        engine := [UNICODE_IDENTIFIER];
        engine := engine + u;
      case BytesScalar(r) =>
        engine := [BYTE_IDENTIFIER];
        engine := engine + r;
    }
    d := H(engine);
    assert Pow256(8) == TWO_64;
    if s.IntScalar? {
      FixedBack(s.n, 8);
    } else if s.FloatScalar? {
      FixedBack(s.bits, 8);
    }
  }

  /** The digest of an optional scalar, which is missing when the value is not of the expected kind. */
  method HashOfKind(H: Hash, s: Option<Scalar>) returns (r: Result<Option<Digest>, HashError>)
    ensures Agrees(H, OfScalar(s), r)
  {
    if s.None? {
      return Failure(ValueTypeMismatch);
    }
    var d := HashScalar(H, s.value);
    assert TreeBytes(H, Leaf(s.value)) == ScalarBytes(s.value);
    return Success(Some(d));
  }

  method HashValue(H: Hash, pool: Pool, kind: Kind, v: Value) returns (r: Result<Option<Digest>, HashError>)
    ensures Agrees(H, ValueMeaning(pool, kind, v), r)
    decreases v, 3
  {
    if kind.MessageKind? {
      if !v.MessageValue? {
        return Failure(ValueTypeMismatch);
      }
      r := HashMessage(H, pool, v.m);
    } else {
      r := HashOfKind(H, ToScalar(kind, v));
    }
  }

  method HashMessage(H: Hash, pool: Pool, m: Message) returns (r: Result<Option<Digest>, HashError>)
    ensures Agrees(H, MessageMeaning(pool, m), r)
    decreases m, 2
  {
    if m.desc == ANY {
      return Failure(UnsupportedType);
    } else if WrappedKind(m.desc).Some? {
      r := HashOfKind(H, StoredScalar(WrappedKind(m.desc).value, m, WRAPPED_VALUE));
    } else if m.desc == STRUCT {
      r := HashStruct(H, pool, m);
    } else if m.desc == TIMESTAMP || m.desc == DURATION {
      r := HashTimestamp(H, m);
    } else if m.desc == LIST {
      r := HashListMessage(H, pool, m);
    } else if m.desc == VALUE {
      r := HashOneof(H, pool, m);
    } else {
      r := HashPlainMessage(H, pool, m);
    }
  }

  /** The two fields by name, fed after the list identifier. */
  method HashTimestamp(H: Hash, m: Message) returns (r: Result<Option<Digest>, HashError>)
    ensures Agrees(H, TimestampMeaning(m), r)
  {
    hide ToScalar;
    var seconds, nanos := StoredScalar(Int64Kind, m, SECONDS), StoredScalar(Int32Kind, m, NANOS);
    var engine := [LIST_IDENTIFIER];
    if seconds.None? {
      return Failure(ValueTypeMismatch);
    }
    var a := HashScalar(H, seconds.value);
    engine := engine + a;
    if nanos.None? {
      return Failure(ValueTypeMismatch);
    }
    var b := HashScalar(H, nanos.value);
    engine := engine + b;
    TwoDigests(H, seconds.value, nanos.value);
    return Success(Some(H(engine)));
  }

  lemma TwoDigests(H: Hash, a: Scalar, b: Scalar)
    ensures TreeBytes(H, ListNode([Leaf(a), Leaf(b)])) == [LIST_IDENTIFIER] + H(ScalarBytes(a)) + H(ScalarBytes(b))
  {
    DigestsSnoc(H, [Leaf(a)], Leaf(b));
    DigestsSnoc(H, [], Leaf(a));
    assert [] + [Leaf(a)] == [Leaf(a)] && [Leaf(a)] + [Leaf(b)] == [Leaf(a), Leaf(b)];
  }

  // ----- Plain messages -----

  /** What has been pushed for field `n`. */
  ghost predicate FieldPushed(H: Hash, pool: Pool, m: Message, n: u32, e: Entry) {
    && n in HashedFields(pool, m)
    && var x := FieldMeaning(pool, pool(m.desc)[n], m.fields[n]);
       && x.Means? && x.tree.Some?
       && e.rank == n && e.k == H(ScalarBytes(IntScalar(n))) && IsDigest(H, x.tree.value, e.v)
  }

  method HashPlainMessage(H: Hash, pool: Pool, m: Message) returns (r: Result<Option<Digest>, HashError>)
    ensures Agrees(H, PlainMeaning(pool, m), r)
    decreases m, 1
  {
    hide TreeDigest, FieldMeaning, KeyClash, ScalarBytes, IsDefault, HasField;
    var fields := pool(m.desc);
    var remaining := m.fields.Keys;
    var entries: seq<Entry> := [];
    ghost var pushed: seq<u32> := [];
    while remaining != {}
      invariant remaining <= m.fields.Keys
      invariant |pushed| == |entries| && forall i :: 0 <= i < |pushed| ==> FieldPushed(H, pool, m, pushed[i], entries[i])
      invariant forall i :: 0 <= i < |pushed| ==> pushed[i] !in remaining
      invariant forall i, j :: 0 <= i < j < |pushed| ==> pushed[i] != pushed[j]
      invariant forall n :: n in HashedFields(pool, m) && n !in remaining ==>
                  FieldMeaning(pool, fields[n], m.fields[n]).Means? && (FieldMeaning(pool, fields[n], m.fields[n]).tree.Some? ==> n in pushed)
      decreases |remaining|
    {
      var n :| n in remaining;
      remaining := remaining - {n};
      if n !in fields || fields[n].number != n || !HasField(fields[n], m) || IsDefault(fields[n].kind, m.fields[n]) {
        continue;
      }
      var k := HashScalar(H, IntScalar(n));
      var v := HashField(H, pool, fields[n], m.fields[n]);
      if v.Failure? {
        assert n in HashedFields(pool, m);
        return Failure(v.error);
      }
      if v.value.Some? {
        entries := entries + [Entry(n, k, v.value.value)];
        pushed := pushed + [n];
      }
    }
    var d := DigestEntries(H, entries);
    PlainDigest(H, pool, m, pushed, entries, d);
    return Success(Some(d));
  }

  /** The engine's digest once every hashed field has been pushed. */
  lemma PlainDigest(H: Hash, pool: Pool, m: Message, pushed: seq<u32>, entries: seq<Entry>, d: Digest)
    requires |pushed| == |entries| && forall i :: 0 <= i < |pushed| ==> FieldPushed(H, pool, m, pushed[i], entries[i])
    requires forall i, j :: 0 <= i < j < |pushed| ==> pushed[i] != pushed[j]
    requires forall n :: n in HashedFields(pool, m) ==>
               FieldMeaning(pool, pool(m.desc)[n], m.fields[n]).Means? && (FieldMeaning(pool, pool(m.desc)[n], m.fields[n]).tree.Some? ==> n in pushed)
    requires exists s :: Sorted(s) && multiset(s) == multiset(entries) && d == H([MAP_IDENTIFIER] + Feed(s))
    ensures Agrees(H, PlainMeaning(pool, m), Success(Some(d)))
  {
    hide FieldMeaning, HashedFields, PlainMeaning, TreeDigest, ScalarBytes, KeyClash, Feed, Sorted;
    var s :| Sorted(s) && multiset(s) == multiset(entries) && d == H([MAP_IDENTIFIER] + Feed(s));
    PlainTree(pool, m);
    var t := PlainMeaning(pool, m).tree.value;
    var ks := seq(|pushed|, i requires 0 <= i < |pushed| => IntScalar(pushed[i]));
    forall i | 0 <= i < |ks| ensures Pushed(H, t, ks[i], entries[i]) {
      assert FieldPushed(H, pool, m, pushed[i], entries[i]);
    }
    forall k ensures k in ks <==> k in t.entries.Keys {
      if k in t.entries.Keys {
        var i :| 0 <= i < |pushed| && pushed[i] == k.n;
        assert ks[i] == k;
      }
    }
    SeqOfSet(ks, t.entries.Keys);
    DictDigest(H, t, ks, entries, s);
  }

  /** The dictionary of a plain message no field of which fails. */
  lemma PlainTree(pool: Pool, m: Message)
    requires forall n :: n in HashedFields(pool, m) ==> FieldMeaning(pool, pool(m.desc)[n], m.fields[n]).Means?
    ensures var x := PlainMeaning(pool, m);
            && x.Means? && x.tree.Some? && x.tree.value.DictNode? && x.tree.value.byNumber
            && (forall k :: k in x.tree.value.entries ==>
                  k.IntScalar? && k.n in HashedFields(pool, m) && FieldMeaning(pool, pool(m.desc)[k.n], m.fields[k.n]).tree.Some?)
            && (forall n :: n in HashedFields(pool, m) && FieldMeaning(pool, pool(m.desc)[n], m.fields[n]).tree.Some? ==>
                  IntScalar(n) in x.tree.value.entries
                  && Some(x.tree.value.entries[IntScalar(n)]) == FieldMeaning(pool, pool(m.desc)[n], m.fields[n]).tree)
  {
    hide FieldMeaning, HashedFields;
  }

  /** `hash_field_value`: lists, maps and single values. */
  method HashField(H: Hash, pool: Pool, fd: FieldDesc, v: Value) returns (r: Result<Option<Digest>, HashError>)
    ensures Agrees(H, FieldMeaning(pool, fd, v), r)
    decreases v, 5
  {
    match fd.card {
      case Repeated =>
        if !v.ListValue? {
          return Failure(ValueTypeMismatch);
        }
        r := HashList(H, pool, fd.kind, v);
      case MapOf(key) =>
        if !v.MapValue? {
          return Failure(ValueTypeMismatch);
        }
        r := HashMap(H, pool, key, fd.kind, v);
      case Singular =>
        r := HashValue(H, pool, fd.kind, v);
    }
  }

  // ----- Lists -----

  lemma DigestsSnoc(H: Hash, items: seq<Tree>, t: Tree)
    ensures Digests(H, items + [t]) == Digests(H, items) + TreeDigest(H, t)
    decreases |items|
  {
    hide TreeDigest;
    if items == [] {
      assert Digests(H, [t]) == TreeDigest(H, t) + Digests(H, [t][1..]);
      assert items + [t] == [t];
    } else {
      assert (items + [t])[1..] == items[1..] + [t];
      DigestsSnoc(H, items[1..], t);
    }
  }

  ghost predicate SomeClash(H: Hash, items: seq<Tree>) {
    exists i :: 0 <= i < |items| && KeyClash(H, items[i])
  }

  lemma ItemTreesSnoc(pool: Pool, kind: Kind, items: seq<Value>, v: Value)
    requires forall x :: x in items + [v] ==> ValueMeaning(pool, kind, x).Means?
    ensures var last := ValueMeaning(pool, kind, v);
            ItemTrees(pool, kind, items + [v]) ==
            if last.tree.Some? then ItemTrees(pool, kind, items) + [last.tree.value] else ItemTrees(pool, kind, items)
  {
    hide ValueMeaning;
    assert (items + [v])[..|items|] == items;
  }

  ghost predicate AllMean(pool: Pool, kind: Kind, items: seq<Value>) {
    forall x :: x in items ==> ValueMeaning(pool, kind, x).Means?
  }

  /** The engine holds the digests of the items' trees, unless one of them was spoilt by a clash. */
  ghost predicate ListFed(H: Hash, items: seq<Tree>, engine: seq<byte>) {
    SomeClash(H, items) || engine == [LIST_IDENTIFIER] + Digests(H, items)
  }

  lemma FedOne(H: Hash, items: seq<Tree>, engine: seq<byte>, t: Tree, d: Digest)
    requires ListFed(H, items, engine) && IsDigest(H, t, d)
    ensures ListFed(H, items + [t], engine + d)
  {
    hide TreeDigest, KeyClash, Digests, SomeClash;
    ClashGrows(H, items, t);
    DigestsSnoc(H, items, t);
  }

  lemma ItemExits(pool: Pool, kind: Kind, v: Value, i: nat)
    requires v.ListValue? && i < |v.items| && MayFail(ValueMeaning(pool, kind, v.items[i]))
    ensures MayFail(ItemsMeaning(pool, kind, v))
  {
    hide ValueMeaning;
    assert v.items[i] in v.items;
  }

  lemma ItemsMean(pool: Pool, kind: Kind, v: Value)
    requires v.ListValue? && v.items != [] && AllMean(pool, kind, v.items)
    ensures ItemsMeaning(pool, kind, v).Means?
    ensures ItemsMeaning(pool, kind, v).tree == Some(ListNode(ItemTrees(pool, kind, v.items)))
  {
    hide ValueMeaning;
  }

  /** The walk over the items so far: none has failed, and the engine holds what they come to. */
  ghost predicate ListWalk(H: Hash, pool: Pool, kind: Kind, items: seq<Value>, engine: seq<byte>) {
    AllMean(pool, kind, items) && ListFed(H, ItemTrees(pool, kind, items), engine)
  }

  lemma ListStep(H: Hash, pool: Pool, kind: Kind, items: seq<Value>, engine: seq<byte>, v: Value, d: Option<Digest>)
    requires ListWalk(H, pool, kind, items, engine) && Agrees(H, ValueMeaning(pool, kind, v), Success(d))
    ensures ListWalk(H, pool, kind, items + [v], if d.Some? then engine + d.value else engine)
  {
    hide TreeDigest, ValueMeaning, KeyClash, ListFed, ItemTrees, IsDigest;
    ItemTreesSnoc(pool, kind, items, v);
    if d.Some? {
      FedOne(H, ItemTrees(pool, kind, items), engine, ValueMeaning(pool, kind, v).tree.value, d.value);
    }
  }

  lemma ListEnds(H: Hash, pool: Pool, kind: Kind, v: Value, engine: seq<byte>)
    requires v.ListValue? && v.items != [] && ListWalk(H, pool, kind, v.items, engine)
    ensures Agrees(H, ItemsMeaning(pool, kind, v), Success(Some(H(engine))))
  {
    hide ValueMeaning, ListFed, ItemTrees, ItemsMeaning, IsDigest;
    ItemsMean(pool, kind, v);
    ListDigest(H, ItemTrees(pool, kind, v.items), engine);
  }

  method HashList(H: Hash, pool: Pool, kind: Kind, v: Value) returns (r: Result<Option<Digest>, HashError>)
    requires v.ListValue?
    ensures Agrees(H, ItemsMeaning(pool, kind, v), r)
    decreases v, 4
  {
    hide ValueMeaning, ListWalk, IsDigest;
    if v.items == [] {
      return Success(None);
    }
    hide ItemsMeaning;
    var engine := [LIST_IDENTIFIER];
    NothingFed(H, pool, kind);
    assert v.items[..0] == [];
    for i := 0 to |v.items|
      invariant ListWalk(H, pool, kind, v.items[..i], engine)
    {
      var d := HashValue(H, pool, kind, v.items[i]);
      if d.Failure? {
        ItemExits(pool, kind, v, i);
        return Failure(d.error);
      }
      assert v.items[..i + 1] == v.items[..i] + [v.items[i]];
      ListStep(H, pool, kind, v.items[..i], engine, v.items[i], d.value);
      if d.value.Some? {
        engine := engine + d.value.value;
      }
    }
    assert v.items[..|v.items|] == v.items;
    ListEnds(H, pool, kind, v, engine);
    return Success(Some(H(engine)));
  }

  lemma NothingFed(H: Hash, pool: Pool, kind: Kind)
    ensures ListWalk(H, pool, kind, [], [LIST_IDENTIFIER])
  {
  }

  lemma ClashGrows(H: Hash, items: seq<Tree>, t: Tree)
    ensures SomeClash(H, items) || KeyClash(H, t) ==> SomeClash(H, items + [t])
  {
    hide KeyClash;
    if SomeClash(H, items) {
      var i :| 0 <= i < |items| && KeyClash(H, items[i]);
      assert KeyClash(H, (items + [t])[i]);
    }
    if KeyClash(H, t) {
      assert KeyClash(H, (items + [t])[|items|]);
    }
  }

  lemma ListDigest(H: Hash, items: seq<Tree>, engine: seq<byte>)
    requires ListFed(H, items, engine)
    ensures IsDigest(H, ListNode(items), H(engine))
  {
  }

  // ----- Maps -----

  /** The walk so far: every live key taken out of `remaining` has been pushed, once. */
  ghost predicate MapProgress(H: Hash, pool: Pool, keyKind: Kind, kind: Kind, v: Value, remaining: set<MapKey>,
                              pushed: seq<MapKey>, entries: seq<Entry>)
    requires v.MapValue?
  {
    && |pushed| == |entries|
    && (forall i :: 0 <= i < |pushed| ==> MapPushed(H, pool, keyKind, kind, v, pushed[i], entries[i]))
    && (forall i :: 0 <= i < |pushed| ==> pushed[i] !in remaining)
    && (forall i, j :: 0 <= i < j < |pushed| ==> pushed[i] != pushed[j])
    && (forall k :: k in LiveKeys(v) && k !in remaining ==> k in pushed)
  }

  lemma MapPasses(H: Hash, pool: Pool, keyKind: Kind, kind: Kind, v: Value, remaining: set<MapKey>, pushed: seq<MapKey>,
                  entries: seq<Entry>, k: MapKey)
    requires v.MapValue? && MapProgress(H, pool, keyKind, kind, v, remaining, pushed, entries) && k !in LiveKeys(v)
    ensures MapProgress(H, pool, keyKind, kind, v, remaining - {k}, pushed, entries)
  {
    hide MapPushed, LiveKeys;
  }

  lemma MapPushes(H: Hash, pool: Pool, keyKind: Kind, kind: Kind, v: Value, remaining: set<MapKey>, pushed: seq<MapKey>,
                  entries: seq<Entry>, k: MapKey, e: Entry)
    requires v.MapValue? && MapProgress(H, pool, keyKind, kind, v, remaining, pushed, entries) && k in remaining
    requires MapPushed(H, pool, keyKind, kind, v, k, e)
    ensures MapProgress(H, pool, keyKind, kind, v, remaining - {k}, pushed + [k], entries + [e])
  {
    hide MapPushed, LiveKeys;
  }

  lemma EntryIsValue(pool: Pool, keyKind: Kind, kind: Kind, v: Value, k: MapKey)
    requires v.MapValue? && k in v.entries
    ensures EntryMeaning(pool, keyKind, kind, v, k) ==
            if ToScalar(keyKind, KeyValue(k)).None? then Fails else ValueMeaning(pool, kind, v.entries[k])
  {
    hide ValueMeaning, ToScalar;
  }

  lemma EntryPushed(H: Hash, pool: Pool, keyKind: Kind, kind: Kind, v: Value, k: MapKey, e: Entry)
    requires v.MapValue? && k in LiveKeys(v) && ToScalar(keyKind, KeyValue(k)).Some?
    requires e.k == H(ScalarBytes(ToScalar(keyKind, KeyValue(k)).value)) && e.rank == BigEndian(e.k)
    requires Agrees(H, ValueMeaning(pool, kind, v.entries[k]), Success(Some(e.v)))
    ensures MapPushed(H, pool, keyKind, kind, v, k, e)
  {
    hide ValueMeaning, ToScalar, LiveKeys, IsDigest, ScalarBytes, BigEndian;
  }

  lemma MapStarts(H: Hash, pool: Pool, keyKind: Kind, kind: Kind, v: Value)
    requires v.MapValue?
    ensures MapWalk(H, pool, keyKind, kind, v, v.entries.Keys, [], map[], [])
  {
    hide MapPushed, CanAnswer, IsNull, UnderWay;
    Unstarted(H, pool, keyKind, kind, v);
  }

  /** The digests of one entry; `None` if its value has none. */
  method HashEntry(H: Hash, pool: Pool, keyKind: Kind, kind: Kind, v: Value, k: MapKey)
    returns (r: Result<Option<Entry>, HashError>)
    requires v.MapValue? && k in LiveKeys(v)
    ensures CanAnswer(H, pool, keyKind, kind, v, k, r)
    decreases v, 1
  {
    hide IsDigest, ValueMeaning, EntryMeaning, MapPushed, ScalarBytes, ToScalar, BigEndian, KeyValue, LiveKeys;
    EntryIsValue(pool, keyKind, kind, v, k);
    var s := ToScalar(keyKind, KeyValue(k));
    if s.None? {
      return Failure(ValueTypeMismatch);
    }
    var key := HashScalar(H, s.value);
    var d := HashValue(H, pool, kind, v.entries[k]);
    if d.Failure? {
      return Failure(d.error);
    }
    if d.value.None? {
      return Success(None);
    }
    var e := Entry(BigEndian(key), key, d.value.value);
    EntryPushed(H, pool, keyKind, kind, v, k, e);
    return Success(Some(e));
  }

  lemma AnswerIs(H: Hash, pool: Pool, keyKind: Kind, kind: Kind, v: Value, k: MapKey, a: Answer)
    requires v.MapValue? && k in LiveKeys(v) && CanAnswer(H, pool, keyKind, kind, v, k, a)
    ensures a.Failure? ==> MayFail(MapMeaning(pool, keyKind, kind, v))
    ensures a == Success(None) ==> IsNothing(MapMeaning(pool, keyKind, kind, v))
    ensures a.Success? && a.value.Some? ==> MapPushed(H, pool, keyKind, kind, v, k, a.value.value)
  {
    hide LiveKeys, EntryMeaning, MapMeaning, MapPushed, MayFail, IsNothing;
    MapExits(pool, keyKind, kind, v, k);
  }

  lemma NotYet(H: Hash, pool: Pool, keyKind: Kind, kind: Kind, v: Value, remaining: set<MapKey>, pushed: seq<MapKey>,
               entries: seq<Entry>, k: MapKey)
    requires v.MapValue? && MapProgress(H, pool, keyKind, kind, v, remaining, pushed, entries) && k in remaining
    ensures k !in pushed
  {
    hide MapPushed, LiveKeys;
  }

  lemma AllVisited(H: Hash, pool: Pool, keyKind: Kind, kind: Kind, v: Value, pushed: seq<MapKey>, entries: seq<Entry>)
    requires v.MapValue? && MapProgress(H, pool, keyKind, kind, v, {}, pushed, entries)
    ensures forall k :: k in LiveKeys(v) ==> k in pushed
  {
    hide MapPushed, LiveKeys;
  }

  /** What a walk that got through comes to. */
  lemma WalkOutcome(H: Hash, entries: seq<Entry>, d: Digest)
    requires exists s :: Sorted(s) && multiset(s) == multiset(entries) && d == H([MAP_IDENTIFIER] + Feed(s))
    ensures Outcome(H, Success(Some(entries)), if entries == [] then Success(None) else Success(Some(d)))
  {
    hide Sorted, Feed;
  }

  lemma NothingSorted(H: Hash)
    ensures exists s :: Sorted(s) && multiset(s) == multiset([]) && H([MAP_IDENTIFIER] + Feed([])) == H([MAP_IDENTIFIER] + Feed(s))
  {
    var none: seq<Entry> := [];
    assert Sorted(none) && multiset(none) == multiset([]);
  }

  /** The walk so far, and that it is one. */
  ghost predicate MapWalk(H: Hash, pool: Pool, keyKind: Kind, kind: Kind, v: Value, remaining: set<MapKey>,
                          pushed: seq<MapKey>, answers: Answers, entries: seq<Entry>)
    requires v.MapValue?
  {
    && MapProgress(H, pool, keyKind, kind, v, remaining, pushed, entries)
    && UnderWay(H, pool, keyKind, kind, v, pushed, answers, entries)
  }

  lemma WalkPasses(H: Hash, pool: Pool, keyKind: Kind, kind: Kind, v: Value, remaining: set<MapKey>,
                   pushed: seq<MapKey>, answers: Answers, entries: seq<Entry>, k: MapKey)
    requires v.MapValue? && MapWalk(H, pool, keyKind, kind, v, remaining, pushed, answers, entries) && k !in LiveKeys(v)
    ensures MapWalk(H, pool, keyKind, kind, v, remaining - {k}, pushed, answers, entries)
  {
    hide LiveKeys, MapProgress, UnderWay;
    MapPasses(H, pool, keyKind, kind, v, remaining, pushed, entries, k);
  }

  lemma WalkPushes(H: Hash, pool: Pool, keyKind: Kind, kind: Kind, v: Value, remaining: set<MapKey>,
                   pushed: seq<MapKey>, answers: Answers, entries: seq<Entry>, k: MapKey, e: Entry)
    requires v.MapValue? && MapWalk(H, pool, keyKind, kind, v, remaining, pushed, answers, entries) && k in remaining
    requires k in LiveKeys(v) && CanAnswer(H, pool, keyKind, kind, v, k, Success(Some(e)))
    ensures MapWalk(H, pool, keyKind, kind, v, remaining - {k}, pushed + [k], answers[k := Success(Some(e))], entries + [e])
  {
    hide LiveKeys, MapProgress, UnderWay, CanAnswer;
    AnswerIs(H, pool, keyKind, kind, v, k, Success(Some(e)));
    NotYet(H, pool, keyKind, kind, v, remaining, pushed, entries, k);
    MapPushes(H, pool, keyKind, kind, v, remaining, pushed, entries, k, e);
    GoesOn(H, pool, keyKind, kind, v, pushed, answers, entries, k, e);
  }

  /** Any other answer is the map's. */
  lemma WalkStops(H: Hash, pool: Pool, keyKind: Kind, kind: Kind, v: Value, remaining: set<MapKey>, pushed: seq<MapKey>,
                  answers: Answers, entries: seq<Entry>, k: MapKey, a: Answer)
    requires v.MapValue? && MapWalk(H, pool, keyKind, kind, v, remaining, pushed, answers, entries) && k in remaining
    requires k in LiveKeys(v) && CanAnswer(H, pool, keyKind, kind, v, k, a) && AnswerEnding(a) != Kept
    ensures var r := if a.Failure? then Failure(a.error) else Success(None);
            Agrees(H, MapMeaning(pool, keyKind, kind, v), r) && FromRun(H, pool, keyKind, kind, v, r)
  {
    hide LiveKeys, MapProgress, UnderWay, CanAnswer, FromRun, MapMeaning;
    AnswerIs(H, pool, keyKind, kind, v, k, a);
    NotYet(H, pool, keyKind, kind, v, remaining, pushed, entries, k);
    StopsHere(H, pool, keyKind, kind, v, pushed, answers, entries, k, a);
  }

  lemma WalkEnds(H: Hash, pool: Pool, keyKind: Kind, kind: Kind, v: Value, pushed: seq<MapKey>, answers: Answers,
                 entries: seq<Entry>, d: Digest)
    requires v.MapValue? && MapWalk(H, pool, keyKind, kind, v, {}, pushed, answers, entries)
    requires exists s :: Sorted(s) && multiset(s) == multiset(entries) && d == H([MAP_IDENTIFIER] + Feed(s))
    ensures var r := if entries == [] then Success(None) else Success(Some(d));
            Agrees(H, MapMeaning(pool, keyKind, kind, v), r) && FromRun(H, pool, keyKind, kind, v, r)
  {
    hide LiveKeys, MapProgress, UnderWay, FromRun, MapMeaning, Outcome, Sorted, Feed;
    var r := if entries == [] then Success(None) else Success(Some(d));
    if entries == [] {
      NoLiveKeys(H, pool, keyKind, kind, v, pushed);
    } else {
      MapDigest(H, pool, keyKind, kind, v, pushed, entries, d);
    }
    AllVisited(H, pool, keyKind, kind, v, pushed, entries);
    WalkOutcome(H, entries, d);
    GetsThrough(H, pool, keyKind, kind, v, pushed, answers, entries, r);
  }

  /** Keys of the map in an order of its own: each result is that of a walk over the live entries, and agrees with the
      map's meaning. */
  method HashMap(H: Hash, pool: Pool, keyKind: Kind, kind: Kind, v: Value)
    returns (r: Result<Option<Digest>, HashError>)
    requires v.MapValue?
    ensures Agrees(H, MapMeaning(pool, keyKind, kind, v), r)
    ensures FromRun(H, pool, keyKind, kind, v, r)
    decreases v, 2
  {
    hide MapMeaning, MapWalk, IsNull, CanAnswer, FromRun, Agrees, Sorted, Feed;
    var remaining := v.entries.Keys;
    var entries: seq<Entry> := [];
    ghost var pushed: seq<MapKey>, answers: Answers := [], map[];
    MapStarts(H, pool, keyKind, kind, v);
    while remaining != {}
      invariant remaining <= v.entries.Keys && MapWalk(H, pool, keyKind, kind, v, remaining, pushed, answers, entries)
      decreases |remaining|
    {
      var k :| k in remaining;
      if IsNull(v.entries[k]) {
        WalkPasses(H, pool, keyKind, kind, v, remaining, pushed, answers, entries, k);
        remaining := remaining - {k};
        continue;
      }
      var e := HashEntry(H, pool, keyKind, kind, v, k);
      if e.Failure? {
        WalkStops(H, pool, keyKind, kind, v, remaining, pushed, answers, entries, k, e);
        return Failure(e.error);
      }
      if e.value.None? {
        WalkStops(H, pool, keyKind, kind, v, remaining, pushed, answers, entries, k, e);
        return Success(None);
      }
      WalkPushes(H, pool, keyKind, kind, v, remaining, pushed, answers, entries, k, e.value.value);
      entries := entries + [e.value.value];
      pushed, answers := pushed + [k], answers[k := e];
      remaining := remaining - {k};
    }
    if entries == [] {
      NothingSorted(H);
      WalkEnds(H, pool, keyKind, kind, v, pushed, answers, entries, H([MAP_IDENTIFIER] + Feed([])));
      return Success(None);
    }
    var d := DigestEntries(H, entries);
    WalkEnds(H, pool, keyKind, kind, v, pushed, answers, entries, d);
    return Success(Some(d));
  }

  /** An entry that fails or hashes to nothing ends the walk. */
  lemma MapExits(pool: Pool, keyKind: Kind, kind: Kind, v: Value, k: MapKey)
    requires v.MapValue? && k in LiveKeys(v)
    ensures MayFail(EntryMeaning(pool, keyKind, kind, v, k)) ==> MayFail(MapMeaning(pool, keyKind, kind, v))
    ensures IsNothing(EntryMeaning(pool, keyKind, kind, v, k)) ==> IsNothing(MapMeaning(pool, keyKind, kind, v))
  {
    hide EntryMeaning, ToScalar, LiveKeys, MapDict;
  }

  lemma NoLiveKeys(H: Hash, pool: Pool, keyKind: Kind, kind: Kind, v: Value, pushed: seq<MapKey>)
    requires v.MapValue? && MapProgress(H, pool, keyKind, kind, v, {}, pushed, [])
    ensures MapMeaning(pool, keyKind, kind, v) == Means(None, false)
  {
    hide EntryMeaning, ToScalar, LiveKeys, MapDict, MapPushed;
    assert LiveKeys(v) == {};
  }

  /** Every live key has been pushed, so every live entry has a tree. */
  lemma MapAllLive(H: Hash, pool: Pool, keyKind: Kind, kind: Kind, v: Value, pushed: seq<MapKey>, entries: seq<Entry>)
    requires v.MapValue? && |pushed| == |entries|
    requires forall i :: 0 <= i < |pushed| ==> MapPushed(H, pool, keyKind, kind, v, pushed[i], entries[i])
    requires forall k :: k in LiveKeys(v) ==> k in pushed
    ensures forall k :: k in LiveKeys(v) ==>
              EntryMeaning(pool, keyKind, kind, v, k).Means? && EntryMeaning(pool, keyKind, kind, v, k).tree.Some?
    ensures forall k :: k in pushed ==> k in LiveKeys(v)
  {
    hide LiveKeys, IsDigest, ScalarBytes, ToScalar, BigEndian, EntryMeaning;
    forall k | k in pushed
      ensures k in LiveKeys(v) && EntryMeaning(pool, keyKind, kind, v, k).Means?
      ensures EntryMeaning(pool, keyKind, kind, v, k).tree.Some?
    {
      var i :| 0 <= i < |pushed| && pushed[i] == k;
      assert MapPushed(H, pool, keyKind, kind, v, pushed[i], entries[i]);
    }
  }

  /** The keys as they are hashed, in the order they were pushed. */
  ghost function PushedScalars(keyKind: Kind, pushed: seq<MapKey>): (ks: seq<Scalar>)
    requires forall k :: k in pushed ==> ToScalar(keyKind, KeyValue(k)).Some?
    ensures |ks| == |pushed| && forall i :: 0 <= i < |pushed| ==> ks[i] == ToScalar(keyKind, KeyValue(pushed[i])).value
  {
    seq(|pushed|, i requires 0 <= i < |pushed| => ToScalar(keyKind, KeyValue(pushed[i])).value)
  }

  lemma PushedScalarsOnce(keyKind: Kind, pushed: seq<MapKey>)
    requires forall k :: k in pushed ==> ToScalar(keyKind, KeyValue(k)).Some?
    requires forall i, j :: 0 <= i < j < |pushed| ==> pushed[i] != pushed[j]
    ensures var ks := PushedScalars(keyKind, pushed); forall i, j :: 0 <= i < j < |ks| ==> ks[i] != ks[j]
  {
    hide ToScalar;
    var ks := PushedScalars(keyKind, pushed);
    forall i, j | 0 <= i < j < |ks| ensures ks[i] != ks[j] {
      if ks[i] == ks[j] {
        KeysDistinct(keyKind, pushed[i], pushed[j]);
      }
    }
  }

  lemma MapDigest(H: Hash, pool: Pool, keyKind: Kind, kind: Kind, v: Value, pushed: seq<MapKey>, entries: seq<Entry>,
                  d: Digest)
    requires v.MapValue? && entries != [] && MapProgress(H, pool, keyKind, kind, v, {}, pushed, entries)
    requires exists s :: Sorted(s) && multiset(s) == multiset(entries) && d == H([MAP_IDENTIFIER] + Feed(s))
    ensures Agrees(H, MapMeaning(pool, keyKind, kind, v), Success(Some(d)))
  {
    hide LiveKeys, ScalarBytes, IsDigest, Feed, Sorted, ToScalar, BigEndian, EntryMeaning, MapMeaning, MapPushed,
         PushedScalars, KeyValue;
    var s :| Sorted(s) && multiset(s) == multiset(entries) && d == H([MAP_IDENTIFIER] + Feed(s));
    MapAllLive(H, pool, keyKind, kind, v, pushed, entries);
    assert pushed[0] in LiveKeys(v);
    MapTree(pool, keyKind, kind, v);
    PushedScalarsOnce(keyKind, pushed);
    var t, ks := MapMeaning(pool, keyKind, kind, v).tree.value, PushedScalars(keyKind, pushed);
    forall i | 0 <= i < |ks| ensures Pushed(H, t, ks[i], entries[i]) {
      MapPushedInTree(H, pool, keyKind, kind, v, pushed[i], entries[i]);
    }
    MapCovered(pool, keyKind, kind, v, pushed);
    SeqOfSet(ks, t.entries.Keys);
    DictDigest(H, t, ks, entries, s);
  }

  lemma MapPushedInTree(H: Hash, pool: Pool, keyKind: Kind, kind: Kind, v: Value, k: MapKey, e: Entry)
    requires v.MapValue? && MapPushed(H, pool, keyKind, kind, v, k, e)
    requires forall j :: j in LiveKeys(v) ==>
               EntryMeaning(pool, keyKind, kind, v, j).Means? && EntryMeaning(pool, keyKind, kind, v, j).tree.Some?
    ensures MapMeaning(pool, keyKind, kind, v).Means? && MapMeaning(pool, keyKind, kind, v).tree.Some?
    ensures ToScalar(keyKind, KeyValue(k)).Some?
    ensures Pushed(H, MapMeaning(pool, keyKind, kind, v).tree.value, ToScalar(keyKind, KeyValue(k)).value, e)
  {
    hide LiveKeys, ScalarBytes, IsDigest, ToScalar, BigEndian, EntryMeaning, MapMeaning, KeyValue;
    MapTree(pool, keyKind, kind, v);
  }

  lemma MapCovered(pool: Pool, keyKind: Kind, kind: Kind, v: Value, pushed: seq<MapKey>)
    requires v.MapValue? && pushed != [] && forall k :: k in pushed <==> k in LiveKeys(v)
    requires forall j :: j in LiveKeys(v) ==>
               EntryMeaning(pool, keyKind, kind, v, j).Means? && EntryMeaning(pool, keyKind, kind, v, j).tree.Some?
    ensures var x := MapMeaning(pool, keyKind, kind, v);
            && x.Means? && x.tree.Some? && x.tree.value.DictNode?
            && (forall k :: k in pushed ==> ToScalar(keyKind, KeyValue(k)).Some?)
            && forall s :: s in PushedScalars(keyKind, pushed) <==> s in x.tree.value.entries.Keys
  {
    hide LiveKeys, ToScalar, EntryMeaning, MapMeaning, KeyValue, PushedScalars;
    assert pushed[0] in LiveKeys(v);
    MapTree(pool, keyKind, kind, v);
    var t, ks := MapMeaning(pool, keyKind, kind, v).tree.value, PushedScalars(keyKind, pushed);
    forall x | x in t.entries.Keys ensures x in ks {
      var k :| k in LiveKeys(v) && ToScalar(keyKind, KeyValue(k)) == Some(x);
      var i :| 0 <= i < |pushed| && pushed[i] == k;
      assert ks[i] == x;
    }
    forall x | x in ks ensures x in t.entries.Keys {
      var i :| 0 <= i < |ks| && ks[i] == x;
    }
  }

  /** The dictionary of a map all of whose live entries have trees. */
  lemma MapTree(pool: Pool, keyKind: Kind, kind: Kind, v: Value)
    requires v.MapValue? && LiveKeys(v) != {}
    requires forall k :: k in LiveKeys(v) ==>
               EntryMeaning(pool, keyKind, kind, v, k).Means? && EntryMeaning(pool, keyKind, kind, v, k).tree.Some?
    ensures var x := MapMeaning(pool, keyKind, kind, v);
            && x.Means? && x.tree.Some? && x.tree.value.DictNode? && !x.tree.value.byNumber
            && (forall s :: s in x.tree.value.entries ==> exists k :: k in LiveKeys(v) && ToScalar(keyKind, KeyValue(k)) == Some(s))
            && (forall k :: k in LiveKeys(v) ==>
                  && ToScalar(keyKind, KeyValue(k)).Some? && ToScalar(keyKind, KeyValue(k)).value in x.tree.value.entries
                  && Some(x.tree.value.entries[ToScalar(keyKind, KeyValue(k)).value]) == EntryMeaning(pool, keyKind, kind, v, k).tree)
  {
    hide LiveKeys, ToScalar, EntryMeaning, MapDict;
  }

  // ----- Structs, list messages and oneofs -----

  ghost predicate StructPushed(H: Hash, pool: Pool, m: Message, k: MapKey, e: Entry)
    requires StructEntries(m).Some?
  {
    && k in StructEntries(m).value && k.StringKey?
    && var x := StructEntryMeaning(pool, m, k);
       && x.Means? && x.tree.Some?
       && e.k == H(ScalarBytes(StringScalar(k.s))) && e.rank == BigEndian(e.k) && IsDigest(H, x.tree.value, e.v)
  }

  method HashStruct(H: Hash, pool: Pool, m: Message) returns (r: Result<Option<Digest>, HashError>)
    ensures Agrees(H, StructMeaning(pool, m), r)
    decreases m, 1
  {
    hide TreeDigest, MessageMeaning, StructMeaning, KeyClash, ScalarBytes, IsNull, BigEndian;
    StructWithoutEntries(pool, m);
    if StructEntries(m).None? {
      return Failure(ValueTypeMismatch);
    }
    var fields := StructEntries(m).value;
    var remaining := fields.Keys;
    var entries: seq<Entry> := [];
    ghost var pushed: seq<MapKey> := [];
    while remaining != {}
      invariant remaining <= fields.Keys
      invariant |pushed| == |entries| && forall i :: 0 <= i < |pushed| ==> StructPushed(H, pool, m, pushed[i], entries[i])
      invariant forall i :: 0 <= i < |pushed| ==> pushed[i] !in remaining
      invariant forall i, j :: 0 <= i < j < |pushed| ==> pushed[i] != pushed[j]
      invariant forall k :: k in fields && k !in remaining ==>
                  StructEntryMeaning(pool, m, k).Means? && (StructEntryMeaning(pool, m, k).tree.Some? ==> k in pushed)
      decreases |remaining|
    {
      var k :| k in remaining;
      remaining := remaining - {k};
      StructExits(pool, m, k);
      if !k.StringKey? {
        return Failure(ValueTypeMismatch);
      }
      var key := HashScalar(H, StringScalar(k.s));
      if IsNull(fields[k]) {
        continue;
      }
      if !fields[k].MessageValue? {
        return Failure(ValueTypeMismatch);
      }
      var d := HashMessage(H, pool, fields[k].m);
      if d.Failure? {
        return Failure(d.error);
      }
      if d.value.Some? {
        entries := entries + [Entry(BigEndian(key), key, d.value.value)];
        pushed := pushed + [k];
      }
    }
    var d := DigestEntries(H, entries);
    StructDigest(H, pool, m, pushed, entries, d);
    return Success(Some(d));
  }

  lemma StructExits(pool: Pool, m: Message, k: MapKey)
    requires StructEntries(m).Some? && k in StructEntries(m).value
    ensures MayFail(StructEntryMeaning(pool, m, k)) ==> MayFail(StructMeaning(pool, m))
  {
    hide StructEntryMeaning;
  }

  lemma StructWithoutEntries(pool: Pool, m: Message)
    ensures StructEntries(m).None? ==> StructMeaning(pool, m) == Fails
  {
  }

  lemma StructDigest(H: Hash, pool: Pool, m: Message, pushed: seq<MapKey>, entries: seq<Entry>, d: Digest)
    requires StructEntries(m).Some?
    requires |pushed| == |entries| && forall i :: 0 <= i < |pushed| ==> StructPushed(H, pool, m, pushed[i], entries[i])
    requires forall i, j :: 0 <= i < j < |pushed| ==> pushed[i] != pushed[j]
    requires forall k :: k in StructEntries(m).value ==>
               StructEntryMeaning(pool, m, k).Means? && (StructEntryMeaning(pool, m, k).tree.Some? ==> k in pushed)
    requires exists s :: Sorted(s) && multiset(s) == multiset(entries) && d == H([MAP_IDENTIFIER] + Feed(s))
    ensures Agrees(H, StructMeaning(pool, m), Success(Some(d)))
  {
    hide StructEntryMeaning, StructMeaning, TreeDigest, ScalarBytes, KeyClash, Feed, Sorted, StructEntries, BigEndian;
    var s :| Sorted(s) && multiset(s) == multiset(entries) && d == H([MAP_IDENTIFIER] + Feed(s));
    StructTree(pool, m);
    var t := StructMeaning(pool, m).tree.value;
    forall i | 0 <= i < |pushed| ensures pushed[i].StringKey? {
      assert StructPushed(H, pool, m, pushed[i], entries[i]);
    }
    var ks := seq(|pushed|, i requires 0 <= i < |pushed| => StringScalar(pushed[i].s));
    forall i | 0 <= i < |ks| ensures Pushed(H, t, ks[i], entries[i]) {
      assert StructPushed(H, pool, m, pushed[i], entries[i]);
    }
    forall x ensures x in ks <==> x in t.entries.Keys {
      if x in t.entries.Keys {
        var i :| 0 <= i < |pushed| && pushed[i] == StringKey(x.s);
        assert ks[i] == x;
      }
    }
    SeqOfSet(ks, t.entries.Keys);
    DictDigest(H, t, ks, entries, s);
  }

  /** The dictionary of a struct no entry of which fails. */
  lemma StructTree(pool: Pool, m: Message)
    requires StructEntries(m).Some?
    requires forall k :: k in StructEntries(m).value ==> StructEntryMeaning(pool, m, k).Means?
    ensures var x := StructMeaning(pool, m);
            && x.Means? && x.tree.Some? && x.tree.value.DictNode? && !x.tree.value.byNumber
            && (forall s :: s in x.tree.value.entries ==>
                  s.StringScalar? && StringKey(s.s) in StructEntries(m).value && StructEntryMeaning(pool, m, StringKey(s.s)).tree.Some?)
            && (forall k :: k in StructEntries(m).value && StructEntryMeaning(pool, m, k).tree.Some? ==>
                  && k.StringKey? && StringScalar(k.s) in x.tree.value.entries
                  && Some(x.tree.value.entries[StringScalar(k.s)]) == StructEntryMeaning(pool, m, k).tree)
  {
    hide StructEntries, MessageMeaning, IsNull;
    forall k | k in StructEntries(m).value && StructEntryMeaning(pool, m, k).tree.Some? ensures k.StringKey? && k == StringKey(k.s) {
    }
  }

  method HashListMessage(H: Hash, pool: Pool, m: Message) returns (r: Result<Option<Digest>, HashError>)
    ensures Agrees(H, ListMessageMeaning(pool, m), r)
    decreases m, 1
  {
    if LIST_VALUES !in m.fields {
      return Success(None);
    }
    if !m.fields[LIST_VALUES].ListValue? {
      return Failure(ValueTypeMismatch);
    }
    r := HashList(H, pool, MessageKind(VALUE), m.fields[LIST_VALUES]);
  }

  method HashOneof(H: Hash, pool: Pool, m: Message) returns (r: Result<Option<Digest>, HashError>)
    ensures Agrees(H, OneofMeaning(pool, m), r)
    decreases m, 1
  {
    var active := ActiveMember(m);
    if active == 0 || active == NULL_MEMBER {
      return Failure(EmptyValue);
    } else if active == NUMBER_MEMBER {
      r := HashOfKind(H, ToScalar(DoubleKind, m.fields[active]));
    } else if active == STRING_MEMBER {
      r := HashOfKind(H, ToScalar(StringKind, m.fields[active]));
    } else if active == BOOL_MEMBER {
      r := HashOfKind(H, ToScalar(BoolKind, m.fields[active]));
    } else if !m.fields[active].MessageValue? {
      return Failure(ValueTypeMismatch);
    } else if active == STRUCT_MEMBER {
      r := HashStruct(H, pool, m.fields[active].m);
    } else {
      r := HashListMessage(H, pool, m.fields[active].m);
    }
  }

  // ----- The entry point -----

  /** Types that are not hashed on their own. */
  function IsBareScalar(desc: string): bool {
    desc in {VALUE, LIST, "google.protobuf.BytesValue", "google.protobuf.FloatValue"} || WrappedKind(desc).Some?
  }

  datatype ProtoError = TopLevelScalarNotHashable | NothingToHash | HashFailure(error: HashError)

  /** The public entry point: no bare scalars, and something must be left to hash. */
  method HashProto(H: Hash, pool: Pool, m: Message) returns (r: Result<Digest, ProtoError>)
    ensures IsBareScalar(m.desc) <==> r == Failure(TopLevelScalarNotHashable)
    ensures r.Success? ==> Agrees(H, MessageMeaning(pool, m), Success(Some(r.value)))
    ensures r == Failure(NothingToHash) ==> IsNothing(MessageMeaning(pool, m))
    ensures r.Failure? && r.error.HashFailure? ==> MayFail(MessageMeaning(pool, m))
  {
    hide MessageMeaning;
    if IsBareScalar(m.desc) {
      return Failure(TopLevelScalarNotHashable);
    }
    var d := HashMessage(H, pool, m);
    if d.Failure? {
      return Failure(HashFailure(d.error));
    }
    return if d.value.None? then Failure(NothingToHash) else Success(d.value.value);
  }
}

/**
 * What a digest says about a message: within one schema, equal digests mean equal canonical trees, or a collision
 * among the strings hashed. And what the order of a hash map can and cannot change.
 */
module HashUniqueness {
  import opened Wrappers
  import opened Machine
  import opened HashTree
  import opened HashMeaning
  import opened Hashing
  import opened HashWalk

  // ----- Values that follow their schema -----

  /** Every message found where the schema expects one is of the expected type. */
  ghost predicate TypedValue(pool: Pool, kind: Kind, v: Value)
    decreases v, 1
  {
    kind.MessageKind? && v.MessageValue? ==> v.m.desc == kind.name && TypedMessage(pool, v.m)
  }

  ghost predicate TypedMessage(pool: Pool, m: Message)
    decreases m, 0
  {
    && (IsPlain(m.desc) ==> forall n :: n in m.fields && n in pool(m.desc) ==> TypedField(pool, pool(m.desc)[n], m.fields[n]))
    && (m.desc == STRUCT && STRUCT_FIELDS in m.fields ==> TypedEntries(pool, MessageKind(VALUE), m.fields[STRUCT_FIELDS]))
    && (m.desc == LIST && LIST_VALUES in m.fields ==> TypedItems(pool, MessageKind(VALUE), m.fields[LIST_VALUES]))
    && (m.desc == VALUE && STRUCT_MEMBER in m.fields ==> TypedValue(pool, MessageKind(STRUCT), m.fields[STRUCT_MEMBER]))
    && (m.desc == VALUE && LIST_MEMBER in m.fields ==> TypedValue(pool, MessageKind(LIST), m.fields[LIST_MEMBER]))
  }

  ghost predicate TypedItems(pool: Pool, kind: Kind, v: Value)
    decreases v, 2
  {
    v.ListValue? ==> forall x :: x in v.items ==> TypedValue(pool, kind, x)
  }

  ghost predicate TypedEntries(pool: Pool, kind: Kind, v: Value)
    decreases v, 2
  {
    v.MapValue? ==> forall k :: k in v.entries ==> TypedValue(pool, kind, v.entries[k])
  }

  ghost predicate TypedField(pool: Pool, fd: FieldDesc, v: Value)
    decreases v, 3
  {
    match fd.card
    case Repeated => TypedItems(pool, fd.kind, v)
    case MapOf(_) => TypedEntries(pool, fd.kind, v)
    case Singular => TypedValue(pool, fd.kind, v)
  }

  // ----- Erasing loses nothing within a schema -----

  /** Both meanings have trees that differ at most in the origin of their dictionaries. */
  ghost predicate Alike(x: Meaning, y: Meaning) {
    x.Means? && x.tree.Some? && y.Means? && y.tree.Some? && Erase(x.tree.value) == Erase(y.tree.value)
  }

  lemma SameValue(pool: Pool, kind: Kind, v: Value, w: Value)
    requires TypedValue(pool, kind, v) && TypedValue(pool, kind, w)
    requires Alike(ValueMeaning(pool, kind, v), ValueMeaning(pool, kind, w))
    ensures ValueMeaning(pool, kind, v).tree == ValueMeaning(pool, kind, w).tree
    decreases v, 13
  {
    hide MessageMeaning, TypedMessage;
    if kind.MessageKind? {
      SameMessage(pool, v.m, w.m);
    }
  }

  lemma SameMessage(pool: Pool, m: Message, n: Message)
    requires m.desc == n.desc && TypedMessage(pool, m) && TypedMessage(pool, n)
    requires Alike(MessageMeaning(pool, m), MessageMeaning(pool, n))
    ensures MessageMeaning(pool, m).tree == MessageMeaning(pool, n).tree
    decreases m, 12
  {
    if m.desc == STRUCT {
      SameStruct(pool, m, n);
    } else if m.desc == LIST {
      SameListMessage(pool, m, n);
    } else if m.desc == VALUE {
      SameOneof(pool, m, n);
    } else if IsPlain(m.desc) {
      SamePlain(pool, m, n);
    } else if m.desc == TIMESTAMP || m.desc == DURATION {
      SameTimestamp(m, n);
    }
  }

  lemma SameTimestamp(m: Message, n: Message)
    requires Alike(TimestampMeaning(m), TimestampMeaning(n))
    ensures TimestampMeaning(m) == TimestampMeaning(n)
  {
    hide StoredScalar;
    var t, u := TimestampMeaning(m).tree.value, TimestampMeaning(n).tree.value;
    assert Erase(t).items[0] == Erase(t.items[0]) && Erase(t).items[1] == Erase(t.items[1]);
    assert Erase(u).items[0] == Erase(u.items[0]) && Erase(u).items[1] == Erase(u.items[1]);
  }

  lemma {:induction false} ItemTreeSource(pool: Pool, kind: Kind, items: seq<Value>, t: Tree)
    requires (forall x :: x in items ==> ValueMeaning(pool, kind, x).Means?) && t in ItemTrees(pool, kind, items)
    ensures exists x :: x in items && ValueMeaning(pool, kind, x).tree == Some(t)
    decreases |items|
  {
    hide ValueMeaning;
    if items != [] {
      var rest, last := items[..|items| - 1], items[|items| - 1];
      if t in ItemTrees(pool, kind, rest) {
        ItemTreeSource(pool, kind, rest, t);
        var x :| x in rest && ValueMeaning(pool, kind, x).tree == Some(t);
        assert x in items;
      } else {
        assert last in items && ValueMeaning(pool, kind, last).tree == Some(t);
      }
    }
  }

  /** Lists whose trees erase alike have the same trees, item by item. */
  lemma SameItems(pool: Pool, kind: Kind, v: Value, w: Value)
    requires v.ListValue? && w.ListValue? && TypedItems(pool, kind, v) && TypedItems(pool, kind, w)
    requires Alike(ItemsMeaning(pool, kind, v), ItemsMeaning(pool, kind, w))
    ensures ItemsMeaning(pool, kind, v).tree == ItemsMeaning(pool, kind, w).tree
    decreases v, 14
  {
    hide ValueMeaning, TypedValue, ItemTrees;
    var ts, us := ItemTrees(pool, kind, v.items), ItemTrees(pool, kind, w.items);
    ErasedItems(ts, us);
    forall i | 0 <= i < |ts| ensures ts[i] == us[i] {
      ItemTreeSource(pool, kind, v.items, ts[i]);
      ItemTreeSource(pool, kind, w.items, us[i]);
      var x :| x in v.items && ValueMeaning(pool, kind, x).tree == Some(ts[i]);
      var y :| y in w.items && ValueMeaning(pool, kind, y).tree == Some(us[i]);
      SameValue(pool, kind, x, y);
    }
    assert ts == us;
  }

  lemma ErasedItems(ts: seq<Tree>, us: seq<Tree>)
    requires Erase(ListNode(ts)) == Erase(ListNode(us))
    ensures |ts| == |us| && forall i :: 0 <= i < |ts| ==> Erase(ts[i]) == Erase(us[i])
  {
    forall i | 0 <= i < |ts| ensures |ts| == |us| && Erase(ts[i]) == Erase(us[i]) {
      assert Erase(ListNode(ts)).items[i] == Erase(ts[i]);
      assert Erase(ListNode(us)).items[i] == Erase(us[i]);
    }
  }

  lemma ErasedEntries(t: Tree, u: Tree)
    requires t.DictNode? && u.DictNode? && Erase(t) == Erase(u)
    ensures t.entries.Keys == u.entries.Keys && forall k :: k in t.entries ==> Erase(t.entries[k]) == Erase(u.entries[k])
  {
    hide Erase;
    ErasedDict(t);
    ErasedDict(u);
  }

  lemma ErasedDict(t: Tree)
    requires t.DictNode?
    ensures Erase(t).DictNode? && Erase(t).entries.Keys == t.entries.Keys
    ensures forall k :: k in t.entries ==> Erase(t).entries[k] == Erase(t.entries[k])
  {
  }

  lemma SameMap(pool: Pool, keyKind: Kind, kind: Kind, v: Value, w: Value)
    requires v.MapValue? && w.MapValue? && TypedEntries(pool, kind, v) && TypedEntries(pool, kind, w)
    requires Alike(MapMeaning(pool, keyKind, kind, v), MapMeaning(pool, keyKind, kind, w))
    ensures MapMeaning(pool, keyKind, kind, v).tree == MapMeaning(pool, keyKind, kind, w).tree
    decreases v, 14
  {
    hide MapMeaning, ValueMeaning, TypedValue, ToScalar, KeyValue, LiveKeys;
    MapTreeOf(pool, keyKind, kind, v);
    MapTreeOf(pool, keyKind, kind, w);
    var t, u := MapMeaning(pool, keyKind, kind, v).tree.value, MapMeaning(pool, keyKind, kind, w).tree.value;
    ErasedEntries(t, u);
    hide EntryStored, KeyStored, Erase;
    forall s | s in t.entries ensures t.entries[s] == u.entries[s] {
      var j := MapEntryOf(pool, keyKind, kind, v, t.entries, s);
      var k := MapEntryOf(pool, keyKind, kind, w, u.entries, s);
      SameValue(pool, kind, v.entries[j], w.entries[k]);
    }
    assert t.entries == u.entries;
  }

  lemma MapEntryOf(pool: Pool, keyKind: Kind, kind: Kind, v: Value, d: map<Scalar, Tree>, s: Scalar) returns (k: MapKey)
    requires v.MapValue? && s in d && KeyStored(keyKind, v, s)
    requires forall j :: j in LiveKeys(v) ==> EntryStored(pool, keyKind, kind, v, d, j)
    ensures k in v.entries && ValueMeaning(pool, kind, v.entries[k]).Means?
    ensures ValueMeaning(pool, kind, v.entries[k]).tree == Some(d[s])
  {
    hide ValueMeaning, ToScalar, KeyValue, LiveKeys;
    k :| k in LiveKeys(v) && ToScalar(keyKind, KeyValue(k)) == Some(s);
    assert EntryStored(pool, keyKind, kind, v, d, k);
  }

  /** The live entry's value has the tree that is stored under its key. */
  ghost predicate EntryStored(pool: Pool, keyKind: Kind, kind: Kind, v: Value, d: map<Scalar, Tree>, k: MapKey)
    requires v.MapValue? && k in v.entries
  {
    var s, x := ToScalar(keyKind, KeyValue(k)), ValueMeaning(pool, kind, v.entries[k]);
    s.Some? && s.value in d && x.Means? && x.tree == Some(d[s.value])
  }

  ghost predicate KeyStored(keyKind: Kind, v: Value, s: Scalar)
    requires v.MapValue?
  {
    exists k :: k in LiveKeys(v) && ToScalar(keyKind, KeyValue(k)) == Some(s)
  }

  /** A map that has a tree: every live entry has one, under its key. */
  lemma MapTreeOf(pool: Pool, keyKind: Kind, kind: Kind, v: Value)
    requires v.MapValue? && MapMeaning(pool, keyKind, kind, v).Means? && MapMeaning(pool, keyKind, kind, v).tree.Some?
    ensures var t := MapMeaning(pool, keyKind, kind, v).tree.value;
            && t.DictNode? && !t.byNumber
            && (forall s :: s in t.entries ==> KeyStored(keyKind, v, s))
            && (forall k :: k in LiveKeys(v) ==> EntryStored(pool, keyKind, kind, v, t.entries, k))
  {
    hide LiveKeys, ToScalar, KeyValue, ValueMeaning, MapDict;
  }

  lemma SameField(pool: Pool, fd: FieldDesc, v: Value, w: Value)
    requires TypedField(pool, fd, v) && TypedField(pool, fd, w)
    requires Alike(FieldMeaning(pool, fd, v), FieldMeaning(pool, fd, w))
    ensures FieldMeaning(pool, fd, v).tree == FieldMeaning(pool, fd, w).tree
    decreases v, 15
  {
    hide ItemsMeaning, MapMeaning, ValueMeaning, TypedItems, TypedEntries, TypedValue;
    match fd.card {
      case Repeated => SameItems(pool, fd.kind, v, w);
      case MapOf(key) => SameMap(pool, key, fd.kind, v, w);
      case Singular => SameValue(pool, fd.kind, v, w);
    }
  }

  lemma SamePlain(pool: Pool, m: Message, n: Message)
    requires m.desc == n.desc && IsPlain(m.desc) && TypedMessage(pool, m) && TypedMessage(pool, n)
    requires Alike(PlainMeaning(pool, m), PlainMeaning(pool, n))
    ensures PlainMeaning(pool, m).tree == PlainMeaning(pool, n).tree
    decreases m, 11
  {
    hide PlainMeaning, FieldMeaning, TypedField, IsPlain, WrappedKind;
    PlainTreeOf(pool, m);
    PlainTreeOf(pool, n);
    var t, u := PlainMeaning(pool, m).tree.value, PlainMeaning(pool, n).tree.value;
    ErasedEntries(t, u);
    forall s | s in t.entries ensures t.entries[s] == u.entries[s] {
      SameField(pool, pool(m.desc)[s.n], m.fields[s.n], n.fields[s.n]);
    }
    assert t.entries == u.entries;
  }

  lemma PlainTreeOf(pool: Pool, m: Message)
    requires PlainMeaning(pool, m).Means?
    ensures var x := PlainMeaning(pool, m);
            && x.tree.Some? && x.tree.value.DictNode? && x.tree.value.byNumber
            && (forall k :: k in x.tree.value.entries ==>
                  && k.IntScalar? && k.n in HashedFields(pool, m) && FieldMeaning(pool, pool(m.desc)[k.n], m.fields[k.n]).Means?
                  && Some(x.tree.value.entries[k]) == FieldMeaning(pool, pool(m.desc)[k.n], m.fields[k.n]).tree)
  {
    hide FieldMeaning, HashedFields;
  }

  lemma SameStruct(pool: Pool, m: Message, n: Message)
    requires m.desc == STRUCT && n.desc == STRUCT && TypedMessage(pool, m) && TypedMessage(pool, n)
    requires Alike(StructMeaning(pool, m), StructMeaning(pool, n))
    ensures StructMeaning(pool, m).tree == StructMeaning(pool, n).tree
    decreases m, 11
  {
    hide StructMeaning, MessageMeaning;
    StructTreeOf(pool, m);
    StructTreeOf(pool, n);
    var t, u := StructMeaning(pool, m).tree.value, StructMeaning(pool, n).tree.value;
    ErasedEntries(t, u);
    forall s | s in t.entries ensures t.entries[s] == u.entries[s] {
      var v, w := StructEntries(m).value[StringKey(s.s)], StructEntries(n).value[StringKey(s.s)];
      assert TypedValue(pool, MessageKind(VALUE), v) && TypedValue(pool, MessageKind(VALUE), w);
      SameMessage(pool, v.m, w.m);
    }
    assert t.entries == u.entries;
  }

  lemma StructTreeOf(pool: Pool, m: Message)
    requires StructMeaning(pool, m).Means?
    ensures var x := StructMeaning(pool, m);
            && StructEntries(m).Some? && x.tree.Some? && x.tree.value.DictNode? && !x.tree.value.byNumber
            && (forall k :: k in x.tree.value.entries ==>
                  && k.StringScalar? && StringKey(k.s) in StructEntries(m).value
                  && StructEntries(m).value[StringKey(k.s)].MessageValue?
                  && MessageMeaning(pool, StructEntries(m).value[StringKey(k.s)].m).Means?
                  && Some(x.tree.value.entries[k]) == MessageMeaning(pool, StructEntries(m).value[StringKey(k.s)].m).tree)
  {
    hide MessageMeaning, IsNull, StructEntries;
  }

  lemma SameListMessage(pool: Pool, m: Message, n: Message)
    requires m.desc == LIST && n.desc == LIST && TypedMessage(pool, m) && TypedMessage(pool, n)
    requires Alike(ListMessageMeaning(pool, m), ListMessageMeaning(pool, n))
    ensures ListMessageMeaning(pool, m).tree == ListMessageMeaning(pool, n).tree
    decreases m, 11
  {
    hide ItemsMeaning, TypedItems;
    SameItems(pool, MessageKind(VALUE), m.fields[LIST_VALUES], n.fields[LIST_VALUES]);
  }

  lemma SameOneof(pool: Pool, m: Message, n: Message)
    requires m.desc == VALUE && n.desc == VALUE && TypedMessage(pool, m) && TypedMessage(pool, n)
    requires Alike(OneofMeaning(pool, m), OneofMeaning(pool, n))
    ensures OneofMeaning(pool, m).tree == OneofMeaning(pool, n).tree
    decreases m, 11
  {
    hide StructMeaning, ListMessageMeaning, ToScalar;
    OneofShape(pool, m);
    OneofShape(pool, n);
    if OneofMeaning(pool, m).tree.value.DictNode? {
      SameStruct(pool, m.fields[STRUCT_MEMBER].m, n.fields[STRUCT_MEMBER].m);
    } else if OneofMeaning(pool, m).tree.value.ListNode? {
      SameListMessage(pool, m.fields[LIST_MEMBER].m, n.fields[LIST_MEMBER].m);
    }
  }

  /** A dictionary under a `Value` is its struct, a list its list. */
  lemma OneofShape(pool: Pool, m: Message)
    requires OneofMeaning(pool, m).Means? && OneofMeaning(pool, m).tree.Some?
    ensures OneofMeaning(pool, m).tree.value.DictNode? ==>
              && ActiveMember(m) == STRUCT_MEMBER && m.fields[STRUCT_MEMBER].MessageValue?
              && OneofMeaning(pool, m) == StructMeaning(pool, m.fields[STRUCT_MEMBER].m)
    ensures OneofMeaning(pool, m).tree.value.ListNode? ==>
              && ActiveMember(m) == LIST_MEMBER && m.fields[LIST_MEMBER].MessageValue?
              && OneofMeaning(pool, m) == ListMessageMeaning(pool, m.fields[LIST_MEMBER].m)
  {
    if ActiveMember(m) == STRUCT_MEMBER {
      StructTreeOf(pool, m.fields[STRUCT_MEMBER].m);
    } else if ActiveMember(m) == LIST_MEMBER {
      assert ListMessageMeaning(pool, m.fields[LIST_MEMBER].m).tree.value.ListNode?;
    }
  }

  // ----- The theorem -----

  /** Two messages of one type, each following its schema, hashed in two runs to the same digest: their canonical
      trees are equal, or two different strings hashed for them have the same hash. */
  lemma EqualDigestsEqualTrees(H: Hash, pool: Pool, m: Message, n: Message, d: Digest)
    requires m.desc == n.desc && TypedMessage(pool, m) && TypedMessage(pool, n)
    requires Agrees(H, MessageMeaning(pool, m), Success(Some(d)))
    requires Agrees(H, MessageMeaning(pool, n), Success(Some(d)))
    ensures var t, u := MessageMeaning(pool, m).tree.value, MessageMeaning(pool, n).tree.value;
            t == u || Collide(H, t, u) || KeyClash(H, t) || KeyClash(H, u)
  {
    hide MessageMeaning, TypedMessage, TreeDigest, KeyClash, Collide, Erase;
    var t, u := MessageMeaning(pool, m).tree.value, MessageMeaning(pool, n).tree.value;
    if !KeyClash(H, t) && !KeyClash(H, u) && !Collide(H, t, u) {
      DigestDeterminesTree(H, t, u);
      SameMessage(pool, m, n);
    }
  }

  /** A key clash is itself such a collision, inside one tree. */
  lemma {:induction false} ClashCollides(H: Hash, t: Tree)
    requires KeyClash(H, t)
    ensures Collide(H, t, t)
  {
    match t {
      case ListNode(items) =>
        var i :| 0 <= i < |items| && KeyClash(H, items[i]);
        ClashCollides(H, items[i]);
        CollisionRises(H, t, items[i]);
      case DictNode(byNumber, m) =>
        if j, k :| j in m && k in m && j != k && H(ScalarBytes(j)) == H(ScalarBytes(k)) {
          if ScalarBytes(j) == ScalarBytes(k) {
            ScalarBytesInjective(j, k);
          }
          CollideWitness(H, t, t, ScalarBytes(j), ScalarBytes(k));
        } else {
          var k :| k in m && KeyClash(H, m[k]);
          ClashCollides(H, m[k]);
          CollisionRises(H, t, m[k]);
        }
    }
  }

  lemma CollisionRises(H: Hash, t: Tree, part: Tree)
    requires Collide(H, part, part) && forall x :: Feeds(H, part, x) ==> Feeds(H, t, x)
    ensures Collide(H, t, t)
  {
    hide Feeds;
    var x, y :| Feeds(H, part, x) && Feeds(H, part, y) && x != y && H(x) == H(y);
    CollideWitness(H, t, t, x, y);
  }

  /** Any two runs on one message that do not fail give the same result, whatever order its maps were walked in,
      unless two keys of one map have the same digest. */
  lemma OrderDoesNotMatter(H: Hash, pool: Pool, m: Message, r: Result<Option<Digest>, HashError>,
                           s: Result<Option<Digest>, HashError>)
    requires Agrees(H, MessageMeaning(pool, m), r) && Agrees(H, MessageMeaning(pool, m), s)
    requires r.Success? && s.Success?
    ensures r == s || (MessageMeaning(pool, m).tree.Some? && KeyClash(H, MessageMeaning(pool, m).tree.value))
  {
    hide MessageMeaning, TreeDigest, KeyClash;
  }

  // ----- Where order does matter -----

  function ListOf(items: seq<Value>): Value {
    var fields := if items == [] then map[] else map[LIST_VALUES := ListValue(items)];
    MessageValue(Message(VALUE, map[LIST_MEMBER := MessageValue(Message(LIST, fields))]))
  }

  const NULL := MessageValue(Message(VALUE, map[NULL_MEMBER := EnumValue(0)]))

  /** A map from booleans to `Value`s: the empty list, and the list of one null. */
  const RACE := MapValue(map[BoolKey(false) := ListOf([]), BoolKey(true) := ListOf([NULL])])

  lemma ValueIsOneof(pool: Pool, m: Message)
    requires m.desc == VALUE
    ensures ValueMeaning(pool, MessageKind(VALUE), MessageValue(m)) == OneofMeaning(pool, m)
  {
    hide OneofMeaning, StructMeaning, TimestampMeaning, ListMessageMeaning, PlainMeaning;
    assert |VALUE| == 21 && |STRUCT| == 22 && |ANY| == 19;
  }

  lemma ListOfTyped(pool: Pool, items: seq<Value>)
    requires forall x :: x in items ==> TypedValue(pool, MessageKind(VALUE), x)
    ensures TypedValue(pool, MessageKind(VALUE), ListOf(items))
  {
    hide IsPlain;
    TheirNames();
    var inner := ListOf(items).m.fields[LIST_MEMBER];
    assert TypedMessage(pool, inner.m);
    assert TypedValue(pool, MessageKind(LIST), inner);
  }

  lemma TheirNames()
    ensures !IsPlain(LIST) && !IsPlain(VALUE) && LIST != STRUCT && VALUE != STRUCT && LIST != VALUE
  {
    assert |VALUE| == 21 && |STRUCT| == 22 && |LIST| == 25;
  }

  lemma RaceTyped(pool: Pool)
    ensures TypedEntries(pool, MessageKind(VALUE), RACE)
  {
    hide IsPlain, ListOf;
    TheirNames();
    assert TypedValue(pool, MessageKind(VALUE), NULL);
    ListOfTyped(pool, []);
    ListOfTyped(pool, [NULL]);
  }

  lemma RaceEntries(pool: Pool)
    ensures LiveKeys(RACE) == {BoolKey(false), BoolKey(true)}
    ensures IsNothing(EntryMeaning(pool, BoolKind, MessageKind(VALUE), RACE, BoolKey(false)))
    ensures EntryMeaning(pool, BoolKind, MessageKind(VALUE), RACE, BoolKey(true)).Fails?
  {
    hide ValueMeaning;
    ValueIsOneof(pool, NULL.m);
    ValueIsOneof(pool, ListOf([]).m);
    ValueIsOneof(pool, ListOf([NULL]).m);
    assert NULL in [NULL];
    assert ItemsMeaning(pool, MessageKind(VALUE), ListValue([NULL])).Fails?;
  }

  /** A map that follows its schema, with two runs on it that differ in their order alone: one fails and one ends with
      nothing. */
  lemma RaceExists(H: Hash, pool: Pool)
    ensures TypedEntries(pool, MessageKind(VALUE), RACE)
    ensures var answers: Answers := map[BoolKey(false) := Success(None), BoolKey(true) := Failure(EmptyValue)];
            var one, other := [BoolKey(true), BoolKey(false)], [BoolKey(false), BoolKey(true)];
            && IsRun(H, pool, BoolKind, MessageKind(VALUE), RACE, one, answers)
            && IsRun(H, pool, BoolKind, MessageKind(VALUE), RACE, other, answers)
            && Outcome(H, Walk(one, answers), Failure(EmptyValue)) && Outcome(H, Walk(other, answers), Success(None))
  {
    hide EntryMeaning, LiveKeys, Walk, TypedEntries, MapPushed;
    RaceTyped(pool);
    RaceEntries(pool);
    var answers: Answers := map[BoolKey(false) := Success(None), BoolKey(true) := Failure(EmptyValue)];
    RaceWalk(BoolKey(true), BoolKey(false), answers);
    RaceWalk(BoolKey(false), BoolKey(true), answers);
  }

  lemma RaceWalk(j: MapKey, k: MapKey, answers: Answers)
    requires j in answers && k in answers && AnswerEnding(answers[j]) != Kept
    ensures Walk([j, k], answers) == if answers[j].Failure? then Failure(answers[j].error) else Success(None)
  {
    assert [j, k][..1] == [j] && [j][..0] == [];
    assert Walk([], answers) == Success(Some([]));
    assert Walk([j], answers) == if answers[j].Failure? then Failure(answers[j].error) else Success(None);
  }

  /** The canonical form does not see stored defaults: storing one changes neither the hashed fields nor the meaning. */
  lemma DefaultsIgnored(pool: Pool, m: Message, n: u32, v: Value)
    requires IsPlain(m.desc) && n !in m.fields && n in pool(m.desc) && IsDefault(pool(m.desc)[n].kind, v)
    ensures HashedFields(pool, m.(fields := m.fields[n := v])) == HashedFields(pool, m)
    ensures PlainMeaning(pool, m.(fields := m.fields[n := v])) == PlainMeaning(pool, m)
  {
    hide FieldMeaning, PlainMeaning;
    var m' := m.(fields := m.fields[n := v]);
    assert HashedFields(pool, m') == HashedFields(pool, m);
    SameHashedFields(pool, m, m');
  }

  lemma SameHashedFields(pool: Pool, m: Message, m': Message)
    requires m.desc == m'.desc && HashedFields(pool, m) == HashedFields(pool, m')
    requires forall k :: k in HashedFields(pool, m) ==> m.fields[k] == m'.fields[k]
    ensures PlainMeaning(pool, m) == PlainMeaning(pool, m')
  {
    hide FieldMeaning, IsDefault, HasField;
    var fields, ns := pool(m.desc), HashedFields(pool, m);
    assert forall k :: k in ns ==> k in fields && k in m.fields && k in m'.fields;
    hide HashedFields;
    var x, y := PlainMeaning(pool, m), PlainMeaning(pool, m');
    if x.Means? {
      assert x.tree.value.entries == y.tree.value.entries;
    }
  }
}

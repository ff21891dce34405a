/**
 * One walk over a map: its live entries in some order, each with its answer. A failing entry ends the walk with its
 * error, an entry without a digest ends it with nothing; which comes first is the order's doing.
 */
module HashWalk {
  import opened Wrappers
  import opened Machine
  import opened HashTree
  import opened HashMeaning
  import opened Hashing

  /** What has been pushed for the map's key `k`. */
  ghost predicate MapPushed(H: Hash, pool: Pool, keyKind: Kind, kind: Kind, v: Value, k: MapKey, e: Entry)
    requires v.MapValue?
  {
    && k in LiveKeys(v)
    && var s, x := ToScalar(keyKind, KeyValue(k)), EntryMeaning(pool, keyKind, kind, v, k);
       && s.Some? && x.Means? && x.tree.Some?
       && e.k == H(ScalarBytes(s.value)) && e.rank == BigEndian(e.k) && IsDigest(H, x.tree.value, e.v)
  }

  /** What hashing one entry comes to. */
  type Answer = Result<Option<Entry>, HashError>
  type Answers = map<MapKey, Answer>

  ghost predicate CanAnswer(H: Hash, pool: Pool, keyKind: Kind, kind: Kind, v: Value, k: MapKey, a: Answer)
    requires v.MapValue? && k in LiveKeys(v)
  {
    && (a.Failure? ==> MayFail(EntryMeaning(pool, keyKind, kind, v, k)))
    && (a == Success(None) ==> IsNothing(EntryMeaning(pool, keyKind, kind, v, k)))
    && (a.Success? && a.value.Some? ==> MapPushed(H, pool, keyKind, kind, v, k, a.value.value))
  }

  /** The entries pushed; nothing or an error as soon as an answer says so. */
  function Walk(order: seq<MapKey>, answers: Answers): Result<Option<seq<Entry>>, HashError>
    requires forall k :: k in order ==> k in answers
  {
    if order == [] then Success(Some([]))
    else
      var before := Walk(order[..|order| - 1], answers);
      if before.Failure? || before.value.None? then before
      else
        match answers[order[|order| - 1]]
        case Failure(e) => Failure(e)
        case Success(None) => Success(None)
        case Success(Some(entry)) => Success(Some(before.value.value + [entry]))
  }

  /** The result of a map whose walk came to `w`. */
  ghost predicate Outcome(H: Hash, w: Result<Option<seq<Entry>>, HashError>, r: Result<Option<Digest>, HashError>) {
    match w
    case Failure(e) => r == Failure(e)
    case Success(None) => r == Success(None)
    case Success(Some(es)) =>
      if es == [] then r == Success(None)
      else exists s :: Sorted(s) && multiset(s) == multiset(es) && r == Success(Some(H([MAP_IDENTIFIER] + Feed(s))))
  }

  /** The order visits each of the keys once. */
  ghost predicate Orders(order: seq<MapKey>, ks: set<MapKey>) {
    && (forall k :: k in order <==> k in ks)
    && (forall i, j :: 0 <= i < j < |order| ==> order[i] != order[j])
  }

  ghost predicate CanAnswerAll(H: Hash, pool: Pool, keyKind: Kind, kind: Kind, v: Value, answers: Answers)
    requires v.MapValue?
  {
    answers.Keys <= LiveKeys(v) && forall k :: k in answers ==> CanAnswer(H, pool, keyKind, kind, v, k, answers[k])
  }

  /** A possible run: an order of the live keys and an answer for each. */
  ghost predicate IsRun(H: Hash, pool: Pool, keyKind: Kind, kind: Kind, v: Value, order: seq<MapKey>, answers: Answers)
    requires v.MapValue?
  {
    Orders(order, LiveKeys(v)) && answers.Keys == LiveKeys(v) && CanAnswerAll(H, pool, keyKind, kind, v, answers)
  }

  /** `r` is the result of some run. */
  ghost predicate FromRun(H: Hash, pool: Pool, keyKind: Kind, kind: Kind, v: Value, r: Result<Option<Digest>, HashError>)
    requires v.MapValue?
  {
    exists order, answers :: IsRun(H, pool, keyKind, kind, v, order, answers) && Outcome(H, Walk(order, answers), r)
  }

  // ----- Walks -----

  datatype Ending = Failed | Dropped | Kept

  function EndingOf(w: Result<Option<seq<Entry>>, HashError>): Ending {
    if w.Failure? then Failed else if w.value.None? then Dropped else Kept
  }

  function AnswerEnding(a: Answer): Ending {
    if a.Failure? then Failed else if a.value.None? then Dropped else Kept
  }

  /** A walk ends as one of its answers does; it keeps going only if all are kept. */
  lemma {:induction false} EndsAsAnswer(order: seq<MapKey>, answers: Answers)
    requires forall k :: k in order ==> k in answers
    ensures var end := EndingOf(Walk(order, answers));
            if end == Kept then forall k :: k in order ==> AnswerEnding(answers[k]) == Kept
            else exists k :: k in order && AnswerEnding(answers[k]) == end
  {
    if order != [] {
      var rest, last := order[..|order| - 1], order[|order| - 1];
      EndsAsAnswer(rest, answers);
      assert order == rest + [last];
    }
  }

  /** What comes after the first key that is not kept does not matter. */
  lemma {:induction false} FirstDecides(k: MapKey, rest: seq<MapKey>, answers: Answers)
    requires k in answers && (forall j :: j in rest ==> j in answers) && AnswerEnding(answers[k]) != Kept
    ensures EndingOf(Walk([k] + rest, answers)) == AnswerEnding(answers[k])
  {
    if rest == [] {
      assert [k] + rest == [k] && [k][..0] == [];
    } else {
      FirstDecides(k, rest[..|rest| - 1], answers);
      assert ([k] + rest)[..|rest|] == [k] + rest[..|rest| - 1];
    }
  }

  lemma {:induction false} StoppedStays(order: seq<MapKey>, more: seq<MapKey>, answers: Answers)
    requires (forall k :: k in order + more ==> k in answers) && forall k :: k in order ==> k in order + more
    requires EndingOf(Walk(order, answers)) != Kept
    ensures Walk(order + more, answers) == Walk(order, answers)
  {
    if more == [] {
      assert order + more == order;
    } else {
      var rest := more[..|more| - 1];
      assert (order + more)[..|order + more| - 1] == order + rest;
      assert forall k :: k in order + rest ==> k in order + more;
      StoppedStays(order, rest, answers);
    }
  }

  lemma {:induction false} WalkSame(order: seq<MapKey>, a: Answers, b: Answers)
    requires forall k :: k in order ==> k in a && k in b && a[k] == b[k]
    ensures Walk(order, a) == Walk(order, b)
  {
    if order != [] {
      var rest := order[..|order| - 1];
      assert forall k :: k in rest ==> k in order;
      WalkSame(rest, a, b);
    }
  }

  lemma {:induction false} SomeOrder(ks: set<MapKey>) returns (order: seq<MapKey>)
    ensures Orders(order, ks)
    decreases |ks|
  {
    if ks == {} {
      order := [];
    } else {
      var k :| k in ks;
      var rest := SomeOrder(ks - {k});
      order := [k] + rest;
    }
  }

  lemma OrderFrom(ks: set<MapKey>, k: MapKey) returns (rest: seq<MapKey>)
    requires k in ks
    ensures Orders([k] + rest, ks)
  {
    rest := SomeOrder(ks - {k});
  }

  /** With the answers fixed, the order changes how the walk ends exactly when some live entry fails and some live entry
      has no digest. */
  lemma OrderMattersIff(ks: set<MapKey>, answers: Answers)
    requires answers.Keys == ks
    ensures (exists o, p :: Orders(o, ks) && Orders(p, ks) && EndingOf(Walk(o, answers)) != EndingOf(Walk(p, answers)))
       <==> (exists j, k :: j in ks && k in ks && answers[j].Failure? && answers[k] == Success(None))
  {
    hide Walk;
    if j, k :| j in ks && k in ks && answers[j].Failure? && answers[k] == Success(None) {
      var o := OrderFrom(ks, j);
      var p := OrderFrom(ks, k);
      FirstDecides(j, o, answers);
      FirstDecides(k, p, answers);
    }
    if o, p :| Orders(o, ks) && Orders(p, ks) && EndingOf(Walk(o, answers)) != EndingOf(Walk(p, answers)) {
      EndsAsAnswer(o, answers);
      EndsAsAnswer(p, answers);
    }
  }

  // ----- What runs a map has -----

  /** Every entry can be answered: by an error if it fails, otherwise by what it means. */
  ghost function SomeAnswer(H: Hash, pool: Pool, keyKind: Kind, kind: Kind, v: Value, k: MapKey): (a: Answer)
    requires v.MapValue? && k in LiveKeys(v)
    ensures CanAnswer(H, pool, keyKind, kind, v, k, a)
  {
    var x := EntryMeaning(pool, keyKind, kind, v, k);
    if x.Fails? then Failure(ValueTypeMismatch)
    else if x.tree.None? then Success(None)
    else
      var d := H(ScalarBytes(ToScalar(keyKind, KeyValue(k)).value));
      Success(Some(Entry(BigEndian(d), d, TreeDigest(H, x.tree.value))))
  }

  /** Answers for all live keys that extend those given. */
  lemma AnswerRest(H: Hash, pool: Pool, keyKind: Kind, kind: Kind, v: Value, given: Answers) returns (answers: Answers)
    requires v.MapValue? && CanAnswerAll(H, pool, keyKind, kind, v, given)
    ensures answers.Keys == LiveKeys(v) && CanAnswerAll(H, pool, keyKind, kind, v, answers)
    ensures forall k :: k in given ==> answers[k] == given[k]
  {
    hide LiveKeys, CanAnswer, SomeAnswer;
    answers := map k | k in LiveKeys(v) :: if k in given then given[k] else SomeAnswer(H, pool, keyKind, kind, v, k);
  }

  lemma JoinOrders(a: seq<MapKey>, ka: set<MapKey>, b: seq<MapKey>, ks: set<MapKey>)
    requires Orders(a, ka) && ka <= ks && Orders(b, ks - ka)
    ensures Orders(a + b, ks)
    ensures ka == ks ==> a + b == a
  {
    Visits(a, ka);
    Visits(b, ks - ka);
    forall i, j | 0 <= i < j < |a + b| ensures (a + b)[i] != (a + b)[j] {
      if i < |a| <= j {
        assert a[i] in a && b[j - |a|] in b;
      }
    }
    assert |b| == 0 || b[0] in b;
  }

  /** A walk that has stopped, or has visited every live key, is a whole run's. */
  lemma PartialRun(H: Hash, pool: Pool, keyKind: Kind, kind: Kind, v: Value, visited: seq<MapKey>, given: Answers,
                   r: Result<Option<Digest>, HashError>)
    requires v.MapValue? && CanAnswerAll(H, pool, keyKind, kind, v, given)
    requires Orders(visited, given.Keys)
    requires Outcome(H, Walk(visited, given), r)
    requires EndingOf(Walk(visited, given)) == Kept ==> given.Keys == LiveKeys(v)
    ensures FromRun(H, pool, keyKind, kind, v, r)
  {
    hide LiveKeys, CanAnswer, Walk, Outcome, Orders;
    var answers := AnswerRest(H, pool, keyKind, kind, v, given);
    var rest := SomeOrder(LiveKeys(v) - given.Keys);
    JoinOrders(visited, given.Keys, rest, LiveKeys(v));
    Visits(visited, given.Keys);
    Visits(visited + rest, LiveKeys(v));
    WalkSame(visited, given, answers);
    if EndingOf(Walk(visited, given)) != Kept {
      StoppedStays(visited, rest, answers);
    }
    assert IsRun(H, pool, keyKind, kind, v, visited + rest, answers);
  }

  lemma Visits(order: seq<MapKey>, ks: set<MapKey>)
    requires Orders(order, ks)
    ensures forall k :: k in order <==> k in ks
  {
  }

  /** A walk under way: the keys visited, their answers and the entries kept. */
  ghost predicate UnderWay(H: Hash, pool: Pool, keyKind: Kind, kind: Kind, v: Value, visited: seq<MapKey>,
                           answers: Answers, entries: seq<Entry>)
    requires v.MapValue?
  {
    && Orders(visited, answers.Keys) && CanAnswerAll(H, pool, keyKind, kind, v, answers)
    && Walk(visited, answers) == Success(Some(entries))
  }

  lemma Unstarted(H: Hash, pool: Pool, keyKind: Kind, kind: Kind, v: Value)
    requires v.MapValue?
    ensures UnderWay(H, pool, keyKind, kind, v, [], map[], [])
  {
    hide LiveKeys, CanAnswer;
  }

  lemma VisitOne(H: Hash, pool: Pool, keyKind: Kind, kind: Kind, v: Value, visited: seq<MapKey>, answers: Answers,
                 entries: seq<Entry>, k: MapKey, a: Answer)
    requires v.MapValue? && UnderWay(H, pool, keyKind, kind, v, visited, answers, entries) && k !in visited
    requires k in LiveKeys(v) && CanAnswer(H, pool, keyKind, kind, v, k, a)
    ensures Orders(visited + [k], answers[k := a].Keys)
    ensures CanAnswerAll(H, pool, keyKind, kind, v, answers[k := a])
    ensures Walk(visited + [k], answers[k := a]) == Onward(entries, a)
  {
    hide LiveKeys, CanAnswer, Walk, Onward, Orders;
    assert forall j :: j in answers[k := a] ==> j == k || j in answers;
    OrdersSnoc(visited, answers.Keys, k);
    assert answers[k := a].Keys == answers.Keys + {k};
    Visits(visited, answers.Keys);
    WalkSnoc(visited, answers, entries, k, a);
  }

  function Onward(entries: seq<Entry>, a: Answer): Result<Option<seq<Entry>>, HashError> {
    match a
    case Failure(e) => Failure(e)
    case Success(None) => Success(None)
    case Success(Some(entry)) => Success(Some(entries + [entry]))
  }

  lemma OrdersSnoc(order: seq<MapKey>, ks: set<MapKey>, k: MapKey)
    requires Orders(order, ks) && k !in order
    ensures Orders(order + [k], ks + {k})
  {
    Visits(order, ks);
  }

  lemma WalkSnoc(order: seq<MapKey>, answers: Answers, entries: seq<Entry>, k: MapKey, a: Answer)
    requires k !in order && (forall j :: j in order ==> j in answers) && Walk(order, answers) == Success(Some(entries))
    ensures Walk(order + [k], answers[k := a]) == Onward(entries, a)
  {
    WalkSame(order, answers, answers[k := a]);
    assert (order + [k])[..|order|] == order;
  }

  /** A kept entry takes the walk on. */
  lemma GoesOn(H: Hash, pool: Pool, keyKind: Kind, kind: Kind, v: Value, visited: seq<MapKey>, answers: Answers,
               entries: seq<Entry>, k: MapKey, entry: Entry)
    requires v.MapValue? && UnderWay(H, pool, keyKind, kind, v, visited, answers, entries) && k !in visited
    requires k in LiveKeys(v) && CanAnswer(H, pool, keyKind, kind, v, k, Success(Some(entry)))
    ensures UnderWay(H, pool, keyKind, kind, v, visited + [k], answers[k := Success(Some(entry))], entries + [entry])
  {
    hide LiveKeys, CanAnswer, Walk, Orders, CanAnswerAll;
    VisitOne(H, pool, keyKind, kind, v, visited, answers, entries, k, Success(Some(entry)));
  }

  /** Any other answer ends it. */
  lemma StopsHere(H: Hash, pool: Pool, keyKind: Kind, kind: Kind, v: Value, visited: seq<MapKey>, answers: Answers,
                  entries: seq<Entry>, k: MapKey, a: Answer)
    requires v.MapValue? && UnderWay(H, pool, keyKind, kind, v, visited, answers, entries) && k !in visited
    requires k in LiveKeys(v) && CanAnswer(H, pool, keyKind, kind, v, k, a) && AnswerEnding(a) != Kept
    ensures FromRun(H, pool, keyKind, kind, v, if a.Failure? then Failure(a.error) else Success(None))
  {
    hide LiveKeys, CanAnswer, Walk, Orders, CanAnswerAll, FromRun;
    VisitOne(H, pool, keyKind, kind, v, visited, answers, entries, k, a);
    var r := if a.Failure? then Failure(a.error) else Success(None);
    PartialRun(H, pool, keyKind, kind, v, visited + [k], answers[k := a], r);
  }

  /** A walk that has kept every live key's entry gives what they come to. */
  lemma GetsThrough(H: Hash, pool: Pool, keyKind: Kind, kind: Kind, v: Value, visited: seq<MapKey>, answers: Answers,
                    entries: seq<Entry>, r: Result<Option<Digest>, HashError>)
    requires v.MapValue? && UnderWay(H, pool, keyKind, kind, v, visited, answers, entries)
    requires forall k :: k in LiveKeys(v) ==> k in visited
    requires Outcome(H, Success(Some(entries)), r)
    ensures FromRun(H, pool, keyKind, kind, v, r)
  {
    hide LiveKeys, CanAnswer, Walk, FromRun, Outcome;
    assert answers.Keys == LiveKeys(v);
    PartialRun(H, pool, keyKind, kind, v, visited, answers, r);
  }

  // ----- When the order matters -----

  /** Some run ends in this way. */
  ghost predicate SomeRunEnds(H: Hash, pool: Pool, keyKind: Kind, kind: Kind, v: Value, end: Ending)
    requires v.MapValue?
  {
    exists order, answers :: IsRun(H, pool, keyKind, kind, v, order, answers) && EndingOf(Walk(order, answers)) == end
  }

  ghost predicate CanFail(pool: Pool, keyKind: Kind, kind: Kind, v: Value)
    requires v.MapValue?
  {
    exists k :: k in LiveKeys(v) && MayFail(EntryMeaning(pool, keyKind, kind, v, k))
  }

  ghost predicate CanDrop(pool: Pool, keyKind: Kind, kind: Kind, v: Value)
    requires v.MapValue?
  {
    exists k :: k in LiveKeys(v) && IsNothing(EntryMeaning(pool, keyKind, kind, v, k))
  }

  /** A map has both a run that fails and a run that ends with nothing exactly when some live entry may fail and some live
      entry hashes to nothing; these are the maps that mean nothing and may fail. */
  lemma MapRaceIff(H: Hash, pool: Pool, keyKind: Kind, kind: Kind, v: Value)
    requires v.MapValue?
    ensures SomeRunEnds(H, pool, keyKind, kind, v, Failed) && SomeRunEnds(H, pool, keyKind, kind, v, Dropped)
       <==> CanFail(pool, keyKind, kind, v) && CanDrop(pool, keyKind, kind, v)
    ensures CanFail(pool, keyKind, kind, v) && CanDrop(pool, keyKind, kind, v)
       <==> MapMeaning(pool, keyKind, kind, v) == Means(None, true)
  {
    hide SomeRunEnds, CanFail, CanDrop, MapMeaning;
    if CanFail(pool, keyKind, kind, v) {
      FailingRun(H, pool, keyKind, kind, v);
    }
    if CanDrop(pool, keyKind, kind, v) {
      DroppingRun(H, pool, keyKind, kind, v);
    }
    if SomeRunEnds(H, pool, keyKind, kind, v, Failed) {
      RunsEnd(H, pool, keyKind, kind, v, Failed);
    }
    if SomeRunEnds(H, pool, keyKind, kind, v, Dropped) {
      RunsEnd(H, pool, keyKind, kind, v, Dropped);
    }
    RaceMeaning(pool, keyKind, kind, v);
  }

  lemma RaceMeaning(pool: Pool, keyKind: Kind, kind: Kind, v: Value)
    requires v.MapValue?
    ensures CanFail(pool, keyKind, kind, v) && CanDrop(pool, keyKind, kind, v)
       <==> MapMeaning(pool, keyKind, kind, v) == Means(None, true)
  {
    hide EntryMeaning, LiveKeys, MapDict;
  }

  /** A run that visits `k` first and stops there. */
  lemma StopsAt(H: Hash, pool: Pool, keyKind: Kind, kind: Kind, v: Value, k: MapKey, a: Answer)
    requires v.MapValue? && k in LiveKeys(v) && CanAnswer(H, pool, keyKind, kind, v, k, a) && AnswerEnding(a) != Kept
    ensures SomeRunEnds(H, pool, keyKind, kind, v, AnswerEnding(a))
  {
    hide LiveKeys, CanAnswer, Walk, Orders, AnswerEnding, EndingOf, CanAnswerAll;
    OneAnswer(H, pool, keyKind, kind, v, k, a);
    var answers := AnswerRest(H, pool, keyKind, kind, v, map[k := a]);
    var rest := OrderFrom(LiveKeys(v), k);
    assert forall j :: j in [k] + rest ==> j in answers by {
      Visits([k] + rest, LiveKeys(v));
    }
    FirstDecides(k, rest, answers);
    assert IsRun(H, pool, keyKind, kind, v, [k] + rest, answers);
  }

  lemma OneAnswer(H: Hash, pool: Pool, keyKind: Kind, kind: Kind, v: Value, k: MapKey, a: Answer)
    requires v.MapValue? && k in LiveKeys(v) && CanAnswer(H, pool, keyKind, kind, v, k, a)
    ensures CanAnswerAll(H, pool, keyKind, kind, v, map[k := a])
  {
    hide LiveKeys, CanAnswer;
  }

  lemma FailingRun(H: Hash, pool: Pool, keyKind: Kind, kind: Kind, v: Value)
    requires v.MapValue? && CanFail(pool, keyKind, kind, v)
    ensures SomeRunEnds(H, pool, keyKind, kind, v, Failed)
  {
    hide LiveKeys, EntryMeaning, SomeRunEnds, IsNothing, MayFail, MapPushed;
    var k :| k in LiveKeys(v) && MayFail(EntryMeaning(pool, keyKind, kind, v, k));
    StopsAt(H, pool, keyKind, kind, v, k, Failure(ValueTypeMismatch));
  }

  lemma DroppingRun(H: Hash, pool: Pool, keyKind: Kind, kind: Kind, v: Value)
    requires v.MapValue? && CanDrop(pool, keyKind, kind, v)
    ensures SomeRunEnds(H, pool, keyKind, kind, v, Dropped)
  {
    hide LiveKeys, EntryMeaning, SomeRunEnds, IsNothing, MayFail, MapPushed;
    var k :| k in LiveKeys(v) && IsNothing(EntryMeaning(pool, keyKind, kind, v, k));
    StopsAt(H, pool, keyKind, kind, v, k, Success(None));
  }

  lemma RunsEnd(H: Hash, pool: Pool, keyKind: Kind, kind: Kind, v: Value, end: Ending)
    requires v.MapValue? && SomeRunEnds(H, pool, keyKind, kind, v, end)
    ensures end == Failed ==> CanFail(pool, keyKind, kind, v)
    ensures end == Dropped ==> CanDrop(pool, keyKind, kind, v)
  {
    hide LiveKeys, CanAnswer, Walk, CanFail, CanDrop;
    var o, a :| IsRun(H, pool, keyKind, kind, v, o, a) && EndingOf(Walk(o, a)) == end;
    RunAnswers(H, pool, keyKind, kind, v, o, a);
    EndsAsAnswer(o, a);
    if end != Kept {
      var k :| k in o && AnswerEnding(a[k]) == end;
      AnswerSays(H, pool, keyKind, kind, v, k, a[k]);
    }
  }

  lemma RunAnswers(H: Hash, pool: Pool, keyKind: Kind, kind: Kind, v: Value, order: seq<MapKey>, answers: Answers)
    requires v.MapValue? && IsRun(H, pool, keyKind, kind, v, order, answers)
    ensures forall k :: k in order ==>
              k in answers && k in LiveKeys(v) && CanAnswer(H, pool, keyKind, kind, v, k, answers[k])
  {
    hide LiveKeys, CanAnswer;
  }

  lemma AnswerSays(H: Hash, pool: Pool, keyKind: Kind, kind: Kind, v: Value, k: MapKey, a: Answer)
    requires v.MapValue? && k in LiveKeys(v) && CanAnswer(H, pool, keyKind, kind, v, k, a)
    ensures AnswerEnding(a) == Failed ==> CanFail(pool, keyKind, kind, v)
    ensures AnswerEnding(a) == Dropped ==> CanDrop(pool, keyKind, kind, v)
  {
    hide LiveKeys, EntryMeaning, IsNothing, MayFail, MapPushed;
  }
}

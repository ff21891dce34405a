/**
 * The hasher as it runs: engines fed piece by piece, hash maps walked in whatever order they give, entries sorted
 * before they are fed. Whatever the order, a run that does not fail gives the digest of the value's canonical tree,
 * unless two keys of one map have the same digest.
 */
module Hashing {
  import opened Wrappers
  import opened Machine
  import opened Sequences
  import opened HashTree
  import opened HashMeaning

  datatype HashError = UnsupportedType | UnexpectedKind | EmptyValue | ValueTypeMismatch

  /** Somewhere in the tree a map has two different keys with the same digest. */
  ghost predicate KeyClash(H: Hash, t: Tree) {
    match t
    case Leaf(_) => false
    case ListNode(items) => exists i :: 0 <= i < |items| && KeyClash(H, items[i])
    case DictNode(byNumber, m) =>
      || (!byNumber && exists j, k :: j in m && k in m && j != k && H(ScalarBytes(j)) == H(ScalarBytes(k)))
      || exists k :: k in m && KeyClash(H, m[k])
  }

  /** `d` is the tree's digest, or a key clash made the order of its entries matter. */
  ghost predicate IsDigest(H: Hash, t: Tree, d: Digest) {
    d == TreeDigest(H, t) || KeyClash(H, t)
  }

  /** A run's outcome is one the value's meaning allows. */
  ghost predicate Agrees(H: Hash, x: Meaning, r: Result<Option<Digest>, HashError>) {
    match r
    case Failure(_) => MayFail(x)
    case Success(d) => x.Means? && (d.None? <==> x.tree.None?) && (d.Some? ==> IsDigest(H, x.tree.value, d.value))
  }

  // ----- Sorting -----

  datatype Entry = Entry(rank: nat, k: Digest, v: Digest)

  ghost predicate Sorted(s: seq<Entry>) {
    forall i, j :: 0 <= i < j < |s| ==> s[i].rank <= s[j].rank
  }

  /** The first byte in which two digests differ is smaller in the first. */
  ghost predicate Before(a: seq<byte>, b: seq<byte>) {
    exists i :: 0 <= i < |a| && i < |b| && a[..i] == b[..i] && a[i] < b[i]
  }

  /** Ranking digests by the number they spell is the order of their bytes. */
  lemma {:induction false} RankIsByteOrder(a: seq<byte>, b: seq<byte>)
    requires |a| == |b|
    ensures BigEndian(a) < BigEndian(b) <==> Before(a, b)
  {
    if a != [] {
      var n := |a| - 1;
      var x, y := a[..n], b[..n];
      RankIsByteOrder(x, y);
      if Before(x, y) {
        var i :| 0 <= i < n && x[..i] == y[..i] && x[i] < y[i];
        assert a[..i] == x[..i] && b[..i] == y[..i];
      }
      if Before(a, b) {
        var i :| 0 <= i <= n && a[..i] == b[..i] && a[i] < b[i];
        if i < n {
          assert x[..i] == a[..i] && y[..i] == b[..i];
          assert x[i] < y[i];
        }
      }
      if BigEndian(x) == BigEndian(y) {
        BigEndianInjective(x, y);
      }
    }
  }

  /** Stable insertion: after the entries of no greater rank. */
  method Insert(sorted: seq<Entry>, e: Entry) returns (sorted': seq<Entry>)
    requires Sorted(sorted)
    ensures Sorted(sorted') && multiset(sorted') == multiset(sorted) + multiset{e}
  {
    var i := |sorted|;
    while i > 0 && sorted[i - 1].rank > e.rank
      invariant 0 <= i <= |sorted| && forall j :: i <= j < |sorted| ==> e.rank < sorted[j].rank
    {
      i := i - 1;
    }
    InsertedMultiset(sorted, i, e);
    sorted' := sorted[..i] + [e] + sorted[i..];
  }

  lemma InsertedMultiset(s: seq<Entry>, i: nat, e: Entry)
    requires i <= |s|
    ensures multiset(s[..i] + [e] + s[i..]) == multiset(s) + multiset{e}
  {
    assert s == s[..i] + s[i..];
  }

  lemma NonDescending(s: seq<Entry>)
    requires Sorted(s)
    ensures forall i, j :: 0 <= i < j < |s| ==> s[i].rank <= s[j].rank
  {
  }

  method SortEntries(entries: seq<Entry>) returns (sorted: seq<Entry>)
    ensures Sorted(sorted) && multiset(sorted) == multiset(entries)
    ensures forall i, j :: 0 <= i < j < |sorted| ==> sorted[i].rank <= sorted[j].rank
  {
    hide Sorted;
    sorted := [];
    assert Sorted(sorted) by { NothingSorted(); }
    for n := 0 to |entries|
      invariant Sorted(sorted) && multiset(sorted) == multiset(entries[..n])
    {
      assert entries[..n + 1] == entries[..n] + [entries[n]];
      sorted := Insert(sorted, entries[n]);
    }
    assert entries[..|entries|] == entries;
    NonDescending(sorted);
  }

  lemma NothingSorted()
    ensures Sorted([])
  {
  }

  lemma HeadIsLeast(s: seq<Entry>, e: Entry)
    requires Sorted(s) && e in multiset(s)
    ensures s != [] && s[0].rank <= e.rank && Sorted(s[1..])
  {
    var i :| 0 <= i < |s| && s[i] == e;
  }

  /** Without ties there is one sorted arrangement. */
  lemma {:induction false} SortedUnique(s: seq<Entry>, t: seq<Entry>)
    requires Sorted(s) && Sorted(t) && multiset(s) == multiset(t)
    requires forall a, b :: a in s && b in s && a.rank == b.rank ==> a == b
    ensures s == t
    decreases |s|
  {
    hide Sorted;
    if s == [] || t == [] {
      assert |s| == |multiset(s)| == |multiset(t)| == |t|;
    } else {
      assert s[0] in multiset(s) && t[0] in multiset(t);
      HeadIsLeast(t, s[0]);
      HeadIsLeast(s, t[0]);
      assert t[0] in s;
      RemoveSame(s, 0, t, 0);
      assert s[1..] == Remove(s, 0) && t[1..] == Remove(t, 0);
      SortedUnique(s[1..], t[1..]);
    }
  }

  function Feed(entries: seq<Entry>): seq<byte> {
    if entries == [] then [] else Feed(entries[..|entries| - 1]) + entries[|entries| - 1].k + entries[|entries| - 1].v
  }

  /** The entries are sorted and fed to an engine that has taken the map identifier. */
  method DigestEntries(H: Hash, entries: seq<Entry>) returns (d: Digest)
    ensures exists s :: Sorted(s) && multiset(s) == multiset(entries) && d == H([MAP_IDENTIFIER] + Feed(s))
  {
    var s := SortEntries(entries);
    var engine := [MAP_IDENTIFIER];
    for i := 0 to |s|
      invariant engine == [MAP_IDENTIFIER] + Feed(s[..i])
    {
      assert s[..i + 1][..i] == s[..i];
      engine := engine + s[i].k;
      engine := engine + s[i].v;
    }
    assert s[..|s|] == s;
    d := H(engine);
  }

  // ----- What the fed entries amount to -----

  /** The entry of key `k` of a dictionary. */
  ghost function EntryOf(H: Hash, t: Tree, k: Scalar): Entry
    requires t.DictNode? && k in t.entries
  {
    Entry(Rank(H, t.byNumber, k), H(ScalarBytes(k)), TreeDigest(H, t.entries[k]))
  }

  ghost function EntriesOf(H: Hash, t: Tree, ks: seq<Scalar>): seq<Entry>
    requires t.DictNode? && forall k :: k in ks ==> k in t.entries
  {
    if ks == [] then [] else EntriesOf(H, t, ks[..|ks| - 1]) + [EntryOf(H, t, ks[|ks| - 1])]
  }

  lemma {:induction false} EntriesOfAt(H: Hash, t: Tree, ks: seq<Scalar>)
    requires t.DictNode? && forall k :: k in ks ==> k in t.entries
    ensures |EntriesOf(H, t, ks)| == |ks|
    ensures forall i :: 0 <= i < |ks| ==> EntriesOf(H, t, ks)[i] == EntryOf(H, t, ks[i])
  {
    hide EntryOf;
    if ks != [] {
      EntriesOfAt(H, t, ks[..|ks| - 1]);
    }
  }

  lemma {:induction false} FeedSnoc(H: Hash, t: Tree, ks: seq<Scalar>, k: Scalar)
    requires t.DictNode? && k in t.entries && forall j :: j in ks ==> j in t.entries
    ensures EntryDigests(H, t, ks + [k]) == EntryDigests(H, t, ks) + H(ScalarBytes(k)) + TreeDigest(H, t.entries[k])
    decreases |ks|
  {
    hide TreeDigest, ScalarBytes;
    if ks == [] {
      assert EntryDigests(H, t, [k]) == H(ScalarBytes(k)) + TreeDigest(H, t.entries[k]) + EntryDigests(H, t, [k][1..]);
      assert ks + [k] == [k];
    } else {
      assert (ks + [k])[1..] == ks[1..] + [k];
      FeedSnoc(H, t, ks[1..], k);
    }
  }

  lemma {:induction false} FeedIsEntryDigests(H: Hash, t: Tree, ks: seq<Scalar>)
    requires t.DictNode? && forall k :: k in ks ==> k in t.entries
    ensures Feed(EntriesOf(H, t, ks)) == EntryDigests(H, t, ks)
    decreases |ks|
  {
    hide TreeDigest, ScalarBytes, Rank;
    if ks != [] {
      var n := |ks| - 1;
      FeedIsEntryDigests(H, t, ks[..n]);
      FeedSnoc(H, t, ks[..n], ks[n]);
      assert ks == ks[..n] + [ks[n]];
      var es := EntriesOf(H, t, ks);
      assert es[..|es| - 1] == EntriesOf(H, t, ks[..n]);
    }
  }

  lemma EntriesOfRemove(H: Hash, t: Tree, ks: seq<Scalar>, i: nat)
    requires t.DictNode? && (forall k :: k in ks ==> k in t.entries) && i < |ks|
    ensures |EntriesOf(H, t, ks)| == |ks| && EntriesOf(H, t, Remove(ks, i)) == Remove(EntriesOf(H, t, ks), i)
  {
    hide EntryOf, EntriesOf;
    EntriesOfAt(H, t, ks);
    EntriesOfAt(H, t, Remove(ks, i));
  }

  lemma {:induction false} EntriesOfPermuted(H: Hash, t: Tree, ks: seq<Scalar>, js: seq<Scalar>)
    requires t.DictNode? && (forall k :: k in ks ==> k in t.entries) && multiset(ks) == multiset(js)
    requires forall j :: j in js ==> j in t.entries
    ensures multiset(EntriesOf(H, t, ks)) == multiset(EntriesOf(H, t, js))
    decreases |ks|
  {
    hide EntryOf, EntriesOf;
    if js == [] {
      assert |ks| == |multiset(ks)| == |multiset(js)|;
      assert ks == js;
    } else {
      var n := |js| - 1;
      assert js[n] in multiset(ks);
      var i :| 0 <= i < |ks| && ks[i] == js[n];
      RemoveSame(ks, i, js, n);
      EntriesOfPermuted(H, t, Remove(ks, i), Remove(js, n));
      EntriesOfRemove(H, t, ks, i);
      EntriesOfRemove(H, t, js, n);
      EntriesOfAt(H, t, ks);
      EntriesOfAt(H, t, js);
      RemoveSame(EntriesOf(H, t, ks), i, EntriesOf(H, t, js), n);
    }
  }

  /** `e` is what was pushed for key `k`; the value's digest may have been spoilt by a clash below. */
  ghost predicate Pushed(H: Hash, t: Tree, k: Scalar, e: Entry) {
    && t.DictNode? && k in t.entries
    && e.rank == Rank(H, t.byNumber, k) && e.k == H(ScalarBytes(k)) && IsDigest(H, t.entries[k], e.v)
  }

  lemma NoTies(H: Hash, t: Tree, j: Scalar, k: Scalar)
    requires t.DictNode? && j in t.entries && k in t.entries && Rank(H, t.byNumber, j) == Rank(H, t.byNumber, k)
    requires t.byNumber ==> j.IntScalar? && k.IntScalar?
    ensures j == k || KeyClash(H, t)
  {
    if !t.byNumber {
      BigEndianInjective(H(ScalarBytes(j)), H(ScalarBytes(k)));
    }
  }

  /** Feeding the sorted entries gives the dictionary's digest, in whatever order they were pushed. */
  lemma DictDigest(H: Hash, t: Tree, ks: seq<Scalar>, es: seq<Entry>, s: seq<Entry>)
    requires t.DictNode? && multiset(ks) == multiset(t.entries.Keys)
    requires t.byNumber ==> forall k :: k in t.entries ==> k.IntScalar?
    requires |es| == |ks| && forall i :: 0 <= i < |ks| ==> Pushed(H, t, ks[i], es[i])
    requires Sorted(s) && multiset(s) == multiset(es)
    ensures IsDigest(H, t, H([MAP_IDENTIFIER] + Feed(s)))
  {
    hide TreeDigest, EntryDigests, Rank, ScalarBytes, Feed, Sorted, KeyClash;
    if !KeyClash(H, t) {
      SameKeys(ks, t.entries.Keys);
      EntriesOfAt(H, t, ks);
      assert es == EntriesOf(H, t, ks) by {
        hide EntriesOf;
        forall i | 0 <= i < |ks| ensures es[i] == EntryOf(H, t, ks[i]) {
          assert Pushed(H, t, ks[i], es[i]);
          ChildClash(H, t, ks[i]);
        }
      }
      var o := InOrder(H, t.byNumber, t.entries.Keys);
      InOrderIsSorted(H, t.byNumber, t.entries.Keys);
      EntriesOfPermuted(H, t, ks, o);
      OrderedEntries(H, t, o);
      SortedUnique(EntriesOf(H, t, o), s);
      FeedIsEntryDigests(H, t, o);
      TreeDigestOfDict(H, t);
    }
  }

  lemma SameKeys(ks: seq<Scalar>, keys: set<Scalar>)
    requires multiset(ks) == multiset(keys)
    ensures forall k :: k in ks <==> k in keys
  {
    forall k ensures k in ks <==> k in keys {
      assert k in ks <==> k in multiset(ks);
    }
  }

  /** A sequence without repetition that holds the elements of a set. */
  lemma {:induction false} SeqOfSet<T>(ks: seq<T>, keys: set<T>)
    requires forall i, j :: 0 <= i < j < |ks| ==> ks[i] != ks[j]
    requires forall k :: k in ks <==> k in keys
    ensures multiset(ks) == multiset(keys)
    decreases |ks|
  {
    if ks == [] {
      assert keys == {};
    } else {
      var n := |ks| - 1;
      assert ks == ks[..n] + [ks[n]];
      forall k ensures k in ks[..n] <==> k in keys - {ks[n]} {
      }
      SeqOfSet(ks[..n], keys - {ks[n]});
      assert ks[n] in keys && multiset(keys) == multiset(keys - {ks[n]}) + multiset{ks[n]};
    }
  }

  lemma ChildClash(H: Hash, t: Tree, k: Scalar)
    requires t.DictNode? && k in t.entries
    ensures KeyClash(H, t.entries[k]) ==> KeyClash(H, t)
  {
  }

  lemma OrderedEntries(H: Hash, t: Tree, o: seq<Scalar>)
    requires t.DictNode? && (forall k :: k in o ==> k in t.entries) && SortedByRank(H, t.byNumber, o)
    requires (t.byNumber ==> forall k :: k in t.entries ==> k.IntScalar?) && !KeyClash(H, t)
    ensures Sorted(EntriesOf(H, t, o))
    ensures forall a, b :: a in EntriesOf(H, t, o) && b in EntriesOf(H, t, o) && a.rank == b.rank ==> a == b
  {
    hide TreeDigest, Rank, ScalarBytes, KeyClash;
    EntriesOfAt(H, t, o);
    var u := EntriesOf(H, t, o);
    forall a, b | a in u && b in u && a.rank == b.rank ensures a == b {
      var i :| 0 <= i < |o| && u[i] == a;
      var j :| 0 <= j < |o| && u[j] == b;
      NoTies(H, t, o[i], o[j]);
    }
  }

  lemma TreeDigestOfDict(H: Hash, t: Tree)
    requires t.DictNode?
    ensures forall k :: k in InOrder(H, t.byNumber, t.entries.Keys) ==> k in t.entries
    ensures TreeDigest(H, t) == H([MAP_IDENTIFIER] + EntryDigests(H, t, InOrder(H, t.byNumber, t.entries.Keys)))
  {
    InOrderIsSorted(H, t.byNumber, t.entries.Keys);
  }
}

/**
 * Canonical trees and their digests.
 *
 * A tree is what the hasher makes of a protobuf value once defaults, nulls and empty parts are gone. Its digest is
 * a function of the tree alone; two trees with one digest are the same tree, or two different byte strings that
 * were hashed on the way have the same hash.
 */
module HashTree {
  import opened Machine

  type Digest = d: seq<byte> | |d| == 32 witness seq(32, _ => 0)

  /** SHA-256, of which nothing is assumed but the length of its result. */
  type Hash = seq<byte> -> Digest

  datatype Scalar =
    | BoolScalar(b: bool)
    | IntScalar(n: u64)
    | FloatScalar(bits: u64)
    | StringScalar(s: seq<byte>)
    | BytesScalar(r: seq<byte>)

  /** Dictionaries come from messages, whose entries are hashed in field-number order, and from maps and structs,
      whose entries are hashed in the order of their keys' digests. */
  datatype Tree =
    | Leaf(scalar: Scalar)
    | ListNode(items: seq<Tree>)
    | DictNode(byNumber: bool, entries: map<Scalar, Tree>)

  const BOOL_IDENTIFIER: byte := 98
  const MAP_IDENTIFIER: byte := 100
  const FLOAT_IDENTIFIER: byte := 102
  const INT_IDENTIFIER: byte := 105
  const LIST_IDENTIFIER: byte := 108
  const BYTE_IDENTIFIER: byte := 114
  const UNICODE_IDENTIFIER: byte := 117

  /** What is fed to the hash for a scalar. */
  function ScalarBytes(s: Scalar): seq<byte> {
    match s
    case BoolScalar(b) => [BOOL_IDENTIFIER, if b then 49 else 48]
    case IntScalar(n) => [INT_IDENTIFIER] + FixedBigEndian(n, 8)
    case FloatScalar(bits) => [FLOAT_IDENTIFIER] + FixedBigEndian(bits, 8)
    case StringScalar(u) => [UNICODE_IDENTIFIER] + u
    case BytesScalar(r) => [BYTE_IDENTIFIER] + r
  }

  lemma ScalarBytesInjective(a: Scalar, b: Scalar)
    requires ScalarBytes(a) == ScalarBytes(b)
    ensures a == b
  {
    assert ScalarBytes(a)[1..] == ScalarBytes(b)[1..];
    assert Pow256(8) == TWO_64;
    assert ScalarBytes(a)[0] == ScalarBytes(b)[0];
    match a {
      case IntScalar(n) =>
        FixedBack(n, 8);
        FixedBack(b.n, 8);
      case FloatScalar(n) =>
        FixedBack(n, 8);
        FixedBack(b.bits, 8);
      case BoolScalar(x) =>
        assert [if x then 49 else 48] == ScalarBytes(a)[1..];
        assert [if b.b then 49 else 48] == ScalarBytes(b)[1..];
      case _ =>
    }
  }

  // ----- The order of a dictionary's entries -----

  /** What entries are sorted by: the field number, or the key's digest (byte order of 32-byte digests is the
      order of their big-endian values). */
  function Rank(H: Hash, byNumber: bool, k: Scalar): nat {
    if byNumber then (if k.IntScalar? then k.n else 0) else BigEndian(H(ScalarBytes(k)))
  }

  lemma {:induction false} FirstExists(H: Hash, byNumber: bool, ks: set<Scalar>)
    requires ks != {}
    ensures exists k :: k in ks && forall j :: j in ks ==> Rank(H, byNumber, k) <= Rank(H, byNumber, j)
    decreases |ks|
  {
    var k :| k in ks;
    var rest := ks - {k};
    if rest == {} {
      assert ks == {k};
    } else {
      FirstExists(H, byNumber, rest);
      var m :| m in rest && forall j :: j in rest ==> Rank(H, byNumber, m) <= Rank(H, byNumber, j);
      var first := if Rank(H, byNumber, k) <= Rank(H, byNumber, m) then k else m;
      assert forall j :: j in ks ==> (j == k || j in rest);
      assert first in ks && forall j :: j in ks ==> Rank(H, byNumber, first) <= Rank(H, byNumber, j);
    }
  }

  /** The keys in order; keys of equal rank in some order. */
  ghost function InOrder(H: Hash, byNumber: bool, ks: set<Scalar>): seq<Scalar>
    decreases |ks|
  {
    if ks == {} then []
    else
      FirstExists(H, byNumber, ks);
      var k :| k in ks && forall j :: j in ks ==> Rank(H, byNumber, k) <= Rank(H, byNumber, j);
      [k] + InOrder(H, byNumber, ks - {k})
  }

  ghost predicate SortedByRank(H: Hash, byNumber: bool, s: seq<Scalar>) {
    forall i, j :: 0 <= i < j < |s| ==> Rank(H, byNumber, s[i]) <= Rank(H, byNumber, s[j])
  }

  lemma {:induction false} InOrderIsSorted(H: Hash, byNumber: bool, ks: set<Scalar>)
    ensures multiset(InOrder(H, byNumber, ks)) == multiset(ks) && SortedByRank(H, byNumber, InOrder(H, byNumber, ks))
    ensures forall k :: k in InOrder(H, byNumber, ks) <==> k in ks
    decreases |ks|
  {
    hide Rank, SortedByRank;
    if ks == {} {
      NothingSorted(H, byNumber);
    } else {
      var k := FirstOf(H, byNumber, ks);
      hide InOrder;
      InOrderIsSorted(H, byNumber, ks - {k});
      OneMoreKey(ks, k, InOrder(H, byNumber, ks - {k}));
      SortedFrom(H, byNumber, ks, k, InOrder(H, byNumber, ks - {k}));
    }
  }

  lemma NothingSorted(H: Hash, byNumber: bool)
    ensures SortedByRank(H, byNumber, [])
  {
  }

  lemma FirstOf(H: Hash, byNumber: bool, ks: set<Scalar>) returns (k: Scalar)
    requires ks != {}
    ensures k in ks && forall j :: j in ks ==> Rank(H, byNumber, k) <= Rank(H, byNumber, j)
    ensures InOrder(H, byNumber, ks) == [k] + InOrder(H, byNumber, ks - {k})
  {
    hide Rank;
    k := InOrder(H, byNumber, ks)[0];
  }

  lemma SortedFrom(H: Hash, byNumber: bool, ks: set<Scalar>, k: Scalar, rest: seq<Scalar>)
    requires forall j :: j in ks ==> Rank(H, byNumber, k) <= Rank(H, byNumber, j)
    requires SortedByRank(H, byNumber, rest) && forall j :: j in rest ==> j in ks
    ensures SortedByRank(H, byNumber, [k] + rest)
  {
    hide Rank;
  }

  lemma OneMoreKey(ks: set<Scalar>, k: Scalar, rest: seq<Scalar>)
    requires k in ks && multiset(rest) == multiset(ks - {k})
    ensures multiset([k] + rest) == multiset(ks) && forall j :: j in [k] + rest <==> j in ks
  {
    assert multiset(ks) == multiset{k} + multiset(ks - {k});
    assert forall j :: j in [k] + rest <==> j in multiset([k] + rest);
  }

  // ----- Digests -----

  ghost function TreeBytes(H: Hash, t: Tree): (bs: seq<byte>)
    ensures |bs| > 0
    decreases t, 2, 0
  {
    match t
    case Leaf(s) => ScalarBytes(s)
    case ListNode(items) => [LIST_IDENTIFIER] + Digests(H, items)
    case DictNode(byNumber, m) =>
      InOrderIsSorted(H, byNumber, m.Keys);
      [MAP_IDENTIFIER] + EntryDigests(H, t, InOrder(H, byNumber, m.Keys))
  }

  ghost function TreeDigest(H: Hash, t: Tree): Digest
    decreases t, 3, 0
  {
    H(TreeBytes(H, t))
  }

  ghost function Digests(H: Hash, items: seq<Tree>): seq<byte>
    decreases items, 1, 0
  {
    if items == [] then [] else TreeDigest(H, items[0]) + Digests(H, items[1..])
  }

  ghost function EntryDigests(H: Hash, t: Tree, keys: seq<Scalar>): seq<byte>
    requires t.DictNode? && forall k :: k in keys ==> k in t.entries
    decreases t, 1, |keys|
  {
    if keys == [] then []
    else H(ScalarBytes(keys[0])) + TreeDigest(H, t.entries[keys[0]]) + EntryDigests(H, t, keys[1..])
  }

  // ----- Digests determine trees -----

  /** The tree with the origin of its dictionaries forgotten. */
  ghost function Erase(t: Tree): Tree {
    match t
    case Leaf(_) => t
    case ListNode(items) => ListNode(seq(|items|, i requires 0 <= i < |items| => Erase(items[i])))
    case DictNode(_, m) => DictNode(false, map k | k in m :: Erase(m[k]))
  }

  /** `x` is one of the byte strings hashed in computing the digest of `t`. */
  ghost predicate Feeds(H: Hash, t: Tree, x: seq<byte>) {
    || x == TreeBytes(H, t)
    || match t
       case Leaf(_) => false
       case ListNode(items) => exists i :: 0 <= i < |items| && Feeds(H, items[i], x)
       case DictNode(_, m) => exists k :: k in m && (x == ScalarBytes(k) || Feeds(H, m[k], x))
  }

  /** Two different byte strings hashed for the two trees have the same hash. */
  ghost predicate Collide(H: Hash, t: Tree, u: Tree) {
    exists x, y :: Feeds(H, t, x) && Feeds(H, u, y) && x != y && H(x) == H(y)
  }

  lemma CollideWitness(H: Hash, t: Tree, u: Tree, x: seq<byte>, y: seq<byte>)
    requires Feeds(H, t, x) && Feeds(H, u, y) && x != y && H(x) == H(y)
    ensures Collide(H, t, u)
  {
  }

  lemma {:induction false} DigestsSplit(H: Hash, xs: seq<Tree>, ys: seq<Tree>)
    requires Digests(H, xs) == Digests(H, ys)
    ensures |xs| == |ys| && forall i :: 0 <= i < |xs| ==> TreeDigest(H, xs[i]) == TreeDigest(H, ys[i])
  {
    hide TreeDigest;
    if xs != [] && ys != [] {
      var a, b := Digests(H, xs), Digests(H, ys);
      assert a[..32] == TreeDigest(H, xs[0]) && b[..32] == TreeDigest(H, ys[0]);
      assert a[32..] == Digests(H, xs[1..]) && b[32..] == Digests(H, ys[1..]);
      DigestsSplit(H, xs[1..], ys[1..]);
      forall i | 0 <= i < |xs| ensures TreeDigest(H, xs[i]) == TreeDigest(H, ys[i]) {
        if i > 0 {
          assert xs[i] == xs[1..][i - 1] && ys[i] == ys[1..][i - 1];
        }
      }
    }
  }

  lemma {:induction false} EntriesSplit(H: Hash, t: Tree, ks: seq<Scalar>, u: Tree, js: seq<Scalar>)
    requires t.DictNode? && forall k :: k in ks ==> k in t.entries
    requires u.DictNode? && forall j :: j in js ==> j in u.entries
    requires EntryDigests(H, t, ks) == EntryDigests(H, u, js)
    ensures |ks| == |js|
    ensures forall i :: 0 <= i < |ks| ==>
              H(ScalarBytes(ks[i])) == H(ScalarBytes(js[i])) && TreeDigest(H, t.entries[ks[i]]) == TreeDigest(H, u.entries[js[i]])
    decreases |ks|
  {
    hide TreeDigest, ScalarBytes;
    if ks != [] && js != [] {
      var a, b := EntryDigests(H, t, ks), EntryDigests(H, u, js);
      assert a[..32] == H(ScalarBytes(ks[0])) && b[..32] == H(ScalarBytes(js[0]));
      assert a[32..64] == TreeDigest(H, t.entries[ks[0]]) && b[32..64] == TreeDigest(H, u.entries[js[0]]);
      assert a[64..] == EntryDigests(H, t, ks[1..]) && b[64..] == EntryDigests(H, u, js[1..]);
      EntriesSplit(H, t, ks[1..], u, js[1..]);
      forall i | 0 <= i < |ks|
        ensures H(ScalarBytes(ks[i])) == H(ScalarBytes(js[i]))
        ensures TreeDigest(H, t.entries[ks[i]]) == TreeDigest(H, u.entries[js[i]])
      {
        if i > 0 {
          assert ks[i] == ks[1..][i - 1] && js[i] == js[1..][i - 1];
        }
      }
    }
  }

  lemma {:induction false} ListsInjective(H: Hash, t: Tree, u: Tree)
    requires t.ListNode? && u.ListNode? && Digests(H, t.items) == Digests(H, u.items)
    ensures Erase(t) == Erase(u) || Collide(H, t, u)
    decreases t, 0
  {
    hide TreeDigest, TreeBytes;
    DigestsSplit(H, t.items, u.items);
    if !Collide(H, t, u) {
      forall i | 0 <= i < |t.items| ensures Erase(t.items[i]) == Erase(u.items[i]) {
        DigestDeterminesTree(H, t.items[i], u.items[i]);
        if Collide(H, t.items[i], u.items[i]) {
          var x, y :| Feeds(H, t.items[i], x) && Feeds(H, u.items[i], y) && x != y && H(x) == H(y);
          CollideWitness(H, t, u, x, y);
        }
      }
    }
  }

  lemma {:induction false} EntryInjective(H: Hash, t: Tree, u: Tree, k: Scalar, j: Scalar)
    requires t.DictNode? && k in t.entries && u.DictNode? && j in u.entries && !Collide(H, t, u)
    requires H(ScalarBytes(k)) == H(ScalarBytes(j)) && TreeDigest(H, t.entries[k]) == TreeDigest(H, u.entries[j])
    ensures k == j && Erase(t.entries[k]) == Erase(u.entries[j])
    decreases t, 0
  {
    hide TreeDigest, TreeBytes, ScalarBytes, Erase;
    if ScalarBytes(k) != ScalarBytes(j) {
      CollideWitness(H, t, u, ScalarBytes(k), ScalarBytes(j));
    }
    ScalarBytesInjective(k, j);
    DigestDeterminesTree(H, t.entries[k], u.entries[j]);
    if Collide(H, t.entries[k], u.entries[j]) {
      var x, y :| Feeds(H, t.entries[k], x) && Feeds(H, u.entries[j], y) && x != y && H(x) == H(y);
      CollideWitness(H, t, u, x, y);
    }
  }

  lemma EraseDicts(t: Tree, u: Tree)
    requires t.DictNode? && u.DictNode? && t.entries.Keys == u.entries.Keys
    requires forall k :: k in t.entries ==> Erase(t.entries[k]) == Erase(u.entries[k])
    ensures Erase(t) == Erase(u)
  {
  }

  lemma {:induction false} DictsInjective(H: Hash, t: Tree, u: Tree, ks: seq<Scalar>, js: seq<Scalar>)
    requires t.DictNode? && forall k :: k in ks <==> k in t.entries
    requires u.DictNode? && forall j :: j in js <==> j in u.entries
    requires EntryDigests(H, t, ks) == EntryDigests(H, u, js)
    ensures Erase(t) == Erase(u) || Collide(H, t, u)
    decreases t, 1
  {
    hide TreeDigest, ScalarBytes, Erase, Collide, EntryDigests;
    EntriesSplit(H, t, ks, u, js);
    if !Collide(H, t, u) {
      forall i | 0 <= i < |ks| ensures ks[i] == js[i] && Erase(t.entries[ks[i]]) == Erase(u.entries[js[i]]) {
        EntryInjective(H, t, u, ks[i], js[i]);
      }
      assert ks == js;
      forall k | k in t.entries ensures Erase(t.entries[k]) == Erase(u.entries[k]) {
        var i :| 0 <= i < |ks| && ks[i] == k;
      }
      EraseDicts(t, u);
    }
  }

  /** Equal digests come from equal trees, or from a collision among the strings actually hashed. */
  lemma {:induction false} DigestDeterminesTree(H: Hash, t: Tree, u: Tree)
    requires TreeDigest(H, t) == TreeDigest(H, u)
    ensures Erase(t) == Erase(u) || Collide(H, t, u)
    decreases t, 2
  {
    var a, b := TreeBytes(H, t), TreeBytes(H, u);
    if a != b {
      CollideWitness(H, t, u, a, b);
    } else {
      assert a[0] == b[0] && a[1..] == b[1..];
      match t {
        case Leaf(s) =>
          ScalarBytesInjective(s, u.scalar);
        case ListNode(items) =>
          ListsInjective(H, t, u);
        case DictNode(byNumber, m) =>
          var ks, js := InOrder(H, byNumber, m.Keys), InOrder(H, u.byNumber, u.entries.Keys);
          InOrderIsSorted(H, byNumber, m.Keys);
          InOrderIsSorted(H, u.byNumber, u.entries.Keys);
          DictsInjective(H, t, u, ks, js);
      }
    }
  }
}

/**
 * The table of unspent outputs and the selection of outputs for an amount: smallest first, until the amount is
 * reached, in one transaction that skips rows locked by others.
 */
module Utxo {
  import opened Wrappers
  import opened Machine

  type Txid = nat
  type Address = nat
  type RuneId = nat

  datatype OutPoint = OutPoint(txid: Txid, vout: u32)

  datatype Status = Pending | Confirmed | Spent

  /** A stored row. Amounts are signed columns. */
  datatype Row = Row(address: Address, runeAmount: i64, rune: RuneId, status: Status, satsAmount: i64)

  datatype Utxo = Utxo(outpoint: OutPoint, address: Address, runeAmount: u64, rune: RuneId, status: Status,
                       satsAmount: u64)

  type Rows = map<OutPoint, Row>

  /** `Overflow` is the running total leaving 64 bits. */
  datatype DbError = NotFound | NotEnoughFunds | Overflow

  function FromRow(o: OutPoint, row: Row): Utxo {
    Utxo(o, row.address, ToU64(row.runeAmount), row.rune, row.status, ToU64(row.satsAmount))
  }

  function ToRow(u: Utxo): Row {
    Row(u.address, ToI64(u.runeAmount), u.rune, u.status, ToI64(u.satsAmount))
  }

  predicate Unspent(rows: Rows, rune: RuneId, o: OutPoint) {
    o in rows && rows[o].rune == rune && rows[o].status != Spent
  }

  // ----- Specification of a selection -----

  function OutPoints(us: seq<Utxo>): set<OutPoint> {
    set u | u in us :: u.outpoint
  }

  /** The unspent rows of the rune that nobody else has locked, in ascending order of their amount column; rows with
      equal amounts come in any order. */
  ghost predicate IsCandidates(rows: Rows, locked: set<OutPoint>, rune: RuneId, cs: seq<Utxo>) {
    && (forall i :: 0 <= i < |cs| ==> IsCandidate(rows, locked, rune, cs[i]))
    && (forall i, j :: 0 <= i < j < |cs| ==> cs[i].outpoint != cs[j].outpoint && ToI64(cs[i].runeAmount) <= ToI64(cs[j].runeAmount))
    && (forall o :: Unspent(rows, rune, o) && o !in locked ==> o in OutPoints(cs))
  }

  ghost predicate IsCandidate(rows: Rows, locked: set<OutPoint>, rune: RuneId, u: Utxo) {
    Unspent(rows, rune, u.outpoint) && u.outpoint !in locked && u == FromRow(u.outpoint, rows[u.outpoint])
  }

  function Sum(us: seq<Utxo>): nat {
    if us == [] then 0 else Sum(us[..|us| - 1]) + us[|us| - 1].runeAmount
  }

  /** How many of the candidates it takes to reach the target; all of them if they do not. */
  function Needed(cs: seq<Utxo>, target: u64): (k: nat)
    ensures k <= |cs|
    ensures Sum(cs[..k]) >= target || k == |cs|
    ensures forall j :: 0 <= j < k ==> Sum(cs[..j]) < target
  {
    if cs == [] then 0
    else
      var rest := cs[..|cs| - 1];
      var k := Needed(rest, target);
      assert forall j :: 0 <= j <= |rest| ==> cs[..j] == rest[..j];
      assert cs[..|cs|] == cs && rest[..|rest|] == rest;
      if Sum(rest[..k]) >= target then k else |cs|
  }

  function Pick(cs: seq<Utxo>, target: u64): Result<seq<Utxo>, DbError> {
    var selected := cs[..Needed(cs, target)];
    if Sum(selected) >= TWO_64 then Failure(Overflow)
    else if Sum(selected) < target then Failure(NotEnoughFunds)
    else Success(selected)
  }

  function MarkSpent(rows: Rows, spent: set<OutPoint>): Rows {
    map o | o in rows :: if o in spent then rows[o].(status := Spent) else rows[o]
  }

  /** What the update returns: the selected outputs, marked spent, in any order. */
  ghost predicate Returned(us: seq<Utxo>, selected: seq<Utxo>) {
    && OutPoints(us) == OutPoints(selected) && |us| == |selected| && Distinct(us)
    && (forall u :: u in us ==> u.status == Spent && exists v :: v in selected && u == v.(status := Spent))
  }

  /** Candidates are, once each and as stored, the rows of the rune that are not spent and not locked. */
  lemma CandidatesExactly(rows: Rows, locked: set<OutPoint>, rune: RuneId, cs: seq<Utxo>)
    requires IsCandidates(rows, locked, rune, cs)
    ensures forall o :: (exists i :: 0 <= i < |cs| && cs[i].outpoint == o)
                   <==> o in rows && rows[o].rune == rune && rows[o].status != Spent && o !in locked
    ensures forall i :: 0 <= i < |cs| ==>
              var o := cs[i].outpoint;
              && o in rows && cs[i].address == rows[o].address && cs[i].rune == rows[o].rune && cs[i].status == rows[o].status
              && ToI64(cs[i].runeAmount) == rows[o].runeAmount && ToI64(cs[i].satsAmount) == rows[o].satsAmount
  {
    forall i | 0 <= i < |cs| ensures IsCandidate(rows, locked, rune, cs[i]) {
    }
    forall o | Unspent(rows, rune, o) && o !in locked ensures exists i :: 0 <= i < |cs| && cs[i].outpoint == o {
      var u :| u in cs && u.outpoint == o;
      var i :| 0 <= i < |cs| && cs[i] == u;
      assert cs[i].outpoint == o;
    }
  }

  /** Marking changes the status of the given outputs' rows and nothing else. */
  lemma MarkedExactly(rows: Rows, us: seq<Utxo>)
    ensures MarkSpent(rows, OutPoints(us)).Keys == rows.Keys
    ensures forall o :: o in rows ==>
              var row := MarkSpent(rows, OutPoints(us))[o];
              && row.address == rows[o].address && row.rune == rows[o].rune
              && row.runeAmount == rows[o].runeAmount && row.satsAmount == rows[o].satsAmount
              && row.status == if exists i :: 0 <= i < |us| && us[i].outpoint == o then Spent else rows[o].status
  {
  }

  /** What is written to a row is read back from it. */
  lemma RowsReadBack(u: Utxo, o: OutPoint, row: Row)
    ensures FromRow(u.outpoint, ToRow(u)) == u && ToRow(FromRow(o, row)) == row
  {
  }

  // ----- The table -----

  class UtxoTable {
    var rows: Rows

    constructor ()
      ensures rows == map[]
    {
      rows := map[];
    }

    /** Inserts, or overwrites the row of the same output, spent or not. */
    method InsertUtxo(u: Utxo) returns (r: Utxo)
      modifies this
      ensures rows == old(rows)[u.outpoint := ToRow(u)] && r == u
    {
      rows := rows[u.outpoint := ToRow(u)];
      r := FromRow(u.outpoint, rows[u.outpoint]);
    }

    method UpdateStatus(o: OutPoint, status: Status) returns (r: Result<(), DbError>)
      modifies this
      ensures o in old(rows) ==> r.Success? && rows == old(rows)[o := old(rows)[o].(status := status)]
      ensures o !in old(rows) ==> r == Failure(NotFound) && rows == old(rows)
    {
      if o !in rows {
        return Failure(NotFound);
      }
      rows := rows[o := rows[o].(status := status)];
      return Success(());
    }

    method CandidatesForUpdate(rune: RuneId, locked: set<OutPoint>) returns (cs: seq<Utxo>)
      ensures IsCandidates(rows, locked, rune, cs)
    {
      var left := set o | o in rows && rows[o].rune == rune && rows[o].status != Spent && o !in locked;
      cs := [];
      while left != {}
        invariant Listing(rows, locked, rune, cs, left)
      {
        SmallestExists(rows, left);
        var o :| o in left && IsSmallest(rows, left, o);
        ListOne(rows, locked, rune, cs, left, o);
        hide Listing;
        cs := cs + [FromRow(o, rows[o])];
        left := left - {o};
      }
    }

    method MarkUtxosAsSpent(selected: seq<Utxo>) returns (us: seq<Utxo>)
      requires Distinct(selected) && AreRows(rows, selected)
      modifies this
      ensures rows == MarkSpent(old(rows), OutPoints(selected)) && Returned(us, selected)
    {
      us := [];
      var left := OutPoints(selected);
      StartMarking(rows, selected);
      while left != {}
        invariant Marking(old(rows), rows, selected, us, left)
      {
        var o :| o in left;
        MarkOne(old(rows), rows, selected, us, left, o);
        hide Marking;
        rows := rows[o := rows[o].(status := Spent)];
        us := us + [FromRow(o, rows[o])];
        left := left - {o};
      }
      DistinctCount(selected);
    }

    /** Selects the smallest unspent outputs that reach the target and marks them spent, or changes nothing. */
    method SelectUtxosForAmount(rune: RuneId, target: u64, locked: set<OutPoint>)
      returns (r: Result<seq<Utxo>, DbError>, ghost cs: seq<Utxo>)
      modifies this
      ensures IsCandidates(old(rows), locked, rune, cs)
      ensures Pick(cs, target).Failure? ==> r == Failure(Pick(cs, target).error) && rows == old(rows)
      ensures Pick(cs, target).Success? ==>
                && r.Success? && Returned(r.value, Pick(cs, target).value)
                && rows == MarkSpent(old(rows), OutPoints(Pick(cs, target).value))
    {
      hide IsCandidates, Returned, MarkSpent, Pick, OutPoints, Distinct, AreRows, Sum, Short;
      var candidates := CandidatesForUpdate(rune, locked);
      cs := candidates;
      var selected: seq<Utxo> := [];
      var total: u64 := 0;
      NothingPicked(candidates, target);
      for n := 0 to |candidates|
        invariant selected == candidates[..n] && total == Sum(selected) && Short(candidates, n, target)
        invariant rows == old(rows)
      {
        OneMore(candidates, n, target);
        if total < target {
          if total + candidates[n].runeAmount >= TWO_64 {
            PickAt(candidates, target, n + 1);
            return Failure(Overflow), cs;
          }
          total := total + candidates[n].runeAmount;
          selected := selected + [candidates[n]];
        } else {
          break;
        }
      }
      PickAt(candidates, target, |selected|);
      if total < target {
        return Failure(NotEnoughFunds), cs;
      }
      CandidatesAreRows(rows, locked, rune, candidates, |selected|);
      var us := MarkUtxosAsSpent(selected);
      return Success(us), cs;
    }
  }

  // ----- Helpers -----

  lemma PushOutPoint(us: seq<Utxo>, u: Utxo)
    ensures OutPoints(us + [u]) == OutPoints(us) + {u.outpoint}
  {
    assert (us + [u])[|us|] == u;
    assert forall v :: v in us ==> v in us + [u];
  }

  predicate IsSmallest(rows: Rows, left: set<OutPoint>, o: OutPoint)
    requires left <= rows.Keys
  {
    o in left && forall p :: p in left ==> rows[o].runeAmount <= rows[p].runeAmount
  }

  lemma {:induction false} SmallestExists(rows: Rows, left: set<OutPoint>)
    requires left != {} && left <= rows.Keys
    ensures exists o :: o in left && IsSmallest(rows, left, o)
    decreases |left|
  {
    var o :| o in left;
    var rest := left - {o};
    if rest == {} {
      assert left == {o};
      assert IsSmallest(rows, left, o);
    } else {
      SmallestExists(rows, rest);
      var m :| m in rest && IsSmallest(rows, rest, m);
      var least := if rows[o].runeAmount <= rows[m].runeAmount then o else m;
      assert forall p :: p in left ==> p == o || p in rest;
      assert IsSmallest(rows, left, least);
    }
  }

  lemma {:induction false} DistinctCount(us: seq<Utxo>)
    requires forall i, j :: 0 <= i < j < |us| ==> us[i].outpoint != us[j].outpoint
    ensures |OutPoints(us)| == |us|
  {
    if us != [] {
      var rest, last := us[..|us| - 1], us[|us| - 1];
      DistinctCount(rest);
      assert us == rest + [last];
      PushOutPoint(rest, last);
      assert last.outpoint !in OutPoints(rest);
    }
  }

  /** Fewer than `n` candidates do not reach the target. */
  ghost predicate Short(cs: seq<Utxo>, n: nat, target: u64)
    requires n <= |cs|
  {
    forall j :: 0 <= j < n ==> Sum(cs[..j]) < target
  }

  lemma NothingPicked(cs: seq<Utxo>, target: u64)
    ensures Sum([]) == 0 && cs[..0] == [] && Short(cs, 0, target)
  {
  }

  lemma OneMore(cs: seq<Utxo>, n: nat, target: u64)
    requires n < |cs| && Short(cs, n, target)
    ensures cs[..n + 1] == cs[..n] + [cs[n]] && Sum(cs[..n + 1]) == Sum(cs[..n]) + cs[n].runeAmount
    ensures Sum(cs[..n]) < target ==> Short(cs, n + 1, target)
  {
    assert cs[..n + 1][..n] == cs[..n];
  }

  lemma PickAt(cs: seq<Utxo>, target: u64, k: nat)
    requires k <= |cs| && Short(cs, k, target) && (Sum(cs[..k]) >= target || k == |cs|)
    ensures Pick(cs, target) == if Sum(cs[..k]) >= TWO_64 then Failure(Overflow)
                                else if Sum(cs[..k]) < target then Failure(NotEnoughFunds) else Success(cs[..k])
  {
    hide Sum;
    NeededIs(cs, target, k);
  }

  lemma NeededIs(cs: seq<Utxo>, target: u64, k: nat)
    requires k <= |cs| && (Sum(cs[..k]) >= target || k == |cs|) && forall j :: 0 <= j < k ==> Sum(cs[..j]) < target
    ensures Needed(cs, target) == k
  {
  }

  predicate Distinct(us: seq<Utxo>) {
    forall i, j :: 0 <= i < j < |us| ==> us[i].outpoint != us[j].outpoint
  }

  predicate AreRows(rows: Rows, us: seq<Utxo>) {
    forall i :: 0 <= i < |us| ==> us[i].outpoint in rows && us[i] == FromRow(us[i].outpoint, rows[us[i].outpoint])
  }

  lemma CandidatesAreRows(rows: Rows, locked: set<OutPoint>, rune: RuneId, cs: seq<Utxo>, k: nat)
    requires IsCandidates(rows, locked, rune, cs) && k <= |cs|
    ensures Distinct(cs[..k]) && AreRows(rows, cs[..k])
  {
    forall i | 0 <= i < k ensures cs[..k][i].outpoint in rows && cs[..k][i] == FromRow(cs[i].outpoint, rows[cs[i].outpoint]) {
      assert IsCandidate(rows, locked, rune, cs[i]);
    }
  }

  /** `cs` lists the smallest candidates so far, `left` holds the others. */
  ghost predicate Listing(rows: Rows, locked: set<OutPoint>, rune: RuneId, cs: seq<Utxo>, left: set<OutPoint>) {
    && (forall o :: o in left ==> Unspent(rows, rune, o) && o !in locked && o !in OutPoints(cs))
    && (forall i :: 0 <= i < |cs| ==> IsCandidate(rows, locked, rune, cs[i]))
    && (forall i, j :: 0 <= i < j < |cs| ==> cs[i].outpoint != cs[j].outpoint && ToI64(cs[i].runeAmount) <= ToI64(cs[j].runeAmount))
    && (forall o :: Unspent(rows, rune, o) && o !in locked ==> o in OutPoints(cs) || o in left)
    && (forall i, o :: 0 <= i < |cs| && o in left ==> ToI64(cs[i].runeAmount) <= rows[o].runeAmount)
  }

  lemma ListOne(rows: Rows, locked: set<OutPoint>, rune: RuneId, cs: seq<Utxo>, left: set<OutPoint>, o: OutPoint)
    requires Listing(rows, locked, rune, cs, left) && left <= rows.Keys && IsSmallest(rows, left, o)
    ensures Listing(rows, locked, rune, cs + [FromRow(o, rows[o])], left - {o})
    ensures left - {o} <= rows.Keys
  {
    hide OutPoints;
    PushOutPoint(cs, FromRow(o, rows[o]));
    InOutPoints(cs);
  }

  lemma InOutPoints(us: seq<Utxo>)
    ensures forall i :: 0 <= i < |us| ==> us[i].outpoint in OutPoints(us)
  {
  }

  /** `us` are the rows updated so far. */
  ghost predicate Marking(before: Rows, rows: Rows, selected: seq<Utxo>, us: seq<Utxo>, left: set<OutPoint>) {
    && OutPoints(us) + left == OutPoints(selected) && OutPoints(us) !! left
    && |us| + |left| == |OutPoints(selected)| && Distinct(us)
    && rows == MarkSpent(before, OutPoints(us))
    && AreRows(before, selected)
    && (forall u :: u in us ==> u.status == Spent && exists v :: v in selected && u == v.(status := Spent))
  }

  lemma StartMarking(rows: Rows, selected: seq<Utxo>)
    requires AreRows(rows, selected)
    ensures Marking(rows, rows, selected, [], OutPoints(selected))
  {
  }

  lemma MarkOne(before: Rows, rows: Rows, selected: seq<Utxo>, us: seq<Utxo>, left: set<OutPoint>, o: OutPoint)
    requires Marking(before, rows, selected, us, left) && o in left
    ensures o in rows
    ensures Marking(before, rows[o := rows[o].(status := Spent)], selected, us + [FromRow(o, rows[o].(status := Spent))], left - {o})
  {
    hide OutPoints, MarkSpent;
    InOutPointsOf(selected, o);
    var v :| v in selected && v.outpoint == o;
    MarkSpentOne(before, OutPoints(us), o);
    var u := FromRow(o, rows[o].(status := Spent));
    assert u == v.(status := Spent);
    PushOutPoint(us, u);
    InOutPoints(us);
    assert |left - {o}| == |left| - 1;
  }

  lemma InOutPointsOf(us: seq<Utxo>, o: OutPoint)
    requires o in OutPoints(us)
    ensures exists v :: v in us && v.outpoint == o
  {
  }

  lemma MarkSpentOne(rows: Rows, spent: set<OutPoint>, o: OutPoint)
    requires o in rows && o !in spent
    ensures var marked := MarkSpent(rows, spent);
            o in marked && marked[o] == rows[o] && marked[o := rows[o].(status := Spent)] == MarkSpent(rows, spent + {o})
  {
  }
}

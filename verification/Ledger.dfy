/**
 * The books of a rune over any run of deposits and exits, which may overlap: what is unspent and what exits in flight
 * hold add up to what was deposited less what has left.
 */
module Ledger {
  import opened Machine
  import opened Utxo
  import opened UtxoLaws
  import opened ExitFlow

  type ExitId = nat

  /** An exit between its selection and the record of its change. */
  datatype OpenExit = OpenExit(rune: RuneId, amount: u64, total: u64)

  datatype Books = Books(rows: Rows, pending: map<ExitId, OpenExit>, deposited: map<RuneId, nat>,
                         exited: map<RuneId, nat>)

  datatype Step =
    | Deposit(outpoint: OutPoint, row: Row)
    | Select(id: ExitId, rune: RuneId, amount: u64, locked: set<OutPoint>, candidates: seq<Utxo>)
    | Record(id: ExitId, outpoint: OutPoint, address: Address)

  function Count(counts: map<RuneId, nat>, rune: RuneId): nat {
    if rune in counts then counts[rune] else 0
  }

  ghost function Unspents(rows: Rows, rune: RuneId): nat {
    Total(rows, Eligible(rows, {}, rune))
  }

  ghost function InFlight(pending: map<ExitId, OpenExit>, rune: RuneId): nat
    decreases |pending|
  {
    if pending == map[] then 0
    else
      var id :| id in pending;
      InFlight(pending - {id}, rune) + if pending[id].rune == rune then pending[id].total else 0
  }

  /** A deposit is of an output not seen before, as is a change output; a step that is not enabled does nothing. */
  ghost function Next(b: Books, step: Step): Books {
    match step
    case Deposit(o, row) =>
      if o in b.rows || row.status == Spent then b
      else b.(rows := b.rows[o := row], deposited := b.deposited[row.rune := Count(b.deposited, row.rune) + ToU64(row.runeAmount)])
    case Select(id, rune, amount, locked, cs) =>
      if id in b.pending || !IsCandidates(b.rows, locked, rune, cs) || Pick(cs, amount).Failure? then b
      else
        var selected := Pick(cs, amount).value;
        b.(rows := MarkSpent(b.rows, OutPoints(selected)), pending := b.pending[id := OpenExit(rune, amount, Sum(selected))])
    case Record(id, o, address) =>
      if id !in b.pending || o in b.rows then b
      else
        var p := b.pending[id];
        var rows := if p.total > p.amount then b.rows[o := ChangeRow(address, p.rune, p.total - p.amount)] else b.rows;
        Books(rows, b.pending - {id}, b.deposited, b.exited[p.rune := Count(b.exited, p.rune) + p.amount])
  }

  ghost function Run(b: Books, steps: seq<Step>): Books {
    if steps == [] then b else Next(Run(b, steps[..|steps| - 1]), steps[|steps| - 1])
  }

  ghost predicate Balanced(b: Books, rune: RuneId) {
    Unspents(b.rows, rune) + InFlight(b.pending, rune) + Count(b.exited, rune) == Count(b.deposited, rune)
  }

  /** An exit never holds less than it pays out. */
  predicate Covered(b: Books) {
    forall id :: id in b.pending ==> b.pending[id].amount <= b.pending[id].total
  }

  // ----- Sums -----

  lemma {:induction false} InFlightRemove(pending: map<ExitId, OpenExit>, id: ExitId, rune: RuneId)
    requires id in pending
    ensures InFlight(pending, rune) == InFlight(pending - {id}, rune) + if pending[id].rune == rune then pending[id].total else 0
    decreases |pending|
  {
    var first :| first in pending
      && InFlight(pending, rune) == InFlight(pending - {first}, rune) + if pending[first].rune == rune then pending[first].total else 0;
    if first != id {
      Less(pending, first);
      Less(pending, id);
      InFlightRemove(pending - {first}, id, rune);
      InFlightRemove(pending - {id}, first, rune);
      assert pending - {first} - {id} == pending - {id} - {first};
    }
  }

  lemma Less(pending: map<ExitId, OpenExit>, id: ExitId)
    requires id in pending
    ensures |pending - {id}| < |pending|
  {
    assert (pending - {id}).Keys == pending.Keys - {id};
  }

  lemma InFlightAdd(pending: map<ExitId, OpenExit>, id: ExitId, p: OpenExit, rune: RuneId)
    requires id !in pending
    ensures InFlight(pending[id := p], rune) == InFlight(pending, rune) + if p.rune == rune then p.total else 0
  {
    InFlightRemove(pending[id := p], id, rune);
    assert pending[id := p] - {id} == pending;
  }

  /** A new unspent row adds its amount to its rune and nothing to the others. */
  lemma InsertAdds(rows: Rows, o: OutPoint, row: Row, rune: RuneId)
    requires o !in rows && row.status != Spent
    ensures Unspents(rows[o := row], rune) == Unspents(rows, rune) + if row.rune == rune then ToU64(row.runeAmount) else 0
  {
    var rows' := rows[o := row];
    var before, after := Eligible(rows, {}, rune), Eligible(rows', {}, rune);
    SameTotals(rows, rows', before);
    if row.rune == rune {
      assert after == before + {o};
      TotalAdd(rows', before, o);
    } else {
      assert after == before;
    }
  }

  // ----- Conservation -----

  lemma SelectKeeps(b: Books, id: ExitId, rune: RuneId, amount: u64, locked: set<OutPoint>, cs: seq<Utxo>, other: RuneId)
    requires id !in b.pending && IsCandidates(b.rows, locked, rune, cs) && Pick(cs, amount).Success? && Covered(b)
    ensures Balanced(b, other) ==> Balanced(Next(b, Select(id, rune, amount, locked, cs)), other)
    ensures Covered(Next(b, Select(id, rune, amount, locked, cs)))
  {
    hide IsCandidates, Eligible, MarkSpent, OutPoints, Needed;
    var selected := Pick(cs, amount).value;
    var spent := OutPoints(selected);
    SelectedUnspent(b.rows, locked, rune, cs, amount);
    MarkingTakes(b.rows, spent, rune, other);
    InFlightAdd(b.pending, id, OpenExit(rune, amount, Sum(selected)), other);
    TotalLess(b.rows, spent, rune);
  }

  lemma EligibleUnlocked(rows: Rows, locked: set<OutPoint>, rune: RuneId)
    ensures Eligible(rows, locked, rune) <= Eligible(rows, {}, rune)
  {
  }

  lemma TotalLess(rows: Rows, spent: set<OutPoint>, rune: RuneId)
    requires spent <= Eligible(rows, {}, rune)
    ensures Total(rows, spent) <= Unspents(rows, rune)
  {
    TotalMinus(rows, Eligible(rows, {}, rune), spent);
  }

  lemma RecordKeeps(b: Books, id: ExitId, o: OutPoint, address: Address, rune: RuneId)
    requires id in b.pending && o !in b.rows && Covered(b)
    ensures Balanced(b, rune) ==> Balanced(Next(b, Record(id, o, address)), rune)
  {
    hide Unspents;
    var p := b.pending[id];
    InFlightRemove(b.pending, id, rune);
    if p.total > p.amount {
      InsertAdds(b.rows, o, ChangeRow(address, p.rune, p.total - p.amount), rune);
    }
  }

  lemma StepKeeps(b: Books, step: Step, rune: RuneId)
    requires Balanced(b, rune) && Covered(b)
    ensures Balanced(Next(b, step), rune) && Covered(Next(b, step))
  {
    hide IsCandidates, Unspents, Pick;
    match step
    case Deposit(o, row) =>
      if o !in b.rows && row.status != Spent {
        InsertAdds(b.rows, o, row, rune);
      }
    case Select(id, r, amount, locked, cs) =>
      if id !in b.pending && IsCandidates(b.rows, locked, r, cs) && Pick(cs, amount).Success? {
        SelectKeeps(b, id, r, amount, locked, cs, rune);
      }
    case Record(id, o, address) =>
      if id in b.pending && o !in b.rows {
        RecordKeeps(b, id, o, address, rune);
      }
  }

  /** From empty books, over every run: unspent and in flight and gone add up to deposited, for every rune. */
  lemma {:induction false} BooksBalance(steps: seq<Step>, rune: RuneId)
    ensures Balanced(Run(Books(map[], map[], map[], map[]), steps), rune)
    ensures Covered(Run(Books(map[], map[], map[], map[]), steps))
  {
    var empty := Books(map[], map[], map[], map[]);
    if steps == [] {
      assert Eligible(empty.rows, {}, rune) == {};
    } else {
      hide Next, Balanced, Covered;
      BooksBalance(steps[..|steps| - 1], rune);
      StepKeeps(Run(empty, steps[..|steps| - 1]), steps[|steps| - 1], rune);
    }
  }

  /** With no exit in flight, what is unspent is what was deposited less what has left. */
  lemma SettledBooks(steps: seq<Step>, rune: RuneId)
    ensures var b := Run(Books(map[], map[], map[], map[]), steps);
            b.pending == map[] ==> Unspents(b.rows, rune) == Count(b.deposited, rune) - Count(b.exited, rune)
  {
    hide Run;
    BooksBalance(steps, rune);
  }

  /** One exit on its own takes exactly its amount: the selected total goes, the change comes back. */
  lemma ExitTakesItsAmount(s: Services, rows: Rows, e: Exit, locked: set<OutPoint>, rune: RuneId)
    requires IsCandidates(rows, locked, e.rune, e.candidates) && Pick(e.candidates, e.info.amount).Success?
    requires Returned(e.selected, Pick(e.candidates, e.info.amount).value) && e.total == Sum(e.selected)
    requires OutPoint(s.txid(Prevouts(e.tx), e.tx.outputs), 1) !in rows
    ensures Unspents(rows, rune) >= (if rune == e.rune then e.info.amount else 0)
    ensures Unspents(AfterExit(s, rows, e), rune) == Unspents(rows, rune) - if rune == e.rune then e.info.amount else 0
  {
    hide IsCandidates, Eligible, Unspents, Returned, Pick, OutPoints, MarkSpent, Total, Prevouts;
    var amount, spent, change := e.info.amount, OutPoints(e.selected), OutPoint(s.txid(Prevouts(e.tx), e.tx.outputs), 1);
    SelectedTotal(rows, locked, e.rune, e.candidates, amount, e.selected);
    SelectedUnspent(rows, locked, e.rune, e.candidates, amount);
    TotalLess(rows, spent, e.rune);
    UnspentsAfter(rows, spent, e.rune, rune);
    MarkSpentKeys(rows, spent);
    if e.total > amount {
      InsertAdds(MarkSpent(rows, spent), change, ChangeRow(e.changeAddress, e.rune, e.total - amount), rune);
    }
  }

  lemma SelectedUnspent(rows: Rows, locked: set<OutPoint>, rune: RuneId, cs: seq<Utxo>, amount: u64)
    requires IsCandidates(rows, locked, rune, cs) && Pick(cs, amount).Success?
    ensures var selected := Pick(cs, amount).value;
            OutPoints(selected) <= Eligible(rows, {}, rune) && Total(rows, OutPoints(selected)) == Sum(selected)
  {
    PrefixTotal(rows, locked, rune, cs, Needed(cs, amount));
    EligibleUnlocked(rows, locked, rune);
  }

  lemma MarkSpentKeys(rows: Rows, spent: set<OutPoint>)
    ensures MarkSpent(rows, spent).Keys == rows.Keys
  {
  }

  lemma UnspentsAfter(rows: Rows, spent: set<OutPoint>, rune: RuneId, other: RuneId)
    requires spent <= Eligible(rows, {}, rune)
    ensures Unspents(MarkSpent(rows, spent), other) == Unspents(rows, other) - if other == rune then Total(rows, spent) else 0
  {
    MarkingTakes(rows, spent, rune, other);
  }
}

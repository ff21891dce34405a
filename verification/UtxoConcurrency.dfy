/**
 * Concurrent selections: a transaction locks every candidate row of its rune that nobody else has locked, picks,
 * marks, and commits or rolls back; other writers wait for locked rows. No output is given out twice.
 */
module UtxoConcurrency {
  import opened Wrappers
  import opened Machine
  import opened Utxo
  import Laws = UtxoLaws

  type Tx = nat

  datatype TxState =
    | Holding(rune: RuneId, target: u64, candidates: seq<Utxo>)
    | Marked(candidates: seq<Utxo>, selected: seq<Utxo>)
    | Committed(selected: seq<Utxo>)
    | RolledBack

  datatype State = State(rows: Rows, txs: map<Tx, TxState>)

  datatype Step =
    | Begin(tx: Tx, rune: RuneId, target: u64, candidates: seq<Utxo>)
    | Mark(tx: Tx)
    | Commit(tx: Tx)
    | RollBack(tx: Tx)
    | Write(outpoint: OutPoint, row: Option<Row>)

  predicate Live(st: State, t: Tx) {
    t in st.txs && (st.txs[t].Holding? || st.txs[t].Marked?)
  }

  /** The transaction has the row locked. */
  predicate Locks(st: State, t: Tx, o: OutPoint) {
    Live(st, t) && o in OutPoints(st.txs[t].candidates)
  }

  ghost function Locked(st: State): set<OutPoint> {
    set t, o | t in st.txs && Live(st, t) && o in OutPoints(st.txs[t].candidates) :: o
  }

  function Set(st: State, t: Tx, state: TxState): State {
    st.(txs := st.txs[t := state])
  }

  /** One step; a step that is not enabled does nothing. */
  ghost function Next(st: State, step: Step): State {
    match step
    case Begin(t, rune, target, cs) =>
      if t in st.txs || !IsCandidates(st.rows, Locked(st), rune, cs) then st else Set(st, t, Holding(rune, target, cs))
    case Mark(t) =>
      if !(t in st.txs && st.txs[t].Holding?) || Pick(st.txs[t].candidates, st.txs[t].target).Failure? then st
      else Set(st, t, Marked(st.txs[t].candidates, Pick(st.txs[t].candidates, st.txs[t].target).value))
    case Commit(t) =>
      if !(t in st.txs && st.txs[t].Marked?) then st
      else Set(st, t, Committed(st.txs[t].selected)).(rows := MarkSpent(st.rows, OutPoints(st.txs[t].selected)))
    case RollBack(t) =>
      if !Live(st, t) then st else Set(st, t, RolledBack)
    case Write(o, row) =>
      if o in Locked(st) then st
      else if row.Some? then st.(rows := st.rows[o := row.value]) else st.(rows := st.rows - {o})
  }

  ghost function Run(st: State, steps: seq<Step>): State {
    if steps == [] then st else Next(Run(st, steps[..|steps| - 1]), steps[|steps| - 1])
  }

  /** The transaction's selection succeeded and gave the output out. */
  predicate Gave(st: State, t: Tx, o: OutPoint) {
    t in st.txs && st.txs[t].Committed? && o in OutPoints(st.txs[t].selected)
  }

  predicate Available(rows: Rows, o: OutPoint) {
    o in rows && rows[o].status != Spent
  }

  /** A write after which the output can be selected again. */
  predicate Resets(step: Step, o: OutPoint) {
    step.Write? && step.outpoint == o && step.row.Some? && step.row.value.status != Spent
  }

  // ----- The invariant -----

  /** What a live transaction has read is still so. */
  ghost predicate Current(st: State, t: Tx) {
    Live(st, t) ==>
      && Distinct(st.txs[t].candidates) && AreRows(st.rows, st.txs[t].candidates)
      && (forall u :: u in st.txs[t].candidates ==> u.status != Spent)
      && (st.txs[t].Marked? ==> st.txs[t].selected <= st.txs[t].candidates)
  }

  ghost predicate Exclusive(st: State, o: OutPoint) {
    forall t, u :: Locks(st, t, o) && Locks(st, u, o) ==> t == u
  }

  ghost predicate Invariant(st: State) {
    (forall t :: Current(st, t)) && (forall o :: Exclusive(st, o))
  }

  /** Once given out, the output is neither available nor locked, and it was given out once. */
  ghost predicate GivenOnce(st: State, o: OutPoint) {
    && (forall t, u :: Gave(st, t, o) && Gave(st, u, o) ==> t == u)
    && (forall t :: Gave(st, t, o) ==> !Available(st.rows, o) && forall u :: !Locks(st, u, o))
  }

  lemma LockedIff(st: State, o: OutPoint)
    ensures o in Locked(st) <==> exists t :: Locks(st, t, o)
  {
    if o in Locked(st) {
      var t :| t in st.txs && Live(st, t) && o in OutPoints(st.txs[t].candidates);
      assert Locks(st, t, o);
    }
    if t :| Locks(st, t, o) {
      assert t in st.txs && Live(st, t) && o in OutPoints(st.txs[t].candidates);
    }
  }

  lemma BeginKeeps(st: State, t: Tx, rune: RuneId, target: u64, cs: seq<Utxo>)
    requires Invariant(st) && t !in st.txs && IsCandidates(st.rows, Locked(st), rune, cs)
    ensures var st' := Set(st, t, Holding(rune, target, cs));
            && Invariant(st') && forall o :: GivenOnce(st, o) ==> GivenOnce(st', o)
  {
    hide IsCandidates, Locked, Distinct, AreRows;
    var st' := Set(st, t, Holding(rune, target, cs));
    CandidatesAreRows(st.rows, Locked(st), rune, cs, |cs|);
    assert cs[..|cs|] == cs;
    CandidatesFree(st.rows, Locked(st), rune, cs);
    forall u ensures Current(st', u) {
      assert Current(st, u);
    }
    forall o ensures Exclusive(st', o) {
      assert Exclusive(st, o);
      LockedIff(st, o);
      assert forall u :: u != t ==> (Locks(st', u, o) <==> Locks(st, u, o));
    }
    forall o | GivenOnce(st, o) ensures GivenOnce(st', o) {
      assert forall u :: Gave(st', u, o) <==> Gave(st, u, o);
      assert forall u :: u != t ==> (Locks(st', u, o) <==> Locks(st, u, o));
    }
  }

  lemma CandidatesFree(rows: Rows, locked: set<OutPoint>, rune: RuneId, cs: seq<Utxo>)
    requires IsCandidates(rows, locked, rune, cs)
    ensures forall o :: o in OutPoints(cs) ==> Available(rows, o) && o !in locked
    ensures forall u :: u in cs ==> u.status != Spent
  {
    forall u | u in cs ensures IsCandidate(rows, locked, rune, u) {
      var i :| 0 <= i < |cs| && cs[i] == u;
      assert IsCandidate(rows, locked, rune, cs[i]);
    }
  }

  /** A transaction that goes on, or gives up, locks nothing new. */
  lemma SetKeeps(st: State, t: Tx, state: TxState)
    requires Invariant(st) && Live(st, t)
    requires state.RolledBack? || (state.Marked? && state.candidates == st.txs[t].candidates && state.selected <= state.candidates)
    ensures Invariant(Set(st, t, state)) && forall o :: GivenOnce(st, o) ==> GivenOnce(Set(st, t, state), o)
  {
    hide Distinct, AreRows, OutPoints;
    var st' := Set(st, t, state);
    assert Current(st, t);
    forall u ensures Current(st', u) {
      assert Current(st, u);
    }
    forall u, o ensures Locks(st', u, o) ==> Locks(st, u, o) {
    }
    forall u, o ensures Gave(st', u, o) <==> Gave(st, u, o) {
    }
    forall o ensures Exclusive(st', o) {
      assert Exclusive(st, o);
    }
    forall o | GivenOnce(st, o) ensures GivenOnce(st', o) {
    }
  }

  /** Committing makes the selected outputs unavailable; nobody else had them locked. */
  lemma CommitKeeps(st: State, t: Tx)
    requires Invariant(st) && t in st.txs && st.txs[t].Marked?
    ensures var st' := Next(st, Commit(t)); Invariant(st') && forall o :: GivenOnce(st, o) ==> GivenOnce(st', o)
  {
    var selected := st.txs[t].selected;
    var st' := Next(st, Commit(t));
    assert Current(st, t);
    SelectedLocked(st, t);
    hide OutPoints, Next;
    forall u, o ensures Locks(st', u, o) ==> Locks(st, u, o) && u != t {
      CommitIs(st, t);
    }
    forall u ensures Current(st', u) {
      assert Current(st, u);
      if Live(st', u) {
        CommitIs(st, t);
        OthersUntouched(st, t, u);
      }
    }
    forall o ensures Exclusive(st', o) {
      assert Exclusive(st, o);
    }
    forall o | GivenOnce(st, o) ensures GivenOnce(st', o) {
      CommitIs(st, t);
      assert Exclusive(st, o);
      assert o in OutPoints(selected) ==> Locks(st, t, o);
      assert forall u :: Gave(st', u, o) <==> Gave(st, u, o) || (u == t && o in OutPoints(selected));
      assert Available(st'.rows, o) ==> Available(st.rows, o) && o !in OutPoints(selected);
    }
  }

  lemma CommitIs(st: State, t: Tx)
    requires t in st.txs && st.txs[t].Marked?
    ensures Next(st, Commit(t)) == State(MarkSpent(st.rows, OutPoints(st.txs[t].selected)), st.txs[t := Committed(st.txs[t].selected)])
  {
  }

  lemma SelectedLocked(st: State, t: Tx)
    requires t in st.txs && st.txs[t].Marked? && Current(st, t)
    ensures forall o :: o in OutPoints(st.txs[t].selected) ==> Locks(st, t, o)
  {
    assert forall u :: u in st.txs[t].selected ==> u in st.txs[t].candidates;
  }

  lemma OthersUntouched(st: State, t: Tx, u: Tx)
    requires Invariant(st) && t in st.txs && st.txs[t].Marked? && Live(st, u) && u != t
    ensures AreRows(MarkSpent(st.rows, OutPoints(st.txs[t].selected)), st.txs[u].candidates)
  {
    assert Current(st, t) && Current(st, u);
    SelectedLocked(st, t);
    var cs := st.txs[u].candidates;
    InOutPoints(cs);
    forall i | 0 <= i < |cs| ensures cs[i].outpoint !in OutPoints(st.txs[t].selected) {
      assert Locks(st, u, cs[i].outpoint) && Exclusive(st, cs[i].outpoint);
    }
  }

  /** A writer waits for locked rows, so what transactions have read stays as it is. */
  lemma WriteKeeps(st: State, o: OutPoint, row: Option<Row>)
    requires Invariant(st)
    ensures var st' := Next(st, Write(o, row));
            Invariant(st') && forall p :: GivenOnce(st, p) && !Resets(Write(o, row), p) ==> GivenOnce(st', p)
  {
    var st' := Next(st, Write(o, row));
    forall u ensures Current(st', u) {
      assert Current(st, u);
      if Live(st, u) && o !in Locked(st) {
        LockedIff(st, o);
        assert !Locks(st, u, o);
        InOutPoints(st.txs[u].candidates);
      }
    }
    forall p ensures Exclusive(st', p) {
      assert Exclusive(st, p);
      assert forall u :: Locks(st', u, p) <==> Locks(st, u, p);
    }
    forall p | GivenOnce(st, p) && !Resets(Write(o, row), p) ensures GivenOnce(st', p) {
      assert forall u :: Locks(st', u, p) <==> Locks(st, u, p);
      assert forall u :: Gave(st', u, p) <==> Gave(st, u, p);
    }
  }

  lemma PickPrefix(cs: seq<Utxo>, target: u64)
    requires Pick(cs, target).Success?
    ensures Pick(cs, target).value <= cs
  {
  }

  lemma StepKeeps(st: State, step: Step)
    requires Invariant(st)
    ensures Invariant(Next(st, step))
    ensures forall o :: GivenOnce(st, o) && !Resets(step, o) ==> GivenOnce(Next(st, step), o)
  {
    hide Invariant, GivenOnce, IsCandidates, Pick;
    match step
    case Begin(t, rune, target, cs) =>
      if t !in st.txs && IsCandidates(st.rows, Locked(st), rune, cs) {
        BeginKeeps(st, t, rune, target, cs);
      }
    case Mark(t) =>
      if t in st.txs && st.txs[t].Holding? && Pick(st.txs[t].candidates, st.txs[t].target).Success? {
        PickPrefix(st.txs[t].candidates, st.txs[t].target);
        SetKeeps(st, t, Marked(st.txs[t].candidates, Pick(st.txs[t].candidates, st.txs[t].target).value));
      }
    case Commit(t) =>
      if t in st.txs && st.txs[t].Marked? {
        CommitKeeps(st, t);
      }
    case RollBack(t) =>
      if Live(st, t) {
        SetKeeps(st, t, RolledBack);
      }
    case Write(o, row) => WriteKeeps(st, o, row);
  }

  lemma {:induction false} RunKeeps(st: State, steps: seq<Step>, o: OutPoint)
    requires Invariant(st) && GivenOnce(st, o) && forall n :: 0 <= n < |steps| ==> !Resets(steps[n], o)
    ensures Invariant(Run(st, steps)) && GivenOnce(Run(st, steps), o)
  {
    hide Invariant, GivenOnce, Next, Resets;
    if steps != [] {
      RunKeeps(st, steps[..|steps| - 1], o);
      StepKeeps(Run(st, steps[..|steps| - 1]), steps[|steps| - 1]);
    }
  }

  /** Under every interleaving, no output is returned by two successful selections unless a writer resets its row. */
  lemma NoDoubleSelection(rows: Rows, steps: seq<Step>, o: OutPoint, t: Tx, u: Tx)
    requires forall n :: 0 <= n < |steps| ==> !Resets(steps[n], o)
    requires Gave(Run(State(rows, map[]), steps), t, o) && Gave(Run(State(rows, map[]), steps), u, o)
    ensures t == u
  {
    hide Run, Resets;
    RunKeeps(State(rows, map[]), steps, o);
  }

  // ----- Available again -----

  lemma {:induction false} ListRest(rows: Rows, locked: set<OutPoint>, rune: RuneId, listed: seq<Utxo>,
                                    left: set<OutPoint>)
    returns (cs: seq<Utxo>)
    requires Listing(rows, locked, rune, listed, left)
    ensures IsCandidates(rows, locked, rune, cs)
    decreases |left|
  {
    if left == {} {
      cs := listed;
    } else {
      assert left <= rows.Keys;
      SmallestExists(rows, left);
      var o :| o in left && IsSmallest(rows, left, o);
      ListOne(rows, locked, rune, listed, left, o);
      cs := ListRest(rows, locked, rune, listed + [FromRow(o, rows[o])], left - {o});
    }
  }

  lemma CandidatesExist(rows: Rows, locked: set<OutPoint>, rune: RuneId) returns (cs: seq<Utxo>)
    ensures IsCandidates(rows, locked, rune, cs)
  {
    cs := ListRest(rows, locked, rune, [], Laws.Eligible(rows, locked, rune));
  }

  lemma {:induction false} AboveAll(s: set<Tx>) returns (bound: Tx)
    ensures forall t :: t in s ==> t < bound
    decreases |s|
  {
    if s == {} {
      bound := 0;
    } else {
      var t :| t in s;
      var rest := AboveAll(s - {t});
      bound := if rest > t then rest else t + 1;
      assert forall u :: u in s ==> u == t || u in s - {t};
    }
  }

  function Selecting(t: Tx, rune: RuneId, target: u64, cs: seq<Utxo>): seq<Step> {
    [Begin(t, rune, target, cs), Mark(t), Commit(t)]
  }

  /** A selection that nobody interrupts. */
  lemma SelectsAlone(st: State, t: Tx, rune: RuneId, target: u64, cs: seq<Utxo>)
    requires t !in st.txs && IsCandidates(st.rows, Locked(st), rune, cs) && Pick(cs, target).Success?
    ensures var selected := Pick(cs, target).value;
            Run(st, Selecting(t, rune, target, cs)) == State(MarkSpent(st.rows, OutPoints(selected)), st.txs[t := Committed(selected)])
  {
    hide IsCandidates, Locked, Pick, MarkSpent, OutPoints;
    var selected := Pick(cs, target).value;
    var a := Set(st, t, Holding(rune, target, cs));
    assert Next(st, Begin(t, rune, target, cs)) == a;
    var b := Next(a, Mark(t));
    assert b == State(st.rows, st.txs[t := Marked(cs, selected)]);
    var c := Next(b, Commit(t));
    assert c == State(MarkSpent(st.rows, OutPoints(selected)), st.txs[t := Committed(selected)]);
    hide Next;
    RunOne(st, [], Begin(t, rune, target, cs));
    RunOne(st, [Begin(t, rune, target, cs)], Mark(t));
    RunOne(st, [Begin(t, rune, target, cs), Mark(t)], Commit(t));
    assert [] + [Begin(t, rune, target, cs)] == [Begin(t, rune, target, cs)];
    assert [Begin(t, rune, target, cs)] + [Mark(t)] == [Begin(t, rune, target, cs), Mark(t)];
    assert [Begin(t, rune, target, cs), Mark(t)] + [Commit(t)] == Selecting(t, rune, target, cs);
  }

  lemma RunOne(st: State, steps: seq<Step>, last: Step)
    ensures Run(st, steps + [last]) == Next(Run(st, steps), last)
  {
    assert (steps + [last])[..|steps|] == steps;
  }

  lemma {:induction false} RunAppend(st: State, steps: seq<Step>, more: seq<Step>)
    ensures Run(st, steps + more) == Run(Run(st, steps), more)
  {
    hide Next;
    if more == [] {
      assert steps + more == steps;
    } else {
      var rest, last := more[..|more| - 1], more[|more| - 1];
      RunAppend(st, steps, rest);
      assert steps + more == (steps + rest) + [last];
      RunOne(st, steps + rest, last);
    }
  }

  predicate Positive(rows: Rows, o: OutPoint) {
    Available(rows, o) && rows[o].runeAmount != 0
  }

  /** Asked for one unit, a selection takes the candidates up to the first that has any. */
  lemma PicksOne(rows: Rows, locked: set<OutPoint>, rune: RuneId, cs: seq<Utxo>, o: OutPoint)
    requires IsCandidates(rows, locked, rune, cs) && Positive(rows, o) && rows[o].rune == rune && o !in locked
    ensures Pick(cs, 1).Success? && Pick(cs, 1).value != []
    ensures OutPoints(Pick(cs, 1).value) <= Laws.Eligible(rows, locked, rune)
  {
    var k := Needed(cs, 1);
    SomePositive(rows, locked, rune, cs, o);
    Laws.PrefixTotal(rows, locked, rune, cs, k);
    hide IsCandidates, OutPoints;
    assert cs[..|cs|] == cs && Sum(cs[..0]) == 0;
    assert k > 0 && Sum(cs[..k]) >= 1;
    FitsOne(cs, k);
  }

  lemma FitsOne(cs: seq<Utxo>, k: nat)
    requires 0 < k <= |cs| && Sum(cs[..k - 1]) < 1
    ensures Sum(cs[..k]) < TWO_64
  {
    assert cs[..k][..k - 1] == cs[..k - 1];
  }

  lemma SomePositive(rows: Rows, locked: set<OutPoint>, rune: RuneId, cs: seq<Utxo>, o: OutPoint)
    requires IsCandidates(rows, locked, rune, cs) && Positive(rows, o) && rows[o].rune == rune && o !in locked
    ensures Sum(cs) >= 1
  {
    var i := AmongCandidates(rows, locked, rune, cs, o);
    hide IsCandidates;
    SumAtLeast(cs, i);
  }

  lemma AmongCandidates(rows: Rows, locked: set<OutPoint>, rune: RuneId, cs: seq<Utxo>, o: OutPoint) returns (i: nat)
    requires IsCandidates(rows, locked, rune, cs) && Positive(rows, o) && rows[o].rune == rune && o !in locked
    ensures i < |cs| && cs[i].runeAmount >= 1
  {
    assert o in OutPoints(cs);
    i :| 0 <= i < |cs| && cs[i].outpoint == o;
    assert IsCandidate(rows, locked, rune, cs[i]);
  }

  lemma SumAtLeast(cs: seq<Utxo>, i: nat)
    requires i < |cs|
    ensures Sum(cs) >= cs[i].runeAmount
  {
    Laws.SumGrows(cs, i + 1, |cs|);
    assert cs[..i + 1][..i] == cs[..i] && cs[..|cs|] == cs;
  }

  /** Whoever has committed holds no lock. */
  lemma CommittedLocksNothing(st: State, t: Tx, rows: Rows, selected: seq<Utxo>)
    requires t !in st.txs
    ensures Locked(State(rows, st.txs[t := Committed(selected)])) == Locked(st)
  {
    var st' := State(rows, st.txs[t := Committed(selected)]);
    forall o ensures o in Locked(st') <==> o in Locked(st) {
      LockedIff(st, o);
      LockedIff(st', o);
      assert forall u :: Locks(st', u, o) <==> Locks(st, u, o);
    }
  }

  /** From any state in which an output is unspent and unlocked and has runes, selections alone give it out, to a
      transaction that has not begun yet. */
  lemma {:induction false} AvailableGetsGiven(st: State, o: OutPoint) returns (more: seq<Step>, u: Tx)
    requires Positive(st.rows, o) && o !in Locked(st)
    ensures u !in st.txs && Gave(Run(st, more), u, o)
    ensures forall n :: 0 <= n < |more| ==> !more[n].Write?
    decreases |Laws.Eligible(st.rows, Locked(st), st.rows[o].rune)|
  {
    hide IsCandidates, Locked, Pick, MarkSpent, OutPoints, Run;
    var rune, locked := st.rows[o].rune, Locked(st);
    var cs := CandidatesExist(st.rows, locked, rune);
    u := AboveAll(st.txs.Keys);
    PicksOne(st.rows, locked, rune, cs, o);
    SelectsAlone(st, u, rune, 1, cs);
    var selected := Pick(cs, 1).value;
    var now := Run(st, Selecting(u, rune, 1, cs));
    if o in OutPoints(selected) {
      more := Selecting(u, rune, 1, cs);
    } else {
      CommittedLocksNothing(st, u, now.rows, selected);
      FewerLeft(st.rows, locked, rune, selected, o);
      var later, v := AvailableGetsGiven(now, o);
      RunAppend(st, Selecting(u, rune, 1, cs), later);
      more, u := Selecting(u, rune, 1, cs) + later, v;
    }
  }

  lemma FewerLeft(rows: Rows, locked: set<OutPoint>, rune: RuneId, selected: seq<Utxo>, o: OutPoint)
    requires selected != [] && OutPoints(selected) <= Laws.Eligible(rows, locked, rune)
    requires Positive(rows, o) && rows[o].rune == rune && o !in OutPoints(selected)
    ensures var rows' := MarkSpent(rows, OutPoints(selected));
            && Positive(rows', o) && rows'[o].rune == rune
            && |Laws.Eligible(rows', locked, rune)| < |Laws.Eligible(rows, locked, rune)|
  {
    var spent := OutPoints(selected);
    var before, after := Laws.Eligible(rows, locked, rune), Laws.Eligible(MarkSpent(rows, spent), locked, rune);
    assert selected[0].outpoint in spent by {
      InOutPoints(selected);
    }
    assert after == before - spent;
    assert |before| == |before - spent| + |before * spent|;
    assert selected[0].outpoint in before * spent;
  }

  /** Not available and not locked: nobody can be given the output now. */
  ghost predicate Gone(st: State, o: OutPoint) {
    !Available(st.rows, o) && forall t :: !Locks(st, t, o)
  }

  lemma GoneKeeps(st: State, step: Step, o: OutPoint)
    requires Invariant(st) && Gone(st, o) && !Resets(step, o)
    ensures Gone(Next(st, step), o) && forall u :: Gave(Next(st, step), u, o) ==> Gave(st, u, o)
  {
    hide Pick;
    var st' := Next(st, step);
    if step.Begin? && step.tx !in st.txs && IsCandidates(st.rows, Locked(st), step.rune, step.candidates) {
      CandidatesFree(st.rows, Locked(st), step.rune, step.candidates);
    } else if step.Commit? && step.tx in st.txs && st.txs[step.tx].Marked? {
      assert Current(st, step.tx);
      SelectedLocked(st, step.tx);
    }
    hide IsCandidates, OutPoints;
    forall u ensures !Locks(st', u, o) {
      assert !Locks(st, u, o);
    }
  }

  lemma {:induction false} RunGone(st: State, steps: seq<Step>, o: OutPoint)
    requires Invariant(st) && Gone(st, o) && forall n :: 0 <= n < |steps| ==> !Resets(steps[n], o)
    ensures Invariant(Run(st, steps)) && Gone(Run(st, steps), o) && forall u :: Gave(Run(st, steps), u, o) ==> Gave(st, u, o)
  {
    hide Invariant, Gone, Gave, Next, Resets;
    if steps != [] {
      var before, last := Run(st, steps[..|steps| - 1]), steps[|steps| - 1];
      RunGone(st, steps[..|steps| - 1], o);
      StepKeeps(before, last);
      GoneKeeps(before, last, o);
    }
  }

  ghost predicate NoResets(steps: seq<Step>, o: OutPoint) {
    forall n :: 0 <= n < |steps| ==> !Resets(steps[n], o)
  }

  /** When an output can be given out again: in every reachable state in which it has been given out and no transaction
      has it locked, some continuation that does not reset it gives it to another transaction, exactly when its row has
      been made unspent again. */
  lemma GivenAgainIff(rows: Rows, steps: seq<Step>, o: OutPoint, t: Tx)
    requires Gave(Run(State(rows, map[]), steps), t, o) && o !in Locked(Run(State(rows, map[]), steps))
    requires var st := Run(State(rows, map[]), steps); o in st.rows ==> st.rows[o].runeAmount != 0
    ensures var st := Run(State(rows, map[]), steps);
            (exists more, u :: NoResets(more, o) && !Gave(st, u, o) && Gave(Run(st, more), u, o)) <==> Available(st.rows, o)
  {
    hide Run, Invariant, Locked, Gave;
    var start := State(rows, map[]);
    var st := Run(start, steps);
    Reachable(start, steps);
    if Available(st.rows, o) {
      var more, u := AvailableGetsGiven(st, o);
      NotBegun(st, u, o);
      assert NoResets(more, o) && !Gave(st, u, o) && Gave(Run(st, more), u, o);
    } else if more, u :| NoResets(more, o) && !Gave(st, u, o) && Gave(Run(st, more), u, o) {
      LockedIff(st, o);
      RunGone(st, more, o);
      assert false;
    }
  }

  lemma NotBegun(st: State, u: Tx, o: OutPoint)
    requires u !in st.txs
    ensures !Gave(st, u, o)
  {
  }

  lemma {:induction false} Reachable(st: State, steps: seq<Step>)
    requires st.txs == map[]
    ensures Invariant(Run(st, steps))
  {
    hide Next;
    if steps != [] {
      hide Invariant;
      Reachable(st, steps[..|steps| - 1]);
      StepKeeps(Run(st, steps[..|steps| - 1]), steps[|steps| - 1]);
    }
  }
}

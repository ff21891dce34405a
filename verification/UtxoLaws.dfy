/** What a selection guarantees: it fails only for lack of funds, and takes no more outputs than any choice needs. */
module UtxoLaws {
  import opened Wrappers
  import opened Machine
  import opened Utxo

  function Amount(rows: Rows, o: OutPoint): nat {
    if o in rows then ToU64(rows[o].runeAmount) else 0
  }

  /** The sum of the amounts of a set of outputs. */
  ghost function Total(rows: Rows, s: set<OutPoint>): nat
    decreases |s|
  {
    if s == {} then 0
    else
      var o :| o in s;
      Amount(rows, o) + Total(rows, s - {o})
  }

  ghost function Eligible(rows: Rows, locked: set<OutPoint>, rune: RuneId): set<OutPoint> {
    set o | o in rows && Unspent(rows, rune, o) && o !in locked
  }

  lemma {:induction false} TotalRemove(rows: Rows, s: set<OutPoint>, o: OutPoint)
    requires o in s
    ensures Total(rows, s) == Amount(rows, o) + Total(rows, s - {o})
    decreases |s|
  {
    var p :| p in s && Total(rows, s) == Amount(rows, p) + Total(rows, s - {p});
    if p != o {
      TotalRemove(rows, s - {p}, o);
      TotalRemove(rows, s - {o}, p);
      assert s - {p} - {o} == s - {o} - {p};
    }
  }

  lemma TotalAdd(rows: Rows, s: set<OutPoint>, o: OutPoint)
    requires o !in s
    ensures Total(rows, s + {o}) == Total(rows, s) + Amount(rows, o)
  {
    TotalRemove(rows, s + {o}, o);
    assert s + {o} - {o} == s;
  }

  /** Exchanging dearer outputs for cheaper ones until only the chosen are left. */
  lemma {:induction false} Cheapest(rows: Rows, chosen: set<OutPoint>, s: set<OutPoint>)
    requires |s| == |chosen| && forall o, p :: o in chosen && p in s && p !in chosen ==> Amount(rows, o) <= Amount(rows, p)
    ensures Total(rows, chosen) <= Total(rows, s)
    decreases |s - chosen|
  {
    if s - chosen == {} {
      SubsetOfSize(s, chosen);
    } else {
      var p :| p in s - chosen;
      var o := OneMissing(s, chosen);
      var t := s - {p} + {o};
      assert t - chosen == s - chosen - {p};
      Cheapest(rows, chosen, t);
      TotalRemove(rows, s, p);
      TotalAdd(rows, s - {p}, o);
    }
  }

  lemma SubsetOfSize<T>(a: set<T>, b: set<T>)
    requires a <= b && |a| == |b|
    ensures a == b
  {
    if x :| x in b && x !in a {
      Smaller(a, b - {x});
    }
  }

  lemma {:induction false} Smaller<T>(a: set<T>, b: set<T>)
    requires a <= b
    ensures |a| <= |b|
  {
    if a != {} {
      var x :| x in a;
      Smaller(a - {x}, b - {x});
    }
  }

  lemma OneMissing<T>(a: set<T>, b: set<T>) returns (o: T)
    requires |a| == |b| && a - b != {}
    ensures o in b - a
  {
    assert b <= a + (b - a);
    if b - a == {} {
      SubsetOfSize(b, a);
      assert false;
    }
    o :| o in b - a;
  }

  // ----- The candidates in order -----

  lemma LastIsNew(us: seq<Utxo>)
    requires Distinct(us) && us != []
    ensures var rest, last := us[..|us| - 1], us[|us| - 1]; last.outpoint !in OutPoints(rest) && OutPoints(us) == OutPoints(rest) + {last.outpoint}
  {
    var rest, last := us[..|us| - 1], us[|us| - 1];
    assert us == rest + [last];
    PushOutPoint(rest, last);
  }

  lemma {:induction false} SumIsTotal(rows: Rows, us: seq<Utxo>)
    requires Distinct(us) && AreRows(rows, us)
    ensures Sum(us) == Total(rows, OutPoints(us)) && |OutPoints(us)| == |us|
  {
    if us != [] {
      hide OutPoints;
      var rest, last := us[..|us| - 1], us[|us| - 1];
      SumIsTotal(rows, rest);
      LastIsNew(us);
      TotalAdd(rows, OutPoints(rest), last.outpoint);
    }
  }

  lemma CandidatesAreEligible(rows: Rows, locked: set<OutPoint>, rune: RuneId, cs: seq<Utxo>)
    requires IsCandidates(rows, locked, rune, cs)
    ensures OutPoints(cs) == Eligible(rows, locked, rune)
  {
    forall i | 0 <= i < |cs| ensures cs[i].outpoint in Eligible(rows, locked, rune) {
      assert IsCandidate(rows, locked, rune, cs[i]);
    }
  }

  lemma PrefixTotal(rows: Rows, locked: set<OutPoint>, rune: RuneId, cs: seq<Utxo>, k: nat)
    requires IsCandidates(rows, locked, rune, cs) && k <= |cs|
    ensures Sum(cs[..k]) == Total(rows, OutPoints(cs[..k])) && |OutPoints(cs[..k])| == k
    ensures OutPoints(cs[..k]) <= Eligible(rows, locked, rune)
  {
    CandidatesAreRows(rows, locked, rune, cs, k);
    SumIsTotal(rows, cs[..k]);
    CandidatesAreEligible(rows, locked, rune, cs);
    assert forall u :: u in cs[..k] ==> u in cs;
  }

  /** No amount was stored as a negative number. */
  ghost predicate SmallAmounts(rows: Rows) {
    forall o :: o in rows ==> rows[o].runeAmount >= 0
  }

  lemma AscendingAmounts(rows: Rows, locked: set<OutPoint>, rune: RuneId, cs: seq<Utxo>, k: nat, o: OutPoint,
                         p: OutPoint)
    requires IsCandidates(rows, locked, rune, cs) && k <= |cs| && SmallAmounts(rows)
    requires o in OutPoints(cs[..k]) && p in OutPoints(cs) && p !in OutPoints(cs[..k])
    ensures Amount(rows, o) <= Amount(rows, p)
  {
    var i :| 0 <= i < k && cs[i].outpoint == o;
    var j :| 0 <= j < |cs| && cs[j].outpoint == p;
    InOutPoints(cs[..k]);
    assert forall m :: 0 <= m < k ==> cs[..k][m].outpoint == cs[m].outpoint;
    assert j >= k;
    assert IsCandidate(rows, locked, rune, cs[i]) && IsCandidate(rows, locked, rune, cs[j]);
  }

  /** A prefix of the candidates is the cheapest choice of its size. */
  lemma PrefixIsCheapest(rows: Rows, locked: set<OutPoint>, rune: RuneId, cs: seq<Utxo>, k: nat, s: set<OutPoint>)
    requires IsCandidates(rows, locked, rune, cs) && k <= |cs| && SmallAmounts(rows)
    requires s <= Eligible(rows, locked, rune) && |s| == k
    ensures Sum(cs[..k]) <= Total(rows, s)
  {
    var chosen := OutPoints(cs[..k]);
    PrefixTotal(rows, locked, rune, cs, k);
    CandidatesAreEligible(rows, locked, rune, cs);
    forall o, p | o in chosen && p in s && p !in chosen ensures Amount(rows, o) <= Amount(rows, p) {
      AscendingAmounts(rows, locked, rune, cs, k, o, p);
    }
    Cheapest(rows, chosen, s);
  }

  lemma SumGrows(cs: seq<Utxo>, j: nat, k: nat)
    requires j <= k <= |cs|
    ensures Sum(cs[..j]) <= Sum(cs[..k])
  {
    if j < k {
      SumGrows(cs, j, k - 1);
      assert cs[..k][..k - 1] == cs[..k - 1];
    }
  }

  // ----- Selection -----

  /** Funds are short exactly when all eligible outputs together are; the total cannot overflow while amounts and
      target stay below 2^63. */
  lemma SelectionIff(rows: Rows, locked: set<OutPoint>, rune: RuneId, cs: seq<Utxo>, target: u64)
    requires IsCandidates(rows, locked, rune, cs)
    ensures Pick(cs, target) == Failure(NotEnoughFunds) <==> Total(rows, Eligible(rows, locked, rune)) < target
    ensures SmallAmounts(rows) && target < TWO_63 ==> Pick(cs, target) != Failure(Overflow)
  {
    hide IsCandidates;
    var k := Needed(cs, target);
    PrefixTotal(rows, locked, rune, cs, |cs|);
    CandidatesAreEligible(rows, locked, rune, cs);
    assert cs[..|cs|] == cs;
    SumGrows(cs, k, |cs|);
    if SmallAmounts(rows) && target < TWO_63 && k > 0 {
      assert cs[..k][..k - 1] == cs[..k - 1] && Sum(cs[..k]) == Sum(cs[..k - 1]) + cs[k - 1].runeAmount;
      CandidateSmall(rows, locked, rune, cs, k - 1);
    }
  }

  lemma CandidateSmall(rows: Rows, locked: set<OutPoint>, rune: RuneId, cs: seq<Utxo>, i: nat)
    requires IsCandidates(rows, locked, rune, cs) && i < |cs| && SmallAmounts(rows)
    ensures cs[i].runeAmount < TWO_63
  {
    assert IsCandidate(rows, locked, rune, cs[i]);
  }

  /** Every choice of `k` eligible outputs reaches the target. */
  ghost predicate Suffices(rows: Rows, eligible: set<OutPoint>, target: u64, k: nat) {
    forall s :: s <= eligible && |s| == k ==> Total(rows, s) >= target
  }

  /** The number of outputs selected is the least that suffices whichever outputs one takes, and what is selected beyond
      the target is less than one of the selected amounts. */
  lemma SelectionIsLeast(rows: Rows, locked: set<OutPoint>, rune: RuneId, cs: seq<Utxo>, target: u64)
    requires IsCandidates(rows, locked, rune, cs) && SmallAmounts(rows) && Pick(cs, target).Success?
    ensures var selected := Pick(cs, target).value; var chosen := OutPoints(selected); var eligible := Eligible(rows, locked, rune);
            && chosen <= eligible && |chosen| == |selected| && Total(rows, chosen) == Sum(selected) >= target
            && (forall k :: 0 <= k <= |eligible| ==> (Suffices(rows, eligible, target, k) <==> k >= |chosen|))
            && (chosen != {} ==> exists o :: o in chosen && Sum(selected) - target < Amount(rows, o))
  {
    hide IsCandidates, Pick;
    PickIs(cs, target);
    var n := Needed(cs, target);
    var eligible := Eligible(rows, locked, rune);
    PrefixTotal(rows, locked, rune, cs, n);
    PrefixTotal(rows, locked, rune, cs, |cs|);
    CandidatesAreEligible(rows, locked, rune, cs);
    assert cs[..|cs|] == cs;
    forall k: nat | k <= |eligible| ensures Suffices(rows, eligible, target, k) <==> k >= n {
      SufficesIff(rows, locked, rune, cs, target, k);
    }
    if n > 0 {
      assert cs[..n][..n - 1] == cs[..n - 1] && Sum(cs[..n]) == Sum(cs[..n - 1]) + cs[n - 1].runeAmount;
      CandidateAmount(rows, locked, rune, cs, n - 1);
      assert cs[n - 1] in cs[..n];
      assert cs[n - 1].outpoint in OutPoints(cs[..n]);
    }
  }

  lemma PickIs(cs: seq<Utxo>, target: u64)
    requires Pick(cs, target).Success?
    ensures Pick(cs, target).value == cs[..Needed(cs, target)] && Sum(cs[..Needed(cs, target)]) >= target
  {
  }

  lemma CandidateAmount(rows: Rows, locked: set<OutPoint>, rune: RuneId, cs: seq<Utxo>, i: nat)
    requires IsCandidates(rows, locked, rune, cs) && i < |cs|
    ensures cs[i].runeAmount == Amount(rows, cs[i].outpoint)
  {
    assert IsCandidate(rows, locked, rune, cs[i]);
  }

  lemma SufficesIff(rows: Rows, locked: set<OutPoint>, rune: RuneId, cs: seq<Utxo>, target: u64, k: nat)
    requires IsCandidates(rows, locked, rune, cs) && SmallAmounts(rows) && k <= |cs|
    requires Sum(cs[..Needed(cs, target)]) >= target
    ensures Suffices(rows, Eligible(rows, locked, rune), target, k) <==> k >= Needed(cs, target)
  {
    hide IsCandidates;
    var eligible := Eligible(rows, locked, rune);
    PrefixTotal(rows, locked, rune, cs, k);
    if k < Needed(cs, target) {
      assert !Suffices(rows, eligible, target, k) by {
        assert Total(rows, OutPoints(cs[..k])) < target;
      }
    } else {
      SumGrows(cs, Needed(cs, target), k);
      forall s | s <= eligible && |s| == k ensures Total(rows, s) >= target {
        PrefixIsCheapest(rows, locked, rune, cs, k, s);
      }
    }
  }

  // ----- Marking -----

  /** A selection takes its total out of the unspent total of its rune, and nothing out of the others. */
  lemma MarkingTakes(rows: Rows, spent: set<OutPoint>, rune: RuneId, other: RuneId)
    requires spent <= Eligible(rows, {}, rune)
    ensures Total(rows, Eligible(MarkSpent(rows, spent), {}, other))
              == Total(rows, Eligible(rows, {}, other)) - (if other == rune then Total(rows, spent) else 0)
    ensures forall s :: Total(MarkSpent(rows, spent), s) == Total(rows, s)
  {
    var before, after := Eligible(rows, {}, other), Eligible(MarkSpent(rows, spent), {}, other);
    if other == rune {
      assert after == before - spent;
      TotalMinus(rows, before, spent);
    } else {
      assert after == before;
    }
    forall s ensures Total(MarkSpent(rows, spent), s) == Total(rows, s) {
      SameTotals(rows, MarkSpent(rows, spent), s);
    }
  }

  /** The order in which the update returns the rows does not change their sum. */
  lemma ReturnedSum(rows: Rows, us: seq<Utxo>, selected: seq<Utxo>)
    requires Distinct(selected) && AreRows(rows, selected) && Returned(us, selected)
    ensures Sum(us) == Sum(selected)
  {
    var marked := MarkSpent(rows, OutPoints(selected));
    ReturnedRows(rows, us, selected);
    SumIsTotal(marked, us);
    SumIsTotal(rows, selected);
    SameTotals(rows, marked, OutPoints(selected));
  }

  lemma ReturnedRows(rows: Rows, us: seq<Utxo>, selected: seq<Utxo>)
    requires AreRows(rows, selected) && Returned(us, selected)
    ensures AreRows(MarkSpent(rows, OutPoints(selected)), us)
  {
    InOutPoints(selected);
    forall i | 0 <= i < |us|
      ensures us[i].outpoint in rows
      ensures us[i] == FromRow(us[i].outpoint, MarkSpent(rows, OutPoints(selected))[us[i].outpoint])
    {
      assert us[i] in us;
      var v :| v in selected && us[i] == v.(status := Spent);
      var j :| 0 <= j < |selected| && selected[j] == v;
    }
  }

  lemma {:induction false} TotalMinus(rows: Rows, s: set<OutPoint>, part: set<OutPoint>)
    requires part <= s
    ensures Total(rows, s - part) == Total(rows, s) - Total(rows, part)
    decreases |part|
  {
    if part == {} {
      assert s - part == s;
    } else {
      var o :| o in part;
      TotalMinus(rows, s - {o}, part - {o});
      assert s - {o} - (part - {o}) == s - part;
      TotalRemove(rows, s, o);
      TotalRemove(rows, part, o);
    }
  }

  lemma {:induction false} SameTotals(a: Rows, b: Rows, s: set<OutPoint>)
    requires forall o :: o in s ==> Amount(a, o) == Amount(b, o)
    ensures Total(a, s) == Total(b, s)
    decreases |s|
  {
    if s != {} {
      var o :| o in s;
      SameTotals(a, b, s - {o});
      TotalRemove(a, s, o);
      TotalRemove(b, s, o);
    }
  }
}

/** The aggregator as an object that drives its signers, proved to take the steps of `FrostFlows`. */
module FrostAggregator {
  import opened Wrappers
  import opened FrostSigner
  import Flows = FrostFlows

  /** `answered` lists the first of the `answers` in the given order. */
  ghost predicate Lists<T>(answered: seq<(Identifier, Result<T, SignerError>)>, order: seq<Identifier>,
                           answers: map<Identifier, Result<T, SignerError>>) {
    && |answered| <= |order|
    && forall k :: 0 <= k < |answered| ==> order[k] in answers && answered[k] == (order[k], answers[order[k]])
  }

  lemma StartList<T>(order: seq<Identifier>, calls: Flows.Calls<T>)
    ensures Lists([], order, Flows.Answers(calls))
  {
  }

  lemma ListOne<T>(answered: seq<(Identifier, Result<T, SignerError>)>, order: seq<Identifier>, calls: Flows.Calls<T>)
    requires Lists(answered, order, Flows.Answers(calls)) && |answered| < |order| && order[|answered|] in calls
    ensures var i := order[|answered|]; Lists(answered + [(i, calls[i].1)], order, Flows.Answers(calls))
  {
  }

  /** The first error is that of the first answer that has one. */
  lemma {:induction false} FirstErrorIs<T>(order: seq<Identifier>, answers: map<Identifier, Result<T, SignerError>>,
                                           k: nat)
    requires k < |order| && order[k] in answers && answers[order[k]].Failure?
    requires forall m :: 0 <= m < k && order[m] in answers ==> answers[order[m]].Success?
    ensures Flows.FirstError(order, answers) == Some(answers[order[k]].error)
  {
    if k > 0 {
      FirstErrorIs(order[1..], answers, k - 1);
    }
  }

  /** `values` are those of the first `n` answers, which had no error. */
  ghost predicate GatheredSoFar<T>(order: seq<Identifier>, answers: map<Identifier, Result<T, SignerError>>, n: nat,
                                   values: map<Identifier, T>) {
    && Flows.Ordered(order, answers.Keys) && n <= |order|
    && (forall k :: 0 <= k < n ==> answers[order[k]].Success? && order[k] in values && values[order[k]] == answers[order[k]].value)
    && (forall i :: i in values ==> i in order[..n])
  }

  lemma GatherNext<T>(order: seq<Identifier>, answers: map<Identifier, Result<T, SignerError>>, n: nat,
                      values: map<Identifier, T>)
    requires GatheredSoFar(order, answers, n, values) && n < |order|
    ensures var i := order[n];
            && i in answers && i !in values
            && (answers[i].Success? ==> GatheredSoFar(order, answers, n + 1, values[i := answers[i].value]))
            && (answers[i].Failure? ==> Flows.Gathered(order, answers) == Failure(answers[i].error))
  {
    if answers[order[n]].Failure? {
      FirstErrorIs(order, answers, n);
    }
  }

  lemma GatherDone<T>(order: seq<Identifier>, answers: map<Identifier, Result<T, SignerError>>,
                      values: map<Identifier, T>)
    requires GatheredSoFar(order, answers, |order|, values)
    ensures Flows.Gathered(order, answers) == Success(values)
  {
    Flows.NoErrorIff(order, answers);
    assert values == Flows.Values(answers);
  }

  /** Takes the values out of the answers, stopping at the first error. */
  method Gather<T>(answered: seq<(Identifier, Result<T, SignerError>)>, ghost order: seq<Identifier>,
                   ghost answers: map<Identifier, Result<T, SignerError>>)
    returns (r: Result<map<Identifier, T>, SignerError>)
    requires Lists(answered, order, answers) && |answered| == |order| && Flows.Ordered(order, answers.Keys)
    ensures r == Flows.Gathered(order, answers)
  {
    hide Flows.Gathered;
    var values := map[];
    for n := 0 to |answered|
      invariant GatheredSoFar(order, answers, n, values)
    {
      hide GatheredSoFar;
      GatherNext(order, answers, n, values);
      var (verifier, response) := answered[n];
      if response.Failure? {
        return Failure(response.error);
      }
      values := values[verifier := response.value];
    }
    GatherDone(order, answers, values);
    return Success(values);
  }

  function FileOne(filed: Filed, i: Identifier, j: Identifier, package: Round2Package): Filed
  {
    var received: Packages2 := if j in filed then filed[j] else map[];
    filed[j := received[i := package]]
  }

  predicate Makes(made: Filed, i: Identifier, j: Identifier) {
    i in made && j in made[i]
  }

  /** What is filed under `j` from `i` is what `i` made for `j`; nobody's file is empty. */
  ghost predicate Filing(made: Filed, filed: Filed) {
    && (forall i, j :: Makes(made, i, j) <==> Makes(filed, j, i))
    && (forall i, j :: Makes(made, i, j) && Makes(filed, j, i) ==> filed[j][i] == made[i][j])
    && (forall j :: j in filed ==> exists i :: Makes(filed, j, i))
  }

  /** The transposed map is the one that files every package under its receiver. */
  lemma TransposedIsFiling(made: Filed, filed: Filed)
    ensures Filing(made, filed) <==> filed == Flows.Transposed(made)
  {
    hide Flows.Transposed, Filing;
    TransposedFiles(made);
    if Filing(made, filed) {
      FilingUnique(made, filed, Flows.Transposed(made));
    }
  }

  lemma FilingUnique(made: Filed, a: Filed, b: Filed)
    requires Filing(made, a) && Filing(made, b)
    ensures a == b
  {
    SameReceivers(made, a, b);
    SameReceivers(made, b, a);
    forall j | j in a ensures a[j] == b[j] {
      forall i ensures i in a[j] <==> i in b[j] {
        assert Makes(made, i, j) <==> Makes(a, j, i);
        assert Makes(made, i, j) <==> Makes(b, j, i);
      }
      forall i | i in a[j] ensures a[j][i] == b[j][i] {
        assert Makes(a, j, i) && Makes(b, j, i) && Makes(made, i, j);
      }
    }
  }

  lemma SameReceivers(made: Filed, a: Filed, b: Filed)
    requires Filing(made, a) && Filing(made, b)
    ensures a.Keys <= b.Keys
  {
    forall j | j in a ensures j in b {
      var i :| Makes(a, j, i);
      assert Makes(made, i, j) && Makes(b, j, i);
    }
  }

  lemma TransposedFiles(made: Filed)
    ensures Filing(made, Flows.Transposed(made))
  {
    var filed := Flows.Transposed(made);
    forall j | j in filed ensures exists i :: Makes(filed, j, i) {
      var i :| i in made && j in made[i];
      assert Makes(filed, j, i);
    }
  }

  lemma FilingOne(made: Filed, filed: Filed, i: Identifier, part: Packages2, j: Identifier, package: Round2Package)
    requires i !in made && j !in part && Filing(made[i := part], filed)
    ensures Filing(made[i := part[j := package]], FileOne(filed, i, j, package))
  {
    var was, now, refiled := made[i := part], made[i := part[j := package]], FileOne(filed, i, j, package);
    forall m, k ensures Makes(now, m, k) <==> Makes(refiled, k, m) {
      assert Makes(was, m, k) <==> Makes(filed, k, m);
    }
    forall m, k | Makes(now, m, k) && Makes(refiled, k, m) ensures refiled[k][m] == now[m][k] {
      assert Makes(was, m, k) <==> Makes(filed, k, m);
    }
    forall k | k in refiled ensures exists m :: Makes(refiled, k, m) {
      if k == j {
        assert Makes(refiled, j, i);
      } else {
        var m :| Makes(filed, k, m);
        assert Makes(refiled, k, m);
      }
    }
  }

  /** One more package, made by `i` for `j`. */
  lemma RegroupOne(made: Filed, i: Identifier, part: Packages2, j: Identifier, package: Round2Package)
    requires i !in made && j !in part
    ensures Flows.Transposed(made[i := part[j := package]]) == FileOne(Flows.Transposed(made[i := part]), i, j, package)
  {
    hide Flows.Transposed, Filing, FileOne;
    var was, now := made[i := part], made[i := part[j := package]];
    TransposedFiles(was);
    FilingOne(made, Flows.Transposed(was), i, part, j, package);
    TransposedIsFiling(now, FileOne(Flows.Transposed(was), i, j, package));
  }

  lemma RegroupNone(made: Filed, i: Identifier)
    requires i !in made
    ensures Flows.Transposed(made[i := map[]]) == Flows.Transposed(made)
  {
    hide Flows.Transposed;
    TransposedFiles(made);
    assert forall m, k :: Makes(made[i := map[]], m, k) <==> Makes(made, m, k);
    TransposedIsFiling(made[i := map[]], Flows.Transposed(made));
  }

  /** Files the packages of one response under their receivers. */
  method File(i: Identifier, response: Packages2, filed: Filed, ghost made: Filed) returns (refiled: Filed)
    requires i !in made && filed == Flows.Transposed(made)
    ensures refiled == Flows.Transposed(made[i := response])
  {
    hide Flows.Transposed;
    var left := response.Keys;
    ghost var part := map[];
    refiled := filed;
    RegroupNone(made, i);
    while left != {}
      invariant part.Keys + left == response.Keys && part.Keys !! left
      invariant forall j :: j in part ==> part[j] == response[j]
      invariant refiled == Flows.Transposed(made[i := part])
    {
      var j :| j in left;
      RegroupOne(made, i, part, j, response[j]);
      refiled := FileOne(refiled, i, j, response[j]);
      part := part[j := response[j]];
      left := left - {j};
    }
    assert part == response;
  }

  /** Regroups the responses by receiver, stopping at the first error. */
  method Regroup(answered: seq<(Identifier, Result<Packages2, SignerError>)>, ghost order: seq<Identifier>,
                 ghost answers: map<Identifier, Result<Packages2, SignerError>>) returns (r: Result<Filed, SignerError>)
    requires Lists(answered, order, answers) && |answered| == |order| && Flows.Ordered(order, answers.Keys)
    ensures r == match Flows.Gathered(order, answers)
                 case Success(made) => Success(Flows.Transposed(made))
                 case Failure(e) => Failure(e)
  {
    hide Flows.Transposed, Flows.Gathered;
    ghost var made := map[];
    var filed := map[];
    NothingMade();
    for n := 0 to |answered|
      invariant GatheredSoFar(order, answers, n, made)
      invariant filed == Flows.Transposed(made)
    {
      hide GatheredSoFar;
      GatherNext(order, answers, n, made);
      var (verifier, response) := answered[n];
      if response.Failure? {
        return Failure(response.error);
      }
      filed := File(verifier, response.value, filed, made);
      made := made[verifier := response.value];
    }
    GatherDone(order, answers, made);
    return Success(filed);
  }

  lemma NothingMade()
    ensures Flows.Transposed(map[]) == map[]
  {
  }

  /** The first `n` signers have been called, the others not. */
  ghost predicate Progress<T>(order: seq<Identifier>, before: map<Identifier, SignerState>, calls: Flows.Calls<T>,
                              now: map<Identifier, SignerState>, n: nat) {
    && Flows.Ordered(order, before.Keys) && before.Keys == calls.Keys == now.Keys && n <= |order|
    && (forall k :: 0 <= k < n ==> now[order[k]] == calls[order[k]].0)
    && (forall k :: n <= k < |order| ==> now[order[k]] == before[order[k]])
  }

  lemma StartProgress<T>(order: seq<Identifier>, before: map<Identifier, SignerState>, calls: Flows.Calls<T>)
    requires Flows.Ordered(order, before.Keys) && before.Keys == calls.Keys
    ensures Progress(order, before, calls, before, 0)
  {
  }

  lemma NextUncalled<T>(order: seq<Identifier>, before: map<Identifier, SignerState>, calls: Flows.Calls<T>,
                        now: map<Identifier, SignerState>, n: nat)
    requires Progress(order, before, calls, now, n) && n < |order|
    ensures order[n] in now && order[n] in before && order[n] in calls && now[order[n]] == before[order[n]]
  {
  }

  lemma OneMore<T>(order: seq<Identifier>, before: map<Identifier, SignerState>, calls: Flows.Calls<T>,
                   now: map<Identifier, SignerState>, n: nat)
    requires Progress(order, before, calls, now, n) && n < |order| && order[n] in calls
    ensures Progress(order, before, calls, now[order[n] := calls[order[n]].0], n + 1)
  {
  }

  lemma AllCalled<T>(order: seq<Identifier>, before: map<Identifier, SignerState>, calls: Flows.Calls<T>,
                     now: map<Identifier, SignerState>)
    requires Progress(order, before, calls, now, |order|)
    ensures now == Flows.NewStates(calls)
  {
    forall i | i in now ensures now[i] == calls[i].0 {
      var k :| 0 <= k < |order| && order[k] == i;
    }
  }

  /** The map of signer clients: each call goes to one signer and changes that one alone. */
  class Clients {
    const suite: Suite
    const signers: map<Identifier, Signer>

    /** The signers are separate objects that know their own identifiers, and all use one library. */
    ghost predicate Valid() {
      && (forall i :: i in signers ==> signers[i].identifier == i && signers[i].suite == suite)
      && (forall i, j :: i in signers && j in signers && i != j ==> signers[i] != signers[j])
    }

    ghost function States(): (states: map<Identifier, SignerState>)
      reads signers.Values
      ensures states.Keys == signers.Keys
    {
      map i | i in signers :: signers[i].State()
    }

    constructor (suite: Suite, signers: map<Identifier, Signer>)
      requires forall i :: i in signers ==> signers[i].identifier == i && signers[i].suite == suite
      requires forall i, j :: i in signers && j in signers && i != j ==> signers[i] != signers[j]
      ensures Valid() && this.suite == suite && this.signers == signers
    {
      this.suite, this.signers := suite, signers;
    }

    method DkgRound1(i: Identifier, id: Uuid, random: Random) returns (r: Result<Round1Package, SignerError>)
      requires Valid() && i in signers
      modifies signers.Values
      ensures var (st, answer) := HandleDkgRound1(suite, i, old(States())[i], id, random);
              States() == old(States())[i := st] && r == answer
    {
      hide HandleDkgRound1;
      r := signers[i].DkgRound1(id, random);
    }

    method DkgRound2(i: Identifier, id: Uuid, packages: Packages1) returns (r: Result<Packages2, SignerError>)
      requires Valid() && i in signers
      modifies signers.Values
      ensures var (st, answer) := HandleDkgRound2(suite, old(States())[i], id, packages);
              States() == old(States())[i := st] && r == answer
    {
      hide HandleDkgRound2;
      r := signers[i].DkgRound2(id, packages);
    }

    method DkgFinalize(i: Identifier, id: Uuid, round1: Packages1, round2: Packages2)
      returns (r: Result<PublicKeyPackage, SignerError>)
      requires Valid() && i in signers
      modifies signers.Values
      ensures var (st, answer) := HandleDkgFinalize(suite, old(States())[i], id, round1, round2);
              States() == old(States())[i := st] && r == answer
    {
      hide HandleDkgFinalize;
      r := signers[i].DkgFinalize(id, round1, round2);
    }

    method SignRound1(i: Identifier, q: SignRequest, random: Random) returns (r: Result<Commitments, SignerError>)
      requires Valid() && i in signers
      modifies signers.Values
      ensures var (st, answer) := HandleSignRound1(suite, old(States())[i], q, random);
              States() == old(States())[i := st] && r == answer
    {
      hide HandleSignRound1;
      r := signers[i].SignRound1(q, random);
    }

    method SignRound2(i: Identifier, id: Uuid, session: Uuid, package: SigningPackage, tap: bool)
      returns (r: Result<SignatureShare, SignerError>)
      requires Valid() && i in signers
      modifies signers.Values
      ensures var (st, answer) := HandleSignRound2(suite, old(States())[i], id, session, package, tap);
              States() == old(States())[i := st] && r == answer
    {
      hide HandleSignRound2;
      r := signers[i].SignRound2(id, session, package, tap);
    }
  }

  class Aggregator {
    const order: seq<Identifier>
    const verifiers: Clients
    var dkgShareStorage: map<Uuid, Flows.AggPhase>
    var signSessionStorage: map<(Uuid, Uuid), Flows.AggSignData>

    constructor (order: seq<Identifier>, verifiers: Clients, shares: map<Uuid, Flows.AggPhase>,
                 sessions: map<(Uuid, Uuid), Flows.AggSignData>)
      requires verifiers.Valid() && Flows.Ordered(order, verifiers.signers.Keys)
      ensures Valid() && this.order == order && this.verifiers == verifiers
      ensures World() == Flows.World(verifiers.States(), shares, sessions)
    {
      this.order, this.verifiers := order, verifiers;
      dkgShareStorage, signSessionStorage := shares, sessions;
    }

    ghost predicate Valid() {
      verifiers.Valid() && Flows.Ordered(order, verifiers.signers.Keys)
    }

    ghost function World(): Flows.World
      reads this, verifiers.signers.Values
    {
      Flows.World(verifiers.States(), dkgShareStorage, signSessionStorage)
    }

    method SetDkgShareData(id: Uuid, data: Flows.AggPhase)
      modifies this`dkgShareStorage
      ensures World() == old(World()).(shares := old(dkgShareStorage)[id := data])
    {
      hide Clients.States;
      dkgShareStorage := dkgShareStorage[id := data];
    }

    method SetSignData(id: Uuid, session: Uuid, data: Flows.AggSignData)
      modifies this`signSessionStorage
      ensures World() == old(World()).(sessions := old(signSessionStorage)[(id, session) := data])
    {
      hide Clients.States;
      signSessionStorage := signSessionStorage[(id, session) := data];
    }

    method CallDkgRound1(id: Uuid, draws: Flows.Draws)
      returns (answered: seq<(Identifier, Result<Round1Package, SignerError>)>)
      requires Valid()
      modifies verifiers.signers.Values
      ensures var calls := Flows.CallDkgRound1(verifiers.suite, old(World()), id, draws);
              verifiers.States() == Flows.NewStates(calls) && |answered| == |order| && Lists(answered, order, Flows.Answers(calls))
    {
      hide HandleDkgRound1, Progress, Lists, Flows.Answers, Flows.NewStates;
      ghost var before := verifiers.States();
      ghost var calls := Flows.CallDkgRound1(verifiers.suite, World(), id, draws);
      answered := [];
      StartProgress(order, before, calls);
      StartList(order, calls);
      for n := 0 to |order|
        invariant |answered| == n && Lists(answered, order, Flows.Answers(calls))
        invariant Progress(order, before, calls, verifiers.States(), n)
      {
        NextUncalled(order, before, calls, verifiers.States(), n);
        OneMore(order, before, calls, verifiers.States(), n);
        ListOne(answered, order, calls);
        var response := verifiers.DkgRound1(order[n], id, draws(order[n]));
        answered := answered + [(order[n], response)];
      }
      AllCalled(order, before, calls, verifiers.States());
    }

    method DkgRound1(id: Uuid, draws: Flows.Draws) returns (r: Result<(), Flows.AggError>)
      requires Valid()
      modifies this, verifiers.signers.Values
      ensures (World(), r) == Flows.DkgRound1(verifiers.suite, order, old(World()), id, draws)
    {
      hide Clients.States, Flows.CallDkgRound1, Flows.NewStates, Flows.Answers, Lists, Flows.Gathered;
      if id !in dkgShareStorage || !dkgShareStorage[id].Initialized? {
        return Failure(Flows.WrongState);
      }
      ghost var calls := Flows.CallDkgRound1(verifiers.suite, World(), id, draws);
      var answered := CallDkgRound1(id, draws);
      var gathered := Gather(answered, order, Flows.Answers(calls));
      if gathered.Failure? {
        return Failure(Flows.OfSigner(gathered.error));
      }
      SetDkgShareData(id, Flows.AggRound1(gathered.value));
      return Success(());
    }

    method CallDkgRound2(id: Uuid, round1: Packages1)
      returns (answered: seq<(Identifier, Result<Packages2, SignerError>)>)
      requires Valid()
      modifies verifiers.signers.Values
      ensures var calls := Flows.CallDkgRound2(verifiers.suite, old(World()), id, round1);
              verifiers.States() == Flows.NewStates(calls) && |answered| == |order| && Lists(answered, order, Flows.Answers(calls))
    {
      hide HandleDkgRound2, Progress, Lists, Flows.Answers, Flows.NewStates;
      ghost var before := verifiers.States();
      ghost var calls := Flows.CallDkgRound2(verifiers.suite, World(), id, round1);
      answered := [];
      StartProgress(order, before, calls);
      StartList(order, calls);
      for n := 0 to |order|
        invariant |answered| == n && Lists(answered, order, Flows.Answers(calls))
        invariant Progress(order, before, calls, verifiers.States(), n)
      {
        NextUncalled(order, before, calls, verifiers.States(), n);
        OneMore(order, before, calls, verifiers.States(), n);
        ListOne(answered, order, calls);
        var response := verifiers.DkgRound2(order[n], id, Flows.Others(round1, order[n]));
        answered := answered + [(order[n], response)];
      }
      AllCalled(order, before, calls, verifiers.States());
    }

    method DkgRound2(id: Uuid) returns (r: Result<(), Flows.AggError>)
      requires Valid()
      modifies this, verifiers.signers.Values
      ensures (World(), r) == Flows.DkgRound2(verifiers.suite, order, old(World()), id)
    {
      hide Clients.States, Flows.CallDkgRound2, Flows.NewStates, Flows.Answers, Lists, Flows.Gathered, Flows.Transposed;
      if id !in dkgShareStorage || !dkgShareStorage[id].AggRound1? {
        return Failure(Flows.WrongState);
      }
      var round1 := dkgShareStorage[id].round1;
      ghost var calls := Flows.CallDkgRound2(verifiers.suite, World(), id, round1);
      var answered := CallDkgRound2(id, round1);
      var regrouped := Regroup(answered, order, Flows.Answers(calls));
      if regrouped.Failure? {
        return Failure(Flows.OfSigner(regrouped.error));
      }
      SetDkgShareData(id, Flows.AggRound2(round1, regrouped.value));
      return Success(());
    }

    method CallDkgFinalize(id: Uuid, round1: Packages1, round2: Filed)
      returns (answered: seq<(Identifier, Result<PublicKeyPackage, SignerError>)>)
      requires Valid() && verifiers.signers.Keys <= round2.Keys
      modifies verifiers.signers.Values
      ensures var calls := Flows.CallDkgFinalize(verifiers.suite, old(World()), id, round1, round2);
              verifiers.States() == Flows.NewStates(calls) && |answered| == |order| && Lists(answered, order, Flows.Answers(calls))
    {
      hide HandleDkgFinalize, Progress, Lists, Flows.Answers, Flows.NewStates;
      ghost var before := verifiers.States();
      ghost var calls := Flows.CallDkgFinalize(verifiers.suite, World(), id, round1, round2);
      answered := [];
      StartProgress(order, before, calls);
      StartList(order, calls);
      for n := 0 to |order|
        invariant |answered| == n && Lists(answered, order, Flows.Answers(calls))
        invariant Progress(order, before, calls, verifiers.States(), n)
      {
        NextUncalled(order, before, calls, verifiers.States(), n);
        OneMore(order, before, calls, verifiers.States(), n);
        ListOne(answered, order, calls);
        var response := verifiers.DkgFinalize(order[n], id, Flows.Others(round1, order[n]), round2[order[n]]);
        answered := answered + [(order[n], response)];
      }
      AllCalled(order, before, calls, verifiers.States());
    }

    /** Are there packages for every signer? */
    method HaveAll(round2: Filed) returns (all: bool)
      requires Valid()
      ensures all <==> verifiers.signers.Keys <= round2.Keys
    {
      for n := 0 to |order|
        invariant forall k :: 0 <= k < n ==> order[k] in round2
      {
        if order[n] !in round2 {
          assert order[n] in verifiers.signers.Keys;
          return false;
        }
      }
      return true;
    }

    method Same(values: map<Identifier, PublicKeyPackage>) returns (same: bool)
      requires |order| > 0 && forall i :: i in order ==> i in values
      ensures same <==> Flows.AllEqual(values[order[0]], order, values)
    {
      for n := 0 to |order|
        invariant forall k :: 0 <= k < n ==> values[order[k]] == values[order[0]]
      {
        if values[order[n]] != values[order[0]] {
          return false;
        }
      }
      return true;
    }

    method DkgFinalize(id: Uuid) returns (r: Result<(), Flows.AggError>)
      requires Valid()
      modifies this, verifiers.signers.Values
      ensures (World(), r) == Flows.DkgFinalize(verifiers.suite, order, old(World()), id)
    {
      hide Clients.States, Flows.CallDkgFinalize, Flows.NewStates, Flows.Answers, Lists, Flows.Gathered, Flows.AllEqual;
      if id !in dkgShareStorage || !dkgShareStorage[id].AggRound2? {
        return Failure(Flows.WrongState);
      }
      var round1, round2 := dkgShareStorage[id].round1, dkgShareStorage[id].round2;
      var all := HaveAll(round2);
      if !all {
        return Failure(Flows.AggInternal);
      }
      ghost var calls := Flows.CallDkgFinalize(verifiers.suite, World(), id, round1, round2);
      var answered := CallDkgFinalize(id, round1, round2);
      var gathered := Gather(answered, order, Flows.Answers(calls));
      if gathered.Failure? {
        return Failure(Flows.OfSigner(gathered.error));
      }
      if order == [] {
        return Failure(Flows.Stopped);
      }
      Flows.GatheredKeys(order, Flows.Answers(calls));
      var same := Same(gathered.value);
      if !same {
        return Failure(Flows.AggInternal);
      }
      SetDkgShareData(id, Flows.AggFinalized(gathered.value[order[0]]));
      return Success(());
    }

    method RunDkgFlow(id: Uuid, draws: Flows.Draws) returns (r: Result<PublicKeyPackage, Flows.AggError>)
      requires Valid()
      modifies this, verifiers.signers.Values
      ensures (World(), r) == Flows.RunDkgFlow(verifiers.suite, order, old(World()), id, draws)
    {
      hide Clients.States, Flows.DkgRound1, Flows.DkgRound2, Flows.DkgFinalize;
      if id in dkgShareStorage && !dkgShareStorage[id].Initialized? {
        return Failure(Flows.ShareExists);
      }
      var r1 := DkgRound1(id, draws);
      if r1.Failure? {
        return Failure(r1.error);
      }
      var r2 := DkgRound2(id);
      if r2.Failure? {
        return Failure(r2.error);
      }
      var r3 := DkgFinalize(id);
      if r3.Failure? {
        return Failure(r3.error);
      }
      if id in dkgShareStorage && dkgShareStorage[id].AggFinalized? {
        return Success(dkgShareStorage[id].public);
      }
      return Failure(Flows.WrongState);
    }

    method CallSignRound1(q: SignRequest, draws: Flows.Draws)
      returns (answered: seq<(Identifier, Result<Commitments, SignerError>)>)
      requires Valid()
      modifies verifiers.signers.Values
      ensures var calls := Flows.CallSignRound1(verifiers.suite, old(World()), q, draws);
              verifiers.States() == Flows.NewStates(calls) && |answered| == |order| && Lists(answered, order, Flows.Answers(calls))
    {
      hide HandleSignRound1, Progress, Lists, Flows.Answers, Flows.NewStates;
      ghost var before := verifiers.States();
      ghost var calls := Flows.CallSignRound1(verifiers.suite, World(), q, draws);
      answered := [];
      StartProgress(order, before, calls);
      StartList(order, calls);
      for n := 0 to |order|
        invariant |answered| == n && Lists(answered, order, Flows.Answers(calls))
        invariant Progress(order, before, calls, verifiers.States(), n)
      {
        NextUncalled(order, before, calls, verifiers.States(), n);
        OneMore(order, before, calls, verifiers.States(), n);
        ListOne(answered, order, calls);
        var response := verifiers.SignRound1(order[n], q, draws(order[n]));
        answered := answered + [(order[n], response)];
      }
      AllCalled(order, before, calls, verifiers.States());
    }

    method SignRound1(q: SignRequest, draws: Flows.Draws) returns (r: Result<(), Flows.AggError>)
      requires Valid()
      modifies this, verifiers.signers.Values
      ensures (World(), r) == Flows.SignRound1(verifiers.suite, order, old(World()), q, draws)
    {
      hide Clients.States, Flows.CallSignRound1, Flows.NewStates, Flows.Answers, Lists, Flows.Gathered;
      if q.id !in dkgShareStorage || !dkgShareStorage[q.id].AggFinalized? {
        return Failure(Flows.WrongState);
      }
      ghost var calls := Flows.CallSignRound1(verifiers.suite, World(), q, draws);
      var answered := CallSignRound1(q, draws);
      var gathered := Gather(answered, order, Flows.Answers(calls));
      if gathered.Failure? {
        return Failure(Flows.OfSigner(gathered.error));
      }
      var package := SigningPackage(gathered.value, q.message);
      SetSignData(q.id, q.session, Flows.AggSignData(q.tweak, q.message, q.metadata, Flows.AggSigning1(package)));
      return Success(());
    }

    method CallSignRound2(id: Uuid, session: Uuid, package: SigningPackage, tap: bool)
      returns (answered: seq<(Identifier, Result<SignatureShare, SignerError>)>)
      requires Valid()
      modifies verifiers.signers.Values
      ensures var calls := Flows.CallSignRound2(verifiers.suite, old(World()), id, session, package, tap);
              verifiers.States() == Flows.NewStates(calls) && |answered| == |order| && Lists(answered, order, Flows.Answers(calls))
    {
      hide HandleSignRound2, Progress, Lists, Flows.Answers, Flows.NewStates;
      ghost var before := verifiers.States();
      ghost var calls := Flows.CallSignRound2(verifiers.suite, World(), id, session, package, tap);
      answered := [];
      StartProgress(order, before, calls);
      StartList(order, calls);
      for n := 0 to |order|
        invariant |answered| == n && Lists(answered, order, Flows.Answers(calls))
        invariant Progress(order, before, calls, verifiers.States(), n)
      {
        NextUncalled(order, before, calls, verifiers.States(), n);
        OneMore(order, before, calls, verifiers.States(), n);
        ListOne(answered, order, calls);
        var response := verifiers.SignRound2(order[n], id, session, package, tap);
        answered := answered + [(order[n], response)];
      }
      AllCalled(order, before, calls, verifiers.States());
    }

    /** Tweaks the public key, aggregates the shares and verifies the signature. */
    method Aggregate(data: Flows.AggSignData, public: PublicKeyPackage, tap: bool, shares: SignatureShares)
      returns (r: Result<Signature, Flows.AggError>)
      requires data.phase.AggSigning1?
      ensures r == Flows.Finish(verifiers.suite, public, data, tap, shares)
    {
      var tweaked := public;
      if data.tweak.Some? {
        tweaked := verifiers.suite.tweakPublic(tweaked, data.tweak);
      }
      if tap {
        tweaked := verifiers.suite.tweakPublic(tweaked, None);
      }
      var signature := verifiers.suite.aggregate(data.phase.package, shares, tweaked);
      if signature.None? || !verifiers.suite.verify(tweaked, data.message, signature.value) {
        return Failure(Flows.AggInternal);
      }
      return Success(signature.value);
    }

    method SignRound2(id: Uuid, session: Uuid, tap: bool) returns (r: Result<(), Flows.AggError>)
      requires Valid()
      modifies this, verifiers.signers.Values
      ensures (World(), r) == Flows.SignRound2(verifiers.suite, order, old(World()), id, session, tap)
    {
      hide Clients.States, Flows.CallSignRound2, Flows.NewStates, Flows.Answers, Lists, Flows.Gathered, Flows.Finish;
      if (id, session) !in signSessionStorage {
        return Failure(Flows.WrongState);
      }
      var data := signSessionStorage[(id, session)];
      if id !in dkgShareStorage || !dkgShareStorage[id].AggFinalized? {
        return Failure(Flows.WrongState);
      }
      if !data.phase.AggSigning1? {
        return Failure(Flows.WrongState);
      }
      var public := dkgShareStorage[id].public;
      ghost var calls := Flows.CallSignRound2(verifiers.suite, World(), id, session, data.phase.package, tap);
      var answered := CallSignRound2(id, session, data.phase.package, tap);
      var gathered := Gather(answered, order, Flows.Answers(calls));
      if gathered.Failure? {
        return Failure(Flows.OfSigner(gathered.error));
      }
      var signature := Aggregate(data, public, tap, gathered.value);
      if signature.Failure? {
        return Failure(signature.error);
      }
      SetSignData(id, session, data.(phase := Flows.AggSigning2(signature.value)));
      return Success(());
    }

    method RunSigningFlow(q: SignRequest, tap: bool, draws: Flows.Draws) returns (r: Result<Signature, Flows.AggError>)
      requires Valid()
      modifies this, verifiers.signers.Values
      ensures (World(), r) == Flows.RunSigningFlow(verifiers.suite, order, old(World()), q, tap, draws)
    {
      hide Clients.States, Flows.SignRound1, Flows.SignRound2;
      var r1 := SignRound1(q, draws);
      if r1.Failure? {
        return Failure(r1.error);
      }
      var r2 := SignRound2(q.id, q.session, tap);
      if r2.Failure? {
        return Failure(r2.error);
      }
      if (q.id, q.session) in signSessionStorage && signSessionStorage[(q.id, q.session)].phase.AggSigning2? {
        return Success(signSessionStorage[(q.id, q.session)].phase.signature);
      }
      return Failure(Flows.WrongState);
    }
  }
}

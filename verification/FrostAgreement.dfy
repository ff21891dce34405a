/**
 * What a successful flow means. Key generation succeeds exactly when the signers are fresh and the library's three
 * parts, each fed what the protocol prescribes, agree on one public key; a signing flow exactly when every signer
 * signs the recorded message under the tweaked key and the aggregate verifies under the public key tweaked alike.
 */
module FrostAgreement {
  import opened Wrappers
  import opened FrostSigner
  import opened FrostFlows
  import Flows = FrostFlows

  // ----- Key generation -----

  /** A run of the protocol between the signers: what each computed in each part. */
  datatype Transcript = Transcript(
    secret1: Secrets1,
    package1: Packages1,
    secret2: Secrets2,
    made: Filed,
    key: KeyPackages)

  /** Each signer starts from its own randomness, ... */
  ghost predicate Part1(suite: Suite, ids: set<Identifier>, draws: Draws, secret1: Secrets1, package1: Packages1) {
    && secret1.Keys == package1.Keys == ids
    && forall i :: i in ids ==> suite.part1(i, draws(i)) == Some((secret1[i], package1[i]))
  }

  /** ... makes its packages from the round-1 packages of exactly the others, ... */
  ghost predicate Part2(suite: Suite, ids: set<Identifier>, secret1: Secrets1, package1: Packages1, secret2: Secrets2,
                        made: Filed) {
    && secret1.Keys == secret2.Keys == made.Keys == ids
    && forall i :: i in ids ==> suite.part2(secret1[i], Others(package1, i)) == Some((secret2[i], made[i]))
  }

  /** ... and ends with the packages the others made for it and the common public key. */
  ghost predicate Part3(suite: Suite, ids: set<Identifier>, package1: Packages1, secret2: Secrets2, made: Filed,
                        key: KeyPackages, public: PublicKeyPackage) {
    && secret2.Keys == key.Keys == ids
    && forall i :: i in ids ==>
         && Received(made, i) != map[]
         && suite.part3(secret2[i], Others(package1, i), Received(made, i)) == Some((key[i], public))
  }

  ghost predicate IsTranscript(suite: Suite, ids: set<Identifier>, draws: Draws, t: Transcript, public: PublicKeyPackage) {
    && Part1(suite, ids, draws, t.secret1, t.package1)
    && Part2(suite, ids, t.secret1, t.package1, t.secret2, t.made)
    && Part3(suite, ids, t.package1, t.secret2, t.made, t.key, public)
  }

  ghost predicate Fresh(w: World, id: Uuid) {
    forall i :: i in w.signers ==> id !in w.signers[i].locked && id !in w.signers[i].dkg
  }

  /** The flow may start: there is somebody, the aggregator has prepared the share and no signer knows it. */
  ghost predicate Ready(w: World, id: Uuid) {
    id in w.shares && w.shares[id].Initialized? && w.signers != map[] && Fresh(w, id)
  }

  // One signer after each part.

  function Signer1(st: SignerState, id: Uuid, secret1: Round1Secret): SignerState {
    st.(locked := st.locked + {id}, dkg := st.dkg[id := DkgPhase.DkgRound1(secret1)])
  }

  function Signer2(st: SignerState, id: Uuid, secret2: Round2Secret, others: Packages1): SignerState {
    st.(locked := st.locked + {id}, dkg := st.dkg[id := DkgPhase.DkgRound2(secret2, others)])
  }

  function Signer3(st: SignerState, id: Uuid, key: KeyPackage): SignerState {
    st.(dkg := st.dkg[id := DkgFinalized(key)])
  }

  lemma Handle1(suite: Suite, me: Identifier, st: SignerState, id: Uuid, random: Random)
    ensures var (st', r) := HandleDkgRound1(suite, me, st, id, random); var made := suite.part1(me, random);
            && (r.Success? <==> id !in st.locked && id !in st.dkg && made.Some?)
            && (r.Success? ==> st' == Signer1(st, id, made.value.0) && r.value == made.value.1)
  {
  }

  lemma Handle2(suite: Suite, st: SignerState, id: Uuid, secret1: Round1Secret, others: Packages1)
    ensures var (st', r) := HandleDkgRound2(suite, Signer1(st, id, secret1), id, others); var made := suite.part2(secret1, others);
            && (r.Success? <==> made.Some?)
            && (r.Success? ==> st' == Signer2(st, id, made.value.0, others) && r.value == made.value.1)
  {
    var made := suite.part2(secret1, others);
    if made.Some? {
      Overwrite(st.dkg, id, DkgPhase.DkgRound1(secret1), DkgPhase.DkgRound2(made.value.0, others));
    }
  }

  /** From a signer that stored the packages of the request: the lock taken in round 1 is released. */
  lemma Handle3(suite: Suite, st: SignerState, id: Uuid, secret2: Round2Secret, others: Packages1, received: Packages2)
    requires id !in st.locked
    ensures var (st', r) := HandleDkgFinalize(suite, Signer2(st, id, secret2, others), id, others, received);
            var made := suite.part3(secret2, others, received);
            && (r.Success? <==> made.Some?)
            && (r.Success? ==> st' == Signer3(st, id, made.value.0) && r.value == made.value.1)
  {
    assert st.locked + {id} - {id} == st.locked;
    var made := suite.part3(secret2, others, received);
    if made.Some? {
      Overwrite(st.dkg, id, DkgPhase.DkgRound2(secret2, others), DkgFinalized(made.value.0));
    }
  }

  // Everybody after each round.

  ghost function AfterRound1(w: World, id: Uuid, secret1: Secrets1, package1: Packages1): World {
    World(map i | i in w.signers && i in secret1 :: Signer1(w.signers[i], id, secret1[i]), w.shares[id := AggRound1(package1)], w.sessions)
  }

  ghost function AfterRound2(w: World, id: Uuid, package1: Packages1, secret2: Secrets2, made: Filed): World {
    World(map i | i in w.signers && i in secret2 :: Signer2(w.signers[i], id, secret2[i], Others(package1, i)),
          w.shares[id := AggRound2(package1, Transposed(made))], w.sessions)
  }

  /** Every signer has finalized with its key and the aggregator with the public key; nothing else has changed. */
  ghost function AfterDkg(w: World, id: Uuid, key: KeyPackages, public: PublicKeyPackage): World {
    World(map i | i in w.signers && i in key :: Signer3(w.signers[i], id, key[i]), w.shares[id := AggFinalized(public)], w.sessions)
  }

  lemma Overwrite<K, V>(m: map<K, V>, k: K, a: V, b: V)
    ensures m[k := a][k := b] == m[k := b]
  {
  }

  lemma GatheredIff<T>(order: seq<Identifier>, calls: Calls<T>)
    requires Ordered(order, calls.Keys)
    ensures Gathered(order, Answers(calls)).Success? <==> forall i :: i in calls ==> calls[i].1.Success?
    ensures Gathered(order, Answers(calls)).Success? ==>
              Gathered(order, Answers(calls)).value == map i | i in calls && calls[i].1.Success? :: calls[i].1.value
  {
    NoErrorIff(order, Answers(calls));
    if Gathered(order, Answers(calls)).Success? {
      assert forall i :: i in calls ==> i in order && Answers(calls)[i] == calls[i].1;
    } else {
      var i :| i in order && i in Answers(calls) && Answers(calls)[i].Failure?;
      assert calls[i].1.Failure?;
    }
  }

  lemma CallsResult<T>(order: seq<Identifier>, calls: Calls<T>, states: map<Identifier, SignerState>,
                       values: map<Identifier, T>)
    requires Ordered(order, calls.Keys) && calls.Keys == states.Keys == values.Keys
    requires forall i :: i in calls ==> calls[i] == (states[i], Success(values[i]))
    ensures NewStates(calls) == states && Gathered(order, Answers(calls)) == Success(values)
  {
    hide Gathered;
    GatheredIff(order, calls);
    assert values == map i | i in calls && calls[i].1.Success? :: calls[i].1.value;
    assert NewStates(calls) == states;
  }

  /** Round 1 goes through exactly from fresh signers, and locks the share everywhere. */
  lemma Round1Iff(suite: Suite, order: seq<Identifier>, w: World, id: Uuid, draws: Draws)
    requires Ordered(order, w.signers.Keys) && id in w.shares && w.shares[id].Initialized?
    ensures Flows.DkgRound1(suite, order, w, id, draws).1.Success? <==> Fresh(w, id) && forall i :: i in w.signers ==> suite.part1(i, draws(i)).Some?
  {
    hide HandleDkgRound1, Gathered, NewStates, Answers, Ordered;
    var calls := CallDkgRound1(suite, w, id, draws);
    GatheredIff(order, calls);
    forall i | i in w.signers
      ensures calls[i].1.Success? <==> id !in w.signers[i].locked && id !in w.signers[i].dkg && suite.part1(i, draws(i)).Some?
    {
      Handle1(suite, i, w.signers[i], id, draws(i));
    }
  }

  lemma Round1Result(suite: Suite, order: seq<Identifier>, w: World, id: Uuid, draws: Draws, secret1: Secrets1,
                     package1: Packages1)
    requires Ordered(order, w.signers.Keys) && id in w.shares && w.shares[id].Initialized? && Fresh(w, id)
    requires Part1(suite, w.signers.Keys, draws, secret1, package1)
    ensures Flows.DkgRound1(suite, order, w, id, draws) == (AfterRound1(w, id, secret1, package1), Success(()))
  {
    hide HandleDkgRound1, Gathered, NewStates, Answers, Ordered, Signer1;
    var calls := CallDkgRound1(suite, w, id, draws);
    var after := AfterRound1(w, id, secret1, package1);
    forall i | i in w.signers ensures calls[i] == (after.signers[i], Success(package1[i])) {
      Handle1(suite, i, w.signers[i], id, draws(i));
    }
    CallsResult(order, calls, after.signers, package1);
  }

  ghost predicate Round2Call(suite: Suite, st: SignerState, id: Uuid, secret1: Round1Secret, others: Packages1,
                             call: (SignerState, Result<Packages2, SignerError>)) {
    var made := suite.part2(secret1, others);
    && (call.1.Success? <==> made.Some?)
    && (call.1.Success? ==> call == (Signer2(st, id, made.value.0, others), Success(made.value.1)))
  }

  ghost predicate FinalizeCall(suite: Suite, st: SignerState, id: Uuid, secret2: Round2Secret, others: Packages1,
                               received: Packages2, call: (SignerState, Result<PublicKeyPackage, SignerError>)) {
    var made := suite.part3(secret2, others, received);
    && (call.1.Success? <==> made.Some?)
    && (call.1.Success? ==> call == (Signer3(st, id, made.value.0), Success(made.value.1)))
  }

  /** Round 2 from where round 1 ended: what the library makes of the others' packages is stored and regrouped. */
  lemma Round2Calls(suite: Suite, w: World, id: Uuid, secret1: Secrets1, package1: Packages1)
    requires secret1.Keys == w.signers.Keys
    ensures var w1 := AfterRound1(w, id, secret1, package1); var calls := CallDkgRound2(suite, w1, id, package1);
            && w1.signers.Keys == w.signers.Keys
            && forall i :: i in w.signers ==> Round2Call(suite, w.signers[i], id, secret1[i], Others(package1, i), calls[i])
  {
    hide HandleDkgRound2, Signer1, Signer2;
    forall i | i in w.signers {
      Handle2(suite, w.signers[i], id, secret1[i], Others(package1, i));
    }
  }

  lemma Round2Unfold(suite: Suite, order: seq<Identifier>, w: World, id: Uuid, package1: Packages1)
    requires id in w.shares && w.shares[id] == AggRound1(package1)
    ensures var calls := CallDkgRound2(suite, w, id, package1); var gathered := Gathered(order, Answers(calls));
            && (Flows.DkgRound2(suite, order, w, id).1.Success? <==> gathered.Success?)
            && (gathered.Success? ==>
                  var after := World(NewStates(calls), w.shares[id := AggRound2(package1, Transposed(gathered.value))], w.sessions);
                  Flows.DkgRound2(suite, order, w, id) == (after, Success(())))
  {
    hide Gathered, Transposed, NewStates, Answers, CallDkgRound2;
  }

  lemma Round2Iff(suite: Suite, order: seq<Identifier>, w: World, id: Uuid, secret1: Secrets1, package1: Packages1)
    requires Ordered(order, w.signers.Keys) && secret1.Keys == w.signers.Keys
    ensures Flows.DkgRound2(suite, order, AfterRound1(w, id, secret1, package1), id).1.Success?
       <==> forall i :: i in w.signers ==> suite.part2(secret1[i], Others(package1, i)).Some?
  {
    hide Gathered, Transposed, NewStates, Answers, CallDkgRound2, Flows.DkgRound2, Signer1, Signer2, Ordered;
    var w1 := AfterRound1(w, id, secret1, package1);
    Round2Calls(suite, w, id, secret1, package1);
    Round2Unfold(suite, order, w1, id, package1);
    GatheredIff(order, CallDkgRound2(suite, w1, id, package1));
  }

  lemma Round2Result(suite: Suite, order: seq<Identifier>, w: World, id: Uuid, secret1: Secrets1, package1: Packages1,
                     secret2: Secrets2, made: Filed)
    requires Ordered(order, w.signers.Keys) && Part2(suite, w.signers.Keys, secret1, package1, secret2, made)
    ensures Flows.DkgRound2(suite, order, AfterRound1(w, id, secret1, package1), id) == (AfterRound2(w, id, package1, secret2, made), Success(()))
  {
    hide Gathered, Transposed, NewStates, Answers, CallDkgRound2, Flows.DkgRound2, Signer1, Signer2, Ordered;
    var w1, after := AfterRound1(w, id, secret1, package1), AfterRound2(w, id, package1, secret2, made);
    Round2Calls(suite, w, id, secret1, package1);
    Round2Unfold(suite, order, w1, id, package1);
    CallsResult(order, CallDkgRound2(suite, w1, id, package1), after.signers, made);
    Overwrite(w.shares, id, AggRound1(package1), AggRound2(package1, Transposed(made)));
  }

  lemma TransposedAt(made: Filed, j: Identifier)
    ensures j in Transposed(made) <==> Received(made, j) != map[]
    ensures j in Transposed(made) ==> Transposed(made)[j] == Received(made, j)
  {
    if j in Transposed(made) {
      var i :| i in made && j in made[i];
      assert i in Received(made, j);
    }
    if i :| i in Received(made, j) {
      assert j in made[i];
    }
  }

  /** Finalization from where round 2 ended. */
  lemma FinalizeCalls(suite: Suite, w: World, id: Uuid, package1: Packages1, secret2: Secrets2, made: Filed)
    requires secret2.Keys == w.signers.Keys && Fresh(w, id) && forall i :: i in w.signers ==> i in Transposed(made)
    ensures var w2 := AfterRound2(w, id, package1, secret2, made); var calls := CallDkgFinalize(suite, w2, id, package1, Transposed(made));
            && w2.signers.Keys == w.signers.Keys
            && forall i :: i in w.signers ==> FinalizeCall(suite, w.signers[i], id, secret2[i], Others(package1, i), Received(made, i), calls[i])
  {
    hide HandleDkgFinalize, Signer2, Signer3, Transposed;
    var w2 := AfterRound2(w, id, package1, secret2, made);
    var calls := CallDkgFinalize(suite, w2, id, package1, Transposed(made));
    forall i | i in w.signers ensures FinalizeCall(suite, w.signers[i], id, secret2[i], Others(package1, i), Received(made, i), calls[i]) {
      TransposedAt(made, i);
      Handle3(suite, w.signers[i], id, secret2[i], Others(package1, i), Received(made, i));
    }
  }

  ghost predicate Agreed(order: seq<Identifier>, calls: Calls<PublicKeyPackage>) {
    var gathered := Gathered(order, Answers(calls));
    gathered.Success? && order != [] && order[0] in gathered.value && AllEqual(gathered.value[order[0]], order, gathered.value)
  }

  /** Every signer was called, answered and gave the public key the first one gave. */
  lemma AgreedIff(order: seq<Identifier>, calls: Calls<PublicKeyPackage>, public: PublicKeyPackage)
    requires Ordered(order, calls.Keys) && calls != map[]
    ensures (forall i :: i in calls ==> calls[i].1 == Success(public)) ==>
              Agreed(order, calls) && Gathered(order, Answers(calls)).value[order[0]] == public
    ensures Agreed(order, calls) && public == Gathered(order, Answers(calls)).value[order[0]] ==>
              forall i :: i in calls ==> calls[i].1 == Success(public)
  {
    hide Gathered, Answers;
    GatheredIff(order, calls);
    var i :| i in calls;
    InOrder(order, calls.Keys, i);
  }

  lemma PublicResult(order: seq<Identifier>, calls: Calls<PublicKeyPackage>, states: map<Identifier, SignerState>,
                     public: PublicKeyPackage)
    requires Ordered(order, calls.Keys) && calls != map[] && calls.Keys == states.Keys
    requires forall i :: i in calls ==> calls[i] == (states[i], Success(public))
    ensures NewStates(calls) == states && Agreed(order, calls)
    ensures Gathered(order, Answers(calls)).value[order[0]] == public
  {
    hide Gathered, Answers, Agreed;
    AgreedIff(order, calls, public);
  }

  lemma FinalizeUnfold(suite: Suite, order: seq<Identifier>, w: World, id: Uuid, package1: Packages1, round2: Filed)
    requires id in w.shares && w.shares[id] == AggRound2(package1, round2)
    ensures Flows.DkgFinalize(suite, order, w, id).1.Success? ==>
              w.signers.Keys <= round2.Keys && Agreed(order, CallDkgFinalize(suite, w, id, package1, round2))
    ensures w.signers.Keys <= round2.Keys && Agreed(order, CallDkgFinalize(suite, w, id, package1, round2)) ==>
              var calls := CallDkgFinalize(suite, w, id, package1, round2);
              var public := Gathered(order, Answers(calls)).value[order[0]];
              Flows.DkgFinalize(suite, order, w, id) == (World(NewStates(calls), w.shares[id := AggFinalized(public)], w.sessions), Success(()))
  {
    hide Gathered, NewStates, Answers, CallDkgFinalize, AllEqual;
  }

  lemma FinalizeAgrees(suite: Suite, order: seq<Identifier>, w: World, id: Uuid, package1: Packages1, secret2: Secrets2,
                       made: Filed) returns (key: KeyPackages, public: PublicKeyPackage)
    requires Ordered(order, w.signers.Keys) && secret2.Keys == w.signers.Keys && Fresh(w, id) && w.signers != map[]
    requires Flows.DkgFinalize(suite, order, AfterRound2(w, id, package1, secret2, made), id).1.Success?
    ensures Part3(suite, w.signers.Keys, package1, secret2, made, key, public)
  {
    hide Gathered, Transposed, NewStates, Answers, CallDkgFinalize, Flows.DkgFinalize, Signer2, Signer3, Ordered,
         Agreed, Received, Others, Part3;
    var ids, w2 := w.signers.Keys, AfterRound2(w, id, package1, secret2, made);
    assert w2.signers.Keys == ids;
    FinalizeUnfold(suite, order, w2, id, package1, Transposed(made));
    FinalizeCalls(suite, w, id, package1, secret2, made);
    var calls := CallDkgFinalize(suite, w2, id, package1, Transposed(made));
    assert Agreed(order, calls);
    AgreedKey(order, calls);
    public := Gathered(order, Answers(calls)).value[order[0]];
    AgreedIff(order, calls, public);
    forall i | i in ids ensures Gives(suite, package1, secret2, made, public, i) {
      TransposedAt(made, i);
      assert FinalizeCall(suite, w.signers[i], id, secret2[i], Others(package1, i), Received(made, i), calls[i]);
    }
    key := MakePart3(suite, ids, package1, secret2, made, public);
  }

  lemma AgreedKey(order: seq<Identifier>, calls: Calls<PublicKeyPackage>)
    requires Agreed(order, calls)
    ensures Gathered(order, Answers(calls)).Success? && order != [] && order[0] in Gathered(order, Answers(calls)).value
  {
  }

  lemma InOrder(order: seq<Identifier>, ids: set<Identifier>, i: Identifier)
    requires Ordered(order, ids)
    ensures i in ids <==> i in order
    ensures order != [] ==> order[0] in ids
  {
  }

  lemma MakePart3(suite: Suite, ids: set<Identifier>, package1: Packages1, secret2: Secrets2, made: Filed,
                  public: PublicKeyPackage) returns (key: KeyPackages)
    requires secret2.Keys == ids
    requires forall i :: i in ids ==> Gives(suite, package1, secret2, made, public, i)
    ensures Part3(suite, ids, package1, secret2, made, key, public)
  {
    hide Others, Received;
    key := map i | i in ids && Gives(suite, package1, secret2, made, public, i)
               :: suite.part3(secret2[i], Others(package1, i), Received(made, i)).value.0;
  }

  ghost predicate Gives(suite: Suite, package1: Packages1, secret2: Secrets2, made: Filed, public: PublicKeyPackage,
                        i: Identifier) {
    && i in secret2 && Received(made, i) != map[]
    && var result := suite.part3(secret2[i], Others(package1, i), Received(made, i));
    result.Some? && result.value.1 == public
  }

  lemma FinalizeAnswers(suite: Suite, w: World, id: Uuid, package1: Packages1, secret2: Secrets2, made: Filed,
                        key: KeyPackages, public: PublicKeyPackage)
    requires Fresh(w, id) && Part3(suite, w.signers.Keys, package1, secret2, made, key, public)
    ensures AfterRound2(w, id, package1, secret2, made).signers.Keys == w.signers.Keys <= Transposed(made).Keys
    ensures var calls := CallDkgFinalize(suite, AfterRound2(w, id, package1, secret2, made), id, package1, Transposed(made));
            forall i :: i in w.signers ==> calls[i] == (AfterDkg(w, id, key, public).signers[i], Success(public))
  {
    hide Transposed, CallDkgFinalize, Signer2, Signer3, Received, Others;
    forall i | i in w.signers ensures i in Transposed(made) {
      TransposedAt(made, i);
    }
    FinalizeCalls(suite, w, id, package1, secret2, made);
  }

  lemma FinalizeResult(suite: Suite, order: seq<Identifier>, w: World, id: Uuid, package1: Packages1, secret2: Secrets2,
                       made: Filed, key: KeyPackages, public: PublicKeyPackage)
    requires Ordered(order, w.signers.Keys) && Fresh(w, id) && w.signers != map[]
    requires Part3(suite, w.signers.Keys, package1, secret2, made, key, public)
    ensures Flows.DkgFinalize(suite, order, AfterRound2(w, id, package1, secret2, made), id) == (AfterDkg(w, id, key, public), Success(()))
  {
    hide Gathered, Transposed, NewStates, Answers, CallDkgFinalize, Flows.DkgFinalize, Signer2, Signer3, Ordered,
         Agreed, Received, Others;
    var w2, after := AfterRound2(w, id, package1, secret2, made), AfterDkg(w, id, key, public);
    FinalizeAnswers(suite, w, id, package1, secret2, made, key, public);
    PublicResult(order, CallDkgFinalize(suite, w2, id, package1, Transposed(made)), after.signers, public);
    FinalizeUnfold(suite, order, w2, id, package1, Transposed(made));
    Overwrite(w.shares, id, AggRound2(package1, Transposed(made)), AggFinalized(public));
  }

  /** A flow that starts ready and follows the protocol ends with the agreed key at everybody. */
  lemma ProtocolIsFlow(suite: Suite, order: seq<Identifier>, w: World, id: Uuid, draws: Draws, t: Transcript,
                       public: PublicKeyPackage)
    requires Ordered(order, w.signers.Keys) && Ready(w, id) && IsTranscript(suite, w.signers.Keys, draws, t, public)
    ensures RunDkgFlow(suite, order, w, id, draws) == (AfterDkg(w, id, t.key, public), Success(public))
  {
    hide Flows.DkgRound1, Flows.DkgRound2, Flows.DkgFinalize, AfterRound1, AfterRound2, Part2, Part3;
    Round1Result(suite, order, w, id, draws, t.secret1, t.package1);
    assert t.secret1.Keys == w.signers.Keys;
    Round2Result(suite, order, w, id, t.secret1, t.package1, t.secret2, t.made);
    FinalizeResult(suite, order, w, id, t.package1, t.secret2, t.made, t.key, public);
  }

  /** Every successful flow started ready and followed the protocol. */
  lemma FlowIsProtocol(suite: Suite, order: seq<Identifier>, w: World, id: Uuid, draws: Draws) returns (t: Transcript)
    requires Ordered(order, w.signers.Keys) && RunDkgFlow(suite, order, w, id, draws).1.Success?
    ensures Ready(w, id)
    ensures IsTranscript(suite, w.signers.Keys, draws, t, RunDkgFlow(suite, order, w, id, draws).1.value)
  {
    hide Flows.DkgRound1, Flows.DkgRound2, Flows.DkgFinalize, AfterRound1, AfterRound2, Part3, Ordered;
    var ids := w.signers.Keys;
    Started(suite, order, w, id, draws);
    Round1Iff(suite, order, w, id, draws);
    var secret1, package1 := MakePart1(suite, ids, draws);
    Round1Result(suite, order, w, id, draws, secret1, package1);
    Round2Iff(suite, order, w, id, secret1, package1);
    var secret2, made := MakePart2(suite, ids, secret1, package1);
    Round2Result(suite, order, w, id, secret1, package1, secret2, made);
    var key, public := FinalizeAgrees(suite, order, w, id, package1, secret2, made);
    FinalizeResult(suite, order, w, id, package1, secret2, made, key, public);
    t := Transcript(secret1, package1, secret2, made, key);
  }

  lemma MakePart1(suite: Suite, ids: set<Identifier>, draws: Draws) returns (secret1: Secrets1, package1: Packages1)
    requires forall i :: i in ids ==> suite.part1(i, draws(i)).Some?
    ensures Part1(suite, ids, draws, secret1, package1)
  {
    secret1 := map i | i in ids && suite.part1(i, draws(i)).Some? :: suite.part1(i, draws(i)).value.0;
    package1 := map i | i in ids && suite.part1(i, draws(i)).Some? :: suite.part1(i, draws(i)).value.1;
  }

  lemma MakePart2(suite: Suite, ids: set<Identifier>, secret1: Secrets1, package1: Packages1)
    returns (secret2: Secrets2, made: Filed)
    requires secret1.Keys == ids && forall i :: i in ids ==> suite.part2(secret1[i], Others(package1, i)).Some?
    ensures Part2(suite, ids, secret1, package1, secret2, made)
  {
    secret2 := map i | i in ids && suite.part2(secret1[i], Others(package1, i)).Some? :: suite.part2(secret1[i], Others(package1, i)).value.0;
    made := map i | i in ids && suite.part2(secret1[i], Others(package1, i)).Some? :: suite.part2(secret1[i], Others(package1, i)).value.1;
  }

  lemma Started(suite: Suite, order: seq<Identifier>, w: World, id: Uuid, draws: Draws)
    requires Ordered(order, w.signers.Keys) && RunDkgFlow(suite, order, w, id, draws).1.Success?
    ensures id in w.shares && w.shares[id].Initialized? && w.signers != map[]
    ensures Flows.DkgRound1(suite, order, w, id, draws).1.Success?
  {
  }

  /** Key generation succeeds with a public key exactly when the share is ready and the protocol, run on the same
      randomness, gives that key; and then every signer ends finalized with its own key of the transcript. */
  lemma DkgFlowIff(suite: Suite, order: seq<Identifier>, w: World, id: Uuid, draws: Draws, public: PublicKeyPackage)
    requires Ordered(order, w.signers.Keys)
    ensures RunDkgFlow(suite, order, w, id, draws).1 == Success(public)
       <==> Ready(w, id) && exists t :: IsTranscript(suite, w.signers.Keys, draws, t, public)
    ensures forall t :: Ready(w, id) && IsTranscript(suite, w.signers.Keys, draws, t, public) ==>
              RunDkgFlow(suite, order, w, id, draws).0 == AfterDkg(w, id, t.key, public)
  {
    hide RunDkgFlow, IsTranscript, Ready, AfterDkg;
    if RunDkgFlow(suite, order, w, id, draws).1 == Success(public) {
      var t := FlowIsProtocol(suite, order, w, id, draws);
    }
    forall t | Ready(w, id) && IsTranscript(suite, w.signers.Keys, draws, t, public)
      ensures RunDkgFlow(suite, order, w, id, draws) == (AfterDkg(w, id, t.key, public), Success(public))
    {
      ProtocolIsFlow(suite, order, w, id, draws, t, public);
    }
  }

  /** The library makes one package for each participant it was given. */
  ghost predicate MakesForOthers(suite: Suite) {
    forall secret, packages :: MakesFor(suite, secret, packages)
  }

  ghost predicate MakesFor(suite: Suite, secret: Round1Secret, packages: Packages1) {
    var made := suite.part2(secret, packages);
    made.Some? ==> made.value.1.Keys == packages.Keys
  }

  /** Then each signer is given the packages of exactly all the others: the packages made are routed one to one. */
  lemma RoutedToAll(suite: Suite, ids: set<Identifier>, draws: Draws, t: Transcript, public: PublicKeyPackage,
                    j: Identifier)
    requires MakesForOthers(suite) && IsTranscript(suite, ids, draws, t, public) && j in ids
    ensures Others(t.package1, j).Keys == ids - {j} && Received(t.made, j).Keys == ids - {j}
    ensures forall i :: i in ids && i != j ==> j in t.made[i] && Received(t.made, j)[i] == t.made[i][j]
  {
    hide Part1, Part3;
    assert t.package1.Keys == ids by {
      Part1Keys(suite, ids, draws, t.secret1, t.package1);
    }
    forall i | i in ids ensures t.made[i].Keys == ids - {i} {
      assert MakesFor(suite, t.secret1[i], Others(t.package1, i));
    }
  }

  lemma Part1Keys(suite: Suite, ids: set<Identifier>, draws: Draws, secret1: Secrets1, package1: Packages1)
    requires Part1(suite, ids, draws, secret1, package1)
    ensures secret1.Keys == package1.Keys == ids
  {
  }

  // ----- Signing -----

  /** What each signer contributes to one session. */
  datatype Contributions = Contributions(
    key: KeyPackages,
    nonces: map<Identifier, Nonces>,
    commitments: map<Identifier, Commitments>,
    shares: SignatureShares)

  ghost predicate Keys(w: World, id: Uuid, key: KeyPackages) {
    key.Keys == w.signers.Keys && forall i :: i in w.signers ==> id in w.signers[i].dkg && w.signers[i].dkg[id] == DkgFinalized(key[i])
  }

  ghost predicate Commits(suite: Suite, ids: set<Identifier>, tweak: Tweak, draws: Draws, c: Contributions) {
    && c.key.Keys == c.nonces.Keys == c.commitments.Keys == ids
    && forall i :: i in ids ==> suite.commit(CommitKey(suite, c.key[i], tweak), draws(i)) == (c.nonces[i], c.commitments[i])
  }

  ghost predicate Signs(suite: Suite, ids: set<Identifier>, q: SignRequest, tap: bool, c: Contributions) {
    && c.key.Keys == c.nonces.Keys == c.shares.Keys == ids
    && forall i :: i in ids ==>
         suite.sign(SigningPackage(c.commitments, q.message), c.nonces[i], SigningKey(suite, c.key[i], q.tweak, tap)) == Some(c.shares[i])
  }

  /** Everybody committed and signed the requested message under the request's tweak and the flow's tap flag, and the
      aggregate of the shares verifies for that message under the public key tweaked in the same way. */
  ghost predicate IsSigning(suite: Suite, w: World, q: SignRequest, tap: bool, draws: Draws, c: Contributions,
                            public: PublicKeyPackage, signature: Signature) {
    var key := VerifyingKey(suite, public, q.tweak, tap);
    && PublicOf(w, q.id) == Success(public)
    && Keys(w, q.id, c.key)
    && Commits(suite, w.signers.Keys, q.tweak, draws, c)
    && Signs(suite, w.signers.Keys, q, tap, c)
    && suite.aggregate(SigningPackage(c.commitments, q.message), c.shares, key) == Some(signature)
    && suite.verify(key, q.message, signature)
  }

  function Session1(st: SignerState, q: SignRequest, nonces: Nonces, draw: Random): SignerState {
    st.(sessions := st.sessions[(q.id, q.session) := SignData(q.tweak, q.message, q.metadata, SigningRound1(nonces, draw))])
  }

  function Session2(st: SignerState, q: SignRequest, share: SignatureShare): SignerState {
    st.(sessions := st.sessions[(q.id, q.session) := SignData(q.tweak, q.message, q.metadata, SigningRound2(share))])
  }

  lemma HandleSign1(suite: Suite, st: SignerState, q: SignRequest, draw: Random)
    ensures var (st', r) := HandleSignRound1(suite, st, q, draw);
            && (r.Success? <==> q.id in st.dkg && st.dkg[q.id].DkgFinalized?)
            && (r.Success? ==>
                  var made := suite.commit(CommitKey(suite, st.dkg[q.id].key, q.tweak), draw);
                  st' == Session1(st, q, made.0, draw) && r.value == made.1)
  {
  }

  lemma HandleSign2(suite: Suite, st: SignerState, q: SignRequest, nonces: Nonces, draw: Random,
                    commitments: map<Identifier, Commitments>, tap: bool, key: KeyPackage)
    requires q.id in st.dkg && st.dkg[q.id] == DkgFinalized(key)
    ensures var package := SigningPackage(commitments, q.message);
            var (st', r) := HandleSignRound2(suite, Session1(st, q, nonces, draw), q.id, q.session, package, tap);
            var share := suite.sign(package, nonces, SigningKey(suite, key, q.tweak, tap));
            && (r.Success? <==> share.Some?)
            && (r.Success? ==> st' == Session2(st, q, share.value) && r.value == share.value)
  {
    hide SigningKey;
    var share := suite.sign(SigningPackage(commitments, q.message), nonces, SigningKey(suite, key, q.tweak, tap));
    if share.Some? {
      Overwrite(st.sessions, (q.id, q.session), SignData(q.tweak, q.message, q.metadata, SigningRound1(nonces, draw)),
                SignData(q.tweak, q.message, q.metadata, SigningRound2(share.value)));
    }
  }

  ghost function AfterSign1(w: World, q: SignRequest, draws: Draws, c: Contributions): World {
    World(map i | i in w.signers && i in c.nonces :: Session1(w.signers[i], q, c.nonces[i], draws(i)), w.shares,
          w.sessions[(q.id, q.session) := AggSignData(q.tweak, q.message, q.metadata, AggSigning1(SigningPackage(c.commitments, q.message)))])
  }

  /** Every signer holds its share and the aggregator the signature; nothing else has changed. */
  ghost function AfterSigning(w: World, q: SignRequest, c: Contributions, signature: Signature): World {
    World(map i | i in w.signers && i in c.shares :: Session2(w.signers[i], q, c.shares[i]), w.shares,
          w.sessions[(q.id, q.session) := AggSignData(q.tweak, q.message, q.metadata, AggSigning2(signature))])
  }

  lemma Sign1Iff(suite: Suite, order: seq<Identifier>, w: World, q: SignRequest, draws: Draws)
    requires Ordered(order, w.signers.Keys)
    ensures Flows.SignRound1(suite, order, w, q, draws).1.Success?
       <==> PublicOf(w, q.id).Success? && forall i :: i in w.signers ==> q.id in w.signers[i].dkg && w.signers[i].dkg[q.id].DkgFinalized?
  {
    hide HandleSignRound1, Gathered, NewStates, Answers, Ordered;
    var calls := CallSignRound1(suite, w, q, draws);
    GatheredIff(order, calls);
    forall i | i in w.signers ensures calls[i].1.Success? <==> q.id in w.signers[i].dkg && w.signers[i].dkg[q.id].DkgFinalized? {
      HandleSign1(suite, w.signers[i], q, draws(i));
    }
  }

  lemma Sign1Result(suite: Suite, order: seq<Identifier>, w: World, q: SignRequest, draws: Draws, c: Contributions)
    requires Ordered(order, w.signers.Keys) && PublicOf(w, q.id).Success? && Keys(w, q.id, c.key)
    requires Commits(suite, w.signers.Keys, q.tweak, draws, c)
    ensures Flows.SignRound1(suite, order, w, q, draws) == (AfterSign1(w, q, draws, c), Success(()))
  {
    hide HandleSignRound1, Gathered, NewStates, Answers, Ordered, Session1;
    var calls, after := CallSignRound1(suite, w, q, draws), AfterSign1(w, q, draws, c);
    forall i | i in w.signers ensures calls[i] == (after.signers[i], Success(c.commitments[i])) {
      HandleSign1(suite, w.signers[i], q, draws(i));
    }
    CallsResult(order, calls, after.signers, c.commitments);
  }

  ghost predicate Sign2Call(suite: Suite, st: SignerState, q: SignRequest, tap: bool, package: SigningPackage,
                            nonces: Nonces, key: KeyPackage, call: (SignerState, Result<SignatureShare, SignerError>)) {
    var share := suite.sign(package, nonces, SigningKey(suite, key, q.tweak, tap));
    && (call.1.Success? <==> share.Some?)
    && (call.1.Success? ==> call == (Session2(st, q, share.value), Success(share.value)))
  }

  lemma Sign2Calls(suite: Suite, w: World, q: SignRequest, tap: bool, draws: Draws, c: Contributions)
    requires Keys(w, q.id, c.key) && c.nonces.Keys == w.signers.Keys
    ensures var w1 := AfterSign1(w, q, draws, c); var package := SigningPackage(c.commitments, q.message);
            var calls := CallSignRound2(suite, w1, q.id, q.session, package, tap);
            && w1.signers.Keys == w.signers.Keys
            && forall i :: i in w.signers ==> Sign2Call(suite, w.signers[i], q, tap, package, c.nonces[i], c.key[i], calls[i])
  {
    hide HandleSignRound2, Session1, Session2, SigningKey;
    forall i | i in w.signers {
      HandleSign2(suite, w.signers[i], q, c.nonces[i], draws(i), c.commitments, tap, c.key[i]);
    }
  }

  lemma Sign2Unfold(suite: Suite, order: seq<Identifier>, w: World, id: Uuid, session: Uuid, tap: bool,
                    data: AggSignData, public: PublicKeyPackage)
    requires (id, session) in w.sessions && w.sessions[(id, session)] == data && data.phase.AggSigning1?
    requires PublicOf(w, id) == Success(public)
    ensures var calls := CallSignRound2(suite, w, id, session, data.phase.package, tap); var gathered := Gathered(order, Answers(calls));
            var (w', r) := Flows.SignRound2(suite, order, w, id, session, tap);
            && (r.Success? <==> gathered.Success? && Finish(suite, public, data, tap, gathered.value).Success?)
            && (r.Success? ==>
                  var signature := Finish(suite, public, data, tap, gathered.value).value;
                  w' == World(NewStates(calls), w.shares, w.sessions[(id, session) := data.(phase := AggSigning2(signature))]))
  {
    hide Gathered, NewStates, Answers, CallSignRound2, Finish;
  }

  /** A signing that meets its specification is what the flow does. */
  lemma SigningIsFlow(suite: Suite, order: seq<Identifier>, w: World, q: SignRequest, tap: bool, draws: Draws,
                      c: Contributions, public: PublicKeyPackage, signature: Signature)
    requires Ordered(order, w.signers.Keys) && IsSigning(suite, w, q, tap, draws, c, public, signature)
    ensures RunSigningFlow(suite, order, w, q, tap, draws) == (AfterSigning(w, q, c, signature), Success(signature))
  {
    hide Gathered, NewStates, Answers, Ordered, Flows.SignRound1, Flows.SignRound2, CallSignRound2, VerifyingKey,
         SigningKey, Session1, Session2, CommitKey;
    Sign1Result(suite, order, w, q, draws, c);
    var w1 := AfterSign1(w, q, draws, c);
    var data := w1.sessions[(q.id, q.session)];
    var calls := CallSignRound2(suite, w1, q.id, q.session, data.phase.package, tap);
    Sign2Calls(suite, w, q, tap, draws, c);
    CallsResult(order, calls, AfterSigning(w, q, c, signature).signers, c.shares);
    Sign2Unfold(suite, order, w1, q.id, q.session, tap, data, public);
    Overwrite(w.sessions, (q.id, q.session), data, data.(phase := AggSigning2(signature)));
  }

  lemma SigningUnfold(suite: Suite, order: seq<Identifier>, w: World, q: SignRequest, tap: bool, draws: Draws)
    requires RunSigningFlow(suite, order, w, q, tap, draws).1.Success?
    ensures var (w1, r1) := Flows.SignRound1(suite, order, w, q, draws);
            var (w2, r2) := Flows.SignRound2(suite, order, w1, q.id, q.session, tap);
            r1.Success? && r2.Success? && RunSigningFlow(suite, order, w, q, tap, draws).1 == SignatureOf(w2, q.id, q.session)
  {
    hide Flows.SignRound1, Flows.SignRound2;
    var (w1, r1) := Flows.SignRound1(suite, order, w, q, draws);
    var (w2, r2) := Flows.SignRound2(suite, order, w1, q.id, q.session, tap);
    assert r1.Success? && r2.Success?;
  }

  lemma MakeCommits(suite: Suite, w: World, q: SignRequest, draws: Draws) returns (c: Contributions)
    requires forall i :: i in w.signers ==> q.id in w.signers[i].dkg && w.signers[i].dkg[q.id].DkgFinalized?
    ensures Keys(w, q.id, c.key) && Commits(suite, w.signers.Keys, q.tweak, draws, c)
  {
    hide CommitKey;
    var ids := w.signers.Keys;
    var key := map i | i in ids && q.id in w.signers[i].dkg && w.signers[i].dkg[q.id].DkgFinalized? :: w.signers[i].dkg[q.id].key;
    var nonces := map i | i in key :: suite.commit(CommitKey(suite, key[i], q.tweak), draws(i)).0;
    var commitments := map i | i in key :: suite.commit(CommitKey(suite, key[i], q.tweak), draws(i)).1;
    c := Contributions(key, nonces, commitments, map[]);
  }

  lemma SignsThen(suite: Suite, w: World, q: SignRequest, tap: bool, c: Contributions, calls: Calls<SignatureShare>)
    requires c.key.Keys == c.nonces.Keys == calls.Keys == w.signers.Keys
    requires c.shares == map i | i in calls && calls[i].1.Success? :: calls[i].1.value
    requires forall i :: i in w.signers ==>
               calls[i].1.Success? && Sign2Call(suite, w.signers[i], q, tap, SigningPackage(c.commitments, q.message), c.nonces[i], c.key[i], calls[i])
    ensures Signs(suite, w.signers.Keys, q, tap, c)
  {
    hide SigningKey, Session2;
  }

  lemma CommitsKeys(suite: Suite, ids: set<Identifier>, tweak: Tweak, draws: Draws, c: Contributions)
    requires Commits(suite, ids, tweak, draws, c)
    ensures c.key.Keys == c.nonces.Keys == c.commitments.Keys == ids
    ensures forall shares :: Commits(suite, ids, tweak, draws, c.(shares := shares))
  {
  }

  /** Every successful flow is a signing that meets the specification. */
  lemma FlowIsSigning(suite: Suite, order: seq<Identifier>, w: World, q: SignRequest, tap: bool, draws: Draws)
    returns (c: Contributions, public: PublicKeyPackage)
    requires Ordered(order, w.signers.Keys) && RunSigningFlow(suite, order, w, q, tap, draws).1.Success?
    ensures IsSigning(suite, w, q, tap, draws, c, public, RunSigningFlow(suite, order, w, q, tap, draws).1.value)
  {
    hide Gathered, NewStates, Answers, Ordered, Flows.SignRound1, Flows.SignRound2, CallSignRound2, VerifyingKey,
         SigningKey, Session1, Session2, CommitKey, RunSigningFlow, Commits, Keys, Signs, Sign2Call;
    SigningUnfold(suite, order, w, q, tap, draws);
    Sign1Iff(suite, order, w, q, draws);
    var part := MakeCommits(suite, w, q, draws);
    Sign1Result(suite, order, w, q, draws, part);
    CommitsKeys(suite, w.signers.Keys, q.tweak, draws, part);
    var w1 := AfterSign1(w, q, draws, part);
    var data := w1.sessions[(q.id, q.session)];
    public := PublicOf(w, q.id).value;
    var calls := CallSignRound2(suite, w1, q.id, q.session, data.phase.package, tap);
    Sign2Calls(suite, w, q, tap, draws, part);
    Sign2Unfold(suite, order, w1, q.id, q.session, tap, data, public);
    GatheredIff(order, calls);
    c := part.(shares := Gathered(order, Answers(calls)).value);
    SignsThen(suite, w, q, tap, c, calls);
    assert PublicOf(w, q.id) == Success(public) && PublicOf(w1, q.id) == Success(public);
  }

  /** Signing succeeds with a signature exactly when the specification gives it, with the state it says. */
  lemma SigningFlowIff(suite: Suite, order: seq<Identifier>, w: World, q: SignRequest, tap: bool, draws: Draws,
                       signature: Signature)
    requires Ordered(order, w.signers.Keys)
    ensures RunSigningFlow(suite, order, w, q, tap, draws).1 == Success(signature)
       <==> exists c, public :: IsSigning(suite, w, q, tap, draws, c, public, signature)
    ensures forall c, public :: IsSigning(suite, w, q, tap, draws, c, public, signature) ==>
              RunSigningFlow(suite, order, w, q, tap, draws).0 == AfterSigning(w, q, c, signature)
  {
    hide RunSigningFlow, IsSigning, AfterSigning;
    if RunSigningFlow(suite, order, w, q, tap, draws).1 == Success(signature) {
      var c, public := FlowIsSigning(suite, order, w, q, tap, draws);
    }
    forall c, public | IsSigning(suite, w, q, tap, draws, c, public, signature)
      ensures RunSigningFlow(suite, order, w, q, tap, draws) == (AfterSigning(w, q, c, signature), Success(signature))
    {
      SigningIsFlow(suite, order, w, q, tap, draws, c, public, signature);
    }
  }
}

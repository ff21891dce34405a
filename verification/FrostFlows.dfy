/**
 * The aggregator's rounds and flows as functions on the whole state: what every signer holds, and what the aggregator
 * has stored per share and per signing session.
 *
 * A round calls every signer before it looks at any answer, so a signer has done its part even when the round fails.
 * Answers are looked at in ascending order of identifier, and the first error is the round's error.
 */
module FrostFlows {
  import opened Wrappers
  import opened Machine
  import opened FrostSigner

  datatype AggPhase =
    | Initialized
    | AggRound1(round1: Packages1)
    | AggRound2(round1: Packages1, round2: Filed)
    | AggFinalized(public: PublicKeyPackage)

  datatype AggSignPhase =
    | AggSigning1(package: SigningPackage)
    | AggSigning2(signature: Signature)

  datatype AggSignData = AggSignData(tweak: Tweak, message: seq<byte>, metadata: nat, phase: AggSignPhase)

  /** `Stopped` is the index failure of a flow without signers. */
  datatype AggError =
    | WrongState
    | ShareExists
    | AggInternal
    | OfSigner(error: SignerError)
    | Stopped

  datatype World = World(signers: map<Identifier, SignerState>, shares: map<Uuid, AggPhase>,
                         sessions: map<(Uuid, Uuid), AggSignData>)

  type Draws = Identifier -> Random

  // ----- Calling every signer -----

  type Calls<T> = map<Identifier, (SignerState, Result<T, SignerError>)>

  function NewStates<T>(calls: Calls<T>): (states: map<Identifier, SignerState>)
    ensures states.Keys == calls.Keys
  {
    map i | i in calls :: calls[i].0
  }

  function Answers<T>(calls: Calls<T>): (answers: map<Identifier, Result<T, SignerError>>)
    ensures answers.Keys == calls.Keys
  {
    map i | i in calls :: calls[i].1
  }

  function Values<T>(answers: map<Identifier, Result<T, SignerError>>): map<Identifier, T> {
    map i | i in answers && answers[i].Success? :: answers[i].value
  }

  function FirstError<T>(order: seq<Identifier>, answers: map<Identifier, Result<T, SignerError>>)
    : Option<SignerError> {
    if order == [] then None
    else if order[0] in answers && answers[order[0]].Failure? then Some(answers[order[0]].error)
    else FirstError(order[1..], answers)
  }

  /** The values, or the first error. */
  function Gathered<T>(order: seq<Identifier>, answers: map<Identifier, Result<T, SignerError>>)
    : Result<map<Identifier, T>, SignerError> {
    match FirstError(order, answers)
    case Some(e) => Failure(e)
    case None => Success(Values(answers))
  }

  /** The identifiers of the signers, ascending. */
  ghost predicate Ordered(order: seq<Identifier>, ids: set<Identifier>) {
    && (forall k, m :: 0 <= k < m < |order| ==> order[k] < order[m])
    && (forall i :: i in ids <==> i in order)
  }

  lemma {:induction false} NoErrorIff<T>(order: seq<Identifier>, answers: map<Identifier, Result<T, SignerError>>)
    ensures FirstError(order, answers).None? <==> forall i :: i in order && i in answers ==> answers[i].Success?
  {
    if order != [] {
      NoErrorIff(order[1..], answers);
      assert order == [order[0]] + order[1..];
    }
  }

  lemma GatheredKeys<T>(order: seq<Identifier>, answers: map<Identifier, Result<T, SignerError>>)
    requires Ordered(order, answers.Keys) && Gathered(order, answers).Success?
    ensures Gathered(order, answers).value.Keys == answers.Keys
    ensures forall i :: i in answers ==> answers[i] == Success(Gathered(order, answers).value[i])
  {
    NoErrorIff(order, answers);
  }

  // ----- Key generation -----

  /** What everybody but `i` sent. */
  function Others(packages: Packages1, i: Identifier): Packages1 {
    packages - {i}
  }

  /** What was made for `j`, by maker. */
  function Received(made: Filed, j: Identifier): Packages2 {
    map i | i in made && j in made[i] :: made[i][j]
  }

  ghost function Receivers(made: Filed): set<Identifier> {
    set i, j | i in made && j in made[i] :: j
  }

  /** The responses, regrouped by receiver. */
  ghost function Transposed(made: Filed): Filed {
    map j | j in Receivers(made) :: Received(made, j)
  }

  function CallDkgRound1(suite: Suite, w: World, id: Uuid, draws: Draws): (calls: Calls<Round1Package>)
    ensures calls.Keys == w.signers.Keys
  {
    map i | i in w.signers :: HandleDkgRound1(suite, i, w.signers[i], id, draws(i))
  }

  function DkgRound1(suite: Suite, order: seq<Identifier>, w: World, id: Uuid, draws: Draws)
    : (World, Result<(), AggError>) {
    if id !in w.shares || !w.shares[id].Initialized? then (w, Failure(WrongState))
    else
      var calls := CallDkgRound1(suite, w, id, draws);
      var called := w.(signers := NewStates(calls));
      match Gathered(order, Answers(calls))
      case Failure(e) => (called, Failure(OfSigner(e)))
      case Success(values) => (called.(shares := w.shares[id := AggRound1(values)]), Success(()))
  }

  function CallDkgRound2(suite: Suite, w: World, id: Uuid, round1: Packages1): (calls: Calls<Packages2>)
    ensures calls.Keys == w.signers.Keys
  {
    map i | i in w.signers :: HandleDkgRound2(suite, w.signers[i], id, Others(round1, i))
  }

  ghost function DkgRound2(suite: Suite, order: seq<Identifier>, w: World, id: Uuid): (World, Result<(), AggError>) {
    if id !in w.shares || !w.shares[id].AggRound1? then (w, Failure(WrongState))
    else
      var round1 := w.shares[id].round1;
      var calls := CallDkgRound2(suite, w, id, round1);
      var called := w.(signers := NewStates(calls));
      match Gathered(order, Answers(calls))
      case Failure(e) => (called, Failure(OfSigner(e)))
      case Success(values) => (called.(shares := w.shares[id := AggRound2(round1, Transposed(values))]), Success(()))
  }

  function CallDkgFinalize(suite: Suite, w: World, id: Uuid, round1: Packages1, round2: Filed)
    : (calls: Calls<PublicKeyPackage>)
    requires w.signers.Keys <= round2.Keys
    ensures calls.Keys == w.signers.Keys
  {
    map i | i in w.signers :: HandleDkgFinalize(suite, w.signers[i], id, Others(round1, i), round2[i])
  }

  predicate AllEqual(public: PublicKeyPackage, order: seq<Identifier>, values: map<Identifier, PublicKeyPackage>) {
    forall i :: i in order && i in values ==> values[i] == public
  }

  /** No signer is called unless there are packages for all. */
  function DkgFinalize(suite: Suite, order: seq<Identifier>, w: World, id: Uuid): (World, Result<(), AggError>) {
    if id !in w.shares || !w.shares[id].AggRound2? then (w, Failure(WrongState))
    else
      var round1, round2 := w.shares[id].round1, w.shares[id].round2;
      if !(w.signers.Keys <= round2.Keys) then (w, Failure(AggInternal))
      else
        var calls := CallDkgFinalize(suite, w, id, round1, round2);
        var called := w.(signers := NewStates(calls));
        match Gathered(order, Answers(calls))
        case Failure(e) => (called, Failure(OfSigner(e)))
        case Success(values) =>
          if order == [] || order[0] !in values then (called, Failure(Stopped))
          else if !AllEqual(values[order[0]], order, values) then (called, Failure(AggInternal))
          else (called.(shares := w.shares[id := AggFinalized(values[order[0]])]), Success(()))
  }

  ghost function RunDkgFlow(suite: Suite, order: seq<Identifier>, w: World, id: Uuid, draws: Draws)
    : (World, Result<PublicKeyPackage, AggError>) {
    if id in w.shares && !w.shares[id].Initialized? then (w, Failure(ShareExists))
    else
      var (w1, r1) := DkgRound1(suite, order, w, id, draws);
      if r1.Failure? then (w1, Failure(r1.error))
      else
        var (w2, r2) := DkgRound2(suite, order, w1, id);
        if r2.Failure? then (w2, Failure(r2.error))
        else
          var (w3, r3) := DkgFinalize(suite, order, w2, id);
          if r3.Failure? then (w3, Failure(r3.error)) else (w3, PublicOf(w3, id))
  }

  function PublicOf(w: World, id: Uuid): Result<PublicKeyPackage, AggError> {
    if id in w.shares && w.shares[id].AggFinalized? then Success(w.shares[id].public) else Failure(WrongState)
  }

  // ----- Signing -----

  function CallSignRound1(suite: Suite, w: World, q: SignRequest, draws: Draws): (calls: Calls<Commitments>)
    ensures calls.Keys == w.signers.Keys
  {
    map i | i in w.signers :: HandleSignRound1(suite, w.signers[i], q, draws(i))
  }

  function SignRound1(suite: Suite, order: seq<Identifier>, w: World, q: SignRequest, draws: Draws)
    : (World, Result<(), AggError>) {
    if PublicOf(w, q.id).Failure? then (w, Failure(WrongState))
    else
      var calls := CallSignRound1(suite, w, q, draws);
      var called := w.(signers := NewStates(calls));
      match Gathered(order, Answers(calls))
      case Failure(e) => (called, Failure(OfSigner(e)))
      case Success(values) =>
        var package := SigningPackage(values, q.message);
        var data := AggSignData(q.tweak, q.message, q.metadata, AggSigning1(package));
        (called.(sessions := w.sessions[(q.id, q.session) := data]), Success(()))
  }

  function CallSignRound2(suite: Suite, w: World, id: Uuid, session: Uuid, package: SigningPackage, tap: bool)
    : (calls: Calls<SignatureShare>)
    ensures calls.Keys == w.signers.Keys
  {
    map i | i in w.signers :: HandleSignRound2(suite, w.signers[i], id, session, package, tap)
  }

  /** The signature aggregated from the shares, if it verifies. */
  function Finish(suite: Suite, public: PublicKeyPackage, data: AggSignData, tap: bool, shares: SignatureShares)
    : Result<Signature, AggError>
    requires data.phase.AggSigning1?
  {
    var key := VerifyingKey(suite, public, data.tweak, tap);
    var signature := suite.aggregate(data.phase.package, shares, key);
    if signature.None? || !suite.verify(key, data.message, signature.value) then Failure(AggInternal) else Success(signature.value)
  }

  function SignRound2(suite: Suite, order: seq<Identifier>, w: World, id: Uuid, session: Uuid, tap: bool)
    : (World, Result<(), AggError>) {
    if (id, session) !in w.sessions then (w, Failure(WrongState))
    else if PublicOf(w, id).Failure? then (w, Failure(WrongState))
    else
      var data := w.sessions[(id, session)];
      if !data.phase.AggSigning1? then (w, Failure(WrongState))
      else
        var calls := CallSignRound2(suite, w, id, session, data.phase.package, tap);
        var called := w.(signers := NewStates(calls));
        match Gathered(order, Answers(calls))
        case Failure(e) => (called, Failure(OfSigner(e)))
        case Success(values) =>
          var signed := Finish(suite, PublicOf(w, id).value, data, tap, values);
          if signed.Failure? then (called, Failure(signed.error))
          else (called.(sessions := w.sessions[(id, session) := data.(phase := AggSigning2(signed.value))]), Success(()))
  }

  function RunSigningFlow(suite: Suite, order: seq<Identifier>, w: World, q: SignRequest, tap: bool, draws: Draws)
    : (World, Result<Signature, AggError>) {
    var (w1, r1) := SignRound1(suite, order, w, q, draws);
    if r1.Failure? then (w1, Failure(r1.error))
    else
      var (w2, r2) := SignRound2(suite, order, w1, q.id, q.session, tap);
      if r2.Failure? then (w2, Failure(r2.error)) else (w2, SignatureOf(w2, q.id, q.session))
  }

  function SignatureOf(w: World, id: Uuid, session: Uuid): Result<Signature, AggError> {
    if (id, session) in w.sessions && w.sessions[(id, session)].phase.AggSigning2?
    then Success(w.sessions[(id, session)].phase.signature)
    else Failure(WrongState)
  }
}

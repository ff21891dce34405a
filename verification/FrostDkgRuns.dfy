/**
 * Any number of key-generation flows side by side, for the same shares or others: each call of a signer, each read and
 * each write of the aggregator is a step, and signers may run signing handlers in between.
 *
 * A flow that succeeds has run the protocol, and all signers and the aggregator stay with its result.
 */
module FrostDkgRuns {
  import opened Wrappers
  import opened FrostSigner
  import opened FrostFlows
  import Agreement = FrostAgreement

  type Flow = nat

  datatype Stage =
    | Started
    | Asking1(packages: map<Identifier, Result<Round1Package, SignerError>>)
    | Ended1
    | Asking2(round1: Packages1, made: map<Identifier, Result<Packages2, SignerError>>)
    | Ended2
    | Asking3(round1: Packages1, round2: Filed,
              publics: map<Identifier, Result<PublicKeyPackage, SignerError>>)
    | Ended3
    | Done(result: Result<PublicKeyPackage, AggError>)

  /** How far a flow has got, the randomness its round-1 calls drew, and what each signer computed for it. */
  datatype Progress = Progress(stage: Stage, draws: map<Identifier, Random>, log: Agreement.Transcript)

  datatype State = State(world: World, flows: map<Flow, Progress>)

  datatype Setting = Setting(suite: Suite, order: seq<Identifier>, shareOf: Flow -> Uuid)

  datatype Step =
    | Start(flow: Flow)
    | Begin1(flow: Flow)
    | Ask1(flow: Flow, signer: Identifier, random: Random)
    | End1(flow: Flow)
    | Begin2(flow: Flow)
    | Ask2(flow: Flow, signer: Identifier)
    | End2(flow: Flow)
    | Begin3(flow: Flow)
    | Ask3(flow: Flow, signer: Identifier)
    | End3(flow: Flow)
    | Collect(flow: Flow)
    | Prepare(id: Uuid)
    | SignerSign1(signer: Identifier, request: SignRequest, random: Random)
    | SignerSign2(signer: Identifier, id: Uuid, session: Uuid, package: SigningPackage, tap: bool)

  const EMPTY := Agreement.Transcript(map[], map[], map[], map[], map[])

  // ----- Steps -----

  function Put(st: State, i: Identifier, signer: SignerState): State {
    st.(world := st.world.(signers := st.world.signers[i := signer]))
  }

  function Set(st: State, f: Flow, p: Progress): State {
    st.(flows := st.flows[f := p])
  }

  function SetStage(st: State, f: Flow, stage: Stage): State
    requires f in st.flows
  {
    Set(st, f, st.flows[f].(stage := stage))
  }

  function StoreShare(st: State, id: Uuid, phase: AggPhase): State {
    st.(world := st.world.(shares := st.world.shares[id := phase]))
  }

  predicate Stands(st: State, id: Uuid, i: Identifier, phase: DkgPhase) {
    i in st.world.signers && id in st.world.signers[i].dkg && st.world.signers[i].dkg[id] == phase
  }

  function NextStart(s: Setting, st: State, f: Flow): State {
    if f in st.flows then st
    else
      var id := s.shareOf(f);
      var stage := if id in st.world.shares && !st.world.shares[id].Initialized? then Done(Failure(ShareExists)) else Started;
      Set(st, f, Progress(stage, map[], EMPTY))
  }

  function NextBegin1(s: Setting, st: State, f: Flow): State {
    if !(f in st.flows && st.flows[f].stage.Started?) then st
    else
      var id := s.shareOf(f);
      SetStage(st, f, if id in st.world.shares && st.world.shares[id].Initialized? then Asking1(map[]) else Done(Failure(WrongState)))
  }

  predicate CanAsk1(st: State, f: Flow, i: Identifier) {
    f in st.flows && st.flows[f].stage.Asking1? && i in st.world.signers && i !in st.flows[f].stage.packages
  }

  function NextAsk1(s: Setting, st: State, f: Flow, i: Identifier, random: Random): State {
    if !CanAsk1(st, f, i) then st
    else
      var p, id := st.flows[f], s.shareOf(f);
      var (signer, answer) := HandleDkgRound1(s.suite, i, st.world.signers[i], id, random);
      var log := if answer.Success? && id in signer.dkg && signer.dkg[id].DkgRound1?
        then p.log.(secret1 := p.log.secret1[i := signer.dkg[id].secret1], package1 := p.log.package1[i := answer.value])
        else p.log;
      Set(Put(st, i, signer), f, Progress(Asking1(p.stage.packages[i := answer]), p.draws[i := random], log))
  }

  function NextEnd1(s: Setting, st: State, f: Flow): State {
    if !(f in st.flows && st.flows[f].stage.Asking1? && st.flows[f].stage.packages.Keys == st.world.signers.Keys) then st
    else
      match Gathered(s.order, st.flows[f].stage.packages)
      case Failure(e) => SetStage(st, f, Done(Failure(OfSigner(e))))
      case Success(values) => StoreShare(SetStage(st, f, Ended1), s.shareOf(f), AggRound1(values))
  }

  function NextBegin2(s: Setting, st: State, f: Flow): State {
    if !(f in st.flows && st.flows[f].stage.Ended1?) then st
    else
      var id := s.shareOf(f);
      SetStage(st, f, if id in st.world.shares && st.world.shares[id].AggRound1?
                      then Asking2(st.world.shares[id].round1, map[]) else Done(Failure(WrongState)))
  }

  predicate CanAsk2(st: State, f: Flow, i: Identifier) {
    f in st.flows && st.flows[f].stage.Asking2? && i in st.world.signers && i !in st.flows[f].stage.made
  }

  function NextAsk2(s: Setting, st: State, f: Flow, i: Identifier): State {
    if !CanAsk2(st, f, i) then st
    else
      var p, id := st.flows[f], s.shareOf(f);
      var (signer, answer) := HandleDkgRound2(s.suite, st.world.signers[i], id, Others(p.stage.round1, i));
      var log := if answer.Success? && id in signer.dkg && signer.dkg[id].DkgRound2?
        then p.log.(secret2 := p.log.secret2[i := signer.dkg[id].secret2], made := p.log.made[i := answer.value])
        else p.log;
      Set(Put(st, i, signer), f, Progress(p.stage.(made := p.stage.made[i := answer]), p.draws, log))
  }

  ghost function NextEnd2(s: Setting, st: State, f: Flow): State {
    if !(f in st.flows && st.flows[f].stage.Asking2? && st.flows[f].stage.made.Keys == st.world.signers.Keys) then st
    else
      match Gathered(s.order, st.flows[f].stage.made)
      case Failure(e) => SetStage(st, f, Done(Failure(OfSigner(e))))
      case Success(values) => StoreShare(SetStage(st, f, Ended2), s.shareOf(f), AggRound2(st.flows[f].stage.round1, Transposed(values)))
  }

  function NextBegin3(s: Setting, st: State, f: Flow): State {
    if !(f in st.flows && st.flows[f].stage.Ended2?) then st
    else
      var id := s.shareOf(f);
      if !(id in st.world.shares && st.world.shares[id].AggRound2?) then SetStage(st, f, Done(Failure(WrongState)))
      else if !(st.world.signers.Keys <= st.world.shares[id].round2.Keys) then SetStage(st, f, Done(Failure(AggInternal)))
      else SetStage(st, f, Asking3(st.world.shares[id].round1, st.world.shares[id].round2, map[]))
  }

  predicate CanAsk3(st: State, f: Flow, i: Identifier) {
    f in st.flows && st.flows[f].stage.Asking3? && i in st.world.signers && i !in st.flows[f].stage.publics && i in st.flows[f].stage.round2
  }

  function NextAsk3(s: Setting, st: State, f: Flow, i: Identifier): State {
    if !CanAsk3(st, f, i) then st
    else
      var p, id := st.flows[f], s.shareOf(f);
      var (signer, answer) := HandleDkgFinalize(s.suite, st.world.signers[i], id, Others(p.stage.round1, i), p.stage.round2[i]);
      var log := if answer.Success? && id in signer.dkg && signer.dkg[id].DkgFinalized?
        then p.log.(key := p.log.key[i := signer.dkg[id].key])
        else p.log;
      Set(Put(st, i, signer), f, Progress(p.stage.(publics := p.stage.publics[i := answer]), p.draws, log))
  }

  function NextEnd3(s: Setting, st: State, f: Flow): State {
    if !(f in st.flows && st.flows[f].stage.Asking3? && st.flows[f].stage.publics.Keys == st.world.signers.Keys) then st
    else
      match Gathered(s.order, st.flows[f].stage.publics)
      case Failure(e) => SetStage(st, f, Done(Failure(OfSigner(e))))
      case Success(values) =>
        if s.order == [] || s.order[0] !in values then SetStage(st, f, Done(Failure(Stopped)))
        else if !AllEqual(values[s.order[0]], s.order, values) then SetStage(st, f, Done(Failure(AggInternal)))
        else StoreShare(SetStage(st, f, Ended3), s.shareOf(f), AggFinalized(values[s.order[0]]))
  }

  function NextCollect(s: Setting, st: State, f: Flow): State {
    if !(f in st.flows && st.flows[f].stage.Ended3?) then st else SetStage(st, f, Done(PublicOf(st.world, s.shareOf(f))))
  }

  /** One step; a step that is not enabled does nothing. */
  ghost function Next(s: Setting, st: State, step: Step): State {
    match step
    case Start(f) => NextStart(s, st, f)
    case Begin1(f) => NextBegin1(s, st, f)
    case Ask1(f, i, random) => NextAsk1(s, st, f, i, random)
    case End1(f) => NextEnd1(s, st, f)
    case Begin2(f) => NextBegin2(s, st, f)
    case Ask2(f, i) => NextAsk2(s, st, f, i)
    case End2(f) => NextEnd2(s, st, f)
    case Begin3(f) => NextBegin3(s, st, f)
    case Ask3(f, i) => NextAsk3(s, st, f, i)
    case End3(f) => NextEnd3(s, st, f)
    case Collect(f) => NextCollect(s, st, f)
    case Prepare(id) => if id in st.world.shares then st else StoreShare(st, id, Initialized)
    case SignerSign1(i, q, random) =>
      if i !in st.world.signers then st else Put(st, i, HandleSignRound1(s.suite, st.world.signers[i], q, random).0)
    case SignerSign2(i, id, session, package, tap) =>
      if i !in st.world.signers then st else Put(st, i, HandleSignRound2(s.suite, st.world.signers[i], id, session, package, tap).0)
  }

  ghost function Run(s: Setting, st: State, steps: seq<Step>): State {
    if steps == [] then st else Next(s, Run(s, st, steps[..|steps| - 1]), steps[|steps| - 1])
  }

  // ----- What holds of each flow -----

  /** The signer's part 1, 2 or 3 was computed as the log says. */
  ghost predicate Did1(suite: Suite, draws: map<Identifier, Random>, log: Agreement.Transcript, i: Identifier) {
    i in draws && i in log.secret1 && i in log.package1 && suite.part1(i, draws[i]) == Some((log.secret1[i], log.package1[i]))
  }

  ghost predicate Did2(suite: Suite, log: Agreement.Transcript, i: Identifier) {
    && i in log.secret1 && i in log.secret2 && i in log.made
    && suite.part2(log.secret1[i], Others(log.package1, i)) == Some((log.secret2[i], log.made[i]))
  }

  ghost predicate Did3(suite: Suite, log: Agreement.Transcript, i: Identifier, public: PublicKeyPackage) {
    && i in log.secret2 && i in log.key && Received(log.made, i) != map[]
    && suite.part3(log.secret2[i], Others(log.package1, i), Received(log.made, i)) == Some((log.key[i], public))
  }

  ghost predicate All1(suite: Suite, draws: map<Identifier, Random>, log: Agreement.Transcript, ids: set<Identifier>) {
    log.secret1.Keys == log.package1.Keys == ids && forall i :: i in ids ==> Did1(suite, draws, log, i)
  }

  ghost predicate All2(suite: Suite, log: Agreement.Transcript, ids: set<Identifier>) {
    log.secret2.Keys == log.made.Keys == ids && forall i :: i in ids ==> Did2(suite, log, i)
  }

  ghost predicate All3(suite: Suite, log: Agreement.Transcript, ids: set<Identifier>, public: PublicKeyPackage) {
    log.key.Keys == ids && forall i :: i in ids ==> Did3(suite, log, i, public)
  }

  ghost predicate Logged1(suite: Suite, p: Progress, ids: set<Identifier>,
                          packages: map<Identifier, Result<Round1Package, SignerError>>) {
    && packages.Keys <= ids && p.log.secret2 == map[] && p.log.made == map[] && p.log.key == map[]
    && p.log.secret1.Keys == p.log.package1.Keys
    && (forall i :: i in p.log.package1 <==> i in packages && packages[i].Success?)
    && (forall i :: i in p.log.package1 ==> Did1(suite, p.draws, p.log, i) && packages[i] == Success(p.log.package1[i]))
  }

  ghost predicate Logged2(suite: Suite, p: Progress, ids: set<Identifier>, round1: Packages1,
                          made: map<Identifier, Result<Packages2, SignerError>>) {
    && All1(suite, p.draws, p.log, ids) && round1 == p.log.package1 && made.Keys <= ids && p.log.key == map[]
    && p.log.secret2.Keys == p.log.made.Keys
    && (forall i :: i in p.log.made <==> i in made && made[i].Success?)
    && (forall i :: i in p.log.made ==> Did2(suite, p.log, i) && made[i] == Success(p.log.made[i]))
  }

  ghost predicate Logged3(suite: Suite, p: Progress, ids: set<Identifier>, round1: Packages1, round2: Filed,
                          publics: map<Identifier, Result<PublicKeyPackage, SignerError>>) {
    && All1(suite, p.draws, p.log, ids) && All2(suite, p.log, ids) && publics.Keys <= ids
    && round1 == p.log.package1 && round2 == Transposed(p.log.made)
    && (forall i :: i in p.log.key <==> i in publics && publics[i].Success?)
    && (forall i :: i in p.log.key ==> Did3(suite, p.log, i, publics[i].value))
  }

  /** What a flow's answers and log say by themselves. */
  ghost predicate Logged(suite: Suite, p: Progress, ids: set<Identifier>) {
    match p.stage
    case Started => p.log == EMPTY
    case Asking1(packages) => Logged1(suite, p, ids, packages)
    case Ended1 => All1(suite, p.draws, p.log, ids) && p.log.secret2 == map[] && p.log.made == map[] && p.log.key == map[]
    case Asking2(round1, made) => Logged2(suite, p, ids, round1, made)
    case Ended2 => All1(suite, p.draws, p.log, ids) && All2(suite, p.log, ids) && p.log.key == map[]
    case Asking3(round1, round2, publics) => Logged3(suite, p, ids, round1, round2, publics)
    case Ended3 => All1(suite, p.draws, p.log, ids) && All2(suite, p.log, ids) && p.log.key.Keys == ids
    case Done(result) => result.Success? ==> All1(suite, p.draws, p.log, ids) && All2(suite, p.log, ids) && All3(suite, p.log, ids, result.value)
  }

  /** The flow's round 1 was accepted by the signer, and the flow has not failed. */
  predicate Accepted(p: Progress, i: Identifier) {
    match p.stage
    case Started => false
    case Asking1(packages) => i in packages && packages[i].Success?
    case Done(result) => result.Success?
    case _ => true
  }

  /** The phase that a signer who accepted the flow is in. */
  function PhaseOf(log: Agreement.Transcript, i: Identifier): Option<DkgPhase> {
    if i in log.key then Some(DkgFinalized(log.key[i]))
    else if i in log.secret2 then Some(DkgPhase.DkgRound2(log.secret2[i], Others(log.package1, i)))
    else if i in log.secret1 then Some(DkgPhase.DkgRound1(log.secret1[i]))
    else None
  }

  /** What the aggregator has stored for the flow, if it has. */
  ghost predicate ShareIs(st: State, id: Uuid, suite: Suite, p: Progress) {
    match p.stage
    case Ended1 => id in st.world.shares && st.world.shares[id] == AggRound1(p.log.package1)
    case Ended2 => id in st.world.shares && st.world.shares[id] == AggRound2(p.log.package1, Transposed(p.log.made))
    case Ended3 => PublicOf(st.world, id).Success? && All3(suite, p.log, st.world.signers.Keys, PublicOf(st.world, id).value)
    case Done(result) => result.Success? ==> PublicOf(st.world, id) == result
    case _ => true
  }

  /** The signer is in the phase the log says, and keeps the share locked until it is finalized. */
  ghost predicate SignerIs(st: State, id: Uuid, p: Progress, i: Identifier)
    requires i in st.world.signers
  {
    Accepted(p, i) ==>
      && PhaseOf(p.log, i).Some? && Stands(st, id, i, PhaseOf(p.log, i).value)
      && (i !in p.log.key ==> id in st.world.signers[i].locked)
  }

  ghost predicate Own(s: Setting, st: State, f: Flow) {
    f in st.flows ==>
      && Logged(s.suite, st.flows[f], st.world.signers.Keys)
      && ShareIs(st, s.shareOf(f), s.suite, st.flows[f])
      && forall i :: i in st.world.signers ==> SignerIs(st, s.shareOf(f), st.flows[f], i)
  }

  /** No signer has accepted two flows on one share. */
  ghost predicate Exclusive(s: Setting, st: State) {
    forall f, g, i :: f in st.flows && g in st.flows && f != g && s.shareOf(f) == s.shareOf(g) && i in st.world.signers
                      ==> !(Accepted(st.flows[f], i) && Accepted(st.flows[g], i))
  }

  ghost predicate Invariant(s: Setting, st: State) {
    (forall f :: Own(s, st, f)) && Exclusive(s, st)
  }
}

/**
 * Any number of signing flows side by side: each call of a signer, each read and each write of the aggregator is a
 * step, and signers may run key-generation handlers in between.
 *
 * A flow on a finalized share with a session of its own is not disturbed: what is stored for it and what it returns
 * are what its own steps alone give, and when it succeeds, what the sequential flow returns on the same randomness.
 */
module FrostSessions {
  import opened Wrappers
  import opened FrostSigner
  import opened FrostFlows
  import Agreement = FrostAgreement

  type Flow = nat

  datatype Stage =
    | Asking1(commitments: map<Identifier, Result<Commitments, SignerError>>)
    | Committed
    | Asking2(public: PublicKeyPackage, data: AggSignData, shares: map<Identifier, Result<SignatureShare, SignerError>>)
    | Stored
    | Done(result: Result<Signature, AggError>)

  /** `draws` records the randomness of each round-1 call. */
  datatype State = State(world: World, stages: map<Flow, Stage>, draws: map<(Flow, Identifier), Random>)

  datatype Setting = Setting(suite: Suite, order: seq<Identifier>, request: Flow -> SignRequest, tap: Flow -> bool)

  datatype Step =
    | Begin1(flow: Flow)
    | Ask1(flow: Flow, signer: Identifier, random: Random)
    | End1(flow: Flow)
    | Begin2(flow: Flow)
    | Ask2(flow: Flow, signer: Identifier)
    | End2(flow: Flow)
    | Collect(flow: Flow)
    | SignerDkg1(signer: Identifier, id: Uuid, random: Random)
    | SignerDkg2(signer: Identifier, id: Uuid, packages: Packages1)
    | SignerDkg3(signer: Identifier, id: Uuid, round1: Packages1, round2: Packages2)
    | AggDkg(id: Uuid, phase: AggPhase)

  function FlowOf(step: Step): Option<Flow> {
    match step
    case SignerDkg1(_, _, _) => None
    case SignerDkg2(_, _, _) => None
    case SignerDkg3(_, _, _, _) => None
    case AggDkg(_, _) => None
    case _ => Some(step.flow)
  }

  function Put(st: State, i: Identifier, signer: SignerState): State {
    st.(world := st.world.(signers := st.world.signers[i := signer]))
  }

  function SetStage(st: State, f: Flow, stage: Stage): State {
    st.(stages := st.stages[f := stage])
  }

  function Store(st: State, q: SignRequest, data: AggSignData): State {
    st.(world := st.world.(sessions := st.world.sessions[(q.id, q.session) := data]))
  }

  /** One step; a step that is not enabled does nothing. */
  function Next(s: Setting, st: State, step: Step): State {
    match step
    case Begin1(f) =>
      if f in st.stages then st
      else SetStage(st, f, if PublicOf(st.world, s.request(f).id).Failure? then Done(Failure(WrongState)) else Asking1(map[]))
    case Ask1(f, i, random) => NextAsk1(s, st, f, i, random)
    case End1(f) => NextEnd1(s, st, f)
    case Begin2(f) => NextBegin2(s, st, f)
    case Ask2(f, i) => NextAsk2(s, st, f, i)
    case End2(f) => NextEnd2(s, st, f)
    case Collect(f) =>
      if !(f in st.stages && st.stages[f].Stored?) then st
      else SetStage(st, f, Done(SignatureOf(st.world, s.request(f).id, s.request(f).session)))
    case SignerDkg1(i, id, random) =>
      if i !in st.world.signers then st else Put(st, i, HandleDkgRound1(s.suite, i, st.world.signers[i], id, random).0)
    case SignerDkg2(i, id, packages) =>
      if i !in st.world.signers then st else Put(st, i, HandleDkgRound2(s.suite, st.world.signers[i], id, packages).0)
    case SignerDkg3(i, id, round1, round2) =>
      if i !in st.world.signers then st else Put(st, i, HandleDkgFinalize(s.suite, st.world.signers[i], id, round1, round2).0)
    case AggDkg(id, phase) =>
      // the aggregator's key-generation rounds never write to a finalized share
      if PublicOf(st.world, id).Success? then st else st.(world := st.world.(shares := st.world.shares[id := phase]))
  }

  function NextAsk1(s: Setting, st: State, f: Flow, i: Identifier, random: Random): State {
    if !(f in st.stages && st.stages[f].Asking1? && i in st.world.signers && i !in st.stages[f].commitments) then st
    else
      var (signer, answer) := HandleSignRound1(s.suite, st.world.signers[i], s.request(f), random);
      var asked := Put(st, i, signer).(draws := st.draws[(f, i) := random]);
      SetStage(asked, f, Asking1(st.stages[f].commitments[i := answer]))
  }

  function NextEnd1(s: Setting, st: State, f: Flow): State {
    if !(f in st.stages && st.stages[f].Asking1? && st.stages[f].commitments.Keys == st.world.signers.Keys) then st
    else
      match Gathered(s.order, st.stages[f].commitments)
      case Failure(e) => SetStage(st, f, Done(Failure(OfSigner(e))))
      case Success(values) =>
        var q := s.request(f);
        SetStage(Store(st, q, AggSignData(q.tweak, q.message, q.metadata, AggSigning1(SigningPackage(values, q.message)))), f, Committed)
  }

  function NextBegin2(s: Setting, st: State, f: Flow): State {
    if !(f in st.stages && st.stages[f].Committed?) then st
    else
      var q := s.request(f);
      if (q.id, q.session) !in st.world.sessions || PublicOf(st.world, q.id).Failure? || !st.world.sessions[(q.id, q.session)].phase.AggSigning1?
      then SetStage(st, f, Done(Failure(WrongState)))
      else SetStage(st, f, Asking2(PublicOf(st.world, q.id).value, st.world.sessions[(q.id, q.session)], map[]))
  }

  function NextAsk2(s: Setting, st: State, f: Flow, i: Identifier): State {
    if !(f in st.stages && st.stages[f].Asking2? && i in st.world.signers && i !in st.stages[f].shares && st.stages[f].data.phase.AggSigning1?) then st
    else
      var stage, q := st.stages[f], s.request(f);
      var (signer, answer) := HandleSignRound2(s.suite, st.world.signers[i], q.id, q.session, stage.data.phase.package, s.tap(f));
      SetStage(Put(st, i, signer), f, stage.(shares := stage.shares[i := answer]))
  }

  function NextEnd2(s: Setting, st: State, f: Flow): State {
    if !(f in st.stages && st.stages[f].Asking2? && st.stages[f].shares.Keys == st.world.signers.Keys && st.stages[f].data.phase.AggSigning1?) then st
    else
      var stage := st.stages[f];
      match Gathered(s.order, stage.shares)
      case Failure(e) => SetStage(st, f, Done(Failure(OfSigner(e))))
      case Success(values) =>
        match Finish(s.suite, stage.public, stage.data, s.tap(f), values)
        case Failure(e) => SetStage(st, f, Done(Failure(e)))
        case Success(signature) => SetStage(Store(st, s.request(f), stage.data.(phase := AggSigning2(signature))), f, Stored)
  }

  function Run(s: Setting, st: State, steps: seq<Step>): State {
    if steps == [] then st else Next(s, Run(s, st, steps[..|steps| - 1]), steps[|steps| - 1])
  }

  /** The steps of one flow. */
  function Only(steps: seq<Step>, f: Flow): seq<Step> {
    if steps == [] then []
    else
      var rest, last := Only(steps[..|steps| - 1], f), steps[|steps| - 1];
      if FlowOf(last) == Some(f) then rest + [last] else rest
  }

  // ----- What a flow can see -----

  function Lookup<K, V>(m: map<K, V>, k: K): Option<V> {
    if k in m then Some(m[k]) else None
  }

  predicate SignersAlike(a: SignerState, b: SignerState, q: SignRequest) {
    && Lookup(a.dkg, q.id) == Lookup(b.dkg, q.id)
    && Lookup(a.sessions, (q.id, q.session)) == Lookup(b.sessions, (q.id, q.session))
  }

  predicate AlikeAt(a: State, b: State, q: SignRequest, f: Flow, i: Identifier) {
    && i in a.world.signers && i in b.world.signers
    && SignersAlike(a.world.signers[i], b.world.signers[i], q)
    && Lookup(a.draws, (f, i)) == Lookup(b.draws, (f, i))
  }

  /** The two states agree on all that is stored for the flow, by the aggregator and by every signer, on the share it
      signs with and on how far it has got. */
  ghost predicate Alike(s: Setting, a: State, b: State, f: Flow) {
    var q := s.request(f);
    && Lookup(a.stages, f) == Lookup(b.stages, f)
    && Lookup(a.world.shares, q.id) == Lookup(b.world.shares, q.id)
    && Lookup(a.world.sessions, (q.id, q.session)) == Lookup(b.world.sessions, (q.id, q.session))
    && a.world.signers.Keys == b.world.signers.Keys
    && forall i :: i in a.world.signers ==> AlikeAt(a, b, q, f, i)
  }

  /** No two flows have the same session on the same share. */
  ghost predicate OwnSession(s: Setting, f: Flow) {
    forall g :: g != f ==> (s.request(g).id, s.request(g).session) != (s.request(f).id, s.request(f).session)
  }

  /** The share is finalized everywhere. */
  ghost predicate Final(w: World, id: Uuid, key: KeyPackages, public: PublicKeyPackage) {
    PublicOf(w, id) == Success(public) && Agreement.Keys(w, id, key)
  }

  // ----- A flow's own steps depend on nothing else -----

  lemma Sign1Alike(suite: Suite, a: SignerState, b: SignerState, q: SignRequest, random: Random)
    requires SignersAlike(a, b, q)
    ensures var (a', ra) := HandleSignRound1(suite, a, q, random); var (b', rb) := HandleSignRound1(suite, b, q, random);
            ra == rb && SignersAlike(a', b', q)
  {
  }

  lemma Sign2Alike(suite: Suite, a: SignerState, b: SignerState, q: SignRequest, package: SigningPackage, tap: bool)
    requires SignersAlike(a, b, q)
    ensures var (a', ra) := HandleSignRound2(suite, a, q.id, q.session, package, tap);
            var (b', rb) := HandleSignRound2(suite, b, q.id, q.session, package, tap);
            ra == rb && SignersAlike(a', b', q)
  {
    hide SigningKey;
  }

  lemma StageAlike(s: Setting, a: State, b: State, f: Flow)
    requires Alike(s, a, b, f)
    ensures f in a.stages <==> f in b.stages
    ensures f in a.stages ==> a.stages[f] == b.stages[f]
    ensures PublicOf(a.world, s.request(f).id) == PublicOf(b.world, s.request(f).id)
    ensures SignatureOf(a.world, s.request(f).id, s.request(f).session) == SignatureOf(b.world, s.request(f).id, s.request(f).session)
    ensures a.world.signers.Keys == b.world.signers.Keys
  {
  }

  lemma SetStageAlike(s: Setting, a: State, b: State, f: Flow, stage: Stage)
    requires Alike(s, a, b, f)
    ensures Alike(s, SetStage(a, f, stage), SetStage(b, f, stage), f)
  {
    hide SignersAlike;
    forall i | i in a.world.signers ensures AlikeAt(SetStage(a, f, stage), SetStage(b, f, stage), s.request(f), f, i) {
      assert AlikeAt(a, b, s.request(f), f, i);
    }
  }

  lemma StoreAlike(s: Setting, a: State, b: State, f: Flow, data: AggSignData)
    requires Alike(s, a, b, f)
    ensures Alike(s, Store(a, s.request(f), data), Store(b, s.request(f), data), f)
  {
    hide SignersAlike;
    var q := s.request(f);
    forall i | i in a.world.signers ensures AlikeAt(Store(a, q, data), Store(b, q, data), q, f, i) {
      assert AlikeAt(a, b, q, f, i);
    }
  }

  lemma PutAlike(s: Setting, a: State, b: State, f: Flow, i: Identifier, signerA: SignerState, signerB: SignerState)
    requires Alike(s, a, b, f) && i in a.world.signers && SignersAlike(signerA, signerB, s.request(f))
    ensures Alike(s, Put(a, i, signerA), Put(b, i, signerB), f)
  {
    hide SignersAlike;
    var q := s.request(f);
    forall j | j in a.world.signers ensures AlikeAt(Put(a, i, signerA), Put(b, i, signerB), q, f, j) {
      assert AlikeAt(a, b, q, f, j);
    }
  }

  lemma DrawAlike(s: Setting, a: State, b: State, f: Flow, i: Identifier, random: Random)
    requires Alike(s, a, b, f)
    ensures Alike(s, a.(draws := a.draws[(f, i) := random]), b.(draws := b.draws[(f, i) := random]), f)
  {
    hide SignersAlike;
    var q := s.request(f);
    forall j | j in a.world.signers ensures AlikeAt(a.(draws := a.draws[(f, i) := random]), b.(draws := b.draws[(f, i) := random]), q, f, j) {
      assert AlikeAt(a, b, q, f, j);
    }
  }

  lemma Ask1Alike(s: Setting, a: State, b: State, f: Flow, i: Identifier, random: Random)
    requires Alike(s, a, b, f)
    ensures Alike(s, NextAsk1(s, a, f, i, random), NextAsk1(s, b, f, i, random), f)
  {
    hide Alike, SignersAlike, HandleSignRound1, SetStage, Put;
    StageAlike(s, a, b, f);
    if f in a.stages && a.stages[f].Asking1? && i in a.world.signers && i !in a.stages[f].commitments {
      AlikeSigner(s, a, b, f, i);
      Sign1Alike(s.suite, a.world.signers[i], b.world.signers[i], s.request(f), random);
      var (signerA, answer) := HandleSignRound1(s.suite, a.world.signers[i], s.request(f), random);
      var (signerB, answerB) := HandleSignRound1(s.suite, b.world.signers[i], s.request(f), random);
      PutAlike(s, a, b, f, i, signerA, signerB);
      PutKeepsDraws(a, i, signerA);
      PutKeepsDraws(b, i, signerB);
      DrawAlike(s, Put(a, i, signerA), Put(b, i, signerB), f, i, random);
      SetStageAlike(s, Put(a, i, signerA).(draws := a.draws[(f, i) := random]), Put(b, i, signerB).(draws := b.draws[(f, i) := random]), f,
                    Asking1(a.stages[f].commitments[i := answer]));
    }
  }

  lemma PutKeepsDraws(st: State, i: Identifier, signer: SignerState)
    ensures Put(st, i, signer).draws == st.draws && Put(st, i, signer).stages == st.stages
  {
  }

  lemma AlikeSigner(s: Setting, a: State, b: State, f: Flow, i: Identifier)
    requires Alike(s, a, b, f) && i in a.world.signers
    ensures i in b.world.signers && SignersAlike(a.world.signers[i], b.world.signers[i], s.request(f))
  {
    assert AlikeAt(a, b, s.request(f), f, i);
  }

  lemma AlikeSession(s: Setting, a: State, b: State, f: Flow)
    requires Alike(s, a, b, f)
    ensures var k := (s.request(f).id, s.request(f).session);
            (k in a.world.sessions <==> k in b.world.sessions) && (k in a.world.sessions ==> a.world.sessions[k] == b.world.sessions[k])
  {
  }

  lemma Ask2Alike(s: Setting, a: State, b: State, f: Flow, i: Identifier)
    requires Alike(s, a, b, f)
    ensures Alike(s, NextAsk2(s, a, f, i), NextAsk2(s, b, f, i), f)
  {
    hide Alike, SignersAlike, HandleSignRound2, SetStage, Put;
    StageAlike(s, a, b, f);
    if f in a.stages && a.stages[f].Asking2? && i in a.world.signers && i !in a.stages[f].shares && a.stages[f].data.phase.AggSigning1? {
      var stage, q := a.stages[f], s.request(f);
      AlikeSigner(s, a, b, f, i);
      Sign2Alike(s.suite, a.world.signers[i], b.world.signers[i], q, stage.data.phase.package, s.tap(f));
      var (signerA, answer) := HandleSignRound2(s.suite, a.world.signers[i], q.id, q.session, stage.data.phase.package, s.tap(f));
      var (signerB, answerB) := HandleSignRound2(s.suite, b.world.signers[i], q.id, q.session, stage.data.phase.package, s.tap(f));
      PutAlike(s, a, b, f, i, signerA, signerB);
      SetStageAlike(s, Put(a, i, signerA), Put(b, i, signerB), f, stage.(shares := stage.shares[i := answer]));
    }
  }

  /** The steps that only read what is stored for the flow and write it again. */
  lemma RoundAlike(s: Setting, a: State, b: State, f: Flow, step: Step)
    requires Alike(s, a, b, f) && step in {Begin1(f), End1(f), Begin2(f), End2(f), Collect(f)}
    ensures Alike(s, Next(s, a, step), Next(s, b, step), f)
  {
    hide Alike, SetStage, Store, PublicOf, SignatureOf, Gathered, Finish;
    StageAlike(s, a, b, f);
    AlikeSession(s, a, b, f);
    var q := s.request(f);
    forall stage {
      SetStageAlike(s, a, b, f, stage);
    }
    forall data, stage ensures Alike(s, SetStage(Store(a, q, data), f, stage), SetStage(Store(b, q, data), f, stage), f) {
      StoreAlike(s, a, b, f, data);
      SetStageAlike(s, Store(a, q, data), Store(b, q, data), f, stage);
    }
  }

  lemma OwnAlike(s: Setting, a: State, b: State, f: Flow, step: Step)
    requires Alike(s, a, b, f) && FlowOf(step) == Some(f)
    ensures Alike(s, Next(s, a, step), Next(s, b, step), f)
  {
    hide Alike, NextAsk1, NextAsk2, NextEnd1, NextEnd2, NextBegin2;
    match step
    case Ask1(_, i, random) => Ask1Alike(s, a, b, f, i, random);
    case Ask2(_, i) => Ask2Alike(s, a, b, f, i);
    case _ => RoundAlike(s, a, b, f, step);
  }

  // ----- Other steps leave a flow alone -----

  /** A handler run for another session, or a key-generation handler, leaves a finalized signer's session as it is. */
  lemma SignerUndisturbed(suite: Suite, me: Identifier, signer: SignerState, q: SignRequest, r: SignRequest, id: Uuid,
                          random: Random, packages: Packages1, round2: Packages2, package: SigningPackage, tap: bool)
    requires q.id in signer.dkg && signer.dkg[q.id].DkgFinalized?
    ensures SignersAlike(signer, HandleDkgRound1(suite, me, signer, id, random).0, q)
    ensures SignersAlike(signer, HandleDkgRound2(suite, signer, id, packages).0, q)
    ensures SignersAlike(signer, HandleDkgFinalize(suite, signer, id, packages, round2).0, q)
    ensures (r.id, r.session) != (q.id, q.session) ==> SignersAlike(signer, HandleSignRound1(suite, signer, r, random).0, q)
    ensures (r.id, r.session) != (q.id, q.session) ==> SignersAlike(signer, HandleSignRound2(suite, signer, r.id, r.session, package, tap).0, q)
  {
    hide SigningKey, CommitKey;
  }

  lemma PutOther(s: Setting, st: State, f: Flow, i: Identifier, signer: SignerState)
    requires i in st.world.signers && SignersAlike(st.world.signers[i], signer, s.request(f))
    ensures Alike(s, st, Put(st, i, signer), f)
  {
  }

  lemma Reflexive(s: Setting, st: State, f: Flow)
    ensures Alike(s, st, st, f)
  {
  }

  lemma Transitive(s: Setting, a: State, b: State, c: State, f: Flow)
    requires Alike(s, a, b, f) && Alike(s, b, c, f)
    ensures Alike(s, a, c, f)
  {
    hide SignersAlike;
    var q := s.request(f);
    forall i | i in a.world.signers ensures AlikeAt(a, c, q, f, i) {
      assert AlikeAt(a, b, q, f, i) && AlikeAt(b, c, q, f, i);
      SignersTransitive(a.world.signers[i], b.world.signers[i], c.world.signers[i], q);
    }
  }

  lemma SignersTransitive(a: SignerState, b: SignerState, c: SignerState, q: SignRequest)
    requires SignersAlike(a, b, q) && SignersAlike(b, c, q)
    ensures SignersAlike(a, c, q)
  {
  }

  /** What another flow notes about itself. */
  lemma NoteOther(s: Setting, st: State, f: Flow, g: Flow, stage: Stage, data: AggSignData, i: Identifier,
                  random: Random)
    requires g != f
    ensures Alike(s, st, SetStage(st, g, stage), f)
    ensures Alike(s, st, st.(draws := st.draws[(g, i) := random]), f)
    ensures (s.request(g).id, s.request(g).session) != (s.request(f).id, s.request(f).session) ==> Alike(s, st, Store(st, s.request(g), data), f)
  {
    hide SignersAlike;
    SignersReflexive(st, s.request(f));
  }

  lemma SignersReflexive(st: State, q: SignRequest)
    ensures forall i :: i in st.world.signers ==> SignersAlike(st.world.signers[i], st.world.signers[i], q)
  {
  }

  lemma Ask1Other(s: Setting, st: State, f: Flow, g: Flow, i: Identifier, random: Random, key: KeyPackages,
                  public: PublicKeyPackage)
    requires g != f && OwnSession(s, f) && Final(st.world, s.request(f).id, key, public)
    ensures Alike(s, st, NextAsk1(s, st, g, i, random), f)
  {
    hide Alike, SignersAlike, HandleSignRound1, SetStage, Put;
    Reflexive(s, st, f);
    if g in st.stages && st.stages[g].Asking1? && i in st.world.signers && i !in st.stages[g].commitments {
      var (signer, answer) := HandleSignRound1(s.suite, st.world.signers[i], s.request(g), random);
      SignerUndisturbed(s.suite, i, st.world.signers[i], s.request(f), s.request(g), 0, random, map[], map[], SigningPackage(map[], []), false);
      PutOther(s, st, f, i, signer);
      var put := Put(st, i, signer);
      PutKeepsDraws(st, i, signer);
      var asked := put.(draws := put.draws[(g, i) := random]);
      var stage := Asking1(st.stages[g].commitments[i := answer]);
      NoteOther(s, put, f, g, stage, AggSignData(None, [], 0, AggSigning2(Signature(0))), i, random);
      NoteOther(s, asked, f, g, stage, AggSignData(None, [], 0, AggSigning2(Signature(0))), i, random);
      Transitive(s, st, put, asked, f);
      Transitive(s, st, asked, SetStage(asked, g, stage), f);
    }
  }

  lemma Ask2Other(s: Setting, st: State, f: Flow, g: Flow, i: Identifier, key: KeyPackages, public: PublicKeyPackage)
    requires g != f && OwnSession(s, f) && Final(st.world, s.request(f).id, key, public)
    ensures Alike(s, st, NextAsk2(s, st, g, i), f)
  {
    hide Alike, SignersAlike, HandleSignRound2, SetStage, Put;
    Reflexive(s, st, f);
    if g in st.stages && st.stages[g].Asking2? && i in st.world.signers && i !in st.stages[g].shares && st.stages[g].data.phase.AggSigning1? {
      var stage, r := st.stages[g], s.request(g);
      var (signer, answer) := HandleSignRound2(s.suite, st.world.signers[i], r.id, r.session, stage.data.phase.package, s.tap(g));
      SignerUndisturbed(s.suite, i, st.world.signers[i], s.request(f), r, 0, 0, map[], map[], stage.data.phase.package, s.tap(g));
      PutOther(s, st, f, i, signer);
      var put := Put(st, i, signer);
      NoteOther(s, put, f, g, stage.(shares := stage.shares[i := answer]), stage.data, i, 0);
      Transitive(s, st, put, SetStage(put, g, stage.(shares := stage.shares[i := answer])), f);
    }
  }

  lemma RoundOther(s: Setting, st: State, f: Flow, g: Flow, step: Step)
    requires g != f && OwnSession(s, f) && step in {Begin1(g), End1(g), Begin2(g), End2(g), Collect(g)}
    ensures Alike(s, st, Next(s, st, step), f)
  {
    hide Alike, SetStage, Store, PublicOf, SignatureOf, Gathered, Finish;
    Reflexive(s, st, f);
    forall stage ensures Alike(s, st, SetStage(st, g, stage), f) {
      NoteOther(s, st, f, g, stage, AggSignData(None, [], 0, AggSigning2(Signature(0))), 0, 0);
    }
    forall data, stage ensures Alike(s, st, SetStage(Store(st, s.request(g), data), g, stage), f) {
      NoteOther(s, st, f, g, stage, data, 0, 0);
      NoteOther(s, Store(st, s.request(g), data), f, g, stage, data, 0, 0);
      Transitive(s, st, Store(st, s.request(g), data), SetStage(Store(st, s.request(g), data), g, stage), f);
    }
  }

  lemma DkgOther(s: Setting, st: State, f: Flow, step: Step, key: KeyPackages, public: PublicKeyPackage)
    requires FlowOf(step).None? && Final(st.world, s.request(f).id, key, public)
    ensures Alike(s, st, Next(s, st, step), f)
  {
    hide Alike, SignersAlike, HandleDkgRound1, HandleDkgRound2, HandleDkgFinalize, Put;
    var q := s.request(f);
    Reflexive(s, st, f);
    if step.AggDkg? {
      ShareOther(s, st, f, step.id, step.phase);
    } else if step.signer in st.world.signers {
      var random := if step.SignerDkg1? then step.random else 0;
      var packages := if step.SignerDkg2? then step.packages else if step.SignerDkg3? then step.round1 else map[];
      var round2 := if step.SignerDkg3? then step.round2 else map[];
      SignerUndisturbed(s.suite, step.signer, st.world.signers[step.signer], q, q, step.id, random, packages, round2, SigningPackage(map[], []), false);
      forall signer | SignersAlike(st.world.signers[step.signer], signer, q) ensures Alike(s, st, Put(st, step.signer, signer), f) {
        PutOther(s, st, f, step.signer, signer);
      }
    }
  }

  lemma ShareOther(s: Setting, st: State, f: Flow, id: Uuid, phase: AggPhase)
    requires PublicOf(st.world, s.request(f).id).Success?
    ensures Alike(s, st, Next(s, st, AggDkg(id, phase)), f)
  {
    hide SignersAlike;
    SignersReflexive(st, s.request(f));
  }

  lemma OtherAlike(s: Setting, st: State, f: Flow, step: Step, key: KeyPackages, public: PublicKeyPackage)
    requires FlowOf(step) != Some(f) && OwnSession(s, f) && Final(st.world, s.request(f).id, key, public)
    ensures Alike(s, st, Next(s, st, step), f)
  {
    hide Alike, NextAsk1, NextAsk2, NextEnd1, NextEnd2, NextBegin2, Final, OwnSession;
    if FlowOf(step).None? {
      DkgOther(s, st, f, step, key, public);
    } else {
      var g := FlowOf(step).value;
      if step.Ask1? {
        Ask1Other(s, st, f, g, step.signer, step.random, key, public);
      } else if step.Ask2? {
        Ask2Other(s, st, f, g, step.signer, key, public);
      } else {
        RoundOther(s, st, f, g, step);
      }
    }
  }

  lemma SigningKeepsDkg(suite: Suite, signer: SignerState, q: SignRequest, random: Random, package: SigningPackage,
                        tap: bool)
    ensures HandleSignRound1(suite, signer, q, random).0.dkg == signer.dkg
    ensures HandleSignRound2(suite, signer, q.id, q.session, package, tap).0.dkg == signer.dkg
  {
    hide SigningKey, CommitKey;
  }

  /** Signing steps write nothing about any share. */
  lemma SigningKeeps(s: Setting, st: State, step: Step)
    requires FlowOf(step).Some?
    ensures var st' := Next(s, st, step);
            && st'.world.shares == st.world.shares && st'.world.signers.Keys == st.world.signers.Keys
            && forall i :: i in st.world.signers ==> st'.world.signers[i].dkg == st.world.signers[i].dkg
  {
    hide Gathered, Finish, HandleSignRound1, HandleSignRound2, PublicOf, SignatureOf;
    var q := s.request(FlowOf(step).value);
    if step.Ask1? && step.signer in st.world.signers {
      SigningKeepsDkg(s.suite, st.world.signers[step.signer], q, step.random, SigningPackage(map[], []), false);
    } else if step.Ask2? && step.signer in st.world.signers && step.flow in st.stages
              && st.stages[step.flow].Asking2? && st.stages[step.flow].data.phase.AggSigning1? {
      SigningKeepsDkg(s.suite, st.world.signers[step.signer], q, 0, st.stages[step.flow].data.phase.package, s.tap(step.flow));
    }
  }

  lemma OwnFinal(s: Setting, st: State, step: Step, id: Uuid, key: KeyPackages, public: PublicKeyPackage)
    requires FlowOf(step).Some? && Final(st.world, id, key, public)
    ensures Final(Next(s, st, step).world, id, key, public)
  {
    hide Next;
    SigningKeeps(s, st, step);
  }

  lemma AlikeFinal(s: Setting, a: State, b: State, f: Flow, key: KeyPackages, public: PublicKeyPackage)
    requires Alike(s, a, b, f) && Final(a.world, s.request(f).id, key, public)
    ensures Final(b.world, s.request(f).id, key, public)
  {
    var q := s.request(f);
    forall i | i in b.world.signers
      ensures i in key && q.id in a.world.signers[i].dkg && q.id in b.world.signers[i].dkg
      ensures b.world.signers[i].dkg[q.id] == a.world.signers[i].dkg[q.id]
    {
      assert AlikeAt(a, b, q, f, i);
    }
  }

  /** A share that is finalized stays so. */
  lemma {:induction false} RunFinal(s: Setting, st: State, f: Flow, steps: seq<Step>, key: KeyPackages,
                                    public: PublicKeyPackage)
    requires OwnSession(s, f) && Final(st.world, s.request(f).id, key, public)
    ensures Final(Run(s, st, steps).world, s.request(f).id, key, public)
  {
    hide Alike, Next, Final, OwnSession;
    if steps != [] {
      var before, last := Run(s, st, steps[..|steps| - 1]), steps[|steps| - 1];
      RunFinal(s, st, f, steps[..|steps| - 1], key, public);
      if FlowOf(last) == Some(f) {
        OwnFinal(s, before, last, s.request(f).id, key, public);
      } else {
        OtherAlike(s, before, f, last, key, public);
        AlikeFinal(s, before, Next(s, before, last), f, key, public);
      }
    }
  }

  /** Isolation: after any interleaving, everything stored for a flow, and its result, is what its own steps alone give. */
  lemma {:induction false} Isolation(s: Setting, st: State, f: Flow, steps: seq<Step>, key: KeyPackages,
                                     public: PublicKeyPackage)
    requires OwnSession(s, f) && Final(st.world, s.request(f).id, key, public)
    ensures Alike(s, Run(s, st, steps), Run(s, st, Only(steps, f)), f)
  {
    hide Alike, Next, Final, OwnSession;
    if steps == [] {
      Reflexive(s, st, f);
    } else {
      var rest, last := steps[..|steps| - 1], steps[|steps| - 1];
      var before, alone := Run(s, st, rest), Run(s, st, Only(rest, f));
      Isolation(s, st, f, rest, key, public);
      RunFinal(s, st, f, rest, key, public);
      if FlowOf(last) == Some(f) {
        OwnAlike(s, before, alone, f, last);
        assert (Only(rest, f) + [last])[..|Only(rest, f)|] == Only(rest, f);
      } else {
        OtherAlike(s, before, f, last, key, public);
        Symmetric(s, before, Next(s, before, last), f);
        Transitive(s, Next(s, before, last), before, alone, f);
      }
    }
  }

  lemma Symmetric(s: Setting, a: State, b: State, f: Flow)
    requires Alike(s, a, b, f)
    ensures Alike(s, b, a, f)
  {
    var q := s.request(f);
    forall i | i in b.world.signers ensures AlikeAt(b, a, q, f, i) {
      assert AlikeAt(a, b, q, f, i);
    }
  }
}

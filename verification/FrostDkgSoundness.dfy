/**
 * Under every interleaving, a key-generation flow that succeeds has run the protocol on its own randomness, and all
 * signers and the aggregator hold its result from then on; no share has two successful flows.
 */
module FrostDkgSoundness {
  import opened Wrappers
  import opened FrostSigner
  import opened FrostFlows
  import opened FrostDkgRuns
  import Agreement = FrostAgreement

  // ----- Other steps -----

  /** What a signer holds for one share is as before, a lock on it kept. */
  predicate SameFor(a: SignerState, b: SignerState, id: Uuid) {
    && (id in a.dkg <==> id in b.dkg) && (id in a.dkg ==> a.dkg[id] == b.dkg[id])
    && (id in a.locked ==> id in b.locked)
  }

  const NO_REQUEST := SignRequest(0, 0, None, [], 0)
  const NO_PACKAGE := SigningPackage(map[], [])

  /** The handlers leave other shares alone, and round 1 leaves a stored share alone too. */
  lemma HandlersSame(suite: Suite, me: Identifier, signer: SignerState, id: Uuid, other: Uuid, random: Random,
                     packages: Packages1, round2: Packages2, q: SignRequest, package: SigningPackage, tap: bool)
    ensures id != other || id in signer.dkg ==> SameFor(signer, HandleDkgRound1(suite, me, signer, other, random).0, id)
    ensures id != other ==> SameFor(signer, HandleDkgRound2(suite, signer, other, packages).0, id)
    ensures id != other ==> SameFor(signer, HandleDkgFinalize(suite, signer, other, packages, round2).0, id)
    ensures SameFor(signer, HandleSignRound1(suite, signer, q, random).0, id)
    ensures SameFor(signer, HandleSignRound2(suite, signer, other, q.session, package, tap).0, id)
  {
    hide SigningKey, CommitKey;
  }

  /** The flow's stage is one for which the aggregator has stored something. */
  predicate NeedsShare(p: Progress) {
    p.stage.Ended1? || p.stage.Ended2? || p.stage.Ended3? || (p.stage.Done? && p.stage.result.Success?)
  }

  ghost predicate SameShare(a: State, b: State, id: Uuid) {
    (id in a.world.shares <==> id in b.world.shares) && (id in a.world.shares ==> a.world.shares[id] == b.world.shares[id])
  }

  /** The flow itself, and whatever it counts on, is as before. */
  ghost predicate Undisturbed(s: Setting, a: State, b: State, f: Flow) {
    && a.world.signers.Keys == b.world.signers.Keys
    && (f in a.flows <==> f in b.flows)
    && (f in a.flows ==>
          && a.flows[f] == b.flows[f]
          && (NeedsShare(a.flows[f]) ==> SameShare(a, b, s.shareOf(f)))
          && forall i :: i in a.world.signers && Accepted(a.flows[f], i) ==> SameFor(a.world.signers[i], b.world.signers[i], s.shareOf(f)))
  }

  lemma UndisturbedOwn(s: Setting, a: State, b: State, f: Flow)
    requires Own(s, a, f) && Undisturbed(s, a, b, f)
    ensures Own(s, b, f)
  {
    hide Logged, All3, PhaseOf;
    if f in b.flows {
      var p, id := a.flows[f], s.shareOf(f);
      forall i | i in b.world.signers ensures SignerIs(b, id, p, i) {
        assert SignerIs(a, id, p, i);
      }
      assert NeedsShare(p) ==> PublicOf(a.world, id) == PublicOf(b.world, id);
    }
  }

  /** Putting a new state for one signer disturbs no flow that it looks the same to. */
  lemma PutUndisturbed(s: Setting, st: State, f: Flow, i: Identifier, signer: SignerState)
    requires i in st.world.signers
    requires f in st.flows && Accepted(st.flows[f], i) ==> SameFor(st.world.signers[i], signer, s.shareOf(f))
    ensures Undisturbed(s, st, Put(st, i, signer), f)
  {
    hide Accepted;
  }

  lemma SetUndisturbed(s: Setting, st: State, f: Flow, g: Flow, p: Progress)
    requires g != f
    ensures Undisturbed(s, st, Set(st, g, p), f)
  {
    hide Accepted;
  }

  lemma StoreUndisturbed(s: Setting, st: State, f: Flow, id: Uuid, phase: AggPhase)
    requires id == s.shareOf(f) && f in st.flows ==> !NeedsShare(st.flows[f])
    ensures Undisturbed(s, st, StoreShare(st, id, phase), f)
  {
    hide Accepted;
  }

  lemma UndisturbedTrans(s: Setting, a: State, b: State, c: State, f: Flow)
    requires Undisturbed(s, a, b, f) && Undisturbed(s, b, c, f)
    ensures Undisturbed(s, a, c, f)
  {
    hide Accepted, NeedsShare;
  }

  lemma UndisturbedSelf(s: Setting, st: State, f: Flow)
    ensures Undisturbed(s, st, st, f)
  {
  }

  lemma AcceptedStored(s: Setting, st: State, f: Flow, i: Identifier)
    requires Own(s, st, f) && f in st.flows && i in st.world.signers && Accepted(st.flows[f], i)
    ensures s.shareOf(f) in st.world.signers[i].dkg
  {
    assert SignerIs(st, s.shareOf(f), st.flows[f], i);
  }

  lemma Ask1Others(s: Setting, st: State, f: Flow, g: Flow, i: Identifier, random: Random)
    requires Own(s, st, f) && g != f
    ensures Undisturbed(s, st, NextAsk1(s, st, g, i, random), f)
  {
    hide Own, Undisturbed, Accepted, HandleDkgRound1, SameFor;
    UndisturbedSelf(s, st, f);
    if CanAsk1(st, g, i) {
      var signer := HandleDkgRound1(s.suite, i, st.world.signers[i], s.shareOf(g), random).0;
      if f in st.flows && Accepted(st.flows[f], i) {
        AcceptedStored(s, st, f, i);
      }
      HandlersSame(s.suite, i, st.world.signers[i], s.shareOf(f), s.shareOf(g), random, map[], map[], NO_REQUEST, NO_PACKAGE, false);
      PutUndisturbed(s, st, f, i, signer);
      var st' := NextAsk1(s, st, g, i, random);
      SetUndisturbed(s, Put(st, i, signer), f, g, st'.flows[g]);
      assert st' == Set(Put(st, i, signer), g, st'.flows[g]);
      UndisturbedTrans(s, st, Put(st, i, signer), st', f);
    }
  }

  /** Flows that signers have accepted are for different shares, or accepted by different signers. */
  lemma NotBoth(s: Setting, st: State, f: Flow, g: Flow, i: Identifier)
    requires Exclusive(s, st) && f in st.flows && g in st.flows && f != g && i in st.world.signers
    requires Accepted(st.flows[f], i) && Accepted(st.flows[g], i)
    ensures s.shareOf(f) != s.shareOf(g)
  {
    hide Accepted;
  }

  lemma Ask2Others(s: Setting, st: State, f: Flow, g: Flow, i: Identifier)
    requires Exclusive(s, st) && g != f
    ensures Undisturbed(s, st, NextAsk2(s, st, g, i), f)
  {
    hide Undisturbed, HandleDkgRound2, SameFor, Exclusive;
    UndisturbedSelf(s, st, f);
    if CanAsk2(st, g, i) {
      var packages := Others(st.flows[g].stage.round1, i);
      var signer := HandleDkgRound2(s.suite, st.world.signers[i], s.shareOf(g), packages).0;
      if f in st.flows && Accepted(st.flows[f], i) {
        NotBoth(s, st, f, g, i);
      }
      HandlersSame(s.suite, i, st.world.signers[i], s.shareOf(f), s.shareOf(g), 0, packages, map[], NO_REQUEST, NO_PACKAGE, false);
      PutUndisturbed(s, st, f, i, signer);
      var st' := NextAsk2(s, st, g, i);
      SetUndisturbed(s, Put(st, i, signer), f, g, st'.flows[g]);
      assert st' == Set(Put(st, i, signer), g, st'.flows[g]);
      UndisturbedTrans(s, st, Put(st, i, signer), st', f);
    }
  }

  lemma Ask3Others(s: Setting, st: State, f: Flow, g: Flow, i: Identifier)
    requires Exclusive(s, st) && g != f
    ensures Undisturbed(s, st, NextAsk3(s, st, g, i), f)
  {
    hide Undisturbed, HandleDkgFinalize, SameFor, Exclusive;
    UndisturbedSelf(s, st, f);
    if CanAsk3(st, g, i) {
      var packages, received := Others(st.flows[g].stage.round1, i), st.flows[g].stage.round2[i];
      var signer := HandleDkgFinalize(s.suite, st.world.signers[i], s.shareOf(g), packages, received).0;
      if f in st.flows && Accepted(st.flows[f], i) {
        NotBoth(s, st, f, g, i);
      }
      HandlersSame(s.suite, i, st.world.signers[i], s.shareOf(f), s.shareOf(g), 0, packages, received, NO_REQUEST, NO_PACKAGE, false);
      PutUndisturbed(s, st, f, i, signer);
      var st' := NextAsk3(s, st, g, i);
      SetUndisturbed(s, Put(st, i, signer), f, g, st'.flows[g]);
      assert st' == Set(Put(st, i, signer), g, st'.flows[g]);
      UndisturbedTrans(s, st, Put(st, i, signer), st', f);
    }
  }

  /** A flow past round 1 shares its share's record with no other. */
  lemma WriterAlone(s: Setting, st: State, f: Flow, g: Flow)
    requires Exclusive(s, st) && g in st.flows && g != f && st.world.signers != map[]
    requires forall i :: i in st.world.signers ==> Accepted(st.flows[g], i)
    ensures s.shareOf(f) == s.shareOf(g) && f in st.flows ==> !NeedsShare(st.flows[f])
  {
    hide Exclusive;
    var i :| i in st.world.signers;
    if f in st.flows && Accepted(st.flows[f], i) {
      NotBoth(s, st, f, g, i);
    }
  }

  lemma WriteOthers(s: Setting, st: State, f: Flow, g: Flow, stage: Stage, phase: AggPhase)
    requires Exclusive(s, st) && g in st.flows && g != f && st.world.signers != map[]
    requires forall i :: i in st.world.signers ==> Accepted(st.flows[g], i)
    ensures Undisturbed(s, st, StoreShare(SetStage(st, g, stage), s.shareOf(g), phase), f)
  {
    hide Undisturbed, Accepted, Exclusive;
    WriterAlone(s, st, f, g);
    SetUndisturbed(s, st, f, g, st.flows[g].(stage := stage));
    StoreUndisturbed(s, SetStage(st, g, stage), f, s.shareOf(g), phase);
    UndisturbedTrans(s, st, SetStage(st, g, stage), StoreShare(SetStage(st, g, stage), s.shareOf(g), phase), f);
  }

  lemma End1Others(s: Setting, st: State, f: Flow, g: Flow)
    requires Exclusive(s, st) && g != f && Ordered(s.order, st.world.signers.Keys) && st.world.signers != map[]
    ensures Undisturbed(s, st, NextEnd1(s, st, g), f)
  {
    hide Undisturbed, Exclusive, Gathered;
    UndisturbedSelf(s, st, f);
    forall stage | g in st.flows ensures Undisturbed(s, st, SetStage(st, g, stage), f) {
      SetUndisturbed(s, st, f, g, st.flows[g].(stage := stage));
    }
    if g in st.flows && st.flows[g].stage.Asking1? && st.flows[g].stage.packages.Keys == st.world.signers.Keys
       && Gathered(s.order, st.flows[g].stage.packages).Success? {
      GatheredKeys(s.order, st.flows[g].stage.packages);
      WriteOthers(s, st, f, g, Ended1, AggRound1(Gathered(s.order, st.flows[g].stage.packages).value));
    }
  }

  lemma End23Others(s: Setting, st: State, f: Flow, g: Flow)
    requires Exclusive(s, st) && g != f && st.world.signers != map[]
    ensures Undisturbed(s, st, NextEnd2(s, st, g), f) && Undisturbed(s, st, NextEnd3(s, st, g), f)
  {
    hide Undisturbed, Exclusive, Gathered, Transposed, AllEqual;
    UndisturbedSelf(s, st, f);
    forall stage | g in st.flows ensures Undisturbed(s, st, SetStage(st, g, stage), f) {
      SetUndisturbed(s, st, f, g, st.flows[g].(stage := stage));
    }
    if g in st.flows && (st.flows[g].stage.Asking2? || st.flows[g].stage.Asking3?) {
      forall stage, phase ensures Undisturbed(s, st, StoreShare(SetStage(st, g, stage), s.shareOf(g), phase), f) {
        WriteOthers(s, st, f, g, stage, phase);
      }
    }
  }

  /** Reading steps of other flows. */
  lemma ReadOthers(s: Setting, st: State, f: Flow, g: Flow, step: Step)
    requires g != f && step in {Start(g), Begin1(g), Begin2(g), Begin3(g), Collect(g)}
    ensures Undisturbed(s, st, Next(s, st, step), f)
  {
    hide Undisturbed, PublicOf;
    UndisturbedSelf(s, st, f);
    forall p ensures Undisturbed(s, st, Set(st, g, p), f) {
      SetUndisturbed(s, st, f, g, p);
    }
  }

  lemma SigningOthers(s: Setting, st: State, f: Flow, step: Step)
    requires step.SignerSign1? || step.SignerSign2? || step.Prepare?
    requires Own(s, st, f)
    ensures Undisturbed(s, st, Next(s, st, step), f)
  {
    hide Undisturbed, HandleSignRound1, HandleSignRound2, SameFor, Accepted;
    UndisturbedSelf(s, st, f);
    if step.Prepare? {
      if step.id !in st.world.shares {
        NeedsStored(s, st, f);
        StoreUndisturbed(s, st, f, step.id, Initialized);
      }
    } else if step.signer in st.world.signers {
      var q := if step.SignerSign1? then step.request else SignRequest(step.id, step.session, None, [], 0);
      var random := if step.SignerSign1? then step.random else 0;
      var package := if step.SignerSign2? then step.package else SigningPackage(map[], []);
      var tap := step.SignerSign2? && step.tap;
      HandlersSame(s.suite, step.signer, st.world.signers[step.signer], s.shareOf(f), q.id, random, map[], map[], q, package, tap);
      if step.SignerSign1? {
        PutUndisturbed(s, st, f, step.signer, HandleSignRound1(s.suite, st.world.signers[step.signer], q, random).0);
      } else {
        PutUndisturbed(s, st, f, step.signer, HandleSignRound2(s.suite, st.world.signers[step.signer], q.id, q.session, package, tap).0);
      }
    }
  }

  lemma NeedsStored(s: Setting, st: State, f: Flow)
    requires Own(s, st, f)
    ensures f in st.flows && NeedsShare(st.flows[f]) ==> s.shareOf(f) in st.world.shares
  {
    hide Logged, All3;
  }

  function FlowOf(step: Step): Option<Flow> {
    match step
    case Prepare(_) => None
    case SignerSign1(_, _, _) => None
    case SignerSign2(_, _, _, _, _) => None
    case _ => Some(step.flow)
  }

  lemma OthersUndisturbed(s: Setting, st: State, f: Flow, step: Step)
    requires Invariant(s, st) && FlowOf(step) != Some(f) && Ordered(s.order, st.world.signers.Keys)
    requires st.world.signers != map[]
    ensures Undisturbed(s, st, Next(s, st, step), f)
  {
    assert Own(s, st, f);
    hide Own, Exclusive, Undisturbed, Ordered, NextAsk1, NextAsk2, NextAsk3, NextEnd1, NextEnd2, NextEnd3;
    if FlowOf(step).None? {
      SigningOthers(s, st, f, step);
    } else {
      var g := FlowOf(step).value;
      if step.Ask1? {
        Ask1Others(s, st, f, g, step.signer, step.random);
      } else if step.Ask2? {
        Ask2Others(s, st, f, g, step.signer);
      } else if step.Ask3? {
        Ask3Others(s, st, f, g, step.signer);
      } else if step.End1? {
        End1Others(s, st, f, g);
      } else if step.End2? || step.End3? {
        End23Others(s, st, f, g);
      } else {
        ReadOthers(s, st, f, g, step);
      }
    }
  }

  // ----- Own steps -----

  lemma OwnAt(s: Setting, st: State, f: Flow, i: Identifier)
    requires Own(s, st, f) && f in st.flows && i in st.world.signers && Accepted(st.flows[f], i)
    ensures var p, id := st.flows[f], s.shareOf(f);
            PhaseOf(p.log, i).Some? && Stands(st, id, i, PhaseOf(p.log, i).value) && (i !in p.log.key ==> id in st.world.signers[i].locked)
  {
    assert SignerIs(st, s.shareOf(f), st.flows[f], i);
  }

  /** Signers that the step does not call, or that have not accepted, are as the log says. */
  lemma OthersAsLogged(s: Setting, st: State, f: Flow, i: Identifier, signer: SignerState, p: Progress, j: Identifier)
    requires Own(s, st, f) && f in st.flows && i in st.world.signers && j in st.world.signers && j != i
    requires Accepted(p, j) ==> Accepted(st.flows[f], j)
    requires PhaseOf(p.log, j) == PhaseOf(st.flows[f].log, j) && (j in st.flows[f].log.key <==> j in p.log.key)
    ensures SignerIs(Set(Put(st, i, signer), f, p), s.shareOf(f), p, j)
  {
    hide PhaseOf, Accepted;
    if Accepted(p, j) {
      OwnAt(s, st, f, j);
    }
  }

  lemma Answer1(suite: Suite, me: Identifier, signer: SignerState, id: Uuid, random: Random)
    ensures var (signer', answer) := HandleDkgRound1(suite, me, signer, id, random);
            answer.Success? ==>
              && id in signer'.dkg && signer'.dkg[id].DkgRound1? && id in signer'.locked && id !in signer.dkg
              && suite.part1(me, random) == Some((signer'.dkg[id].secret1, answer.value))
  {
  }

  lemma OwnAsk1(s: Setting, st: State, f: Flow, i: Identifier, random: Random)
    requires Own(s, st, f)
    ensures Own(s, NextAsk1(s, st, f, i, random), f)
  {
    hide HandleDkgRound1, PhaseOf;
    if CanAsk1(st, f, i) {
      var st', id := NextAsk1(s, st, f, i, random), s.shareOf(f);
      var p, p' := st.flows[f], st'.flows[f];
      var (signer, answer) := HandleDkgRound1(s.suite, i, st.world.signers[i], id, random);
      Answer1(s.suite, i, st.world.signers[i], id, random);
      assert st' == Set(Put(st, i, signer), f, p');
      LoggedAsk1(s.suite, p, p', st.world.signers.Keys, i, random, answer, signer, id);
      forall j | j in st'.world.signers ensures SignerIs(st', id, p', j) {
        if j != i {
          PhaseSame(p, p', j);
          OthersAsLogged(s, st, f, i, signer, p', j);
        } else if answer.Success? {
          PhaseIs1(p', i);
        }
      }
    }
  }

  lemma PhaseSame(p: Progress, p': Progress, j: Identifier)
    requires p.log.key == p'.log.key && p.log.secret2 == p'.log.secret2 && (p.log.package1 == p'.log.package1 || p.log.secret2 == map[])
    requires Same(p.log.secret1, p'.log.secret1, j)
    ensures PhaseOf(p.log, j) == PhaseOf(p'.log, j)
  {
  }

  predicate Same<V(==)>(a: map<Identifier, V>, b: map<Identifier, V>, j: Identifier) {
    (j in a <==> j in b) && (j in a ==> a[j] == b[j])
  }

  lemma PhaseIs1(p: Progress, i: Identifier)
    requires i !in p.log.key && i !in p.log.secret2 && i in p.log.secret1
    ensures PhaseOf(p.log, i) == Some(DkgPhase.DkgRound1(p.log.secret1[i]))
  {
  }

  lemma LoggedAsk1(suite: Suite, p: Progress, p': Progress, ids: set<Identifier>, i: Identifier, random: Random,
                   answer: Result<Round1Package, SignerError>, signer: SignerState, id: Uuid)
    requires Logged(suite, p, ids) && p.stage.Asking1? && i in ids && i !in p.stage.packages
    requires p'.stage == Asking1(p.stage.packages[i := answer]) && p'.draws == p.draws[i := random]
    requires answer.Success? ==>
               && id in signer.dkg && signer.dkg[id].DkgRound1?
               && suite.part1(i, random) == Some((signer.dkg[id].secret1, answer.value))
               && p'.log == p.log.(secret1 := p.log.secret1[i := signer.dkg[id].secret1], package1 := p.log.package1[i := answer.value])
    requires answer.Failure? ==> p'.log == p.log
    ensures Logged(suite, p', ids)
  {
    forall j | j in p'.log.package1 ensures Did1(suite, p'.draws, p'.log, j) && p'.stage.packages[j] == Success(p'.log.package1[j]) {
      if j != i {
        assert Did1(suite, p.draws, p.log, j);
      }
    }
  }

  /** A step of the flow that calls no signer: its log stays, so do the signers. */
  lemma OwnRestage(s: Setting, st: State, st': State, f: Flow)
    requires Own(s, st, f) && f in st.flows && f in st'.flows && st'.world.signers == st.world.signers
    requires st'.flows[f].log == st.flows[f].log
    requires Logged(s.suite, st'.flows[f], st.world.signers.Keys) && ShareIs(st', s.shareOf(f), s.suite, st'.flows[f])
    requires forall i :: i in st.world.signers && Accepted(st'.flows[f], i) ==> Accepted(st.flows[f], i)
    ensures Own(s, st', f)
  {
    hide PhaseOf, Logged, ShareIs, Accepted;
    var p, p' := st.flows[f], st'.flows[f];
    forall i | i in st'.world.signers ensures SignerIs(st', s.shareOf(f), p', i) {
      if Accepted(p', i) {
        OwnAt(s, st, f, i);
      }
    }
  }

  lemma OwnParts(s: Setting, st: State, f: Flow)
    requires Own(s, st, f) && f in st.flows
    ensures Logged(s.suite, st.flows[f], st.world.signers.Keys) && ShareIs(st, s.shareOf(f), s.suite, st.flows[f])
  {
    hide Logged, ShareIs, SignerIs;
  }

  lemma OwnFails(s: Setting, st: State, f: Flow, e: AggError)
    requires Own(s, st, f) && f in st.flows
    ensures Own(s, SetStage(st, f, Done(Failure(e))), f)
  {
    hide Own;
    OwnRestage(s, st, SetStage(st, f, Done(Failure(e))), f);
  }

  lemma OwnEnd1(s: Setting, st: State, f: Flow)
    requires Own(s, st, f) && Ordered(s.order, st.world.signers.Keys)
    ensures Own(s, NextEnd1(s, st, f), f)
  {
    hide Gathered, Ordered, Own;
    if f in st.flows && st.flows[f].stage.Asking1? && st.flows[f].stage.packages.Keys == st.world.signers.Keys {
      var p := st.flows[f];
      OwnParts(s, st, f);
      if Gathered(s.order, p.stage.packages).Success? {
        GatheredKeys(s.order, p.stage.packages);
        assert p.log.package1 == Gathered(s.order, p.stage.packages).value;
        OwnRestage(s, st, NextEnd1(s, st, f), f);
      } else {
        OwnFails(s, st, f, OfSigner(Gathered(s.order, p.stage.packages).error));
      }
    }
  }

  lemma OwnStart(s: Setting, st: State, f: Flow)
    requires Own(s, st, f)
    ensures Own(s, NextStart(s, st, f), f)
  {
  }

  lemma OwnBegin1(s: Setting, st: State, f: Flow)
    requires Own(s, st, f)
    ensures Own(s, NextBegin1(s, st, f), f)
  {
    hide Own;
    if f in st.flows && st.flows[f].stage.Started? {
      OwnParts(s, st, f);
      OwnFails(s, st, f, WrongState);
      OwnRestage(s, st, SetStage(st, f, Asking1(map[])), f);
    }
  }

  lemma OwnBegin2(s: Setting, st: State, f: Flow)
    requires Own(s, st, f)
    ensures Own(s, NextBegin2(s, st, f), f)
  {
    hide Own;
    if f in st.flows && st.flows[f].stage.Ended1? {
      OwnParts(s, st, f);
      OwnRestage(s, st, NextBegin2(s, st, f), f);
    }
  }

  lemma OwnBegin3(s: Setting, st: State, f: Flow)
    requires Own(s, st, f)
    ensures Own(s, NextBegin3(s, st, f), f)
  {
    hide Own, Transposed, All1, All2;
    if f in st.flows && st.flows[f].stage.Ended2? {
      OwnParts(s, st, f);
      OwnRestage(s, st, NextBegin3(s, st, f), f);
    }
  }

  lemma OwnCollect(s: Setting, st: State, f: Flow)
    requires Own(s, st, f)
    ensures Own(s, NextCollect(s, st, f), f)
  {
    hide Own, All1, All2, All3;
    if f in st.flows && st.flows[f].stage.Ended3? {
      OwnParts(s, st, f);
      OwnRestage(s, st, NextCollect(s, st, f), f);
    }
  }

  // Round 2.

  lemma Answer2(suite: Suite, signer: SignerState, id: Uuid, packages: Packages1, secret1: Round1Secret)
    requires id in signer.dkg && signer.dkg[id] == DkgPhase.DkgRound1(secret1)
    ensures var (signer', answer) := HandleDkgRound2(suite, signer, id, packages);
            && signer'.locked == signer.locked
            && (answer.Failure? ==> signer' == signer)
            && (answer.Success? ==>
                  && id in signer'.dkg && signer'.dkg[id].DkgRound2? && signer'.dkg[id].round1Packages == packages
                  && suite.part2(secret1, packages) == Some((signer'.dkg[id].secret2, answer.value)))
  {
  }

  lemma OwnAsk2(s: Setting, st: State, f: Flow, i: Identifier)
    requires Own(s, st, f)
    ensures Own(s, NextAsk2(s, st, f, i), f)
  {
    hide HandleDkgRound2, PhaseOf, Logged, Accepted;
    if CanAsk2(st, f, i) {
      var st', id, p := NextAsk2(s, st, f, i), s.shareOf(f), st.flows[f];
      var p', packages := st'.flows[f], Others(p.stage.round1, i);
      var (signer, answer) := HandleDkgRound2(s.suite, st.world.signers[i], id, packages);
      AcceptedPast(p, i);
      OwnAt(s, st, f, i);
      Phase2At(s.suite, p, st.world.signers.Keys, i);
      Answer2(s.suite, st.world.signers[i], id, packages, p.log.secret1[i]);
      assert st' == Set(Put(st, i, signer), f, p');
      LoggedAsk2(s.suite, p, p', st.world.signers.Keys, i, answer, signer, id);
      assert st'.world.signers.Keys == st.world.signers.Keys;
      forall j | j in st'.world.signers ensures SignerIs(st', id, p', j) {
        AcceptedPast(p, j);
        if j != i {
          PhaseSame2(p, p', j);
          OthersAsLogged(s, st, f, i, signer, p', j);
        } else if answer.Success? {
          PhaseIs2(p', i);
        } else {
          PhaseSame2(p, p', i);
        }
      }
    }
  }

  lemma AcceptedPast(p: Progress, i: Identifier)
    requires p.stage.Asking2? || p.stage.Asking3?
    ensures Accepted(p, i)
  {
  }

  /** A signer that has not answered in round 2 is still in round 1. */
  lemma Phase2At(suite: Suite, p: Progress, ids: set<Identifier>, i: Identifier)
    requires Logged(suite, p, ids) && p.stage.Asking2? && i in ids && i !in p.stage.made
    ensures i in p.log.secret1 && PhaseOf(p.log, i) == Some(DkgPhase.DkgRound1(p.log.secret1[i]))
    ensures p.stage.round1 == p.log.package1
    ensures i !in p.log.key
  {
  }

  lemma PhaseSame2(p: Progress, p': Progress, j: Identifier)
    requires p.log.key == p'.log.key && p.log.package1 == p'.log.package1 && p.log.secret1 == p'.log.secret1
    requires Same(p.log.secret2, p'.log.secret2, j)
    ensures PhaseOf(p.log, j) == PhaseOf(p'.log, j)
  {
  }

  lemma PhaseIs2(p: Progress, i: Identifier)
    requires i !in p.log.key && i in p.log.secret2
    ensures PhaseOf(p.log, i) == Some(DkgPhase.DkgRound2(p.log.secret2[i], Others(p.log.package1, i)))
  {
  }

  lemma KeepsPart1(suite: Suite, draws: map<Identifier, Random>, log: Agreement.Transcript, log': Agreement.Transcript,
                   ids: set<Identifier>)
    requires log'.secret1 == log.secret1 && log'.package1 == log.package1 && All1(suite, draws, log, ids)
    ensures All1(suite, draws, log', ids)
  {
    forall i | i in ids ensures Did1(suite, draws, log', i) {
      assert Did1(suite, draws, log, i);
    }
  }

  lemma KeepsParts(suite: Suite, draws: map<Identifier, Random>, log: Agreement.Transcript, log': Agreement.Transcript,
                   ids: set<Identifier>)
    requires log' == log.(key := log'.key) && All1(suite, draws, log, ids) && All2(suite, log, ids)
    ensures All1(suite, draws, log', ids) && All2(suite, log', ids)
  {
    forall i | i in ids ensures Did1(suite, draws, log', i) && Did2(suite, log', i) {
      assert Did1(suite, draws, log, i) && Did2(suite, log, i);
    }
  }

  lemma LoggedAsk2(suite: Suite, p: Progress, p': Progress, ids: set<Identifier>, i: Identifier,
                   answer: Result<Packages2, SignerError>, signer: SignerState, id: Uuid)
    requires Logged(suite, p, ids) && p.stage.Asking2? && i in ids && i !in p.stage.made && i in p.log.secret1
    requires p'.stage == p.stage.(made := p.stage.made[i := answer]) && p'.draws == p.draws
    requires answer.Success? ==>
               && id in signer.dkg && signer.dkg[id].DkgRound2?
               && suite.part2(p.log.secret1[i], Others(p.stage.round1, i)) == Some((signer.dkg[id].secret2, answer.value))
               && p'.log == p.log.(secret2 := p.log.secret2[i := signer.dkg[id].secret2], made := p.log.made[i := answer.value])
    requires answer.Failure? ==> p'.log == p.log
    ensures Logged(suite, p', ids)
  {
    hide All1, Others, Did2;
    var round1, made := p.stage.round1, p.stage.made;
    assert Logged2(suite, p, ids, round1, made);
    if answer.Success? {
      KeepsPart1(suite, p.draws, p.log, p'.log, ids);
      forall j | j in p'.log.made ensures Did2(suite, p'.log, j) && made[i := answer][j] == Success(p'.log.made[j]) {
        AddsPart2(suite, p.log, p'.log, i, answer.value, signer.dkg[id].secret2, j);
      }
    }
    assert Logged2(suite, p', ids, round1, made[i := answer]);
  }

  lemma AddsPart2(suite: Suite, log: Agreement.Transcript, log': Agreement.Transcript, i: Identifier, made: Packages2,
                  secret2: Round2Secret, j: Identifier)
    requires log' == log.(secret2 := log.secret2[i := secret2], made := log.made[i := made])
    requires i in log.secret1 && suite.part2(log.secret1[i], Others(log.package1, i)) == Some((secret2, made))
    requires j == i || Did2(suite, log, j)
    ensures Did2(suite, log', j)
  {
  }

  lemma OwnEnd2(s: Setting, st: State, f: Flow)
    requires Own(s, st, f) && Ordered(s.order, st.world.signers.Keys)
    ensures Own(s, NextEnd2(s, st, f), f)
  {
    hide Gathered, Ordered, Own, Transposed, All1;
    if f in st.flows && st.flows[f].stage.Asking2? && st.flows[f].stage.made.Keys == st.world.signers.Keys {
      var p := st.flows[f];
      OwnParts(s, st, f);
      if Gathered(s.order, p.stage.made).Success? {
        GatheredKeys(s.order, p.stage.made);
        assert p.log.made == Gathered(s.order, p.stage.made).value;
        OwnRestage(s, st, NextEnd2(s, st, f), f);
      } else {
        OwnFails(s, st, f, OfSigner(Gathered(s.order, p.stage.made).error));
      }
    }
  }

  // Round 3.

  lemma Answer3(suite: Suite, signer: SignerState, id: Uuid, packages: Packages1, received: Packages2,
                secret2: Round2Secret)
    requires id in signer.dkg && signer.dkg[id] == DkgPhase.DkgRound2(secret2, packages) && id in signer.locked
    ensures var (signer', answer) := HandleDkgFinalize(suite, signer, id, packages, received);
            && (answer.Failure? ==> signer' == signer)
            && (answer.Success? ==>
                  && id in signer'.dkg && signer'.dkg[id].DkgFinalized?
                  && suite.part3(secret2, packages, received) == Some((signer'.dkg[id].key, answer.value)))
  {
  }

  lemma OwnAsk3(s: Setting, st: State, f: Flow, i: Identifier)
    requires Own(s, st, f)
    ensures Own(s, NextAsk3(s, st, f, i), f)
  {
    hide HandleDkgFinalize, PhaseOf, Logged, Accepted;
    if CanAsk3(st, f, i) {
      var st', id, p := NextAsk3(s, st, f, i), s.shareOf(f), st.flows[f];
      var p', packages, received := st'.flows[f], Others(p.stage.round1, i), p.stage.round2[i];
      var (signer, answer) := HandleDkgFinalize(s.suite, st.world.signers[i], id, packages, received);
      AcceptedPast(p, i);
      OwnAt(s, st, f, i);
      Phase3At(s.suite, p, st.world.signers.Keys, i);
      Answer3(s.suite, st.world.signers[i], id, packages, received, p.log.secret2[i]);
      assert st' == Set(Put(st, i, signer), f, p');
      LoggedAsk3(s.suite, p, p', st.world.signers.Keys, i, answer, signer, id);
      assert st'.world.signers.Keys == st.world.signers.Keys;
      forall j | j in st'.world.signers ensures SignerIs(st', id, p', j) {
        AcceptedPast(p, j);
        if j != i {
          PhaseSame3(p, p', j);
          OthersAsLogged(s, st, f, i, signer, p', j);
        } else if answer.Success? {
          PhaseIs3(p', i);
        } else {
          PhaseSame3(p, p', i);
        }
      }
    }
  }

  /** A signer that has not answered in round 3 is still in round 2, with the packages the request will carry. */
  lemma Phase3At(suite: Suite, p: Progress, ids: set<Identifier>, i: Identifier)
    requires Logged(suite, p, ids) && p.stage.Asking3? && i in ids && i !in p.stage.publics && i in p.stage.round2
    ensures i in p.log.secret2
    ensures PhaseOf(p.log, i) == Some(DkgPhase.DkgRound2(p.log.secret2[i], Others(p.stage.round1, i)))
    ensures i !in p.log.key && p.stage.round1 == p.log.package1 && p.stage.round2[i] == Received(p.log.made, i)
    ensures Received(p.log.made, i) != map[]
  {
    hide All1, Received;
    Agreement.TransposedAt(p.log.made, i);
  }

  lemma PhaseSame3(p: Progress, p': Progress, j: Identifier)
    requires p.log.secret2 == p'.log.secret2 && p.log.package1 == p'.log.package1 && p.log.secret1 == p'.log.secret1
    requires Same(p.log.key, p'.log.key, j)
    ensures PhaseOf(p.log, j) == PhaseOf(p'.log, j)
  {
  }

  lemma PhaseIs3(p: Progress, i: Identifier)
    requires i in p.log.key
    ensures PhaseOf(p.log, i) == Some(DkgFinalized(p.log.key[i]))
  {
  }

  lemma LoggedAsk3(suite: Suite, p: Progress, p': Progress, ids: set<Identifier>, i: Identifier,
                   answer: Result<PublicKeyPackage, SignerError>, signer: SignerState, id: Uuid)
    requires Logged(suite, p, ids) && p.stage.Asking3? && i in ids && i !in p.stage.publics && i in p.log.secret2
    requires Received(p.log.made, i) != map[]
    requires p'.stage == p.stage.(publics := p.stage.publics[i := answer]) && p'.draws == p.draws
    requires answer.Success? ==>
               && id in signer.dkg && signer.dkg[id].DkgFinalized?
               && suite.part3(p.log.secret2[i], Others(p.log.package1, i), Received(p.log.made, i)) == Some((signer.dkg[id].key, answer.value))
               && p'.log == p.log.(key := p.log.key[i := signer.dkg[id].key])
    requires answer.Failure? ==> p'.log == p.log
    ensures Logged(suite, p', ids)
  {
    hide All1, All2, Others, Received, Transposed, Did3;
    var publics := p.stage.publics;
    assert Logged3(suite, p, ids, p.stage.round1, p.stage.round2, publics);
    KeepsParts(suite, p.draws, p.log, p'.log, ids);
    if answer.Success? {
      forall j | j in p'.log.key ensures Did3(suite, p'.log, j, publics[i := answer][j].value) {
        AddsPart3(suite, p.log, p'.log, i, answer.value, signer.dkg[id].key, j, publics[i := answer][j].value);
      }
    }
    assert Logged3(suite, p', ids, p.stage.round1, p.stage.round2, publics[i := answer]);
  }

  lemma AddsPart3(suite: Suite, log: Agreement.Transcript, log': Agreement.Transcript, i: Identifier,
                  public: PublicKeyPackage, key: KeyPackage, j: Identifier, jPublic: PublicKeyPackage)
    requires log' == log.(key := log.key[i := key])
    requires i in log.secret2 && Received(log.made, i) != map[]
    requires suite.part3(log.secret2[i], Others(log.package1, i), Received(log.made, i)) == Some((key, public))
    requires (j == i && jPublic == public) || (j != i && Did3(suite, log, j, jPublic))
    ensures Did3(suite, log', j, jPublic)
  {
  }

  /** Equal public keys: every signer's part 3 gave the one that is stored. */
  lemma AgreedKeys(s: Setting, p: Progress, ids: set<Identifier>)
    requires Logged(s.suite, p, ids) && p.stage.Asking3? && p.stage.publics.Keys == ids && Ordered(s.order, ids)
    requires Gathered(s.order, p.stage.publics).Success? && s.order != []
    requires s.order[0] in Gathered(s.order, p.stage.publics).value
    requires var values := Gathered(s.order, p.stage.publics).value; AllEqual(values[s.order[0]], s.order, values)
    ensures All3(s.suite, p.log, ids, Gathered(s.order, p.stage.publics).value[s.order[0]])
  {
    hide Gathered, Transposed, Received, All1, All2, Did3;
    GatheredKeys(s.order, p.stage.publics);
    var values := Gathered(s.order, p.stage.publics).value;
    forall i | i in ids ensures Did3(s.suite, p.log, i, values[s.order[0]]) {
      assert p.stage.publics[i] == Success(values[i]);
    }
  }

  lemma OwnEnd3(s: Setting, st: State, f: Flow)
    requires Own(s, st, f) && Ordered(s.order, st.world.signers.Keys)
    ensures Own(s, NextEnd3(s, st, f), f)
  {
    hide Gathered, Own, Transposed, Received, All1, All2, All3, Did3, AllEqual, Ordered;
    if f in st.flows && st.flows[f].stage.Asking3? && st.flows[f].stage.publics.Keys == st.world.signers.Keys {
      var p := st.flows[f];
      OwnParts(s, st, f);
      var gathered := Gathered(s.order, p.stage.publics);
      if gathered.Failure? {
        OwnFails(s, st, f, OfSigner(gathered.error));
      } else if s.order == [] || s.order[0] !in gathered.value {
        OwnFails(s, st, f, Stopped);
      } else if !AllEqual(gathered.value[s.order[0]], s.order, gathered.value) {
        OwnFails(s, st, f, AggInternal);
      } else {
        AgreedKeys(s, p, st.world.signers.Keys);
        AllKeys(s.suite, p.log, st.world.signers.Keys, gathered.value[s.order[0]]);
        OwnRestage(s, st, NextEnd3(s, st, f), f);
      }
    }
  }

  lemma AllKeys(suite: Suite, log: Agreement.Transcript, ids: set<Identifier>, public: PublicKeyPackage)
    requires All3(suite, log, ids, public)
    ensures log.key.Keys == ids
  {
  }

  lemma OwnSteps(s: Setting, st: State, f: Flow, step: Step)
    requires Own(s, st, f) && FlowOf(step) == Some(f) && Ordered(s.order, st.world.signers.Keys)
    ensures Own(s, Next(s, st, step), f)
  {
    hide Own, Ordered, NextStart, NextBegin1, NextBegin2, NextBegin3, NextCollect, NextAsk1, NextAsk2, NextAsk3,
         NextEnd1, NextEnd2, NextEnd3;
    match step
    case Start(_) => OwnStart(s, st, f);
    case Begin1(_) => OwnBegin1(s, st, f);
    case Ask1(_, i, random) => OwnAsk1(s, st, f, i, random);
    case End1(_) => OwnEnd1(s, st, f);
    case Begin2(_) => OwnBegin2(s, st, f);
    case Ask2(_, i) => OwnAsk2(s, st, f, i);
    case End2(_) => OwnEnd2(s, st, f);
    case Begin3(_) => OwnBegin3(s, st, f);
    case Ask3(_, i) => OwnAsk3(s, st, f, i);
    case End3(_) => OwnEnd3(s, st, f);
    case Collect(_) => OwnCollect(s, st, f);
    case _ =>
  }

  // ----- Exclusion -----

  predicate AcceptedAt(st: State, f: Flow, i: Identifier) {
    f in st.flows && Accepted(st.flows[f], i)
  }

  /** A step that calls no signer in round 1 makes nobody accept anything. */
  lemma AcceptedBefore(s: Setting, st: State, step: Step, f: Flow, i: Identifier)
    requires !step.Ask1? && Ordered(s.order, st.world.signers.Keys) && i in st.world.signers
    requires AcceptedAt(Next(s, st, step), f, i)
    ensures AcceptedAt(st, f, i)
  {
    hide HandleDkgRound2, HandleDkgFinalize, HandleSignRound1, HandleSignRound2, Gathered, Transposed, AllEqual,
         PublicOf;
    if step.End1? && step.flow in st.flows && st.flows[step.flow].stage.Asking1? && st.flows[step.flow].stage.packages.Keys == st.world.signers.Keys
       && Gathered(s.order, st.flows[step.flow].stage.packages).Success? {
      GatheredKeys(s.order, st.flows[step.flow].stage.packages);
    }
  }

  /** Round 1 is accepted only for a share the signer has not stored. */
  lemma AcceptedNow(s: Setting, st: State, g: Flow, j: Identifier, random: Random, f: Flow, i: Identifier)
    requires AcceptedAt(NextAsk1(s, st, g, j, random), f, i) && i in st.world.signers
    ensures AcceptedAt(st, f, i) || (f == g && i == j && s.shareOf(f) !in st.world.signers[i].dkg)
  {
    hide HandleDkgRound1;
    if CanAsk1(st, g, j) {
      Answer1(s.suite, j, st.world.signers[j], s.shareOf(g), random);
    }
  }

  /** Whoever accepts now had accepted before, or accepts now what it had not stored. */
  lemma AcceptedHow(s: Setting, st: State, step: Step, f: Flow, i: Identifier)
    requires Ordered(s.order, st.world.signers.Keys) && i in st.world.signers && AcceptedAt(Next(s, st, step), f, i)
    ensures AcceptedAt(st, f, i) || (FlowOf(step) == Some(f) && s.shareOf(f) !in st.world.signers[i].dkg)
  {
    if step.Ask1? {
      AcceptedNow(s, st, step.flow, step.signer, step.random, f, i);
    } else {
      AcceptedBefore(s, st, step, f, i);
    }
  }

  lemma StepSigners(s: Setting, st: State, step: Step)
    ensures Next(s, st, step).world.signers.Keys == st.world.signers.Keys
  {
    hide HandleDkgRound1, HandleDkgRound2, HandleDkgFinalize, HandleSignRound1, HandleSignRound2, Gathered, Transposed,
         AllEqual, PublicOf, Received;
  }

  lemma StepExclusive(s: Setting, st: State, step: Step)
    requires Invariant(s, st) && Ordered(s.order, st.world.signers.Keys)
    ensures Exclusive(s, Next(s, st, step))
  {
    var st' := Next(s, st, step);
    StepSigners(s, st, step);
    hide Next, Accepted, Own, Ordered;
    forall f, g, i | f in st'.flows && g in st'.flows && f != g && s.shareOf(f) == s.shareOf(g) && i in st'.world.signers
      ensures !(Accepted(st'.flows[f], i) && Accepted(st'.flows[g], i))
    {
      if AcceptedAt(st', f, i) && AcceptedAt(st', g, i) {
        AcceptedHow(s, st, step, f, i);
        AcceptedHow(s, st, step, g, i);
        if AcceptedAt(st, f, i) {
          AcceptedStored(s, st, f, i);
        }
        if AcceptedAt(st, g, i) {
          AcceptedStored(s, st, g, i);
        }
      }
    }
  }

  lemma StepKeeps(s: Setting, st: State, step: Step)
    requires Invariant(s, st) && Ordered(s.order, st.world.signers.Keys) && st.world.signers != map[]
    ensures Invariant(s, Next(s, st, step))
  {
    hide Next, Own, Exclusive, Ordered;
    StepExclusive(s, st, step);
    forall f: Flow ensures Own(s, Next(s, st, step), f) {
      assert Own(s, st, f);
      if FlowOf(step) == Some(f) {
        OwnSteps(s, st, f, step);
      } else {
        OthersUndisturbed(s, st, f, step);
        UndisturbedOwn(s, st, Next(s, st, step), f);
      }
    }
  }

  lemma {:induction false} RunKeeps(s: Setting, st: State, steps: seq<Step>)
    requires Invariant(s, st) && Ordered(s.order, st.world.signers.Keys) && st.world.signers != map[]
    ensures Invariant(s, Run(s, st, steps)) && Run(s, st, steps).world.signers.Keys == st.world.signers.Keys
  {
    hide Next, Invariant, Ordered;
    if steps != [] {
      var before, last := Run(s, st, steps[..|steps| - 1]), steps[|steps| - 1];
      RunKeeps(s, st, steps[..|steps| - 1]);
      StepSigners(s, before, last);
      assert before.world.signers != map[];
      StepKeeps(s, before, last);
    }
  }

  // ----- What follows -----

  function DrawsOf(p: Progress): Draws {
    i => if i in p.draws then p.draws[i] else 0
  }

  /** Under every interleaving, from any stored state: a flow that has succeeded has run the protocol on the randomness it
      drew, with the public key it returned; every signer holds its key and the aggregator the public key. */
  lemma SuccessIsProtocol(s: Setting, w: World, steps: seq<Step>, f: Flow)
    requires Ordered(s.order, w.signers.Keys) && w.signers != map[]
    requires f in Run(s, State(w, map[]), steps).flows
    requires var p := Run(s, State(w, map[]), steps).flows[f]; p.stage.Done? && p.stage.result.Success?
    ensures var end := Run(s, State(w, map[]), steps); var p, id := end.flows[f], s.shareOf(f);
            && Agreement.IsTranscript(s.suite, w.signers.Keys, DrawsOf(p), p.log, p.stage.result.value)
            && PublicOf(end.world, id) == p.stage.result
            && Agreement.Keys(end.world, id, p.log.key)
  {
    hide Run, Exclusive, Ordered, Own, Logged, ShareIs, All1, All2, All3;
    InitialInvariant(s, w);
    RunKeeps(s, State(w, map[]), steps);
    FinalPart(s, Run(s, State(w, map[]), steps), f);
  }

  lemma FinalPart(s: Setting, end: State, f: Flow)
    requires Own(s, end, f) && f in end.flows && end.flows[f].stage.Done? && end.flows[f].stage.result.Success?
    ensures var p, id := end.flows[f], s.shareOf(f);
            && Agreement.IsTranscript(s.suite, end.world.signers.Keys, DrawsOf(p), p.log, p.stage.result.value)
            && PublicOf(end.world, id) == p.stage.result && Agreement.Keys(end.world, id, p.log.key)
  {
    hide All1, All2, All3, Own, PublicOf, Agreement.IsTranscript;
    var p, id := end.flows[f], s.shareOf(f);
    OwnParts(s, end, f);
    LogIsTranscript(s.suite, p, end.world.signers.Keys, p.stage.result.value);
    forall i | i in end.world.signers ensures Stands(end, id, i, DkgFinalized(p.log.key[i])) {
      OwnAt(s, end, f, i);
    }
  }

  lemma InitialInvariant(s: Setting, w: World)
    ensures Invariant(s, State(w, map[]))
  {
  }

  lemma LogIsTranscript(suite: Suite, p: Progress, ids: set<Identifier>, public: PublicKeyPackage)
    requires All1(suite, p.draws, p.log, ids) && All2(suite, p.log, ids) && All3(suite, p.log, ids, public)
    ensures Agreement.IsTranscript(suite, ids, DrawsOf(p), p.log, public) && p.log.key.Keys == ids
  {
    hide Received, Others;
    forall i | i in ids ensures Did1(suite, p.draws, p.log, i) && Did2(suite, p.log, i) && Did3(suite, p.log, i, public) {
    }
  }

  /** Under every interleaving, whenever a flow is about to ask a signer to finalize: the packages the signer stored in round 2
      are those of the request, so what it answers is the library's part 3 on the packages sent. */
  lemma FinalizeMatches(s: Setting, w: World, steps: seq<Step>, f: Flow, i: Identifier)
    requires Ordered(s.order, w.signers.Keys) && w.signers != map[]
    requires CanAsk3(Run(s, State(w, map[]), steps), f, i)
    ensures var st, id := Run(s, State(w, map[]), steps), s.shareOf(f); var p, signer := st.flows[f], st.world.signers[i];
            var (signer', answer) := HandleDkgFinalize(s.suite, signer, id, Others(p.stage.round1, i), p.stage.round2[i]);
            && id in signer.dkg && signer.dkg[id].DkgRound2? && signer.dkg[id].round1Packages == Others(p.stage.round1, i)
            && id in signer.locked
            && var made := s.suite.part3(signer.dkg[id].secret2, Others(p.stage.round1, i), p.stage.round2[i]);
               if made.None? then answer == Failure(Internal) && signer' == signer
               else answer == Success(made.value.1)
                    && signer' == signer.(locked := signer.locked - {id}, dkg := signer.dkg[id := DkgFinalized(made.value.0)])
  {
    hide Run, Exclusive, Ordered, Own, Others, PhaseOf, Logged, Accepted;
    InitialInvariant(s, w);
    RunKeeps(s, State(w, map[]), steps);
    var st := Run(s, State(w, map[]), steps);
    AcceptedPast(st.flows[f], i);
    OwnAt(s, st, f, i);
    OwnParts(s, st, f);
    Phase3At(s.suite, st.flows[f], st.world.signers.Keys, i);
  }

  /** No share has two flows that succeed, or that get past round 1 without failing later. */
  lemma OneSuccess(s: Setting, w: World, steps: seq<Step>, f: Flow, g: Flow)
    requires Ordered(s.order, w.signers.Keys) && w.signers != map[] && s.shareOf(f) == s.shareOf(g)
    requires forall i :: i in w.signers ==> AcceptedAt(Run(s, State(w, map[]), steps), f, i) && AcceptedAt(Run(s, State(w, map[]), steps), g, i)
    ensures f == g
  {
    hide Run, Own, Ordered, Accepted, Exclusive;
    InitialInvariant(s, w);
    RunKeeps(s, State(w, map[]), steps);
    var i :| i in w.signers;
    var end := Run(s, State(w, map[]), steps);
    assert AcceptedAt(end, f, i) && AcceptedAt(end, g, i);
    if f != g {
      NotBoth(s, end, f, g, i);
    }
  }
}

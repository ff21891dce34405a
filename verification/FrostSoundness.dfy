/**
 * What a signature from an interleaved flow means: every share in it was made for the recorded message, under the
 * tweak and the tap flag that the aggregator applies to its verifying key, and the sequential flow returns it too.
 */
module FrostSoundness {
  import opened Wrappers
  import opened FrostSigner
  import opened FrostFlows
  import opened FrostSessions
  import Agreement = FrostAgreement

  /** What the signer's draw for the flow commits it to. */
  function Committed1(s: Setting, st: State, f: Flow, key: KeyPackages, i: Identifier): (Nonces, Commitments)
    requires i in key && (f, i) in st.draws
  {
    s.suite.commit(CommitKey(s.suite, key[i], s.request(f).tweak), st.draws[(f, i)])
  }

  /** The signer has committed for this flow, and holds its nonces. */
  ghost predicate Waiting(s: Setting, st: State, f: Flow, key: KeyPackages, i: Identifier) {
    var q := s.request(f);
    && i in key && i in st.world.signers && (f, i) in st.draws
    && Lookup(st.world.signers[i].sessions, (q.id, q.session))
       == Some(SignData(q.tweak, q.message, q.metadata, SigningRound1(Committed1(s, st, f, key, i).0, st.draws[(f, i)])))
  }

  ghost predicate Drawn(st: State, f: Flow, key: KeyPackages) {
    forall i :: i in key ==> (f, i) in st.draws
  }

  function PackageOf(s: Setting, st: State, f: Flow, key: KeyPackages): SigningPackage
    requires Drawn(st, f, key)
  {
    SigningPackage(map i | i in key :: Committed1(s, st, f, key, i).1, s.request(f).message)
  }

  /** The share signs the recorded message with the committed nonces and the tweaked key. */
  ghost predicate SharedBy(s: Setting, st: State, f: Flow, key: KeyPackages, i: Identifier, share: SignatureShare)
    requires Drawn(st, f, key) && i in key
  {
    s.suite.sign(PackageOf(s, st, f, key), Committed1(s, st, f, key, i).0, SigningKey(s.suite, key[i], s.request(f).tweak, s.tap(f))) == Some(share)
  }

  ghost predicate SignedBy(s: Setting, st: State, f: Flow, key: KeyPackages, public: PublicKeyPackage,
                           signature: Signature)
    requires Drawn(st, f, key)
  {
    var verifying := VerifyingKey(s.suite, public, s.request(f).tweak, s.tap(f));
    exists shares: SignatureShares ::
      && shares.Keys == key.Keys && (forall i :: i in key ==> SharedBy(s, st, f, key, i, shares[i]))
      && s.suite.aggregate(PackageOf(s, st, f, key), shares, verifying) == Some(signature)
      && s.suite.verify(verifying, s.request(f).message, signature)
  }

  function ToRecord(s: Setting, st: State, f: Flow, key: KeyPackages): AggSignData
    requires Drawn(st, f, key)
  {
    var q := s.request(f);
    AggSignData(q.tweak, q.message, q.metadata, AggSigning1(PackageOf(s, st, f, key)))
  }

  /** The recorded data, with the package of everybody's commitments. */
  ghost predicate Recorded(s: Setting, st: State, f: Flow, key: KeyPackages, data: AggSignData) {
    var q := s.request(f);
    && Drawn(st, f, key)
    && data == ToRecord(s, st, f, key)
    && Lookup(st.world.sessions, (q.id, q.session)) == Some(data)
  }

  ghost predicate InAsking1(s: Setting, st: State, f: Flow, key: KeyPackages,
                            commitments: map<Identifier, Result<Commitments, SignerError>>) {
    forall i :: i in commitments ==> Waiting(s, st, f, key, i) && commitments[i] == Success(Committed1(s, st, f, key, i).1)
  }

  ghost predicate InAsking2(s: Setting, st: State, f: Flow, key: KeyPackages, public: PublicKeyPackage, stage: Stage)
    requires stage.Asking2?
  {
    && Recorded(s, st, f, key, stage.data) && stage.public == public
    && (forall i :: i in key && i !in stage.shares ==> Waiting(s, st, f, key, i))
    && (forall i :: i in stage.shares && stage.shares[i].Success? ==> i in key && SharedBy(s, st, f, key, i, stage.shares[i].value))
  }

  ghost predicate InStored(s: Setting, st: State, f: Flow, key: KeyPackages, public: PublicKeyPackage) {
    var q := s.request(f);
    && Drawn(st, f, key) && SignatureOf(st.world, q.id, q.session).Success?
    && SignedBy(s, st, f, key, public, SignatureOf(st.world, q.id, q.session).value)
  }

  ghost predicate Sound(s: Setting, st: State, f: Flow, key: KeyPackages, public: PublicKeyPackage) {
    f in st.stages ==>
      match st.stages[f]
      case Asking1(commitments) => InAsking1(s, st, f, key, commitments)
      case Committed => (forall i :: i in key ==> Waiting(s, st, f, key, i)) && exists data :: Recorded(s, st, f, key, data)
      case Asking2(_, _, _) => InAsking2(s, st, f, key, public, st.stages[f])
      case Stored => InStored(s, st, f, key, public)
      case Done(result) => result.Success? ==> Drawn(st, f, key) && SignedBy(s, st, f, key, public, result.value)
  }

  // ----- Other steps -----

  ghost predicate SameDraws(a: State, b: State, f: Flow, key: KeyPackages) {
    forall i :: i in key ==> Lookup(a.draws, (f, i)) == Lookup(b.draws, (f, i))
  }

  lemma AlikeSameDraws(s: Setting, a: State, b: State, f: Flow, key: KeyPackages)
    requires Alike(s, a, b, f) && a.world.signers.Keys == key.Keys
    ensures SameDraws(a, b, f, key)
  {
    hide SignersAlike;
    forall i | i in key ensures Lookup(a.draws, (f, i)) == Lookup(b.draws, (f, i)) {
      assert AlikeAt(a, b, s.request(f), f, i);
    }
  }

  /** The draws determine the commitments, so the package, so who has signed what. */
  lemma SameDrawsSame(s: Setting, a: State, b: State, f: Flow, key: KeyPackages)
    requires SameDraws(a, b, f, key) && Drawn(a, f, key)
    ensures Drawn(b, f, key) && PackageOf(s, a, f, key) == PackageOf(s, b, f, key)
    ensures forall i :: i in key ==> Committed1(s, a, f, key, i) == Committed1(s, b, f, key, i)
  {
    forall i | i in key ensures (f, i) in b.draws && a.draws[(f, i)] == b.draws[(f, i)] {
      assert Lookup(a.draws, (f, i)) == Lookup(b.draws, (f, i));
    }
  }

  lemma AlikeDraws(s: Setting, a: State, b: State, f: Flow, key: KeyPackages)
    requires Alike(s, a, b, f) && a.world.signers.Keys == key.Keys && Drawn(a, f, key)
    ensures Drawn(b, f, key) && PackageOf(s, a, f, key) == PackageOf(s, b, f, key)
    ensures forall i :: i in key ==> Committed1(s, a, f, key, i) == Committed1(s, b, f, key, i)
  {
    hide Alike, SameDraws, PackageOf, Committed1;
    AlikeSameDraws(s, a, b, f, key);
    SameDrawsSame(s, a, b, f, key);
  }

  lemma AlikeWaiting(s: Setting, a: State, b: State, f: Flow, key: KeyPackages, i: Identifier)
    requires Alike(s, a, b, f) && Waiting(s, a, f, key, i)
    ensures Waiting(s, b, f, key, i) && Committed1(s, b, f, key, i) == Committed1(s, a, f, key, i)
  {
    assert AlikeAt(a, b, s.request(f), f, i);
  }

  lemma AlikeShared(s: Setting, a: State, b: State, f: Flow, key: KeyPackages)
    requires Alike(s, a, b, f) && a.world.signers.Keys == key.Keys && Drawn(a, f, key)
    ensures Drawn(b, f, key)
    ensures forall i, share :: i in key && SharedBy(s, a, f, key, i, share) ==> SharedBy(s, b, f, key, i, share)
  {
    hide Alike, PackageOf;
    AlikeDraws(s, a, b, f, key);
  }

  lemma AlikeSigned(s: Setting, a: State, b: State, f: Flow, key: KeyPackages, public: PublicKeyPackage,
                    signature: Signature)
    requires Alike(s, a, b, f) && a.world.signers.Keys == key.Keys && Drawn(a, f, key)
    requires SignedBy(s, a, f, key, public, signature)
    ensures Drawn(b, f, key) && SignedBy(s, b, f, key, public, signature)
  {
    hide Alike, PackageOf, SharedBy;
    AlikeDraws(s, a, b, f, key);
    AlikeShared(s, a, b, f, key);
    var shares: SignatureShares :|
      && shares.Keys == key.Keys && (forall i :: i in key ==> SharedBy(s, a, f, key, i, shares[i]))
      && s.suite.aggregate(PackageOf(s, a, f, key), shares, VerifyingKey(s.suite, public, s.request(f).tweak, s.tap(f))) == Some(signature);
  }

  lemma AlikeRecorded(s: Setting, a: State, b: State, f: Flow, key: KeyPackages, data: AggSignData)
    requires Alike(s, a, b, f) && a.world.signers.Keys == key.Keys && Recorded(s, a, f, key, data)
    ensures Recorded(s, b, f, key, data)
  {
    hide PackageOf;
    AlikeDraws(s, a, b, f, key);
  }

  /** Soundness of a flow is a matter of what is stored for it. */
  lemma AlikeSound(s: Setting, a: State, b: State, f: Flow, key: KeyPackages, public: PublicKeyPackage)
    requires Alike(s, a, b, f) && a.world.signers.Keys == key.Keys && Sound(s, a, f, key, public)
    ensures Sound(s, b, f, key, public)
  {
    hide Alike, PackageOf, SharedBy, SignedBy, Recorded, Waiting, Committed1;
    StageAlike(s, a, b, f);
    forall i | Waiting(s, a, f, key, i)
      ensures Waiting(s, b, f, key, i) && HasDraw(a, f, key, i) && HasDraw(b, f, key, i)
      ensures Committed1(s, b, f, key, i) == Committed1(s, a, f, key, i)
    {
      WaitingDraw(s, a, f, key, i);
      AlikeWaiting(s, a, b, f, key, i);
      WaitingDraw(s, b, f, key, i);
    }
    forall data | Recorded(s, a, f, key, data) ensures Recorded(s, b, f, key, data) && Drawn(a, f, key) {
      AlikeRecorded(s, a, b, f, key, data);
      RecordedDrawn(s, a, f, key, data);
      RecordedDrawn(s, b, f, key, data);
    }
    if Drawn(a, f, key) {
      AlikeShared(s, a, b, f, key);
      forall signature | SignedBy(s, a, f, key, public, signature) ensures SignedBy(s, b, f, key, public, signature) {
        AlikeSigned(s, a, b, f, key, public, signature);
      }
    }
  }

  predicate HasDraw(st: State, f: Flow, key: KeyPackages, i: Identifier) {
    i in key && (f, i) in st.draws
  }

  lemma WaitingDraw(s: Setting, st: State, f: Flow, key: KeyPackages, i: Identifier)
    requires Waiting(s, st, f, key, i)
    ensures HasDraw(st, f, key, i)
  {
  }

  lemma RecordedDrawn(s: Setting, st: State, f: Flow, key: KeyPackages, data: AggSignData)
    requires Recorded(s, st, f, key, data)
    ensures Drawn(st, f, key)
  {
  }

  // ----- Own steps -----

  /** Draws and signers other than `i` are as before, and the aggregator's session and the draws of the others too. */
  ghost predicate OnlyAt(st: State, st': State, f: Flow, i: Identifier) {
    && st'.world.sessions == st.world.sessions
    && st'.world.signers.Keys == st.world.signers.Keys
    && (forall j :: j in st.world.signers && j != i ==> st'.world.signers[j] == st.world.signers[j])
    && (forall j :: j != i ==> Lookup(st'.draws, (f, j)) == Lookup(st.draws, (f, j)))
  }

  lemma OnlyAtWaiting(s: Setting, st: State, st': State, f: Flow, i: Identifier, key: KeyPackages, j: Identifier)
    requires OnlyAt(st, st', f, i) && j != i && Waiting(s, st, f, key, j)
    ensures Waiting(s, st', f, key, j) && Committed1(s, st', f, key, j) == Committed1(s, st, f, key, j)
  {
    assert Lookup(st'.draws, (f, j)) == Lookup(st.draws, (f, j));
  }

  /** A finalized signer commits, with the key its session's tweak says. */
  lemma CommitAnswer(suite: Suite, signer: SignerState, q: SignRequest, random: Random, key: KeyPackage)
    requires q.id in signer.dkg && signer.dkg[q.id] == DkgFinalized(key)
    ensures var (signer', answer) := HandleSignRound1(suite, signer, q, random);
            var (nonces, commitments) := suite.commit(CommitKey(suite, key, q.tweak), random);
            && answer == Success(commitments)
            && Lookup(signer'.sessions, (q.id, q.session)) == Some(SignData(q.tweak, q.message, q.metadata, SigningRound1(nonces, random)))
  {
  }

  predicate CanAsk1(st: State, f: Flow, i: Identifier) {
    f in st.stages && st.stages[f].Asking1? && i in st.world.signers && i !in st.stages[f].commitments
  }

  lemma Ask1Changes(s: Setting, st: State, f: Flow, i: Identifier, random: Random)
    requires CanAsk1(st, f, i)
    ensures var st' := NextAsk1(s, st, f, i, random);
            var (signer, answer) := HandleSignRound1(s.suite, st.world.signers[i], s.request(f), random);
            && OnlyAt(st, st', f, i) && i in st'.world.signers && st'.world.signers[i] == signer
            && Lookup(st'.draws, (f, i)) == Some(random)
            && f in st'.stages && st'.stages[f] == Asking1(st.stages[f].commitments[i := answer])
  {
    hide HandleSignRound1;
  }

  lemma Ask1Sound(s: Setting, st: State, f: Flow, i: Identifier, random: Random, key: KeyPackages,
                  public: PublicKeyPackage)
    requires Final(st.world, s.request(f).id, key, public) && Sound(s, st, f, key, public)
    ensures Sound(s, NextAsk1(s, st, f, i, random), f, key, public)
  {
    hide HandleSignRound1, CommitKey, Waiting, Committed1, PackageOf, SharedBy, SignedBy, OnlyAt;
    if CanAsk1(st, f, i) {
      var st' := NextAsk1(s, st, f, i, random);
      Ask1Changes(s, st, f, i, random);
      hide NextAsk1;
      var commitments := st.stages[f].commitments;
      JustAsked(s, st, st', f, i, random, key);
      forall j | j in commitments
        ensures Waiting(s, st', f, key, j) && HasDraw(st', f, key, j)
        ensures commitments[j] == Success(Committed1(s, st', f, key, j).1)
      {
        OnlyAtWaiting(s, st, st', f, i, key, j);
        WaitingDraw(s, st', f, key, j);
      }
    }
  }

  lemma JustAsked(s: Setting, st: State, st': State, f: Flow, i: Identifier, random: Random, key: KeyPackages)
    requires i in key && i in st.world.signers && i in st'.world.signers && Lookup(st'.draws, (f, i)) == Some(random)
    requires st'.world.signers[i] == HandleSignRound1(s.suite, st.world.signers[i], s.request(f), random).0
    requires s.request(f).id in st.world.signers[i].dkg
    requires st.world.signers[i].dkg[s.request(f).id] == DkgFinalized(key[i])
    ensures Waiting(s, st', f, key, i) && HasDraw(st', f, key, i)
    ensures HandleSignRound1(s.suite, st.world.signers[i], s.request(f), random).1 == Success(Committed1(s, st', f, key, i).1)
  {
    hide HandleSignRound1, CommitKey;
    CommitAnswer(s.suite, st.world.signers[i], s.request(f), random, key[i]);
  }

  lemma SetStageKeeps(s: Setting, st: State, f: Flow, stage: Stage, key: KeyPackages, public: PublicKeyPackage)
    ensures forall i :: Waiting(s, st, f, key, i) ==> Waiting(s, SetStage(st, f, stage), f, key, i)
    ensures Drawn(st, f, key) ==> Drawn(SetStage(st, f, stage), f, key)
    ensures forall data :: Recorded(s, st, f, key, data) ==> Recorded(s, SetStage(st, f, stage), f, key, data)
    ensures forall signature :: Drawn(st, f, key) && SignedBy(s, st, f, key, public, signature) ==>
              SignedBy(s, SetStage(st, f, stage), f, key, public, signature)
  {
    hide SharedBy, Committed1, PackageOf;
    var st' := SetStage(st, f, stage);
    if Drawn(st, f, key) {
      SameDrawsSame(s, st, st', f, key);
      SameDrawsShared(s, st, st', f, key);
      forall signature | SignedBy(s, st, f, key, public, signature) ensures SignedBy(s, st', f, key, public, signature) {
        SameDrawsSigned(s, st, st', f, key, public, signature);
      }
    }
    forall i | Waiting(s, st, f, key, i) ensures Waiting(s, st', f, key, i) {
      assert Committed1(s, st', f, key, i) == Committed1(s, st, f, key, i) by {
        SameDraw1(s, st, st', f, key, i);
      }
    }
  }

  lemma SameDraw1(s: Setting, a: State, b: State, f: Flow, key: KeyPackages, i: Identifier)
    requires HasDraw(a, f, key, i) && Lookup(a.draws, (f, i)) == Lookup(b.draws, (f, i))
    ensures HasDraw(b, f, key, i) && Committed1(s, b, f, key, i) == Committed1(s, a, f, key, i)
  {
  }

  lemma SameDrawsShared(s: Setting, a: State, b: State, f: Flow, key: KeyPackages)
    requires SameDraws(a, b, f, key) && Drawn(a, f, key)
    ensures Drawn(b, f, key)
    ensures forall i, share :: i in key && SharedBy(s, a, f, key, i, share) ==> SharedBy(s, b, f, key, i, share)
  {
    hide PackageOf, Committed1;
    SameDrawsSame(s, a, b, f, key);
  }

  lemma SameDrawsSigned(s: Setting, a: State, b: State, f: Flow, key: KeyPackages, public: PublicKeyPackage,
                        signature: Signature)
    requires SameDraws(a, b, f, key) && Drawn(a, f, key) && SignedBy(s, a, f, key, public, signature)
    ensures Drawn(b, f, key) && SignedBy(s, b, f, key, public, signature)
  {
    hide PackageOf, SharedBy;
    SameDrawsSame(s, a, b, f, key);
    SameDrawsShared(s, a, b, f, key);
    var shares: SignatureShares :|
      && shares.Keys == key.Keys && (forall i :: i in key ==> SharedBy(s, a, f, key, i, shares[i]))
      && s.suite.aggregate(PackageOf(s, a, f, key), shares, VerifyingKey(s.suite, public, s.request(f).tweak, s.tap(f))) == Some(signature);
  }

  /** The package is built from the commitments that the draws determine. */
  lemma End1Sound(s: Setting, st: State, f: Flow, key: KeyPackages, public: PublicKeyPackage)
    requires Ordered(s.order, st.world.signers.Keys) && Final(st.world, s.request(f).id, key, public)
    requires Sound(s, st, f, key, public)
    ensures Sound(s, NextEnd1(s, st, f), f, key, public)
  {
    hide Waiting, Committed1, PackageOf, SharedBy, SignedBy, Recorded, Gathered, SetStage, Store;
    var q := s.request(f);
    if f in st.stages && st.stages[f].Asking1? && st.stages[f].commitments.Keys == st.world.signers.Keys {
      var commitments := st.stages[f].commitments;
      forall i | i in key ensures Waiting(s, st, f, key, i) && HasDraw(st, f, key, i) {
        WaitingDraw(s, st, f, key, i);
      }
      assert Drawn(st, f, key);
      GatherCommitments(s, st, f, key, commitments);
      var data := ToRecord(s, st, f, key);
      var stored := Store(st, q, data);
      StoreKeeps(s, st, f, key, data);
      SetStageKeeps(s, stored, f, Stage.Committed, key, public);
      SetStageIs(stored, f, Stage.Committed);
      assert Recorded(s, SetStage(stored, f, Stage.Committed), f, key, data);
    }
  }

  lemma SetStageIs(st: State, f: Flow, stage: Stage)
    ensures f in SetStage(st, f, stage).stages && SetStage(st, f, stage).stages[f] == stage
    ensures SetStage(st, f, stage).world == st.world && SetStage(st, f, stage).draws == st.draws
  {
  }

  lemma GatherCommitments(s: Setting, st: State, f: Flow, key: KeyPackages,
                          commitments: map<Identifier, Result<Commitments, SignerError>>)
    requires Ordered(s.order, key.Keys) && commitments.Keys == key.Keys && Drawn(st, f, key)
    requires forall i :: i in key ==> commitments[i] == Success(Committed1(s, st, f, key, i).1)
    ensures Gathered(s.order, commitments).Success?
    ensures SigningPackage(Gathered(s.order, commitments).value, s.request(f).message) == PackageOf(s, st, f, key)
  {
    hide Committed1;
    NoErrorIff(s.order, commitments);
    assert Gathered(s.order, commitments).value == map i | i in key :: Committed1(s, st, f, key, i).1;
  }

  lemma StoreKeeps(s: Setting, st: State, f: Flow, key: KeyPackages, data: AggSignData)
    ensures var st' := Store(st, s.request(f), data);
            && (forall i :: Waiting(s, st, f, key, i) ==> Waiting(s, st', f, key, i))
            && Lookup(st'.world.sessions, (s.request(f).id, s.request(f).session)) == Some(data)
            && (Drawn(st, f, key) ==> Drawn(st', f, key) && PackageOf(s, st', f, key) == PackageOf(s, st, f, key))
            && (Drawn(st, f, key) && data == ToRecord(s, st, f, key) ==> Recorded(s, st', f, key, data))
  {
    hide Committed1, PackageOf;
    var st' := Store(st, s.request(f), data);
    if Drawn(st, f, key) {
      SameDrawsSame(s, st, st', f, key);
    }
    forall i | Waiting(s, st, f, key, i) ensures Waiting(s, st', f, key, i) {
      SameDraw1(s, st, st', f, key, i);
    }
  }

  lemma Begin2Sound(s: Setting, st: State, f: Flow, key: KeyPackages, public: PublicKeyPackage)
    requires Final(st.world, s.request(f).id, key, public) && Sound(s, st, f, key, public)
    ensures Sound(s, NextBegin2(s, st, f), f, key, public)
  {
    hide Waiting, Committed1, PackageOf, SharedBy, SignedBy, SetStage;
    var q := s.request(f);
    if f in st.stages && st.stages[f].Committed? {
      var data :| Recorded(s, st, f, key, data);
      var stage := Asking2(public, data, map[]);
      assert NextBegin2(s, st, f) == SetStage(st, f, stage);
      SetStageKeeps(s, st, f, stage, key, public);
      SetStageIs(st, f, stage);
    }
  }

  /** A signer that holds its nonces signs the package, if the library lets it. */
  lemma ShareAnswer(s: Setting, st: State, f: Flow, key: KeyPackages, i: Identifier)
    requires Waiting(s, st, f, key, i) && Drawn(st, f, key)
    requires s.request(f).id in st.world.signers[i].dkg
    requires st.world.signers[i].dkg[s.request(f).id] == DkgFinalized(key[i])
    ensures var answer := HandleSignRound2(s.suite, st.world.signers[i], s.request(f).id, s.request(f).session, PackageOf(s, st, f, key), s.tap(f)).1;
            answer.Success? ==> SharedBy(s, st, f, key, i, answer.value)
  {
    hide Committed1, SigningKey;
  }

  predicate CanAsk2(st: State, f: Flow, i: Identifier) {
    f in st.stages && st.stages[f].Asking2? && i in st.world.signers && i !in st.stages[f].shares && st.stages[f].data.phase.AggSigning1?
  }

  lemma Ask2Changes(s: Setting, st: State, f: Flow, i: Identifier)
    requires CanAsk2(st, f, i)
    ensures var st' := NextAsk2(s, st, f, i); var stage := st.stages[f];
            var answer := HandleSignRound2(s.suite, st.world.signers[i], s.request(f).id, s.request(f).session, stage.data.phase.package, s.tap(f)).1;
            && OnlyAt(st, st', f, i) && st'.draws == st.draws
            && f in st'.stages && st'.stages[f] == stage.(shares := stage.shares[i := answer])
  {
    hide HandleSignRound2;
  }

  lemma Ask2Sound(s: Setting, st: State, f: Flow, i: Identifier, key: KeyPackages, public: PublicKeyPackage)
    requires Final(st.world, s.request(f).id, key, public) && Sound(s, st, f, key, public)
    ensures Sound(s, NextAsk2(s, st, f, i), f, key, public)
  {
    hide HandleSignRound2, Waiting, Committed1, PackageOf, SharedBy, SignedBy, OnlyAt;
    if CanAsk2(st, f, i) {
      var st', stage := NextAsk2(s, st, f, i), st.stages[f];
      Ask2Changes(s, st, f, i);
      hide NextAsk2;
      ShareAnswer(s, st, f, key, i);
      SameDrawsSame(s, st, st', f, key);
      SameDrawsShared(s, st, st', f, key);
      OnlyAtSessions(s, st, st', f, i);
      forall j | j in key && j != i && Waiting(s, st, f, key, j) ensures Waiting(s, st', f, key, j) {
        OnlyAtWaiting(s, st, st', f, i, key, j);
      }
      assert Recorded(s, st', f, key, stage.data);
    }
  }

  lemma OnlyAtSessions(s: Setting, st: State, st': State, f: Flow, i: Identifier)
    requires OnlyAt(st, st', f, i)
    ensures st'.world.sessions == st.world.sessions
  {
  }

  /** The aggregated signature has verified for the recorded message under the key tweaked as the shares were. */
  lemma End2Sound(s: Setting, st: State, f: Flow, key: KeyPackages, public: PublicKeyPackage)
    requires Ordered(s.order, st.world.signers.Keys) && Final(st.world, s.request(f).id, key, public)
    requires Sound(s, st, f, key, public)
    ensures Sound(s, NextEnd2(s, st, f), f, key, public)
  {
    hide Waiting, Committed1, PackageOf, SharedBy, SignedBy, Gathered, Finish, SetStage, Store;
    var q := s.request(f);
    if f in st.stages && st.stages[f].Asking2? && st.stages[f].shares.Keys == st.world.signers.Keys {
      var stage := st.stages[f];
      var gathered := Gathered(s.order, stage.shares);
      if gathered.Success? && Finish(s.suite, public, stage.data, s.tap(f), gathered.value).Success? {
        var signature := Finish(s.suite, public, stage.data, s.tap(f), gathered.value).value;
        FinishSigned(s, st, f, key, public, stage);
        var data := stage.data.(phase := AggSigning2(signature));
        var stored := Store(st, q, data);
        StoreKeeps(s, st, f, key, data);
        SameDrawsSigned(s, st, stored, f, key, public, signature) by {
          StoreDraws(s, st, f, key, data);
        }
        SetStageKeeps(s, stored, f, Stored, key, public);
      }
    }
    forall st1, stage1 {
      SetStageIs(st1, f, stage1);
    }
  }

  lemma StoreDraws(s: Setting, st: State, f: Flow, key: KeyPackages, data: AggSignData)
    ensures SameDraws(st, Store(st, s.request(f), data), f, key)
  {
  }

  lemma FinishSigned(s: Setting, st: State, f: Flow, key: KeyPackages, public: PublicKeyPackage, stage: Stage)
    requires stage.Asking2? && InAsking2(s, st, f, key, public, stage) && stage.shares.Keys == key.Keys
    requires Ordered(s.order, key.Keys)
    requires Gathered(s.order, stage.shares).Success?
    requires Finish(s.suite, public, stage.data, s.tap(f), Gathered(s.order, stage.shares).value).Success?
    ensures SignedBy(s, st, f, key, public, Finish(s.suite, public, stage.data, s.tap(f), Gathered(s.order, stage.shares).value).value)
  {
    hide Gathered, SharedBy, PackageOf, VerifyingKey;
    GatheredKeys(s.order, stage.shares);
    var shares := Gathered(s.order, stage.shares).value;
    assert shares.Keys == key.Keys && forall i :: i in key ==> SharedBy(s, st, f, key, i, shares[i]);
  }

  lemma CollectSound(s: Setting, st: State, f: Flow, key: KeyPackages, public: PublicKeyPackage)
    requires Sound(s, st, f, key, public)
    ensures Sound(s, Next(s, st, Collect(f)), f, key, public)
  {
    hide Waiting, Committed1, PackageOf, SharedBy, SignedBy, SetStage, SignatureOf;
    if f in st.stages && st.stages[f].Stored? {
      var result := SignatureOf(st.world, s.request(f).id, s.request(f).session);
      SetStageKeeps(s, st, f, Done(result), key, public);
      SetStageIs(st, f, Done(result));
    }
  }

  lemma OwnSound(s: Setting, st: State, f: Flow, step: Step, key: KeyPackages, public: PublicKeyPackage)
    requires Ordered(s.order, st.world.signers.Keys) && Final(st.world, s.request(f).id, key, public)
    requires Sound(s, st, f, key, public)
    requires FlowOf(step) == Some(f)
    ensures Sound(s, Next(s, st, step), f, key, public)
  {
    hide NextAsk1, NextAsk2, NextEnd1, NextEnd2, NextBegin2, Final, Waiting, Recorded, SignedBy, SharedBy, PublicOf,
         SignatureOf;
    match step
    case Begin1(_) => SetStageIs(st, f, Asking1(map[])); SetStageIs(st, f, Done(Failure(WrongState)));
    case Ask1(_, i, random) => Ask1Sound(s, st, f, i, random, key, public);
    case End1(_) => End1Sound(s, st, f, key, public);
    case Begin2(_) => Begin2Sound(s, st, f, key, public);
    case Ask2(_, i) => Ask2Sound(s, st, f, i, key, public);
    case End2(_) => End2Sound(s, st, f, key, public);
    case Collect(_) => CollectSound(s, st, f, key, public);
    case _ =>
  }

  lemma {:induction false} RunSound(s: Setting, st: State, f: Flow, steps: seq<Step>, key: KeyPackages,
                                    public: PublicKeyPackage)
    requires OwnSession(s, f) && Ordered(s.order, st.world.signers.Keys)
    requires Final(st.world, s.request(f).id, key, public) && Sound(s, st, f, key, public)
    ensures Sound(s, Run(s, st, steps), f, key, public)
  {
    hide Alike, Next, Final, OwnSession, Sound, Ordered;
    if steps != [] {
      var before, last := Run(s, st, steps[..|steps| - 1]), steps[|steps| - 1];
      RunSound(s, st, f, steps[..|steps| - 1], key, public);
      RunFinal(s, st, f, steps[..|steps| - 1], key, public);
      FinalKeys(st.world, s.request(f).id, key, public);
      FinalKeys(before.world, s.request(f).id, key, public);
      if FlowOf(last) == Some(f) {
        OwnSound(s, before, f, last, key, public);
      } else {
        OtherAlike(s, before, f, last, key, public);
        AlikeSound(s, before, Next(s, before, last), f, key, public);
      }
    }
  }

  lemma FinalKeys(w: World, id: Uuid, key: KeyPackages, public: PublicKeyPackage)
    requires Final(w, id, key, public)
    ensures w.signers.Keys == key.Keys
  {
  }

  /** The randomness a flow has used. */
  function DrawsOf(st: State, f: Flow): Draws {
    i => if (f, i) in st.draws then st.draws[(f, i)] else 0
  }

  /** Under every interleaving, a flow that succeeds returns what the sequential flow returns from the initial state on
      the randomness it used; so every share in it signs the recorded message with the key tweaked as the aggregator
      tweaks its verifying key. */
  lemma InterleavedIsSequential(s: Setting, st: State, f: Flow, steps: seq<Step>, key: KeyPackages,
                                public: PublicKeyPackage) returns (c: Agreement.Contributions)
    requires OwnSession(s, f) && Ordered(s.order, st.world.signers.Keys)
    requires Final(st.world, s.request(f).id, key, public) && f !in st.stages
    requires f in Run(s, st, steps).stages && Run(s, st, steps).stages[f].Done?
    requires Run(s, st, steps).stages[f].result.Success?
    ensures var end := Run(s, st, steps); var signature := end.stages[f].result.value;
            && Agreement.IsSigning(s.suite, st.world, s.request(f), s.tap(f), DrawsOf(end, f), c, public, signature)
            && RunSigningFlow(s.suite, s.order, st.world, s.request(f), s.tap(f), DrawsOf(end, f)).1 == Success(signature)
  {
    hide Run, Final, OwnSession, Ordered, SignedBy;
    RunSound(s, st, f, steps, key, public);
    var end := Run(s, st, steps);
    c := ContributionsOf(s, st.world, end, f, key, public, end.stages[f].result.value);
    Agreement.SigningIsFlow(s.suite, s.order, st.world, s.request(f), s.tap(f), DrawsOf(end, f), c, public, end.stages[f].result.value);
  }

  lemma ContributionsOf(s: Setting, w: World, end: State, f: Flow, key: KeyPackages, public: PublicKeyPackage,
                        signature: Signature) returns (c: Agreement.Contributions)
    requires Final(w, s.request(f).id, key, public) && Drawn(end, f, key) && SignedBy(s, end, f, key, public, signature)
    ensures Agreement.IsSigning(s.suite, w, s.request(f), s.tap(f), DrawsOf(end, f), c, public, signature)
  {
    hide VerifyingKey, SharedBy, Committed1, PackageOf, Agreement.Commits, Agreement.Signs;
    var verifying := VerifyingKey(s.suite, public, s.request(f).tweak, s.tap(f));
    var shares: SignatureShares :|
      && shares.Keys == key.Keys && (forall i :: i in key ==> SharedBy(s, end, f, key, i, shares[i]))
      && s.suite.aggregate(PackageOf(s, end, f, key), shares, verifying) == Some(signature)
      && s.suite.verify(verifying, s.request(f).message, signature);
    c := Agreement.Contributions(
      key, map i | i in key :: Committed1(s, end, f, key, i).0, PackageOf(s, end, f, key).commitments, shares);
    PackageIs(s, end, f, key);
    CommitsOf(s, end, f, key, c);
    SignsOf(s, end, f, key, c);
  }

  lemma PackageIs(s: Setting, st: State, f: Flow, key: KeyPackages)
    requires Drawn(st, f, key)
    ensures PackageOf(s, st, f, key).message == s.request(f).message
    ensures PackageOf(s, st, f, key).commitments == map i | i in key :: Committed1(s, st, f, key, i).1
  {
  }

  lemma CommitsOf(s: Setting, end: State, f: Flow, key: KeyPackages, c: Agreement.Contributions)
    requires Drawn(end, f, key) && c.key == key
    requires c.nonces == map i | i in key :: Committed1(s, end, f, key, i).0
    requires c.commitments == map i | i in key :: Committed1(s, end, f, key, i).1
    ensures Agreement.Commits(s.suite, key.Keys, s.request(f).tweak, DrawsOf(end, f), c)
  {
    hide CommitKey;
  }

  lemma SignsOf(s: Setting, end: State, f: Flow, key: KeyPackages, c: Agreement.Contributions)
    requires Drawn(end, f, key) && c.key == key && c.shares.Keys == key.Keys
    requires c.commitments == PackageOf(s, end, f, key).commitments
    requires c.nonces == map i | i in key :: Committed1(s, end, f, key, i).0
    requires forall i :: i in key ==> SharedBy(s, end, f, key, i, c.shares[i])
    ensures Agreement.Signs(s.suite, key.Keys, s.request(f), s.tap(f), c)
  {
    hide PackageOf, Committed1, SigningKey;
    PackageIs(s, end, f, key);
  }
}

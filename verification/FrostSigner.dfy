/**
 * One signer: its lock set, its key-generation phase per share and its signing state per session.
 *
 * The handlers are given twice: as functions from state to state, which the protocol models run, and as the methods
 * of the class that updates its fields, proved to be those functions.
 */
module FrostSigner {
  import opened Wrappers
  import opened Machine

  type Identifier = nat
  type Uuid = nat
  type Random = nat

  // Values made and read only by the signature library.
  datatype Round1Secret = Round1Secret(secret1: nat)
  datatype Round1Package = Round1Package(package1: nat)
  datatype Round2Secret = Round2Secret(secret2: nat)
  datatype Round2Package = Round2Package(package2: nat)
  datatype KeyPackage = KeyPackage(key: nat)
  datatype PublicKeyPackage = PublicKeyPackage(public: nat)
  datatype Nonces = Nonces(nonces: nat)
  datatype Commitments = Commitments(commitments: nat)
  datatype SignatureShare = SignatureShare(share: nat)
  datatype Signature = Signature(signature: nat)
  datatype SigningPackage = SigningPackage(commitments: map<Identifier, Commitments>, message: seq<byte>)

  type Packages1 = map<Identifier, Round1Package>
  type Packages2 = map<Identifier, Round2Package>
  type Secrets1 = map<Identifier, Round1Secret>
  type Secrets2 = map<Identifier, Round2Secret>
  type KeyPackages = map<Identifier, KeyPackage>
  type SignatureShares = map<Identifier, SignatureShare>

  /** Round-2 packages by one party and then by another: by maker and receiver, or by receiver and maker. */
  type Filed = map<Identifier, Packages2>

  type Tweak = Option<seq<byte>>

  /** The library's operations; `None` is a library error. Randomness is an argument. */
  datatype Suite = Suite(
    part1: (Identifier, Random) -> Option<(Round1Secret, Round1Package)>,
    part2: (Round1Secret, Packages1) -> Option<(Round2Secret, Packages2)>,
    part3: (Round2Secret, Packages1, Packages2) -> Option<(KeyPackage, PublicKeyPackage)>,
    tweakKey: (KeyPackage, Tweak) -> KeyPackage,
    tweakPublic: (PublicKeyPackage, Tweak) -> PublicKeyPackage,
    commit: (KeyPackage, Random) -> (Nonces, Commitments),
    sign: (SigningPackage, Nonces, KeyPackage) -> Option<SignatureShare>,
    aggregate: (SigningPackage, SignatureShares, PublicKeyPackage) -> Option<Signature>,
    verify: (PublicKeyPackage, seq<byte>, Signature) -> bool)

  datatype SignerError =
    | DkgShareAlreadyExists
    | DkgShareNotFound
    | InvalidUserState
    | Internal
    | MessageMismatch

  datatype DkgPhase =
    | DkgRound1(secret1: Round1Secret)
    | DkgRound2(secret2: Round2Secret, round1Packages: Packages1)
    | DkgFinalized(key: KeyPackage)

  /** `draw` names the randomness the nonces were made from. */
  datatype SignPhase =
    | SigningRound1(nonces: Nonces, draw: Random)
    | SigningRound2(share: SignatureShare)

  datatype SignData = SignData(tweak: Tweak, message: seq<byte>, metadata: nat, phase: SignPhase)

  datatype SignerState = SignerState(locked: set<Uuid>, dkg: map<Uuid, DkgPhase>, sessions: map<(Uuid, Uuid), SignData>)

  datatype SignRequest = SignRequest(id: Uuid, session: Uuid, tweak: Tweak, message: seq<byte>, metadata: nat)

  /** The key a signer signs with: tweaked as its session says, then for taproot if the request says so. */
  function SigningKey(suite: Suite, key: KeyPackage, tweak: Tweak, tap: bool): KeyPackage {
    var tweaked := CommitKey(suite, key, tweak);
    if tap then suite.tweakKey(tweaked, None) else tweaked
  }

  function CommitKey(suite: Suite, key: KeyPackage, tweak: Tweak): KeyPackage {
    if tweak.Some? then suite.tweakKey(key, tweak) else key
  }

  /** The aggregator's counterpart. */
  function VerifyingKey(suite: Suite, key: PublicKeyPackage, tweak: Tweak, tap: bool): PublicKeyPackage {
    var tweaked := if tweak.Some? then suite.tweakPublic(key, tweak) else key;
    if tap then suite.tweakPublic(tweaked, None) else tweaked
  }

  // ----- Atomic steps of round 1 -----

  function Lock(st: SignerState, id: Uuid): (SignerState, Result<(), SignerError>) {
    if id in st.locked then (st, Failure(DkgShareAlreadyExists))
    else (st.(locked := st.locked + {id}), Success(()))
  }

  function Unlock(st: SignerState, id: Uuid): (SignerState, Result<(), SignerError>) {
    if id in st.locked then (st.(locked := st.locked - {id}), Success(()))
    else (st, Failure(DkgShareNotFound))
  }

  function StorePhase(st: SignerState, id: Uuid, phase: DkgPhase): SignerState {
    st.(dkg := st.dkg[id := phase])
  }

  // ----- Handlers -----

  /** Lock, look, then store; a share that exists is unlocked again, a library error leaves the lock. */
  function HandleDkgRound1(suite: Suite, me: Identifier, st: SignerState, id: Uuid, random: Random)
    : (SignerState, Result<Round1Package, SignerError>) {
    var (locked, l) := Lock(st, id);
    if l.Failure? then (st, Failure(l.error))
    else if id in locked.dkg then
      var (unlocked, u) := Unlock(locked, id);
      (unlocked, Failure(if u.Failure? then u.error else DkgShareAlreadyExists))
    else
      match suite.part1(me, random)
      case None => (locked, Failure(Internal))
      case Some((secret, package)) => (StorePhase(locked, id, DkgRound1(secret)), Success(package))
  }

  function HandleDkgRound2(suite: Suite, st: SignerState, id: Uuid, packages: Packages1)
    : (SignerState, Result<Packages2, SignerError>)
  {
    if id !in st.dkg || !st.dkg[id].DkgRound1? then (st, Failure(InvalidUserState))
    else
      match suite.part2(st.dkg[id].secret1, packages)
      case None => (st, Failure(Internal))
      case Some((secret, made)) => (StorePhase(st, id, DkgRound2(secret, packages)), Success(made))
  }

  /** The round-1 packages used are the stored ones. The phase is stored before the lock is released. */
  function HandleDkgFinalize(suite: Suite, st: SignerState, id: Uuid, round1: Packages1, round2: Packages2)
    : (SignerState, Result<PublicKeyPackage, SignerError>)
  {
    if id !in st.dkg || !st.dkg[id].DkgRound2? then (st, Failure(InvalidUserState))
    else
      match suite.part3(st.dkg[id].secret2, st.dkg[id].round1Packages, round2)
      case None => (st, Failure(Internal))
      case Some((key, public)) =>
        var (unlocked, u) := Unlock(StorePhase(st, id, DkgFinalized(key)), id);
        (unlocked, if u.Failure? then Failure(u.error) else Success(public))
  }

  function HandleSignRound1(suite: Suite, st: SignerState, r: SignRequest, random: Random)
    : (SignerState, Result<Commitments, SignerError>) {
    if r.id !in st.dkg || !st.dkg[r.id].DkgFinalized? then (st, Failure(InvalidUserState))
    else
      var (nonces, commitments) := suite.commit(CommitKey(suite, st.dkg[r.id].key, r.tweak), random);
      var data := SignData(r.tweak, r.message, r.metadata, SigningRound1(nonces, random));
      (st.(sessions := st.sessions[(r.id, r.session) := data]), Success(commitments))
  }

  /** The message of the package must be the recorded one: the program stops otherwise. */
  function HandleSignRound2(suite: Suite, st: SignerState, id: Uuid, session: Uuid, package: SigningPackage, tap: bool)
    : (SignerState, Result<SignatureShare, SignerError>)
  {
    if id !in st.dkg || !st.dkg[id].DkgFinalized? then (st, Failure(InvalidUserState))
    else if (id, session) !in st.sessions then (st, Failure(InvalidUserState))
    else
      var data := st.sessions[(id, session)];
      if data.message != package.message then (st, Failure(MessageMismatch))
      else if !data.phase.SigningRound1? then (st, Failure(InvalidUserState))
      else
        match suite.sign(package, data.phase.nonces, SigningKey(suite, st.dkg[id].key, data.tweak, tap))
        case None => (st, Failure(Internal))
        case Some(share) =>
          (st.(sessions := st.sessions[(id, session) := data.(phase := SigningRound2(share))]), Success(share))
  }

  // ----- The signer as an object -----

  class Signer {
    const suite: Suite
    const identifier: Identifier
    var lockedDkgShareIds: set<Uuid>
    var dkgShareStorage: map<Uuid, DkgPhase>
    var signSessionStorage: map<(Uuid, Uuid), SignData>

    ghost function State(): SignerState
      reads this
    {
      SignerState(lockedDkgShareIds, dkgShareStorage, signSessionStorage)
    }

    constructor (suite: Suite, identifier: Identifier, dkg: map<Uuid, DkgPhase>, sessions: map<(Uuid, Uuid), SignData>)
      ensures this.suite == suite && this.identifier == identifier && State() == SignerState({}, dkg, sessions)
    {
      this.suite, this.identifier := suite, identifier;
      lockedDkgShareIds, dkgShareStorage, signSessionStorage := {}, dkg, sessions;
    }

    method LockDkgShareId(id: Uuid) returns (r: Result<(), SignerError>)
      modifies this`lockedDkgShareIds
      ensures (State(), r) == Lock(old(State()), id)
    {
      if id in lockedDkgShareIds {
        return Failure(DkgShareAlreadyExists);
      }
      lockedDkgShareIds := lockedDkgShareIds + {id};
      return Success(());
    }

    method UnlockDkgShareId(id: Uuid) returns (r: Result<(), SignerError>)
      modifies this`lockedDkgShareIds
      ensures (State(), r) == Unlock(old(State()), id)
    {
      var removed := id in lockedDkgShareIds;
      lockedDkgShareIds := lockedDkgShareIds - {id};
      if !removed {
        assert lockedDkgShareIds == old(lockedDkgShareIds);
        return Failure(DkgShareNotFound);
      }
      return Success(());
    }

    method DkgRound1(id: Uuid, random: Random) returns (r: Result<Round1Package, SignerError>)
      modifies this
      ensures (State(), r) == HandleDkgRound1(suite, identifier, old(State()), id, random)
      ensures signSessionStorage == old(signSessionStorage)
      ensures id in old(lockedDkgShareIds) || id in old(dkgShareStorage) ==>
                && r == Failure(DkgShareAlreadyExists)
                && lockedDkgShareIds == old(lockedDkgShareIds) && dkgShareStorage == old(dkgShareStorage)
      ensures id !in old(lockedDkgShareIds) && id !in old(dkgShareStorage) ==>
                var made := suite.part1(identifier, random);
                && lockedDkgShareIds == old(lockedDkgShareIds) + {id}
                && (made.None? ==> r == Failure(Internal) && dkgShareStorage == old(dkgShareStorage))
                && (made.Some? ==> r == Success(made.value.1)
                                   && dkgShareStorage == old(dkgShareStorage)[id := DkgPhase.DkgRound1(made.value.0)])
    {
      var l := LockDkgShareId(id);
      if l.Failure? {
        return Failure(l.error);
      }
      if id in dkgShareStorage {
        var u := UnlockDkgShareId(id);
        return match u case Success(_) => Failure(DkgShareAlreadyExists) case Failure(e) => Failure(e);
      }
      var made := suite.part1(identifier, random);
      if made.None? {
        return Failure(Internal);
      }
      dkgShareStorage := dkgShareStorage[id := DkgPhase.DkgRound1(made.value.0)];
      return Success(made.value.1);
    }

    method DkgRound2(id: Uuid, packages: Packages1) returns (r: Result<Packages2, SignerError>)
      modifies this
      ensures (State(), r) == HandleDkgRound2(suite, old(State()), id, packages)
      ensures lockedDkgShareIds == old(lockedDkgShareIds) && signSessionStorage == old(signSessionStorage)
      ensures r.Success? <==> id in old(dkgShareStorage) && old(dkgShareStorage)[id].DkgRound1?
                              && suite.part2(old(dkgShareStorage)[id].secret1, packages).Some?
      ensures r.Success? ==>
                var (secret2, made) := suite.part2(old(dkgShareStorage)[id].secret1, packages).value;
                r.value == made && dkgShareStorage == old(dkgShareStorage)[id := DkgPhase.DkgRound2(secret2, packages)]
      ensures r.Failure? ==> dkgShareStorage == old(dkgShareStorage)
    {
      if id !in dkgShareStorage || !dkgShareStorage[id].DkgRound1? {
        return Failure(InvalidUserState);
      }
      var made := suite.part2(dkgShareStorage[id].secret1, packages);
      if made.None? {
        return Failure(Internal);
      }
      dkgShareStorage := dkgShareStorage[id := DkgPhase.DkgRound2(made.value.0, packages)];
      return Success(made.value.1);
    }

    method DkgFinalize(id: Uuid, round1: Packages1, round2: Packages2)
      returns (r: Result<PublicKeyPackage, SignerError>)
      modifies this
      ensures (State(), r) == HandleDkgFinalize(suite, old(State()), id, round1, round2)
      ensures signSessionStorage == old(signSessionStorage)
      ensures id in old(dkgShareStorage) && old(dkgShareStorage)[id].DkgRound2? ==>
                var phase := old(dkgShareStorage)[id]; var made := suite.part3(phase.secret2, phase.round1Packages, round2);
                && (made.None? ==> r == Failure(Internal) && dkgShareStorage == old(dkgShareStorage)
                                   && lockedDkgShareIds == old(lockedDkgShareIds))
                && (made.Some? ==> dkgShareStorage == old(dkgShareStorage)[id := DkgFinalized(made.value.0)]
                                   && lockedDkgShareIds == old(lockedDkgShareIds) - {id}
                                   && r == if id in old(lockedDkgShareIds) then Success(made.value.1) else Failure(DkgShareNotFound))
      ensures !(id in old(dkgShareStorage) && old(dkgShareStorage)[id].DkgRound2?) ==>
                && r == Failure(InvalidUserState)
                && dkgShareStorage == old(dkgShareStorage) && lockedDkgShareIds == old(lockedDkgShareIds)
    {
      if id !in dkgShareStorage || !dkgShareStorage[id].DkgRound2? {
        return Failure(InvalidUserState);
      }
      var made := suite.part3(dkgShareStorage[id].secret2, dkgShareStorage[id].round1Packages, round2);
      if made.None? {
        return Failure(Internal);
      }
      dkgShareStorage := dkgShareStorage[id := DkgFinalized(made.value.0)];
      var u := UnlockDkgShareId(id);
      return if u.Failure? then Failure(u.error) else Success(made.value.1);
    }

    method SignRound1(q: SignRequest, random: Random) returns (r: Result<Commitments, SignerError>)
      modifies this
      ensures (State(), r) == HandleSignRound1(suite, old(State()), q, random)
      ensures lockedDkgShareIds == old(lockedDkgShareIds) && dkgShareStorage == old(dkgShareStorage)
      ensures r.Success? <==> q.id in dkgShareStorage && dkgShareStorage[q.id].DkgFinalized?
      ensures r.Success? ==>
                var key := if q.tweak.Some? then suite.tweakKey(dkgShareStorage[q.id].key, q.tweak) else dkgShareStorage[q.id].key;
                var (nonces, commitments) := suite.commit(key, random);
                && r.value == commitments
                && signSessionStorage == old(signSessionStorage)[(q.id, q.session) := SignData(q.tweak, q.message, q.metadata, SigningRound1(nonces, random))]
      ensures r.Failure? ==> r.error == InvalidUserState && signSessionStorage == old(signSessionStorage)
    {
      if q.id !in dkgShareStorage || !dkgShareStorage[q.id].DkgFinalized? {
        return Failure(InvalidUserState);
      }
      var tweaked := dkgShareStorage[q.id].key;
      if q.tweak.Some? {
        tweaked := suite.tweakKey(tweaked, q.tweak);
      }
      var (nonces, commitments) := suite.commit(tweaked, random);
      signSessionStorage := signSessionStorage[(q.id, q.session) := SignData(q.tweak, q.message, q.metadata, SigningRound1(nonces, random))];
      return Success(commitments);
    }

    method SignRound2(id: Uuid, session: Uuid, package: SigningPackage, tap: bool)
      returns (r: Result<SignatureShare, SignerError>)
      modifies this
      ensures (State(), r) == HandleSignRound2(suite, old(State()), id, session, package, tap)
      ensures lockedDkgShareIds == old(lockedDkgShareIds) && dkgShareStorage == old(dkgShareStorage)
      ensures r.Success? ==>
                && id in dkgShareStorage && dkgShareStorage[id].DkgFinalized? && (id, session) in old(signSessionStorage)
                && var data, key := old(signSessionStorage)[(id, session)], dkgShareStorage[id].key;
                   var tweaked := if data.tweak.Some? then suite.tweakKey(key, data.tweak) else key;
                   && data.message == package.message && data.phase.SigningRound1?
                   && suite.sign(package, data.phase.nonces, if tap then suite.tweakKey(tweaked, None) else tweaked) == Some(r.value)
                   && signSessionStorage == old(signSessionStorage)[(id, session) := data.(phase := SigningRound2(r.value))]
      ensures r.Failure? ==> signSessionStorage == old(signSessionStorage)
    {
      if id !in dkgShareStorage || !dkgShareStorage[id].DkgFinalized? {
        return Failure(InvalidUserState);
      }
      if (id, session) !in signSessionStorage {
        return Failure(InvalidUserState);
      }
      var data := signSessionStorage[(id, session)];
      if data.message != package.message {
        return Failure(MessageMismatch);
      }
      if !data.phase.SigningRound1? {
        return Failure(InvalidUserState);
      }
      var tweaked := dkgShareStorage[id].key;
      if data.tweak.Some? {
        tweaked := suite.tweakKey(tweaked, data.tweak);
      }
      if tap {
        tweaked := suite.tweakKey(tweaked, None);
      }
      var share := suite.sign(package, data.phase.nonces, tweaked);
      if share.None? {
        return Failure(Internal);
      }
      signSessionStorage := signSessionStorage[(id, session) := data.(phase := SigningRound2(share.value))];
      return Success(share.value);
    }
  }
}

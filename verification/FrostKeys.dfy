/**
 * The keys of signers and aggregator fit: each signer tweaks its own key, the aggregator the public one, and what the
 * signers sign with belongs to what the aggregate is verified with, for every tweak and either value of the tap flag.
 *
 * Which public key a signer's key belongs to is the library's business. Assumed of it is that tweaking keeps a key with
 * its public key, and that key generation makes keys of the public key it returns.
 */
module FrostKeys {
  import opened Wrappers
  import opened FrostSigner
  import opened FrostFlows
  import Agreement = FrostAgreement
  import Dkg = FrostDkgRuns
  import DkgSoundness = FrostDkgSoundness
  import Sessions = FrostSessions
  import Soundness = FrostSoundness

  /** The public key that a signer's key belongs to. */
  type PublicOfKey = KeyPackage -> PublicKeyPackage

  ghost predicate TweaksAlike(suite: Suite, pub: PublicOfKey) {
    forall k, t :: pub(suite.tweakKey(k, t)) == suite.tweakPublic(pub(k), t)
  }

  ghost predicate GeneratesAlike(suite: Suite, pub: PublicOfKey) {
    forall secret, round1, round2 :: suite.part3(secret, round1, round2).Some? ==>
      pub(suite.part3(secret, round1, round2).value.0) == suite.part3(secret, round1, round2).value.1
  }

  /** The share is finalized everywhere, with keys that belong to the aggregator's public key. */
  ghost predicate Holding(w: World, id: Uuid, pub: PublicOfKey, public: PublicKeyPackage) {
    && PublicOf(w, id) == Success(public)
    && forall i :: i in w.signers && id in w.signers[i].dkg && w.signers[i].dkg[id].DkgFinalized? ==>
         pub(w.signers[i].dkg[id].key) == public
  }

  /** The public key for a session's tweak, before the one for taproot. */
  ghost predicate IsTweaked(suite: Suite, public: PublicKeyPackage, tweak: Tweak, key: PublicKeyPackage) {
    && (tweak.None? ==> key == public)
    && (tweak.Some? ==> key == suite.tweakPublic(public, tweak))
  }

  /** The public key that a flow's signature is for: tweaked as the request says and then, with the tap flag, tweaked once
      more without a tweak. */
  ghost predicate IsSignatureKey(suite: Suite, public: PublicKeyPackage, tweak: Tweak, tap: bool, key: PublicKeyPackage) {
    && (tweak.None? && !tap ==> key == public)
    && (tweak.Some? && !tap ==> key == suite.tweakPublic(public, tweak))
    && (tweak.None? && tap ==> key == suite.tweakPublic(public, None))
    && (tweak.Some? && tap ==> key == suite.tweakPublic(suite.tweakPublic(public, tweak), None))
  }

  lemma KeysFit(suite: Suite, pub: PublicOfKey, k: KeyPackage, tweak: Tweak, tap: bool)
    requires TweaksAlike(suite, pub)
    ensures IsTweaked(suite, pub(k), tweak, pub(CommitKey(suite, k, tweak)))
    ensures IsSignatureKey(suite, pub(k), tweak, tap, pub(SigningKey(suite, k, tweak, tap)))
    ensures pub(SigningKey(suite, k, tweak, tap)) == VerifyingKey(suite, pub(k), tweak, tap)
  {
  }

  /** The share was made with a key that belongs to `key`, and with nonces that the signer's draw gave under a key that
      belongs to `committed`. */
  ghost predicate MadeUnder(suite: Suite, pub: PublicOfKey, key: PublicKeyPackage, committed: PublicKeyPackage,
                            package: SigningPackage, draw: Random, commitment: Commitments, share: SignatureShare) {
    exists k, c, nonces ::
      && pub(k) == key && suite.sign(package, nonces, k) == Some(share)
      && pub(c) == committed && suite.commit(c, draw) == (nonces, commitment)
  }

  /** The signature was aggregated from a share of every signer and verified, each share made under a key that belongs to the
      key it was aggregated and verified with. */
  ghost predicate FittingSignature(suite: Suite, pub: PublicOfKey, ids: set<Identifier>, q: SignRequest, tap: bool,
                                   draws: Draws, public: PublicKeyPackage, signature: Signature) {
    exists key, committed, commitments: map<Identifier, Commitments>, shares: SignatureShares ::
      && IsSignatureKey(suite, public, q.tweak, tap, key) && IsTweaked(suite, public, q.tweak, committed)
      && commitments.Keys == shares.Keys == ids
      && suite.aggregate(SigningPackage(commitments, q.message), shares, key) == Some(signature)
      && suite.verify(key, q.message, signature)
      && forall i :: i in ids ==>
           MadeUnder(suite, pub, key, committed, SigningPackage(commitments, q.message), draws(i), commitments[i], shares[i])
  }

  lemma SigningFits(suite: Suite, pub: PublicOfKey, w: World, q: SignRequest, tap: bool, draws: Draws,
                    c: Agreement.Contributions, public: PublicKeyPackage, signature: Signature)
    requires TweaksAlike(suite, pub) && Holding(w, q.id, pub, public)
    requires Agreement.IsSigning(suite, w, q, tap, draws, c, public, signature)
    ensures FittingSignature(suite, pub, w.signers.Keys, q, tap, draws, public, signature)
  {
    hide SigningKey, VerifyingKey, CommitKey, IsSignatureKey, IsTweaked, TweaksAlike, PublicOf;
    var ids, package := w.signers.Keys, SigningPackage(c.commitments, q.message);
    var key := VerifyingKey(suite, public, q.tweak, tap);
    var committed := if q.tweak.Some? then suite.tweakPublic(public, q.tweak) else public;
    VerifyingKeyIs(suite, public, q.tweak, tap);
    forall i | i in ids
      ensures MadeUnder(suite, pub, key, committed, package, draws(i), c.commitments[i], c.shares[i])
    {
      assert pub(c.key[i]) == public;
      KeysFit(suite, pub, c.key[i], q.tweak, tap);
      CommittedKeyIs(suite, public, q.tweak, pub(CommitKey(suite, c.key[i], q.tweak)));
    }
  }

  lemma VerifyingKeyIs(suite: Suite, public: PublicKeyPackage, tweak: Tweak, tap: bool)
    ensures IsSignatureKey(suite, public, tweak, tap, VerifyingKey(suite, public, tweak, tap))
    ensures IsTweaked(suite, public, tweak, if tweak.Some? then suite.tweakPublic(public, tweak) else public)
  {
  }

  lemma CommittedKeyIs(suite: Suite, public: PublicKeyPackage, tweak: Tweak, key: PublicKeyPackage)
    requires IsTweaked(suite, public, tweak, key)
    ensures key == if tweak.Some? then suite.tweakPublic(public, tweak) else public
  {
  }

  /** The sequential flow. */
  lemma FlowSignaturesFit(suite: Suite, order: seq<Identifier>, pub: PublicOfKey, w: World, q: SignRequest, tap: bool,
                          draws: Draws, public: PublicKeyPackage)
    requires TweaksAlike(suite, pub) && Ordered(order, w.signers.Keys) && Holding(w, q.id, pub, public)
    requires RunSigningFlow(suite, order, w, q, tap, draws).1.Success?
    ensures FittingSignature(suite, pub, w.signers.Keys, q, tap, draws, public, RunSigningFlow(suite, order, w, q, tap, draws).1.value)
  {
    hide RunSigningFlow, Ordered, FittingSignature, TweaksAlike;
    var c, public' := Agreement.FlowIsSigning(suite, order, w, q, tap, draws);
    SigningFits(suite, pub, w, q, tap, draws, c, public, RunSigningFlow(suite, order, w, q, tap, draws).1.value);
  }

  /** The same of a flow in any interleaving. */
  lemma InterleavedSignaturesFit(s: Sessions.Setting, pub: PublicOfKey, st: Sessions.State, f: Sessions.Flow,
                                 steps: seq<Sessions.Step>, key: KeyPackages, public: PublicKeyPackage)
    requires Sessions.OwnSession(s, f) && Ordered(s.order, st.world.signers.Keys)
    requires Sessions.Final(st.world, s.request(f).id, key, public) && f !in st.stages
    requires f in Sessions.Run(s, st, steps).stages && Sessions.Run(s, st, steps).stages[f].Done?
    requires Sessions.Run(s, st, steps).stages[f].result.Success?
    requires TweaksAlike(s.suite, pub) && Holding(st.world, s.request(f).id, pub, public)
    ensures var end := Sessions.Run(s, st, steps);
            FittingSignature(s.suite, pub, st.world.signers.Keys, s.request(f), s.tap(f), Soundness.DrawsOf(end, f), public,
                             end.stages[f].result.value)
  {
    hide Sessions.Run, Sessions.Final, Sessions.OwnSession, Ordered, FittingSignature, TweaksAlike, Agreement.IsSigning,
         Holding;
    var end := Sessions.Run(s, st, steps);
    var c := Soundness.InterleavedIsSequential(s, st, f, steps, key, public);
    SigningFits(s.suite, pub, st.world, s.request(f), s.tap(f), Soundness.DrawsOf(end, f), c, public, end.stages[f].result.value);
  }

  // ----- Generated keys fit -----

  lemma TranscriptFits(suite: Suite, pub: PublicOfKey, w: World, id: Uuid, ids: set<Identifier>, draws: Draws,
                       t: Agreement.Transcript, public: PublicKeyPackage)
    requires GeneratesAlike(suite, pub) && Agreement.IsTranscript(suite, ids, draws, t, public)
    requires w.signers.Keys == ids && PublicOf(w, id) == Success(public) && Agreement.Keys(w, id, t.key)
    ensures Holding(w, id, pub, public)
  {
    hide Agreement.Part1, Agreement.Part2, Others, Received, PublicOf;
    forall i | i in ids ensures pub(t.key[i]) == public {
      assert suite.part3(t.secret2[i], Others(t.package1, i), Received(t.made, i)) == Some((t.key[i], public));
    }
  }

  /** After a key generation that succeeded in any interleaving, the signers' keys belong to the public key returned. */
  lemma GeneratedKeysFit(s: Dkg.Setting, pub: PublicOfKey, w: World, steps: seq<Dkg.Step>, f: Dkg.Flow)
    requires GeneratesAlike(s.suite, pub) && Ordered(s.order, w.signers.Keys) && w.signers != map[]
    requires f in Dkg.Run(s, Dkg.State(w, map[]), steps).flows
    requires var p := Dkg.Run(s, Dkg.State(w, map[]), steps).flows[f]; p.stage.Done? && p.stage.result.Success?
    ensures var end := Dkg.Run(s, Dkg.State(w, map[]), steps);
            Holding(end.world, s.shareOf(f), pub, end.flows[f].stage.result.value)
  {
    hide Dkg.Run, Ordered, Agreement.IsTranscript, PublicOf, GeneratesAlike, Agreement.Keys, Holding;
    var end := Dkg.Run(s, Dkg.State(w, map[]), steps);
    DkgSoundness.SuccessIsProtocol(s, w, steps, f);
    RunSigners(s, w, steps);
    var p := end.flows[f];
    TranscriptFits(s.suite, pub, end.world, s.shareOf(f), w.signers.Keys, DkgSoundness.DrawsOf(p), p.log, p.stage.result.value);
  }

  lemma RunSigners(s: Dkg.Setting, w: World, steps: seq<Dkg.Step>)
    requires Ordered(s.order, w.signers.Keys) && w.signers != map[]
    ensures Dkg.Run(s, Dkg.State(w, map[]), steps).world.signers.Keys == w.signers.Keys
  {
    hide Dkg.Run, Ordered, Dkg.Invariant;
    DkgSoundness.InitialInvariant(s, w);
    DkgSoundness.RunKeeps(s, Dkg.State(w, map[]), steps);
  }
}

/**
 * Round 1 of key generation under every interleaving.
 *
 * A round-1 call takes the lock, reads the stored phase and then stores, or unlocks, or stops with an error, as
 * separate steps; calls of any number of flows run side by side with the other key-generation handlers, and storage
 * may fail at any read or write. Each signer accepts round 1 at most once per share.
 */
module FrostLocking {
  import opened Wrappers
  import opened FrostSigner

  type Flow = nat

  /** Where a round-1 call has got to. */
  datatype Pc =
    | Locked
    | FoundNothing
    | FoundShare
    | Accepted
    | Rejected

  /** One call per flow and signer. */
  type Call = (Flow, Identifier)

  datatype System = System(signers: map<Identifier, SignerState>, pcs: map<Call, Pc>)

  /** Which share each flow is about, and the library. */
  datatype Setting = Setting(suite: Suite, shareOf: Flow -> Uuid)

  datatype Step =
    | TakeLock(call: Call)
    | Look(call: Call)
    | Store(call: Call, random: Random)
    | GiveBack(call: Call)
    | StorageError(call: Call)
    | OtherRound2(signer: Identifier, id: Uuid, packages: Packages1)
    | OtherFinalize(signer: Identifier, id: Uuid, round1: Packages1, round2: Packages2)

  function Put(sys: System, i: Identifier, st: SignerState): System {
    sys.(signers := sys.signers[i := st])
  }

  function SetPc(sys: System, c: Call, pc: Pc): System {
    sys.(pcs := sys.pcs[c := pc])
  }

  predicate At(sys: System, c: Call, pc: Pc) {
    c.1 in sys.signers && c in sys.pcs && sys.pcs[c] == pc
  }

  /** One step; a step that is not enabled does nothing. */
  function Next(s: Setting, sys: System, step: Step): System {
    match step
    case TakeLock(c) =>
      if c.1 !in sys.signers || c in sys.pcs then sys
      else
        var (st, r) := Lock(sys.signers[c.1], s.shareOf(c.0));
        SetPc(Put(sys, c.1, st), c, if r.Success? then Locked else Rejected)
    case Look(c) =>
      if !At(sys, c, Locked) then sys
      else SetPc(sys, c, if s.shareOf(c.0) in sys.signers[c.1].dkg then FoundShare else FoundNothing)
    case Store(c, random) =>
      if !At(sys, c, FoundNothing) then sys
      else
        var made := s.suite.part1(c.1, random);
        if made.None? then SetPc(sys, c, Rejected)
        else SetPc(Put(sys, c.1, StorePhase(sys.signers[c.1], s.shareOf(c.0), DkgRound1(made.value.0))), c, Accepted)
    case GiveBack(c) =>
      if !At(sys, c, FoundShare) then sys
      else SetPc(Put(sys, c.1, Unlock(sys.signers[c.1], s.shareOf(c.0)).0), c, Rejected)
    case StorageError(c) =>
      if At(sys, c, Locked) || At(sys, c, FoundNothing) then SetPc(sys, c, Rejected) else sys
    case OtherRound2(i, id, packages) =>
      if i !in sys.signers then sys else Put(sys, i, HandleDkgRound2(s.suite, sys.signers[i], id, packages).0)
    case OtherFinalize(i, id, round1, round2) =>
      if i !in sys.signers then sys else Put(sys, i, HandleDkgFinalize(s.suite, sys.signers[i], id, round1, round2).0)
  }

  function Run(s: Setting, sys: System, steps: seq<Step>): System {
    if steps == [] then sys else Next(s, Run(s, sys, steps[..|steps| - 1]), steps[|steps| - 1])
  }

  /** No call has started and no lock is held; what is stored may be anything. */
  predicate Initial(sys: System) {
    sys.pcs == map[] && forall i :: i in sys.signers ==> sys.signers[i].locked == {}
  }

  // ----- The invariant -----

  /** The call is at signer `i` about share `id`. */
  ghost predicate Concerns(s: Setting, c: Call, i: Identifier, id: Uuid) {
    c.1 == i && s.shareOf(c.0) == id
  }

  /** The call has the lock and has not found the share stored. */
  predicate Holds(sys: System, c: Call) {
    c in sys.pcs && (sys.pcs[c] == Locked || sys.pcs[c] == FoundNothing)
  }

  ghost predicate InvariantAt(s: Setting, sys: System, i: Identifier, id: Uuid)
    requires i in sys.signers
  {
    var st := sys.signers[i];
    // before the share is stored, whoever holds its lock is alone and nobody has been accepted
    && (id !in st.dkg ==>
          && (forall c :: Concerns(s, c, i, id) && c in sys.pcs ==> sys.pcs[c] != FoundShare && sys.pcs[c] != Accepted)
          && (forall c :: Concerns(s, c, i, id) && Holds(sys, c) ==> id in st.locked)
          && (forall c, d :: (Concerns(s, c, i, id) && Concerns(s, d, i, id) && Holds(sys, c) && Holds(sys, d)) ==> c == d))
    // afterwards nobody is about to store, and at most one call was accepted
    && (id in st.dkg ==>
          && (forall c :: Concerns(s, c, i, id) && c in sys.pcs ==> sys.pcs[c] != FoundNothing)
          && (forall c, d :: Concerns(s, c, i, id) && Concerns(s, d, i, id) && At(sys, c, Accepted) && At(sys, d, Accepted) ==> c == d))
  }

  ghost predicate Invariant(s: Setting, sys: System) {
    forall i, id :: i in sys.signers ==> InvariantAt(s, sys, i, id)
  }

  /** What `i` and `id` can tell of a change: nothing. */
  ghost predicate Unseen(s: Setting, sys: System, sys': System, i: Identifier, id: Uuid) {
    && i in sys.signers && i in sys'.signers
    && (id in sys.signers[i].dkg <==> id in sys'.signers[i].dkg)
    && (id !in sys.signers[i].dkg ==> (id in sys.signers[i].locked <==> id in sys'.signers[i].locked))
    && (forall c :: Concerns(s, c, i, id) ==> SamePc(sys, sys', c))
  }

  predicate SamePc(sys: System, sys': System, c: Call) {
    (c in sys.pcs <==> c in sys'.pcs) && (c in sys.pcs ==> sys.pcs[c] == sys'.pcs[c])
  }

  lemma UnseenKeeps(s: Setting, sys: System, sys': System, i: Identifier, id: Uuid)
    requires Unseen(s, sys, sys', i, id) && InvariantAt(s, sys, i, id)
    ensures InvariantAt(s, sys', i, id)
  {
    assert forall c :: Concerns(s, c, i, id) && Holds(sys', c) ==> SamePc(sys, sys', c) && Holds(sys, c);
    assert forall c :: Concerns(s, c, i, id) && At(sys', c, Accepted) ==> SamePc(sys, sys', c) && At(sys, c, Accepted);
  }

  /** A call's step is seen only by its own signer and share. */
  lemma CallUnseen(s: Setting, sys: System, step: Step, c: Call, i: Identifier, id: Uuid)
    requires CallOf(step) == Some(c) && !Concerns(s, c, i, id) && i in sys.signers
    ensures Unseen(s, sys, Next(s, sys, step), i, id)
  {
  }

  function CallOf(step: Step): Option<Call> {
    match step
    case OtherRound2(_, _, _) => None
    case OtherFinalize(_, _, _, _) => None
    case _ => Some(step.call)
  }

  lemma OtherUnseen(s: Setting, sys: System, step: Step, i: Identifier, id: Uuid)
    requires CallOf(step).None? && i in sys.signers
    ensures Unseen(s, sys, Next(s, sys, step), i, id)
  {
    if step.OtherRound2? && step.signer in sys.signers {
      OtherHandlers(s, sys.signers[step.signer], step.id, id, step.packages, map[], map[]);
    } else if step.OtherFinalize? && step.signer in sys.signers {
      OtherHandlers(s, sys.signers[step.signer], step.id, id, map[], step.round1, step.round2);
    }
  }

  /** The later handlers store nothing new and release no lock whose share is not stored. */
  lemma OtherHandlers(s: Setting, st: SignerState, at: Uuid, id: Uuid, packages: Packages1, round1: Packages1,
                      round2: Packages2)
    ensures var a := HandleDkgRound2(s.suite, st, at, packages).0; a.dkg.Keys == st.dkg.Keys && a.locked == st.locked
    ensures var b := HandleDkgFinalize(s.suite, st, at, round1, round2).0;
            b.dkg.Keys == st.dkg.Keys && (id !in st.dkg ==> (id in b.locked <==> id in st.locked))
  {
  }

  lemma TakeLockKeeps(s: Setting, sys: System, c: Call, id: Uuid)
    requires c.1 in sys.signers && id == s.shareOf(c.0) && InvariantAt(s, sys, c.1, id)
    ensures InvariantAt(s, Next(s, sys, TakeLock(c)), c.1, id)
  {
  }

  lemma LookKeeps(s: Setting, sys: System, c: Call, id: Uuid)
    requires c.1 in sys.signers && id == s.shareOf(c.0) && InvariantAt(s, sys, c.1, id)
    ensures InvariantAt(s, Next(s, sys, Look(c)), c.1, id)
  {
    assert Concerns(s, c, c.1, id);
  }

  /** The one that stores is the only holder, and nobody was accepted before it. */
  lemma StoreKeeps(s: Setting, sys: System, c: Call, random: Random, id: Uuid)
    requires c.1 in sys.signers && id == s.shareOf(c.0) && InvariantAt(s, sys, c.1, id)
    ensures InvariantAt(s, Next(s, sys, Store(c, random)), c.1, id)
  {
    assert Concerns(s, c, c.1, id);
    if At(sys, c, FoundNothing) {
      assert Holds(sys, c);
      assert forall d :: Concerns(s, d, c.1, id) && Holds(sys, d) ==> d == c;
    }
  }

  lemma ReleaseKeeps(s: Setting, sys: System, step: Step, c: Call, id: Uuid)
    requires c.1 in sys.signers && id == s.shareOf(c.0) && InvariantAt(s, sys, c.1, id)
    requires step == GiveBack(c) || step == StorageError(c)
    ensures InvariantAt(s, Next(s, sys, step), c.1, id)
  {
    assert Concerns(s, c, c.1, id);
  }

  lemma StepKeepsAt(s: Setting, sys: System, step: Step, i: Identifier, id: Uuid)
    requires i in sys.signers && i in Next(s, sys, step).signers && InvariantAt(s, sys, i, id)
    ensures InvariantAt(s, Next(s, sys, step), i, id)
  {
    hide Next, InvariantAt, Unseen;
    if CallOf(step).None? {
      OtherUnseen(s, sys, step, i, id);
      UnseenKeeps(s, sys, Next(s, sys, step), i, id);
    } else if !Concerns(s, step.call, i, id) {
      CallUnseen(s, sys, step, step.call, i, id);
      UnseenKeeps(s, sys, Next(s, sys, step), i, id);
    } else {
      match step
      case TakeLock(c) => TakeLockKeeps(s, sys, c, id);
      case Look(c) => LookKeeps(s, sys, c, id);
      case Store(c, random) => StoreKeeps(s, sys, c, random, id);
      case GiveBack(c) => ReleaseKeeps(s, sys, step, c, id);
      case StorageError(c) => ReleaseKeeps(s, sys, step, c, id);
      case _ =>
    }
  }

  lemma StepKeeps(s: Setting, sys: System, step: Step)
    requires Invariant(s, sys)
    ensures Invariant(s, Next(s, sys, step))
  {
    hide Next, InvariantAt;
    StepSigners(s, sys, step);
    forall i, id | i in Next(s, sys, step).signers ensures InvariantAt(s, Next(s, sys, step), i, id) {
      StepKeepsAt(s, sys, step, i, id);
    }
  }

  lemma StepSigners(s: Setting, sys: System, step: Step)
    ensures Next(s, sys, step).signers.Keys == sys.signers.Keys
  {
    hide HandleDkgRound2, HandleDkgFinalize, StorePhase, Lock, Unlock;
  }

  lemma {:induction false} RunKeeps(s: Setting, sys: System, steps: seq<Step>)
    requires Invariant(s, sys)
    ensures Invariant(s, Run(s, sys, steps))
  {
    if steps != [] {
      RunKeeps(s, sys, steps[..|steps| - 1]);
      StepKeeps(s, Run(s, sys, steps[..|steps| - 1]), steps[|steps| - 1]);
    }
  }

  // ----- What follows -----

  /** In every run, at most one call per signer and share is accepted. */
  lemma AcceptedOnce(s: Setting, sys: System, steps: seq<Step>, c: Call, d: Call)
    requires Initial(sys)
    requires At(Run(s, sys, steps), c, Accepted) && At(Run(s, sys, steps), d, Accepted)
    requires c.1 == d.1 && s.shareOf(c.0) == s.shareOf(d.0)
    ensures c == d
  {
    hide Run, At;
    InitialInvariant(s, sys);
    RunKeeps(s, sys, steps);
    OnceAt(s, Run(s, sys, steps), c, d);
  }

  lemma InitialInvariant(s: Setting, sys: System)
    requires Initial(sys)
    ensures Invariant(s, sys)
  {
  }

  lemma OnceAt(s: Setting, sys: System, c: Call, d: Call)
    requires Invariant(s, sys) && At(sys, c, Accepted) && At(sys, d, Accepted)
    requires c.1 == d.1 && s.shareOf(c.0) == s.shareOf(d.0)
    ensures c == d
  {
    var i, id := c.1, s.shareOf(c.0);
    assert InvariantAt(s, sys, i, id);
    assert Concerns(s, c, i, id) && Concerns(s, d, i, id);
  }

  /** The aggregator goes on to round 2 only when every signer has accepted. */
  ghost predicate PastRound1(sys: System, f: Flow) {
    sys.signers != map[] && forall i :: i in sys.signers ==> At(sys, (f, i), Accepted)
  }

  /** In every run, at most one flow per share gets past round 1. */
  lemma OneFlowPasses(s: Setting, sys: System, steps: seq<Step>, f: Flow, g: Flow)
    requires Initial(sys) && s.shareOf(f) == s.shareOf(g)
    requires PastRound1(Run(s, sys, steps), f) && PastRound1(Run(s, sys, steps), g)
    ensures f == g
  {
    var i :| i in Run(s, sys, steps).signers;
    AcceptedOnce(s, sys, steps, (f, i), (g, i));
  }

  /** No signer comes or goes, and an accepted call stays accepted. */
  lemma StepMonotone(s: Setting, sys: System, step: Step)
    ensures Next(s, sys, step).signers.Keys == sys.signers.Keys
    ensures forall c :: At(sys, c, Accepted) ==> At(Next(s, sys, step), c, Accepted)
  {
    hide HandleDkgRound2, HandleDkgFinalize, StorePhase, Lock, Unlock;
  }

  lemma {:induction false} RunMonotone(s: Setting, sys: System, steps: seq<Step>)
    ensures Run(s, sys, steps).signers.Keys == sys.signers.Keys
    ensures forall c :: At(sys, c, Accepted) ==> At(Run(s, sys, steps), c, Accepted)
  {
    hide At;
    if steps != [] {
      RunMonotone(s, sys, steps[..|steps| - 1]);
      StepMonotone(s, Run(s, sys, steps[..|steps| - 1]), steps[|steps| - 1]);
    }
  }

  /** Once a signer has accepted one flow's round 1, no other flow on that share gets past round 1, then or ever
      after: if the first flow fails, no later one on the share succeeds. */
  lemma AcceptanceBlocksOthers(s: Setting, sys: System, steps: seq<Step>, more: seq<Step>, f: Flow, i: Identifier,
                               g: Flow)
    requires Initial(sys) && s.shareOf(f) == s.shareOf(g) && f != g
    requires At(Run(s, sys, steps), (f, i), Accepted)
    ensures !PastRound1(Run(s, Run(s, sys, steps), more), g)
  {
    hide Run, At;
    var middle := Run(s, sys, steps);
    var end := Run(s, middle, more);
    InitialInvariant(s, sys);
    RunKeeps(s, sys, steps);
    RunKeeps(s, middle, more);
    RunMonotone(s, middle, more);
    if PastRound1(end, g) {
      InSystem(end, (f, i));
      OnceAt(s, end, (f, i), (g, i));
    }
  }

  lemma InSystem(sys: System, c: Call)
    requires At(sys, c, Accepted)
    ensures c.1 in sys.signers
  {
  }

  /** A call whose steps are not interrupted does to its signer what the handler does. */
  lemma AloneIsTheHandler(s: Setting, sys: System, c: Call, random: Random)
    requires c.1 in sys.signers && c !in sys.pcs
    ensures var end := Run(s, sys, [TakeLock(c), Look(c), Store(c, random), GiveBack(c)]);
            var (st, r) := HandleDkgRound1(s.suite, c.1, sys.signers[c.1], s.shareOf(c.0), random);
            && end.signers == sys.signers[c.1 := st]
            && end.pcs == sys.pcs[c := if r.Success? then Accepted else Rejected]
  {
    hide Run;
    var st, id := sys.signers[c.1], s.shareOf(c.0);
    var a := Next(s, sys, TakeLock(c));
    var b := Next(s, a, Look(c));
    var d := Next(s, b, Store(c, random));
    RunFour(s, sys, TakeLock(c), Look(c), Store(c, random), GiveBack(c));
    if id in st.locked {
      assert a.signers == sys.signers && a.pcs == sys.pcs[c := Rejected];
      assert b == a && d == a;
    } else {
      var locked := Lock(st, id).0;
      assert a == System(sys.signers[c.1 := locked], sys.pcs[c := Locked]);
      assert b == System(a.signers, sys.pcs[c := if id in st.dkg then FoundShare else FoundNothing]);
      if id in st.dkg {
        assert d == b;
      } else {
        assert Next(s, d, GiveBack(c)) == d;
      }
    }
  }

  lemma RunFour(s: Setting, sys: System, a: Step, b: Step, c: Step, d: Step)
    ensures Run(s, sys, [a, b, c, d]) == Next(s, Next(s, Next(s, Next(s, sys, a), b), c), d)
  {
    hide Next;
    assert [a, b, c, d][..3] == [a, b, c] && [a, b, c][..2] == [a, b] && [a, b][..1] == [a] && [a][..0] == [];
    assert Run(s, sys, [a, b]) == Next(s, Run(s, sys, [a]), b);
    assert Run(s, sys, [a, b, c]) == Next(s, Run(s, sys, [a, b]), c);
  }
}

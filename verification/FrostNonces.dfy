/**
 * One signer under any sequence of requests, in any order, for any shares and sessions, repeated or not.
 *
 * Round 2 of signing reads the session, signs and only then stores the session again, without a lock: other requests
 * may come in between. Nonces made from one draw of randomness sign twice exactly when two signing calls read one
 * session with nothing stored for it between them.
 */
module FrostNonces {
  import opened Wrappers
  import opened FrostSigner

  /** A round-2 call that has signed: its session and what it is going to store there. */
  datatype Call = Call(session: (Uuid, Uuid), data: SignData)

  datatype State = State(signer: SignerState, calls: map<nat, Call>)

  /** `Sign2` reads and signs, `Store` is the write at the end of the call. */
  datatype Step =
    | Dkg1(id: Uuid, random: Random)
    | Dkg2(id: Uuid, packages: Packages1)
    | Dkg3(id: Uuid, round1: Packages1, round2: Packages2)
    | Sign1(request: SignRequest, random: Random)
    | Sign2(call: nat, id: Uuid, session: Uuid, package: SigningPackage, tap: bool)
    | Store(call: nat)

  function Next(suite: Suite, me: Identifier, p: State, step: Step): State {
    match step
    case Dkg1(id, random) => p.(signer := HandleDkgRound1(suite, me, p.signer, id, random).0)
    case Dkg2(id, packages) => p.(signer := HandleDkgRound2(suite, p.signer, id, packages).0)
    case Dkg3(id, round1, round2) => p.(signer := HandleDkgFinalize(suite, p.signer, id, round1, round2).0)
    case Sign1(q, random) => p.(signer := HandleSignRound1(suite, p.signer, q, random).0)
    case Sign2(call, id, session, package, tap) =>
      var (after, r) := HandleSignRound2(suite, p.signer, id, session, package, tap);
      if call in p.calls || r.Failure? || (id, session) !in after.sessions then p
      else p.(calls := p.calls[call := Call((id, session), after.sessions[(id, session)])])
    case Store(call) =>
      if call !in p.calls then p
      else
        var k, data := p.calls[call].session, p.calls[call].data;
        State(p.signer.(sessions := p.signer.sessions[k := data]), p.calls - {call})
  }

  /** After the first `n` steps. */
  function Run(suite: Suite, me: Identifier, p: State, steps: seq<Step>, n: nat): State
    requires n <= |steps|
  {
    if n == 0 then p else Next(suite, me, Run(suite, me, p, steps, n - 1), steps[n - 1])
  }

  /** The draw behind the nonces a step signs with, if it signs. */
  function Consumes(suite: Suite, p: State, step: Step): (draw: Option<Random>)
    ensures draw.Some? ==> step.Sign2?
  {
    if step.Sign2? && step.call !in p.calls
       && HandleSignRound2(suite, p.signer, step.id, step.session, step.package, step.tap).1.Success?
       && (step.id, step.session) in p.signer.sessions && p.signer.sessions[(step.id, step.session)].phase.SigningRound1?
    then Some(p.signer.sessions[(step.id, step.session)].phase.draw)
    else None
  }

  function ConsumesAt(suite: Suite, me: Identifier, p: State, steps: seq<Step>, n: nat): (draw: Option<Random>)
    requires n < |steps|
    ensures draw.Some? ==> steps[n].Sign2?
  {
    Consumes(suite, Run(suite, me, p, steps, n), steps[n])
  }

  /** Two steps sign with nonces from one draw. */
  ghost predicate SignsTwice(suite: Suite, me: Identifier, p: State, steps: seq<Step>) {
    exists a, b :: 0 <= a < b < |steps| && ConsumesAt(suite, me, p, steps, a).Some?
                   && ConsumesAt(suite, me, p, steps, a) == ConsumesAt(suite, me, p, steps, b)
  }

  /** The step stores something for the session: round 1, or the end of a round-2 call. */
  predicate Touches(p: State, step: Step, k: (Uuid, Uuid)) {
    || (step.Sign1? && (step.request.id, step.request.session) == k
        && step.request.id in p.signer.dkg && p.signer.dkg[step.request.id].DkgFinalized?)
    || (step.Store? && step.call in p.calls && p.calls[step.call].session == k)
  }

  ghost predicate TouchedBetween(suite: Suite, me: Identifier, p: State, steps: seq<Step>, a: nat, b: nat,
                                 k: (Uuid, Uuid))
    requires a <= b <= |steps|
  {
    exists c :: a <= c < b && Touches(Run(suite, me, p, steps, c), steps[c], k)
  }

  function SessionOf(step: Step): (Uuid, Uuid)
    requires step.Sign2?
  {
    (step.id, step.session)
  }

  /** Steps `a` and `b` sign for one session, the second before anything has been stored for it since the first. */
  ghost predicate Overlap(suite: Suite, me: Identifier, p: State, steps: seq<Step>, a: nat, b: nat)
    requires a < b < |steps|
  {
    && ConsumesAt(suite, me, p, steps, a).Some? && ConsumesAt(suite, me, p, steps, b).Some?
    && SessionOf(steps[a]) == SessionOf(steps[b])
    && !TouchedBetween(suite, me, p, steps, a, b, SessionOf(steps[a]))
  }

  ghost predicate Overlapped(suite: Suite, me: Identifier, p: State, steps: seq<Step>) {
    exists a, b :: 0 <= a < b < |steps| && Overlap(suite, me, p, steps, a, b)
  }

  /** No call signs for a session while another has signed for it and not yet stored it. */
  ghost predicate OneAtATime(suite: Suite, me: Identifier, p: State, steps: seq<Step>) {
    forall n, call :: 0 <= n < |steps| && ConsumesAt(suite, me, p, steps, n).Some?
                      && call in Run(suite, me, p, steps, n).calls
                      ==> Run(suite, me, p, steps, n).calls[call].session != SessionOf(steps[n])
  }

  /** No randomness is drawn twice. */
  ghost predicate FreshDraws(steps: seq<Step>) {
    forall a, b :: 0 <= a < b < |steps| && steps[a].Sign1? && steps[b].Sign1? ==> steps[a].random != steps[b].random
  }

  predicate HoldsNonces(st: SignerState) {
    exists k :: k in st.sessions && st.sessions[k].phase.SigningRound1?
  }

  // ----- One step -----

  ghost predicate Holds(p: State, k: (Uuid, Uuid), draw: Random) {
    k in p.signer.sessions && p.signer.sessions[k].phase.SigningRound1? && p.signer.sessions[k].phase.draw == draw
  }

  /** What waits to be stored has been signed. */
  predicate CallsSigned(p: State) {
    forall call :: call in p.calls ==> p.calls[call].data.phase.SigningRound2?
  }

  predicate Draws(step: Step, k: (Uuid, Uuid), draw: Random) {
    step.Sign1? && step.random == draw && (step.request.id, step.request.session) == k
  }

  lemma StepHolds(suite: Suite, me: Identifier, p: State, step: Step)
    requires CallsSigned(p)
    ensures CallsSigned(Next(suite, me, p, step))
    ensures forall k, draw :: Holds(Next(suite, me, p, step), k, draw) ==>
              Draws(step, k, draw) || (Holds(p, k, draw) && !Touches(p, step, k))
  {
    hide CommitKey, SigningKey;
  }

  lemma StepStays(suite: Suite, me: Identifier, p: State, step: Step, k: (Uuid, Uuid))
    requires !Touches(p, step, k)
    ensures forall draw :: Holds(p, k, draw) ==> Holds(Next(suite, me, p, step), k, draw)
    ensures forall call :: call in p.calls && p.calls[call].session == k ==>
              call in Next(suite, me, p, step).calls && Next(suite, me, p, step).calls[call].session == k
  {
    hide CommitKey, SigningKey;
  }

  /** A step that signs holds a draw for its session and leaves its call to be stored. */
  lemma SigningStep(suite: Suite, me: Identifier, p: State, step: Step)
    requires Consumes(suite, p, step).Some?
    ensures Holds(p, SessionOf(step), Consumes(suite, p, step).value) && !Touches(p, step, SessionOf(step))
    ensures var next := Next(suite, me, p, step);
            step.call in next.calls && next.calls[step.call].session == SessionOf(step)
  {
    hide CommitKey, SigningKey;
  }

  // ----- Runs -----

  ghost predicate DrawnFor(steps: seq<Step>, n: nat, k: (Uuid, Uuid), draw: Random) {
    exists c :: 0 <= c < n && c < |steps| && Draws(steps[c], k, draw)
  }

  /** Nonces held were drawn for the session that holds them. */
  lemma {:induction false} HeldAreDrawn(suite: Suite, me: Identifier, p: State, steps: seq<Step>, n: nat)
    requires n <= |steps| && p.calls == map[] && !HoldsNonces(p.signer)
    ensures CallsSigned(Run(suite, me, p, steps, n))
    ensures forall k, draw :: Holds(Run(suite, me, p, steps, n), k, draw) ==> DrawnFor(steps, n, k, draw)
  {
    hide Next, Touches;
    if n == 0 {
      assert forall k, draw :: Holds(p, k, draw) ==> HoldsNonces(p.signer);
    } else {
      HeldAreDrawn(suite, me, p, steps, n - 1);
      var q := Run(suite, me, p, steps, n - 1);
      StepHolds(suite, me, q, steps[n - 1]);
      forall k, draw | Holds(Run(suite, me, p, steps, n), k, draw) ensures DrawnFor(steps, n, k, draw) {
        assert Draws(steps[n - 1], k, draw) || Holds(q, k, draw);
      }
    }
  }

  /** A draw that is held late and was drawn early has been held since, and its session untouched. */
  lemma {:induction false} HeldSince(suite: Suite, me: Identifier, p: State, steps: seq<Step>, a: nat, b: nat,
                                     j: (Uuid, Uuid), k: (Uuid, Uuid), draw: Random)
    requires a <= b <= |steps| && p.calls == map[] && !HoldsNonces(p.signer) && FreshDraws(steps)
    requires DrawnFor(steps, a, j, draw) && Holds(Run(suite, me, p, steps, b), k, draw)
    ensures Holds(Run(suite, me, p, steps, a), k, draw) && !TouchedBetween(suite, me, p, steps, a, b, k)
    decreases b
  {
    hide Next, Touches, Holds, Run;
    if a < b {
      HeldAreDrawn(suite, me, p, steps, b - 1);
      RunStep(suite, me, p, steps, b);
      StepHolds(suite, me, Run(suite, me, p, steps, b - 1), steps[b - 1]);
      DrawnEarlier(steps, a, b - 1, j, k, draw);
      HeldSince(suite, me, p, steps, a, b - 1, j, k, draw);
    }
  }

  lemma RunStep(suite: Suite, me: Identifier, p: State, steps: seq<Step>, n: nat)
    requires 0 < n <= |steps|
    ensures Run(suite, me, p, steps, n) == Next(suite, me, Run(suite, me, p, steps, n - 1), steps[n - 1])
  {
  }

  lemma DrawnEarlier(steps: seq<Step>, a: nat, b: nat, j: (Uuid, Uuid), k: (Uuid, Uuid), draw: Random)
    requires FreshDraws(steps) && a <= b < |steps| && DrawnFor(steps, a, j, draw)
    ensures !Draws(steps[b], k, draw)
  {
  }

  lemma DrawnOnce(steps: seq<Step>, a: nat, b: nat, j: (Uuid, Uuid), k: (Uuid, Uuid), draw: Random)
    requires FreshDraws(steps) && DrawnFor(steps, a, j, draw) && DrawnFor(steps, b, k, draw)
    ensures j == k
  {
    var c :| 0 <= c < a && c < |steps| && Draws(steps[c], j, draw);
    var d :| 0 <= d < b && d < |steps| && Draws(steps[d], k, draw);
    assert c == d;
  }

  /** A session nothing is stored for keeps its nonces, and the calls that wait to store it keep waiting. */
  lemma {:induction false} Untouched(suite: Suite, me: Identifier, p: State, steps: seq<Step>, a: nat, b: nat,
                                     k: (Uuid, Uuid))
    requires a <= b <= |steps| && !TouchedBetween(suite, me, p, steps, a, b, k)
    ensures forall draw :: Holds(Run(suite, me, p, steps, a), k, draw) ==> Holds(Run(suite, me, p, steps, b), k, draw)
    ensures var q, r := Run(suite, me, p, steps, a), Run(suite, me, p, steps, b);
            forall call :: call in q.calls && q.calls[call].session == k ==> call in r.calls && r.calls[call].session == k
    decreases b
  {
    hide Next, Touches, Holds, Run;
    if a < b {
      assert !Touches(Run(suite, me, p, steps, b - 1), steps[b - 1], k);
      Untouched(suite, me, p, steps, a, b - 1, k);
      RunStep(suite, me, p, steps, b);
      StepStays(suite, me, Run(suite, me, p, steps, b - 1), steps[b - 1], k);
    }
  }

  // ----- Signing twice -----

  /** One draw signs twice in a run exactly when two signing calls overlap on a session. */
  lemma SignsTwiceIff(suite: Suite, me: Identifier, p: State, steps: seq<Step>)
    requires FreshDraws(steps) && p.calls == map[] && !HoldsNonces(p.signer)
    ensures SignsTwice(suite, me, p, steps) <==> Overlapped(suite, me, p, steps)
  {
    hide SignsTwice, Overlapped;
    if SignsTwice(suite, me, p, steps) {
      TwiceOverlaps(suite, me, p, steps);
    }
    if Overlapped(suite, me, p, steps) {
      OverlapTwice(suite, me, p, steps);
    }
  }

  lemma TwiceOverlaps(suite: Suite, me: Identifier, p: State, steps: seq<Step>)
    requires FreshDraws(steps) && p.calls == map[] && !HoldsNonces(p.signer) && SignsTwice(suite, me, p, steps)
    ensures Overlapped(suite, me, p, steps)
  {
    hide Next, Touches, Holds, Run, Consumes, DrawnFor, TouchedBetween, SessionOf;
    var a, b :| 0 <= a < b < |steps| && ConsumesAt(suite, me, p, steps, a).Some?
                && ConsumesAt(suite, me, p, steps, a) == ConsumesAt(suite, me, p, steps, b);
    var draw := ConsumesAt(suite, me, p, steps, a).value;
    SigningStep(suite, me, Run(suite, me, p, steps, a), steps[a]);
    SigningStep(suite, me, Run(suite, me, p, steps, b), steps[b]);
    HeldAreDrawn(suite, me, p, steps, a);
    HeldAreDrawn(suite, me, p, steps, b);
    var j, k := SessionOf(steps[a]), SessionOf(steps[b]);
    DrawnOnce(steps, a, b, j, k, draw);
    HeldSince(suite, me, p, steps, a, b, j, k, draw);
    assert Overlap(suite, me, p, steps, a, b);
  }

  lemma OverlapTwice(suite: Suite, me: Identifier, p: State, steps: seq<Step>)
    requires Overlapped(suite, me, p, steps)
    ensures SignsTwice(suite, me, p, steps)
  {
    hide Next, Touches, Run, Consumes, TouchedBetween;
    var a, b :| 0 <= a < b < |steps| && Overlap(suite, me, p, steps, a, b);
    SigningStep(suite, me, Run(suite, me, p, steps, a), steps[a]);
    SigningStep(suite, me, Run(suite, me, p, steps, b), steps[b]);
    Untouched(suite, me, p, steps, a, b, SessionOf(steps[a]));
    assert ConsumesAt(suite, me, p, steps, a) == ConsumesAt(suite, me, p, steps, b);
  }

  /** Whatever is requested of a signer, if its round-2 calls for a session take turns, each draw of randomness is
      behind at most one signature share. */
  lemma NoncesSignOnce(suite: Suite, me: Identifier, p: State, steps: seq<Step>)
    requires FreshDraws(steps) && p.calls == map[] && !HoldsNonces(p.signer) && OneAtATime(suite, me, p, steps)
    ensures !SignsTwice(suite, me, p, steps)
  {
    hide Next, Touches, Run, Consumes, TouchedBetween, SignsTwice, Holds;
    SignsTwiceIff(suite, me, p, steps);
    if a, b :| 0 <= a < b < |steps| && Overlap(suite, me, p, steps, a, b) {
      var k := SessionOf(steps[a]);
      SigningStep(suite, me, Run(suite, me, p, steps, a), steps[a]);
      RunStep(suite, me, p, steps, a + 1);
      NotTouchedLater(suite, me, p, steps, a, b, k);
      Untouched(suite, me, p, steps, a + 1, b, k);
      assert steps[a].call in Run(suite, me, p, steps, b).calls;
    }
  }

  lemma NotTouchedLater(suite: Suite, me: Identifier, p: State, steps: seq<Step>, a: nat, b: nat, k: (Uuid, Uuid))
    requires a < b <= |steps| && !TouchedBetween(suite, me, p, steps, a, b, k)
    ensures !TouchedBetween(suite, me, p, steps, a + 1, b, k)
  {
    hide Touches, Run;
  }

  /** From any state in which two calls for a session would each be answered alone, both are when the second reads before
      the first stores. */
  lemma TwoCallsSign(suite: Suite, me: Identifier, p: State, one: Step, other: Step)
    requires one.Sign2? && other.Sign2? && one.call != other.call && SessionOf(one) == SessionOf(other)
    requires Consumes(suite, p, one).Some? && Consumes(suite, p, other).Some?
    ensures SignsTwice(suite, me, p, [one, other])
  {
    hide SigningKey;
    var steps := [one, other];
    assert Run(suite, me, p, steps, 1) == Next(suite, me, p, one);
    assert ConsumesAt(suite, me, p, steps, 0) == ConsumesAt(suite, me, p, steps, 1);
  }

  // ----- The steps and the handler -----

  /** Signing and storing with nothing in between is the handler. */
  lemma RoundTwoAlone(suite: Suite, me: Identifier, p: State, step: Step)
    requires step.Sign2? && step.call !in p.calls
    ensures Next(suite, me, Next(suite, me, p, step), Store(step.call)) ==
            p.(signer := HandleSignRound2(suite, p.signer, step.id, step.session, step.package, step.tap).0)
  {
    hide SigningKey;
    var next := Next(suite, me, p, step);
    if step.call in next.calls {
      assert next.calls - {step.call} == p.calls;
    }
  }

  /** Every share that a round 2 answers with was made with nonces that count as consumed. */
  lemma SharesConsume(suite: Suite, p: State, step: Step)
    requires step.Sign2? && step.call !in p.calls
    requires HandleSignRound2(suite, p.signer, step.id, step.session, step.package, step.tap).1.Success?
    ensures Consumes(suite, p, step).Some? && step.id in p.signer.dkg && p.signer.dkg[step.id].DkgFinalized?
    ensures SessionOf(step) in p.signer.sessions
    ensures var data := p.signer.sessions[SessionOf(step)];
            && data.phase.SigningRound1? && data.phase.draw == Consumes(suite, p, step).value
            && data.message == step.package.message
            && suite.sign(step.package, data.phase.nonces, SigningKey(suite, p.signer.dkg[step.id].key, data.tweak, step.tap))
               == Some(HandleSignRound2(suite, p.signer, step.id, step.session, step.package, step.tap).1.value)
  {
    hide SigningKey;
  }
}

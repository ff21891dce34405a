/** When bridges are triggered: at least once when all have confirmed, and never before. */
module DepositTriggerLaws {
  import opened Machine
  import opened Utxo
  import opened DepositTrigger

  /** The configured verifiers have all confirmed. */
  ghost predicate ConfiguredConfirmed(ids: set<VerifierId>, st: State, a: Address) {
    a in st.deposits && forall v :: v in ids ==> v in st.deposits[a].responses && st.deposits[a].responses[v] == DepositStatus.Confirmed
  }

  /** Every configured verifier has a stored response. */
  ghost predicate Covered(ids: set<VerifierId>, st: State, a: Address) {
    a in st.deposits && ids <= st.deposits[a].responses.Keys
  }

  // ----- Fresh outputs: nothing is updated or sent before the reset -----

  /** The notification has found the output's address. */
  predicate Located(pc: Pc) {
    pc.Found? || pc.Updated? || pc.AllConfirmed? || pc.MarkedConfirmed?
  }

  /** The notification has written its verifier's response. */
  predicate HasUpdated(pc: Pc) {
    pc.Updated? || pc.AllConfirmed? || pc.MarkedConfirmed? || pc.Notified?
  }

  predicate Sent(pc: Pc) {
    pc.Notified? && pc.sent
  }

  /** The notification has decided to send, or has sent. */
  predicate Decided(pc: Pc) {
    pc.AllConfirmed? || pc.MarkedConfirmed? || Sent(pc)
  }

  ghost predicate VerifiedFor(s: Setting, st: State, o: OutPoint) {
    exists d :: d in st.pcs && st.pcs[d].Verified? && s.request(d).Verify? && s.request(d).outpoint == o
  }

  /** For an output not recorded at first: it is recorded by a verification, after the reset of its address. */
  ghost predicate FreshInvariant(s: Setting, st: State, o: OutPoint) {
    && (o in st.utxos ==> Covered(s.ids, st, st.utxos[o].address) && VerifiedFor(s, st, o))
    && (forall c :: c in st.pcs ==> FreshCall(s, st, o, c))
  }

  ghost predicate FreshCall(s: Setting, st: State, o: OutPoint, c: Call)
    requires c in st.pcs
  {
    var r, pc := s.request(c), st.pcs[c];
    && (r.Notify? && r.outpoint == o && !pc.Broken? ==> VerifiedFor(s, st, o))
    && (r.Notify? && r.outpoint == o && Located(pc) ==> Covered(s.ids, st, pc.address))
    && (r.Verify? && r.outpoint == o && (pc.Loaded? || pc.Watched? || pc.WasReset?) ==> r.address in st.deposits)
    && (r.Verify? && r.outpoint == o && pc.WasReset? ==> Covered(s.ids, st, r.address))
  }

  /** Covered addresses stay covered, recorded outputs recorded, finished calls finished. */
  lemma Monotone(s: Setting, st: State, step: Step)
    ensures forall a :: Covered(s.ids, st, a) ==> Covered(s.ids, Next(s, st, step), a)
    ensures forall a :: a in st.deposits ==> a in Next(s, st, step).deposits
    ensures forall d :: d in st.pcs && st.pcs[d].Verified? ==> d in Next(s, st, step).pcs && Next(s, st, step).pcs[d].Verified?
  {
    hide AllConfirmedIn;
  }

  /** Only the stepping call's own counter changes. */
  lemma OthersKeep(s: Setting, st: State, step: Step)
    ensures forall c :: c != step.call ==> (c in Next(s, st, step).pcs <==> c in st.pcs)
    ensures forall c :: c != step.call && c in st.pcs ==> Next(s, st, step).pcs[c] == st.pcs[c]
  {
    hide AllConfirmedIn, NextNotify, NextVerify;
    if step.Advance? {
      var c := step.call;
      match s.request(c)
      case Notify(o, v, status, sats) => NotifyIsItsOwn(st, c, o, v, status, sats);
      case Verify(o, a, bridge, watched) => VerifyIsItsOwn(s.ids, st, c, o, a, bridge, watched);
    }
  }

  lemma NotifyIsItsOwn(st: State, c: Call, o: OutPoint, v: VerifierId, status: DepositStatus, sats: u64)
    ensures var st' := NextNotify(st, c, o, v, status, sats); st'.pcs == st.pcs || (c in st'.pcs && st'.pcs == st.pcs[c := st'.pcs[c]])
  {
    hide AllConfirmedIn;
  }

  lemma VerifyIsItsOwn(ids: set<VerifierId>, st: State, c: Call, o: OutPoint, a: Address, bridge: Address, watched: bool)
    ensures var st' := NextVerify(ids, st, c, o, a, bridge, watched); st'.pcs == st.pcs || (c in st'.pcs && st'.pcs == st.pcs[c := st'.pcs[c]])
  {
    hide NewResponses;
  }

  /** An output's row keeps its address unless a verification of it completes. */
  lemma AddressKept(s: Setting, st: State, step: Step, o: OutPoint)
    ensures var st' := Next(s, st, step);
            o in st'.utxos ==>
              || (o in st.utxos && st'.utxos[o].address == st.utxos[o].address)
              || (step.Advance? && s.request(step.call).Verify? && s.request(step.call).outpoint == o
                  && step.call in st.pcs && st.pcs[step.call].WasReset? && st'.utxos[o].address == s.request(step.call).address
                  && step.call in st'.pcs && st'.pcs[step.call].Verified?)
  {
    hide AllConfirmedIn;
  }

  lemma VerifiedKept(s: Setting, st: State, step: Step, o: OutPoint)
    requires VerifiedFor(s, st, o)
    ensures VerifiedFor(s, Next(s, st, step), o)
  {
    hide Next;
    Monotone(s, st, step);
  }

  /** The stepping call keeps its part. */
  lemma OwnFresh(s: Setting, st: State, step: Step, o: OutPoint)
    requires FreshInvariant(s, st, o) && step.call in Next(s, st, step).pcs
    ensures FreshCall(s, Next(s, st, step), o, step.call)
  {
    hide AllConfirmedIn, VerifiedFor;
    Monotone(s, st, step);
    if VerifiedFor(s, st, o) {
      VerifiedKept(s, st, step, o);
    }
    var c := step.call;
    if c in st.pcs {
      assert FreshCall(s, st, o, c);
    }
  }

  lemma StepFresh(s: Setting, st: State, step: Step, o: OutPoint)
    requires FreshInvariant(s, st, o)
    ensures FreshInvariant(s, Next(s, st, step), o)
  {
    var st' := Next(s, st, step);
    AddressKept(s, st, step, o);
    hide Next, Covered, VerifiedFor;
    Monotone(s, st, step);
    OthersKeep(s, st, step);
    if VerifiedFor(s, st, o) {
      VerifiedKept(s, st, step, o);
    }
    if o in st'.utxos && !(o in st.utxos && st'.utxos[o].address == st.utxos[o].address) {
      assert FreshCall(s, st, o, step.call);
      VerifiedBy(s, st', o, step.call);
    }
    forall c | c in st'.pcs ensures FreshCall(s, st', o, c) {
      if c == step.call {
        OwnFresh(s, st, step, o);
      } else {
        assert FreshCall(s, st, o, c);
      }
    }
  }

  lemma VerifiedBy(s: Setting, st: State, o: OutPoint, d: Call)
    requires d in st.pcs && st.pcs[d].Verified? && s.request(d).Verify? && s.request(d).outpoint == o
    ensures VerifiedFor(s, st, o)
  {
  }

  lemma {:induction false} RunFresh(s: Setting, st: State, steps: seq<Step>, o: OutPoint)
    requires FreshInvariant(s, st, o)
    ensures FreshInvariant(s, Run(s, st, steps), o)
  {
    hide FreshInvariant, Next;
    if steps != [] {
      RunFresh(s, st, steps[..|steps| - 1], o);
      StepFresh(s, Run(s, st, steps[..|steps| - 1]), steps[|steps| - 1], o);
    }
  }

  lemma StartsFresh(s: Setting, st: State, o: OutPoint)
    requires st.pcs == map[] && o !in st.utxos
    ensures FreshInvariant(s, st, o)
  {
  }

  /** For a fresh output, whenever a notification has written its response, a verification has already reset the
      responses and recorded the output. */
  lemma UpdatesFollowReset(s: Setting, st: State, steps: seq<Step>, o: OutPoint, c: Call)
    requires st.pcs == map[] && o !in st.utxos
    requires s.request(c).Notify? && s.request(c).outpoint == o
    requires c in Run(s, st, steps).pcs && HasUpdated(Run(s, st, steps).pcs[c])
    ensures VerifiedFor(s, Run(s, st, steps), o)
  {
    hide Run, Covered, VerifiedFor;
    StartsFresh(s, st, o);
    RunFresh(s, st, steps, o);
    assert FreshCall(s, Run(s, st, steps), o, c);
  }

  /** At some moment of the run, all configured verifiers had confirmed for the address. */
  ghost predicate SeenConfirmed(s: Setting, st: State, steps: seq<Step>, a: Address) {
    exists n :: 0 <= n <= |steps| && ConfiguredConfirmed(s.ids, Run(s, st, steps[..n]), a)
  }

  lemma SeenLater(s: Setting, st: State, steps: seq<Step>, a: Address)
    requires steps != [] && SeenConfirmed(s, st, steps[..|steps| - 1], a)
    ensures SeenConfirmed(s, st, steps, a)
  {
    hide Run, ConfiguredConfirmed;
    var rest := steps[..|steps| - 1];
    var n :| 0 <= n <= |rest| && ConfiguredConfirmed(s.ids, Run(s, st, rest[..n]), a);
    assert steps[..n] == rest[..n];
  }

  /** A notification decides to send only on seeing every response a confirmation. */
  lemma DecidesOn(s: Setting, st: State, step: Step, o: OutPoint, c: Call)
    requires FreshInvariant(s, st, o) && s.request(c).Notify? && s.request(c).outpoint == o
    requires c in Next(s, st, step).pcs && Decided(Next(s, st, step).pcs[c])
    ensures c in st.pcs && Decided(st.pcs[c]) ==> st.pcs[c].address == Next(s, st, step).pcs[c].address
    ensures !(c in st.pcs && Decided(st.pcs[c])) ==> ConfiguredConfirmed(s.ids, st, Next(s, st, step).pcs[c].address)
  {
    OthersKeep(s, st, step);
    if !(c in st.pcs && Decided(st.pcs[c])) {
      assert c in st.pcs && st.pcs[c].Updated?;
      assert FreshCall(s, st, o, c);
    }
  }

  /** Under every interleaving, a notification of a fresh output that sends for an address, or has decided to, does so
      after a moment at which every configured verifier's response stored for it was a confirmation. */
  lemma {:induction false} SentOnlyWhenConfirmed(s: Setting, st: State, steps: seq<Step>, o: OutPoint, c: Call)
    requires st.pcs == map[] && o !in st.utxos
    requires s.request(c).Notify? && s.request(c).outpoint == o
    requires c in Run(s, st, steps).pcs && Decided(Run(s, st, steps).pcs[c])
    ensures SeenConfirmed(s, st, steps, Run(s, st, steps).pcs[c].address)
  {
    hide FreshInvariant, Next, ConfiguredConfirmed;
    assert steps != [];
    var rest, last := steps[..|steps| - 1], steps[|steps| - 1];
    var before := Run(s, st, rest);
    StartsFresh(s, st, o);
    RunFresh(s, st, rest, o);
    DecidesOn(s, before, last, o, c);
    if c in before.pcs && Decided(before.pcs[c]) {
      SentOnlyWhenConfirmed(s, st, rest, o, c);
      SeenLater(s, st, steps, before.pcs[c].address);
    } else {
      assert steps[..|rest|] == rest;
    }
  }

  // ----- Sent at least once -----

  /** Just after the verification: every configured verifier is waited for. */
  ghost predicate Waiting(s: Setting, st: State, o: OutPoint, a: Address) {
    && st.pcs == map[] && o in st.utxos && st.utxos[o].address == a
    && a in st.deposits && st.deposits[a].responses == NewResponses(WaitingForConfirmation, s.ids)
  }

  /** Every call is a configured verifier's confirmation of the output, and storage does not fail. */
  ghost predicate ConfirmationsOnly(s: Setting, steps: seq<Step>, o: OutPoint) {
    forall n :: 0 <= n < |steps| ==> Confirms(s, steps[n], o)
  }

  ghost predicate Confirms(s: Setting, step: Step, o: OutPoint) {
    step.Advance? && var r := s.request(step.call);
    r.Notify? && r.outpoint == o && r.verifier in s.ids && r.status == DepositStatus.Confirmed
  }

  /** Somebody will read, or has read, that all have confirmed. */
  predicate OnTheWay(st: State, c: Call) {
    c in st.pcs && (st.pcs[c].Updated? || Decided(st.pcs[c]))
  }

  /** A request for the address has been added to the first `base`. */
  ghost predicate SentTo(st: State, base: nat, a: Address) {
    exists k :: base <= k < |st.sends| && st.sends[k] == a
  }

  ghost predicate ConfirmingInvariant(s: Setting, st: State, o: OutPoint, a: Address, base: nat) {
    && o in st.utxos && st.utxos[o].address == a && a in st.deposits && st.deposits[a].responses.Keys == s.ids
    && (forall c :: c in st.pcs ==> ConfirmingCall(s, st, o, a, c))
    && (AllConfirmedIn(st.deposits[a].responses) ==> exists c :: OnTheWay(st, c))
    && |st.sends| >= base && ((exists c :: c in st.pcs && Sent(st.pcs[c])) ==> SentTo(st, base, a))
  }

  ghost predicate ConfirmingCall(s: Setting, st: State, o: OutPoint, a: Address, c: Call)
    requires c in st.pcs && a in st.deposits
  {
    var r, pc := s.request(c), st.pcs[c];
    && r.Notify? && !pc.Broken? && !pc.Verified?
    && (Located(pc) ==> pc.address == a)
    && (HasUpdated(pc) ==> r.verifier in st.deposits[a].responses && st.deposits[a].responses[r.verifier] == DepositStatus.Confirmed)
  }

  lemma ConfirmingCalls(s: Setting, st: State, step: Step, o: OutPoint, a: Address, base: nat, c: Call)
    requires ConfirmingInvariant(s, st, o, a, base) && Confirms(s, step, o)
    ensures var st' := Next(s, st, step);
            && o in st'.utxos && st'.utxos[o].address == a && a in st'.deposits && st'.deposits[a].responses.Keys == s.ids
            && (c in st'.pcs ==> ConfirmingCall(s, st', o, a, c))
  {
    hide AllConfirmedIn, OnTheWay;
    if step.call in st.pcs {
      assert ConfirmingCall(s, st, o, a, step.call);
    }
    if c in st.pcs {
      assert ConfirmingCall(s, st, o, a, c);
    }
  }

  /** The last to write is on the way; it reads only confirmations. */
  lemma ConfirmingWay(s: Setting, st: State, step: Step, o: OutPoint, a: Address, base: nat)
    requires ConfirmingInvariant(s, st, o, a, base) && Confirms(s, step, o) && a in Next(s, st, step).deposits
    requires AllConfirmedIn(Next(s, st, step).deposits[a].responses)
    ensures exists c :: OnTheWay(Next(s, st, step), c)
  {
    var st', c := Next(s, st, step), step.call;
    if c in st.pcs {
      assert ConfirmingCall(s, st, o, a, c);
    }
    if c in st.pcs && (st.pcs[c].Found? || OnTheWay(st, c)) {
      assert OnTheWay(st', c);
    } else {
      hide AllConfirmedIn;
      assert st'.deposits == st.deposits;
      var d :| OnTheWay(st, d);
      OthersKeep(s, st, step);
      assert OnTheWay(st', d);
    }
  }

  lemma ConfirmingSends(s: Setting, st: State, step: Step, o: OutPoint, a: Address, base: nat)
    requires ConfirmingInvariant(s, st, o, a, base) && Confirms(s, step, o)
    ensures |Next(s, st, step).sends| >= base
    ensures (exists c :: c in Next(s, st, step).pcs && Sent(Next(s, st, step).pcs[c])) ==> SentTo(Next(s, st, step), base, a)
  {
    hide AllConfirmedIn;
    var st' := Next(s, st, step);
    OthersKeep(s, st, step);
    if step.call in st.pcs {
      assert ConfirmingCall(s, st, o, a, step.call);
    }
    SendsGrow(s, st, step);
    if step.call in st.pcs && st.pcs[step.call].MarkedConfirmed? {
      assert st'.sends[|st.sends|] == a;
    } else if c :| c in st'.pcs && Sent(st'.pcs[c]) {
      assert c in st.pcs && Sent(st.pcs[c]);
      var k :| base <= k < |st.sends| && st.sends[k] == a;
      assert st'.sends[k] == a;
    }
  }

  lemma SendsGrow(s: Setting, st: State, step: Step)
    ensures st.sends <= Next(s, st, step).sends
  {
    hide AllConfirmedIn;
  }

  lemma StepConfirming(s: Setting, st: State, step: Step, o: OutPoint, a: Address, base: nat)
    requires ConfirmingInvariant(s, st, o, a, base) && Confirms(s, step, o)
    ensures ConfirmingInvariant(s, Next(s, st, step), o, a, base)
  {
    var st' := Next(s, st, step);
    ConfirmingCalls(s, st, step, o, a, base, step.call);
    forall c | c in st'.pcs ensures ConfirmingCall(s, st', o, a, c) {
      ConfirmingCalls(s, st, step, o, a, base, c);
    }
    if AllConfirmedIn(st'.deposits[a].responses) {
      ConfirmingWay(s, st, step, o, a, base);
    }
    ConfirmingSends(s, st, step, o, a, base);
  }

  lemma {:induction false} RunConfirming(s: Setting, st: State, steps: seq<Step>, o: OutPoint, a: Address, base: nat)
    requires ConfirmingInvariant(s, st, o, a, base) && ConfirmationsOnly(s, steps, o)
    ensures ConfirmingInvariant(s, Run(s, st, steps), o, a, base)
  {
    hide ConfirmingInvariant, Next, Confirms;
    if steps != [] {
      RunConfirming(s, st, steps[..|steps| - 1], o, a, base);
      StepConfirming(s, Run(s, st, steps[..|steps| - 1]), steps[|steps| - 1], o, a, base);
    }
  }

  /** With every configured verifier confirming after the reset, in any interleaving without errors, at least one bridge
      request for the address has been added to those sent before, once all calls have finished. */
  lemma SentAtLeastOnce(s: Setting, st: State, steps: seq<Step>, o: OutPoint, a: Address)
    requires s.ids != {} && Waiting(s, st, o, a) && ConfirmationsOnly(s, steps, o)
    requires forall v :: v in s.ids ==> exists c :: c in Run(s, st, steps).pcs && s.request(c).Notify? && s.request(c).verifier == v
    requires forall c :: c in Run(s, st, steps).pcs ==> !Running(Run(s, st, steps), c)
    ensures SentTo(Run(s, st, steps), |st.sends|, a)
  {
    var v0 :| v0 in s.ids;
    assert st.deposits[a].responses[v0] != DepositStatus.Confirmed;
    assert ConfirmingInvariant(s, st, o, a, |st.sends|);
    RunConfirming(s, st, steps, o, a, |st.sends|);
    hide Run;
    var end := Run(s, st, steps);
    forall v | v in s.ids ensures end.deposits[a].responses[v] == DepositStatus.Confirmed {
      var c :| c in end.pcs && s.request(c).Notify? && s.request(c).verifier == v;
      assert ConfirmingCall(s, end, o, a, c);
    }
    var c :| OnTheWay(end, c);
    assert Sent(end.pcs[c]);
  }

  // ----- Without freshness -----

  predicate Solo(steps: seq<Step>, c: Call) {
    forall n :: 0 <= n < |steps| ==> steps[n].call == c
  }

  predicate Recorded(st: State, o: OutPoint) {
    o in st.utxos && st.utxos[o].address in st.deposits
  }

  /** The output is recorded and the verifier's confirmation is the only one missing, if any is. */
  predicate LastMissing(st: State, o: OutPoint, v: VerifierId) {
    && Recorded(st, o)
    && var responses := st.deposits[st.utxos[o].address].responses;
       forall w :: w in responses && w != v ==> responses[w] == DepositStatus.Confirmed
  }

  /** What a notification running alone has found out so far. */
  predicate SoloSoFar(st: State, now: State, o: OutPoint, v: VerifierId, status: DepositStatus, c: Call) {
    && now.deposits.Keys == st.deposits.Keys
    && (c !in now.pcs ==> now == st)
    && (c in now.pcs ==>
          var pc := now.pcs[c];
          && (!pc.Broken? ==> o in st.utxos && o in now.utxos && now.utxos[o].address == st.utxos[o].address)
          && (pc.SatsUpdated? ==> now.deposits == st.deposits)
          && (pc.Found? ==> now.deposits == st.deposits && pc.address == st.utxos[o].address)
          && (pc.Updated? || Decided(pc) ==> pc.address == st.utxos[o].address && pc.address in st.deposits)
          && (pc.Updated? ==> now.deposits[pc.address].responses == st.deposits[pc.address].responses[v := status])
          && (Decided(pc) ==> AllConfirmedIn(st.deposits[pc.address].responses[v := status])))
  }

  lemma SoloStep(s: Setting, st: State, now: State, o: OutPoint, v: VerifierId, status: DepositStatus, c: Call,
                 step: Step)
    requires s.request(c).Notify? && s.request(c).outpoint == o && s.request(c).verifier == v
    requires s.request(c).status == status
    requires step.call == c && SoloSoFar(st, now, o, v, status, c)
    ensures SoloSoFar(st, Next(s, now, step), o, v, status, c)
  {
    hide AllConfirmedIn;
  }

  lemma {:induction false} SoloRun(s: Setting, st: State, o: OutPoint, v: VerifierId, status: DepositStatus, c: Call,
                                   steps: seq<Step>)
    requires s.request(c).Notify? && s.request(c).outpoint == o && s.request(c).verifier == v
    requires s.request(c).status == status
    requires c !in st.pcs && Solo(steps, c)
    ensures SoloSoFar(st, Run(s, st, steps), o, v, status, c)
  {
    hide SoloSoFar, Next;
    if steps == [] {
      SoloStarts(st, o, v, status, c);
    } else {
      SoloRun(s, st, o, v, status, c, steps[..|steps| - 1]);
      SoloStep(s, st, Run(s, st, steps[..|steps| - 1]), o, v, status, c, steps[|steps| - 1]);
    }
  }

  lemma SoloStarts(st: State, o: OutPoint, v: VerifierId, status: DepositStatus, c: Call)
    requires c !in st.pcs
    ensures SoloSoFar(st, st, o, v, status, c)
  {
  }

  /** From any state: a notification can send by itself, with no verification and no other call, exactly when its output
      is recorded, it confirms, and every other stored response is a confirmation. */
  lemma SoloSendsIff(s: Setting, st: State, o: OutPoint, v: VerifierId, status: DepositStatus, sats: u64, c: Call)
    requires s.request(c) == Notify(o, v, status, sats) && c !in st.pcs
    ensures (exists steps :: Solo(steps, c) && c in Run(s, st, steps).pcs && Sent(Run(s, st, steps).pcs[c]))
       <==> status == DepositStatus.Confirmed && LastMissing(st, o, v)
  {
    hide Run;
    if steps :| Solo(steps, c) && c in Run(s, st, steps).pcs && Sent(Run(s, st, steps).pcs[c]) {
      SoloRun(s, st, o, v, status, c, steps);
      LastMissingIff(st, o, v, status);
    }
    if status == DepositStatus.Confirmed && LastMissing(st, o, v) {
      LastMissingIff(st, o, v, status);
      NotifyAlone(s, st, c, o, v, status, sats);
      var steps := seq(6, i => Advance(c));
      assert Solo(steps, c) && c in Run(s, st, steps).pcs && Sent(Run(s, st, steps).pcs[c]);
    }
  }

  lemma LastMissingIff(st: State, o: OutPoint, v: VerifierId, status: DepositStatus)
    requires Recorded(st, o)
    ensures AllConfirmedIn(st.deposits[st.utxos[o].address].responses[v := status])
       <==> status == DepositStatus.Confirmed && LastMissing(st, o, v)
  {
    var responses := st.deposits[st.utxos[o].address].responses;
    var written := responses[v := status];
    assert written[v] == status;
    assert forall w :: w in responses && w != v ==> w in written && written[w] == responses[w];
  }

  /** As long as no verification of the output has completed, its row and whoever has read it keep their address. */
  ghost predicate UnverifiedSoFar(s: Setting, st: State, now: State, o: OutPoint) {
    && now.deposits.Keys == st.deposits.Keys
    && (o in st.utxos ==> o in now.utxos)
    && (!VerifiedFor(s, now, o) ==>
          && (o in now.utxos ==> o in st.utxos && now.utxos[o].address == st.utxos[o].address)
          && forall c :: c in now.pcs ==> UnverifiedCall(s, st, now, o, c))
  }

  ghost predicate UnverifiedCall(s: Setting, st: State, now: State, o: OutPoint, c: Call)
    requires c in now.pcs
  {
    s.request(c).Notify? && s.request(c).outpoint == o ==>
      var pc := now.pcs[c];
      && (Located(pc) || HasUpdated(pc) ==> o in st.utxos && pc.address == st.utxos[o].address)
      && (HasUpdated(pc) ==> pc.address in st.deposits)
  }

  lemma KeysKept(s: Setting, st: State, step: Step)
    ensures Next(s, st, step).deposits.Keys == st.deposits.Keys
    ensures st.utxos.Keys <= Next(s, st, step).utxos.Keys
  {
    hide AllConfirmedIn;
  }

  lemma UnverifiedOwn(s: Setting, st: State, now: State, o: OutPoint, step: Step)
    requires now.deposits.Keys == st.deposits.Keys && step.call in Next(s, now, step).pcs
    requires o in now.utxos ==> o in st.utxos && now.utxos[o].address == st.utxos[o].address
    requires step.call in now.pcs ==> UnverifiedCall(s, st, now, o, step.call)
    ensures UnverifiedCall(s, st, Next(s, now, step), o, step.call)
  {
    hide AllConfirmedIn;
  }

  lemma UnverifiedStep(s: Setting, st: State, now: State, o: OutPoint, step: Step)
    requires UnverifiedSoFar(s, st, now, o)
    ensures UnverifiedSoFar(s, st, Next(s, now, step), o)
  {
    var next := Next(s, now, step);
    KeysKept(s, now, step);
    AddressKept(s, now, step, o);
    hide Next, VerifiedFor;
    if VerifiedFor(s, now, o) {
      VerifiedKept(s, now, step, o);
    } else if !VerifiedFor(s, next, o) {
      OthersKeep(s, now, step);
      if o in next.utxos && !(o in now.utxos && next.utxos[o].address == now.utxos[o].address) {
        VerifiedBy(s, next, o, step.call);
      }
      forall c | c in next.pcs ensures UnverifiedCall(s, st, next, o, c) {
        if c == step.call {
          UnverifiedOwn(s, st, now, o, step);
        } else {
          assert UnverifiedCall(s, st, now, o, c);
        }
      }
    }
  }

  lemma {:induction false} UnverifiedRun(s: Setting, st: State, o: OutPoint, steps: seq<Step>)
    requires st.pcs == map[]
    ensures UnverifiedSoFar(s, st, Run(s, st, steps), o)
  {
    hide UnverifiedSoFar, Next;
    if steps == [] {
      UnverifiedStarts(s, st, o);
    } else {
      UnverifiedRun(s, st, o, steps[..|steps| - 1]);
      UnverifiedStep(s, st, Run(s, st, steps[..|steps| - 1]), o, steps[|steps| - 1]);
    }
  }

  lemma UnverifiedStarts(s: Setting, st: State, o: OutPoint)
    requires st.pcs == map[]
    ensures UnverifiedSoFar(s, st, st, o)
  {
  }

  /** Freshness is what keeps responses from being written before a reset: with no call under way, a notification of an
      output can write its response before any verification of it exactly when the output is recorded. */
  lemma UnverifiedUpdateIff(s: Setting, st: State, o: OutPoint, c: Call)
    requires st.pcs == map[] && s.request(c).Notify? && s.request(c).outpoint == o
    ensures (exists steps :: c in Run(s, st, steps).pcs && HasUpdated(Run(s, st, steps).pcs[c]) && !VerifiedFor(s, Run(s, st, steps), o))
       <==> Recorded(st, o)
  {
    hide Run, VerifiedFor;
    if steps :| c in Run(s, st, steps).pcs && HasUpdated(Run(s, st, steps).pcs[c]) && !VerifiedFor(s, Run(s, st, steps), o) {
      UnverifiedRun(s, st, o, steps);
      assert UnverifiedCall(s, st, Run(s, st, steps), o, c);
    }
    if Recorded(st, o) {
      RecordedUpdatesUnverified(s, st, o, c);
    }
  }

  lemma RecordedUpdatesUnverified(s: Setting, st: State, o: OutPoint, c: Call)
    requires st.pcs == map[] && s.request(c).Notify? && s.request(c).outpoint == o && Recorded(st, o)
    ensures exists steps :: c in Run(s, st, steps).pcs && HasUpdated(Run(s, st, steps).pcs[c]) && !VerifiedFor(s, Run(s, st, steps), o)
  {
    hide Run;
    var r := s.request(c);
    var steps := seq(6, i => Advance(c));
    NotifyAlone(s, st, c, o, r.verifier, r.status, r.sats);
    assert c in Run(s, st, steps).pcs && HasUpdated(Run(s, st, steps).pcs[c]) && !VerifiedFor(s, Run(s, st, steps), o);
  }
}

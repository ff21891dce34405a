/**
 * The trigger of a bridge: a verification resets the verifiers' responses and records the output; each notification
 * writes one response, reads them all and sends if all are confirmations.
 *
 * Every storage access of every call is a step of its own, and calls run side by side.
 */
module DepositTrigger {
  import opened Wrappers
  import opened Machine
  import opened Utxo

  type VerifierId = nat
  type Call = nat

  datatype DepositStatus = Created | WaitingForConfirmation | Confirmed | Failed

  type Responses = map<VerifierId, DepositStatus>

  datatype Deposit = Deposit(amount: u64, rune: RuneId, bridge: Option<Address>, responses: Responses)

  /** `watched` says whether all verifiers accepted the watch request. */
  datatype Request =
    | Notify(outpoint: OutPoint, verifier: VerifierId, status: DepositStatus, sats: u64)
    | Verify(outpoint: OutPoint, address: Address, bridge: Address, watched: bool)

  datatype Pc =
    | SatsUpdated
    | Found(address: Address)
    | Updated(address: Address)
    | AllConfirmed(address: Address)
    | MarkedConfirmed(address: Address)
    | Notified(address: Address, sent: bool)
    | Bridged
    | Loaded(deposit: Deposit)
    | Watched(deposit: Deposit)
    | WasReset(deposit: Deposit)
    | Verified
    | Broken

  datatype State = State(utxos: Rows, deposits: map<Address, Deposit>, pcs: map<Call, Pc>, sends: seq<Address>)

  datatype Setting = Setting(ids: set<VerifierId>, request: Call -> Request)

  datatype Step = Advance(call: Call) | StorageError(call: Call)

  // ----- Responses -----

  function NewResponses(status: DepositStatus, ids: set<VerifierId>): Responses {
    map v | v in ids :: status
  }

  predicate AllConfirmedIn(responses: Responses) {
    forall v :: v in responses ==> responses[v] == DepositStatus.Confirmed
  }

  method New(status: DepositStatus, ids: seq<VerifierId>) returns (responses: Responses)
    ensures responses == NewResponses(status, set v | v in ids)
    ensures (forall v :: v in responses <==> v in ids) && forall v :: v in ids ==> responses[v] == status
  {
    responses := map[];
    for n := 0 to |ids|
      invariant responses == NewResponses(status, set v | v in ids[..n])
    {
      assert ids[..n + 1] == ids[..n] + [ids[n]];
      responses := responses[ids[n] := status];
    }
    assert ids[..|ids|] == ids;
  }

  method CheckAllVerifiersConfirmed(responses: Responses) returns (all: bool)
    ensures all <==> AllConfirmedIn(responses)
  {
    var left := responses.Keys;
    while left != {}
      invariant left <= responses.Keys
      invariant forall v :: v in responses && v !in left ==> responses[v] == DepositStatus.Confirmed
    {
      var v :| v in left;
      if responses[v] != DepositStatus.Confirmed {
        return false;
      }
      left := left - {v};
    }
    return true;
  }

  /** Responses made with a status are all confirmations only if that status is, or if there is nobody to respond. */
  lemma ConfirmedFromTheStart(status: DepositStatus, ids: set<VerifierId>)
    ensures AllConfirmedIn(NewResponses(status, ids)) <==> status == DepositStatus.Confirmed || ids == {}
  {
    if v :| v in ids {
      assert v in NewResponses(status, ids);
    }
  }

  // ----- Steps -----

  function Set(st: State, c: Call, pc: Pc): State {
    st.(pcs := st.pcs[c := pc])
  }

  function PutResponses(st: State, a: Address, responses: Responses): State
    requires a in st.deposits
  {
    st.(deposits := st.deposits[a := st.deposits[a].(responses := responses)])
  }

  function NextNotify(st: State, c: Call, o: OutPoint, v: VerifierId, status: DepositStatus, sats: u64): State {
    if c !in st.pcs then
      if o !in st.utxos then Set(st, c, Broken)
      else Set(st.(utxos := st.utxos[o := st.utxos[o].(satsAmount := ToI64(sats))]), c, SatsUpdated)
    else
      match st.pcs[c]
      case SatsUpdated => Set(st, c, if o in st.utxos then Found(st.utxos[o].address) else Broken)
      case Found(a) =>
        // read and written under a row lock
        if a !in st.deposits then Set(st, c, Broken) else Set(PutResponses(st, a, st.deposits[a].responses[v := status]), c, Updated(a))
      case Updated(a) =>
        if a !in st.deposits then Set(st, c, Broken)
        else Set(st, c, if AllConfirmedIn(st.deposits[a].responses) then AllConfirmed(a) else Notified(a, false))
      case AllConfirmed(a) =>
        if o !in st.utxos then Set(st, c, Broken)
        else Set(st.(utxos := st.utxos[o := st.utxos[o].(status := Status.Confirmed)]), c, MarkedConfirmed(a))
      case MarkedConfirmed(a) => Set(st.(sends := st.sends + [a]), c, Notified(a, true))
      case _ => st
  }

  function NextVerify(ids: set<VerifierId>, st: State, c: Call, o: OutPoint, a: Address, bridge: Address, watched: bool)
    : State {
    if c !in st.pcs then
      Set(if a in st.deposits then st.(deposits := st.deposits[a := st.deposits[a].(bridge := Some(bridge))]) else st, c, Bridged)
    else
      match st.pcs[c]
      case Bridged => Set(st, c, if a in st.deposits then Loaded(st.deposits[a]) else Broken)
      case Loaded(d) => Set(st, c, if watched then Watched(d) else Broken)
      case Watched(d) => Set(if a in st.deposits then PutResponses(st, a, NewResponses(WaitingForConfirmation, ids)) else st, c, WasReset(d))
      case WasReset(d) => Set(st.(utxos := st.utxos[o := Row(a, ToI64(d.amount), d.rune, Pending, 0)]), c, Verified)
      case _ => st
  }

  predicate Running(st: State, c: Call) {
    c in st.pcs ==> !st.pcs[c].Notified? && !st.pcs[c].Verified? && !st.pcs[c].Broken?
  }

  function Next(s: Setting, st: State, step: Step): State {
    match step
    case Advance(c) =>
      (match s.request(c)
       case Notify(o, v, status, sats) => NextNotify(st, c, o, v, status, sats)
       case Verify(o, a, bridge, watched) => NextVerify(s.ids, st, c, o, a, bridge, watched))
    case StorageError(c) => if Running(st, c) then Set(st, c, Broken) else st
  }

  function Run(s: Setting, st: State, steps: seq<Step>): State {
    if steps == [] then st else Next(s, Run(s, st, steps[..|steps| - 1]), steps[|steps| - 1])
  }

  // ----- One call on its own -----

  /** A notification that nobody interrupts; `None` is an error. */
  function HandleNotify(st: State, o: OutPoint, v: VerifierId, status: DepositStatus, sats: u64)
    : (State, Option<bool>) {
    if o !in st.utxos then (st, None)
    else
      var a, row := st.utxos[o].address, st.utxos[o].(satsAmount := ToI64(sats));
      var noted := st.(utxos := st.utxos[o := row]);
      if a !in st.deposits then (noted, None)
      else
        var responses := st.deposits[a].responses[v := status];
        var written := PutResponses(noted, a, responses);
        if AllConfirmedIn(responses)
        then (written.(utxos := st.utxos[o := row.(status := Status.Confirmed)], sends := st.sends + [a]), Some(true))
        else (written, Some(false))
  }

  /** A verification that nobody interrupts. */
  function HandleVerify(ids: set<VerifierId>, st: State, o: OutPoint, a: Address, bridge: Address, watched: bool)
    : (State, bool) {
    if a !in st.deposits then (st, false)
    else
      var d := st.deposits[a].(bridge := Some(bridge));
      if !watched then (st.(deposits := st.deposits[a := d]), false)
      else
        (st.(deposits := st.deposits[a := d.(responses := NewResponses(WaitingForConfirmation, ids))],
             utxos := st.utxos[o := Row(a, ToI64(d.amount), d.rune, Pending, 0)]), true)
  }

  /** `n` steps of one call. */
  function Times(s: Setting, st: State, c: Call, n: nat): State
    decreases n
  {
    if n == 0 then st else Times(s, Next(s, st, Advance(c)), c, n - 1)
  }

  lemma {:induction false} TimesIsRun(s: Setting, st: State, c: Call, n: nat)
    ensures Run(s, st, seq(n, i => Advance(c))) == Times(s, st, c, n)
  {
    hide Next;
    if n > 0 {
      TimesIsRun(s, st, c, n - 1);
      assert seq(n, i => Advance(c))[..n - 1] == seq(n - 1, i => Advance(c));
      TimesLast(s, st, c, n - 1);
    }
  }

  lemma {:induction false} TimesLast(s: Setting, st: State, c: Call, n: nat)
    ensures Times(s, st, c, n + 1) == Next(s, Times(s, st, c, n), Advance(c))
    decreases n
  {
    hide Next;
    if n > 0 {
      TimesLast(s, Next(s, st, Advance(c)), c, n - 1);
    }
  }

  lemma {:induction false} Ended(s: Setting, st: State, c: Call, n: nat)
    requires c in st.pcs && !Running(st, c)
    ensures Times(s, st, c, n) == st
  {
    if n > 0 {
      Ended(s, st, c, n - 1);
    }
  }

  lemma FromUpdated(s: Setting, st: State, c: Call, o: OutPoint, a: Address)
    requires s.request(c).Notify? && s.request(c).outpoint == o && c in st.pcs && st.pcs[c] == Updated(a)
    requires o in st.utxos && a in st.deposits
    ensures var all := AllConfirmedIn(st.deposits[a].responses);
            var written := if all then st.(utxos := st.utxos[o := st.utxos[o].(status := Status.Confirmed)], sends := st.sends + [a]) else st;
            Times(s, st, c, 3) == Set(written, c, Notified(a, all))
  {
    hide Times, AllConfirmedIn;
    Unfold(s, st, c, 2);
    var st1 := Next(s, st, Advance(c));
    if AllConfirmedIn(st.deposits[a].responses) {
      assert st1 == Set(st, c, AllConfirmed(a));
      Unfold(s, st1, c, 1);
      var st2 := Next(s, st1, Advance(c));
      Unfold(s, st2, c, 0);
      Unfold0(s, Next(s, st2, Advance(c)), c);
      assert Next(s, st2, Advance(c)).pcs == st.pcs[c := Notified(a, true)];
    } else {
      assert st1 == Set(st, c, Notified(a, false));
      Ended(s, st1, c, 2);
    }
  }

  lemma Unfold(s: Setting, st: State, c: Call, n: nat)
    ensures Times(s, st, c, n + 1) == Times(s, Next(s, st, Advance(c)), c, n)
  {
  }

  lemma Unfold0(s: Setting, st: State, c: Call)
    ensures Times(s, st, c, 0) == st
  {
  }

  lemma FromFound(s: Setting, st: State, c: Call, o: OutPoint, v: VerifierId, status: DepositStatus, sats: u64,
                  a: Address)
    requires s.request(c) == Notify(o, v, status, sats) && c in st.pcs && st.pcs[c] == Found(a) && o in st.utxos
    requires a in st.deposits
    ensures var written := PutResponses(st, a, st.deposits[a].responses[v := status]);
            Times(s, st, c, 4) == Times(s, Set(written, c, Updated(a)), c, 3)
  {
    hide Times;
    Unfold(s, st, c, 3);
  }

  lemma ToFound(s: Setting, st: State, c: Call, o: OutPoint, v: VerifierId, status: DepositStatus, sats: u64)
    requires s.request(c) == Notify(o, v, status, sats) && c !in st.pcs && o in st.utxos
    ensures var a, row := st.utxos[o].address, st.utxos[o].(satsAmount := ToI64(sats));
            Times(s, st, c, 6) == Times(s, st.(utxos := st.utxos[o := row], pcs := st.pcs[c := Found(a)]), c, 4)
  {
    hide Times;
    Unfold(s, st, c, 5);
    var st1 := Next(s, st, Advance(c));
    Unfold(s, st1, c, 4);
    var a, row := st.utxos[o].address, st.utxos[o].(satsAmount := ToI64(sats));
    assert Next(s, st1, Advance(c)) == st.(utxos := st.utxos[o := row], pcs := st.pcs[c := Found(a)]);
  }

  lemma NotifyAlone(s: Setting, st: State, c: Call, o: OutPoint, v: VerifierId, status: DepositStatus, sats: u64)
    requires s.request(c) == Notify(o, v, status, sats) && c !in st.pcs
    ensures var (st', sent) := HandleNotify(st, o, v, status, sats);
            Run(s, st, seq(6, i => Advance(c)))
              == st'.(pcs := st.pcs[c := if sent.Some? then Notified(st.utxos[o].address, sent.value) else Broken])
  {
    hide Run, AllConfirmedIn, Times, Next;
    TimesIsRun(s, st, c, 6);
    if o !in st.utxos {
      NotifyBreaks(s, st, c, 5);
    } else {
      ToFound(s, st, c, o, v, status, sats);
      NotifyFound(s, st, c, o, v, status, sats);
    }
  }

  lemma NotifyFound(s: Setting, st: State, c: Call, o: OutPoint, v: VerifierId, status: DepositStatus, sats: u64)
    requires s.request(c) == Notify(o, v, status, sats) && c !in st.pcs && o in st.utxos
    ensures var a, row := st.utxos[o].address, st.utxos[o].(satsAmount := ToI64(sats));
            var (st', sent) := HandleNotify(st, o, v, status, sats);
            Times(s, st.(utxos := st.utxos[o := row], pcs := st.pcs[c := Found(a)]), c, 4)
              == st'.(pcs := st.pcs[c := if sent.Some? then Notified(a, sent.value) else Broken])
  {
    hide AllConfirmedIn, Times, Next;
    var a, row := st.utxos[o].address, st.utxos[o].(satsAmount := ToI64(sats));
    var found := st.(utxos := st.utxos[o := row], pcs := st.pcs[c := Found(a)]);
    if a !in st.deposits {
      NotifyBreaks(s, found, c, 3);
      assert found.pcs[c := Broken] == st.pcs[c := Broken];
    } else {
      FromFound(s, found, c, o, v, status, sats, a);
      var updated := Set(PutResponses(found, a, st.deposits[a].responses[v := status]), c, Updated(a));
      FromUpdated(s, updated, c, o, a);
      assert updated.utxos[o := row.(status := Status.Confirmed)] == st.utxos[o := row.(status := Status.Confirmed)];
      var sent := Notified(a, AllConfirmedIn(updated.deposits[a].responses));
      assert updated.pcs[c := sent] == st.pcs[c := sent];
    }
  }

  lemma NotifyBreaks(s: Setting, st: State, c: Call, n: nat)
    requires s.request(c).Notify?
    requires (c !in st.pcs && s.request(c).outpoint !in st.utxos) || (c in st.pcs && st.pcs[c].Found? && st.pcs[c].address !in st.deposits)
    ensures Times(s, st, c, n + 1) == Set(st, c, Broken)
  {
    hide Times;
    Unfold(s, st, c, n);
    Ended(s, Set(st, c, Broken), c, n);
  }

  lemma FromBridged(s: Setting, st: State, c: Call, o: OutPoint, a: Address, bridge: Address, watched: bool)
    requires s.request(c) == Verify(o, a, bridge, watched) && c in st.pcs && st.pcs[c] == Bridged && a in st.deposits
    ensures var d := st.deposits[a]; var written := PutResponses(st, a, NewResponses(WaitingForConfirmation, s.ids));
            Times(s, st, c, 5) ==
              if watched then Set(written.(utxos := st.utxos[o := Row(a, ToI64(d.amount), d.rune, Pending, 0)]), c, Verified)
              else Set(st, c, Broken)
  {
    hide Times, NewResponses;
    Unfold(s, st, c, 4);
    var st1 := Next(s, st, Advance(c));
    assert st1 == Set(st, c, Loaded(st.deposits[a]));
    Unfold(s, st1, c, 3);
    var st2 := Next(s, st1, Advance(c));
    if watched {
      assert st2 == Set(st, c, Watched(st.deposits[a]));
      Unfold(s, st2, c, 2);
      var st3 := Next(s, st2, Advance(c));
      Unfold(s, st3, c, 1);
      var st4 := Next(s, st3, Advance(c));
      assert st4.pcs == st.pcs[c := Verified];
      Ended(s, st4, c, 1);
    } else {
      assert st2 == Set(st, c, Broken);
      Ended(s, st2, c, 3);
    }
  }

  lemma VerifyAlone(s: Setting, st: State, c: Call, o: OutPoint, a: Address, bridge: Address, watched: bool)
    requires s.request(c) == Verify(o, a, bridge, watched) && c !in st.pcs
    ensures var (st', ok) := HandleVerify(s.ids, st, o, a, bridge, watched);
            Run(s, st, seq(6, i => Advance(c))) == st'.(pcs := st.pcs[c := if ok then Verified else Broken])
  {
    hide Run, NewResponses, Times, Next;
    TimesIsRun(s, st, c, 6);
    ToBridged(s, st, c, o, a, bridge, watched);
    if a !in st.deposits {
      VerifyBreaks(s, Set(st, c, Bridged), c, 4);
      assert Set(st, c, Bridged).pcs[c := Broken] == st.pcs[c := Broken];
    } else {
      var d := st.deposits[a].(bridge := Some(bridge));
      var bridged := st.(deposits := st.deposits[a := d], pcs := st.pcs[c := Bridged]);
      FromBridged(s, bridged, c, o, a, bridge, watched);
      var reset := d.(responses := NewResponses(WaitingForConfirmation, s.ids));
      assert bridged.deposits[a := reset] == st.deposits[a := reset];
      assert bridged.pcs[c := Verified] == st.pcs[c := Verified] && bridged.pcs[c := Broken] == st.pcs[c := Broken];
    }
  }

  lemma ToBridged(s: Setting, st: State, c: Call, o: OutPoint, a: Address, bridge: Address, watched: bool)
    requires s.request(c) == Verify(o, a, bridge, watched) && c !in st.pcs
    ensures a !in st.deposits ==> Times(s, st, c, 6) == Times(s, Set(st, c, Bridged), c, 5)
    ensures a in st.deposits ==>
              var bridged := st.(deposits := st.deposits[a := st.deposits[a].(bridge := Some(bridge))], pcs := st.pcs[c := Bridged]);
              Times(s, st, c, 6) == Times(s, bridged, c, 5)
  {
    hide Times;
    Unfold(s, st, c, 5);
  }

  lemma VerifyBreaks(s: Setting, st: State, c: Call, n: nat)
    requires s.request(c).Verify? && c in st.pcs && st.pcs[c].Bridged? && s.request(c).address !in st.deposits
    ensures Times(s, st, c, n + 1) == Set(st, c, Broken)
  {
    hide Times;
    Unfold(s, st, c, n);
    Ended(s, Set(st, c, Broken), c, n);
  }

  // ----- The calls as methods -----

  class Aggregator {
    const ids: seq<VerifierId>
    var utxos: Rows
    var deposits: map<Address, Deposit>
    var sends: seq<Address>

    constructor (ids: seq<VerifierId>, utxos: Rows, deposits: map<Address, Deposit>)
      ensures this.ids == ids && this.utxos == utxos && this.deposits == deposits && sends == []
    {
      this.ids := ids;
      this.utxos, this.deposits, sends := utxos, deposits, [];
    }

    ghost function Stored(): State
      reads this
    {
      State(utxos, deposits, map[], sends)
    }

    method NotifyRunesDeposit(o: OutPoint, v: VerifierId, status: DepositStatus, sats: u64) returns (sent: Option<bool>)
      modifies this
      ensures (Stored(), sent) == HandleNotify(old(Stored()), o, v, status, sats)
      ensures sent.Some? <==> o in old(utxos) && old(utxos)[o].address in old(deposits)
      ensures sent.Some? ==>
                && o in utxos && utxos[o].address in deposits
                && var row, a := utxos[o], utxos[o].address;
                   && deposits == old(deposits)[a := deposits[a]] && deposits[a] == old(deposits)[a].(responses := deposits[a].responses)
                   && deposits[a].responses == old(deposits)[a].responses[v := status]
                   && utxos == old(utxos)[o := row] && row.satsAmount == ToI64(sats) && row.address == old(utxos)[o].address
                   && row.runeAmount == old(utxos)[o].runeAmount && row.rune == old(utxos)[o].rune
                   && row.status == (if sent.value then Status.Confirmed else old(utxos)[o].status)
                   && (sent.value <==> forall w :: w in deposits[a].responses ==> deposits[a].responses[w] == DepositStatus.Confirmed)
                   && sends == old(sends) + if sent.value then [a] else []
      ensures sent.None? ==> deposits == old(deposits) && sends == old(sends)
    {
      if o !in utxos {
        return None;
      }
      utxos := utxos[o := utxos[o].(satsAmount := ToI64(sats))];
      var a := utxos[o].address;
      if a !in deposits {
        return None;
      }
      deposits := deposits[a := deposits[a].(responses := deposits[a].responses[v := status])];
      var all := CheckAllVerifiersConfirmed(deposits[a].responses);
      if all {
        utxos := utxos[o := utxos[o].(status := Status.Confirmed)];
        assert utxos == old(utxos)[o := old(utxos)[o].(satsAmount := ToI64(sats), status := Status.Confirmed)];
        sends := sends + [a];
      }
      return Some(all);
    }

    /** `watch` is what each verifier answers to the watch request. */
    method VerifyRunesDeposit(o: OutPoint, a: Address, bridge: Address, watch: VerifierId -> bool) returns (ok: bool)
      modifies this
      ensures (Stored(), ok) == HandleVerify(set v | v in ids, old(Stored()), o, a, bridge, forall v :: v in ids ==> watch(v))
      ensures ok <==> a in old(deposits) && forall v :: v in ids ==> watch(v)
      ensures sends == old(sends)
      ensures ok ==>
                && a in deposits && deposits == old(deposits)[a := deposits[a]] && deposits[a].bridge == Some(bridge)
                && deposits[a].amount == old(deposits)[a].amount && deposits[a].rune == old(deposits)[a].rune
                && (forall v :: v in deposits[a].responses <==> v in ids)
                && (forall v :: v in ids ==> deposits[a].responses[v] == WaitingForConfirmation)
                && utxos == old(utxos)[o := Row(a, ToI64(deposits[a].amount), deposits[a].rune, Pending, 0)]
      ensures !ok ==>
                && utxos == old(utxos)
                && deposits == if a in old(deposits) then old(deposits)[a := old(deposits)[a].(bridge := Some(bridge))] else old(deposits)
    {
      if a in deposits {
        deposits := deposits[a := deposits[a].(bridge := Some(bridge))];
      }
      if a !in deposits {
        return false;
      }
      var d := deposits[a];
      var watched := true;
      for n := 0 to |ids|
        invariant watched <==> forall k :: 0 <= k < n ==> watch(ids[k])
      {
        watched := watched && watch(ids[n]);
      }
      assert watched <==> forall v :: v in ids ==> watch(v);
      if !watched {
        return false;
      }
      var responses := New(WaitingForConfirmation, ids);
      deposits := deposits[a := deposits[a].(responses := responses)];
      assert deposits == old(deposits)[a := d.(responses := responses)];
      utxos := utxos[o := Row(a, ToI64(d.amount), d.rune, Pending, 0)];
      return true;
    }
  }
}

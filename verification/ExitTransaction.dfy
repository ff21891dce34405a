/**
 * The exit transaction: the paying input first, then the selected outputs; a runestone in output 0 whose edicts hand
 * out the runes, then one output per transfer.
 */
module ExitTransaction {
  import opened Wrappers
  import opened Machine
  import opened Utxo

  type Signature = nat

  datatype TxIn = TxIn(outpoint: OutPoint, unlock: Option<Witness>)

  /** The signature hash type goes into the witness with the signature. */
  datatype Witness = NoneAnyoneCanPay(signature: Signature) | AllAnyoneCanPay(signature: Signature)

  datatype Edict = Edict(rune: RuneId, amount: nat, output: nat)

  datatype TxOut = OpReturn(edicts: seq<Edict>) | PayTo(address: Address, sats: u64)

  datatype Transaction = Transaction(inputs: seq<TxIn>, outputs: seq<TxOut>)

  datatype PayingInput = PayingInput(outpoint: OutPoint, exitAddress: Address, sats: u64, signature: Signature)

  datatype Transfer = Transfer(address: Address, sats: u64, runes: u64)

  // ----- Building it -----

  /** An edict for each transfer of more than nothing; transfer `i` is paid by output `i + 1`. */
  function Edicts(rune: RuneId, transfers: seq<Transfer>): seq<Edict> {
    if transfers == [] then []
    else
      var n := |transfers| - 1;
      Edicts(rune, transfers[..n]) + if transfers[n].runes > 0 then [Edict(rune, transfers[n].runes, 1 + n)] else []
  }

  function Payments(transfers: seq<Transfer>): seq<TxOut> {
    seq(|transfers|, i requires 0 <= i < |transfers| => PayTo(transfers[i].address, transfers[i].sats))
  }

  function Spends(outpoints: seq<OutPoint>): seq<TxIn> {
    seq(|outpoints|, i requires 0 <= i < |outpoints| => TxIn(outpoints[i], None))
  }

  function PartialTransaction(outpoints: seq<OutPoint>, paying: PayingInput, transfers: seq<Transfer>, rune: RuneId)
    : Transaction {
    Transaction([TxIn(paying.outpoint, Some(NoneAnyoneCanPay(paying.signature)))] + Spends(outpoints),
                [OpReturn(Edicts(rune, transfers))] + Payments(transfers))
  }

  method CreateRunePartialTransaction(outpoints: seq<OutPoint>, paying: PayingInput, transfers: seq<Transfer>,
                                      rune: RuneId)
    returns (tx: Transaction)
    ensures tx == PartialTransaction(outpoints, paying, transfers, rune)
    ensures |tx.inputs| == 1 + |outpoints|
    ensures tx.inputs[0] == TxIn(paying.outpoint, Some(NoneAnyoneCanPay(paying.signature)))
    ensures forall i :: 0 <= i < |outpoints| ==> tx.inputs[i + 1] == TxIn(outpoints[i], None)
    ensures |tx.outputs| == 1 + |transfers| && tx.outputs[0].OpReturn?
    ensures forall i :: 0 <= i < |transfers| ==> tx.outputs[i + 1] == PayTo(transfers[i].address, transfers[i].sats)
  {
    var inputs := [TxIn(paying.outpoint, Some(NoneAnyoneCanPay(paying.signature)))];
    for n := 0 to |outpoints|
      invariant inputs == [TxIn(paying.outpoint, Some(NoneAnyoneCanPay(paying.signature)))] + Spends(outpoints[..n])
    {
      assert Spends(outpoints[..n + 1]) == Spends(outpoints[..n]) + [TxIn(outpoints[n], None)];
      inputs := inputs + [TxIn(outpoints[n], None)];
    }
    assert outpoints[..|outpoints|] == outpoints;
    var edicts: seq<Edict> := [];
    for i := 0 to |transfers|
      invariant edicts == Edicts(rune, transfers[..i])
    {
      assert transfers[..i + 1][..i] == transfers[..i];
      if transfers[i].runes > 0 {
        edicts := edicts + [Edict(rune, transfers[i].runes, 1 + i)];
      }
    }
    assert transfers[..|transfers|] == transfers;
    var outputs := [OpReturn(edicts)];
    for i := 0 to |transfers|
      invariant outputs == [OpReturn(edicts)] + Payments(transfers[..i])
    {
      assert Payments(transfers[..i + 1]) == Payments(transfers[..i]) + [PayTo(transfers[i].address, transfers[i].sats)];
      outputs := outputs + [PayTo(transfers[i].address, transfers[i].sats)];
    }
    return Transaction(inputs, outputs);
  }

  /** Signs input `i`, and touches nothing else. */
  function WithSignature(tx: Transaction, i: nat, signature: Signature): Transaction
    requires i < |tx.inputs|
  {
    tx.(inputs := tx.inputs[i := tx.inputs[i].(unlock := Some(AllAnyoneCanPay(signature)))])
  }

  // ----- What the runestone does -----

  type Balances = map<nat, nat>

  function Held(balances: Balances, output: nat): nat {
    if output in balances then balances[output] else 0
  }

  /** The runes protocol: edicts are applied in order; one gives its output the amount or what is left, an amount of
      zero means all that is left. */
  function Apply(edicts: seq<Edict>, rune: RuneId, unallocated: nat): (Balances, nat) {
    if edicts == [] then (map[], unallocated)
    else
      var (balances, left) := Apply(edicts[..|edicts| - 1], rune, unallocated);
      var e := edicts[|edicts| - 1];
      if e.rune != rune then (balances, left)
      else
        var given := if e.amount == 0 || e.amount > left then left else e.amount;
        (balances[e.output := Held(balances, e.output) + given], left - given)
  }

  function Runes(transfers: seq<Transfer>): nat {
    if transfers == [] then 0 else Runes(transfers[..|transfers| - 1]) + transfers[|transfers| - 1].runes
  }

  function EdictTotal(edicts: seq<Edict>): nat {
    if edicts == [] then 0 else EdictTotal(edicts[..|edicts| - 1]) + edicts[|edicts| - 1].amount
  }

  lemma EdictsLast(rune: RuneId, transfers: seq<Transfer>)
    requires transfers != []
    ensures var n := |transfers| - 1; var rest := Edicts(rune, transfers[..n]);
            Edicts(rune, transfers) == if transfers[n].runes > 0 then rest + [Edict(rune, transfers[n].runes, 1 + n)] else rest
  {
  }

  lemma ApplyLast(edicts: seq<Edict>, e: Edict, unallocated: nat)
    ensures var (balances, left) := Apply(edicts, e.rune, unallocated);
            0 < e.amount <= left ==>
              Apply(edicts + [e], e.rune, unallocated) == (balances[e.output := Held(balances, e.output) + e.amount], left - e.amount)
  {
    assert (edicts + [e])[..|edicts|] == edicts;
  }

  /** Edict amounts add up to what the transfers ask for. */
  lemma {:induction false} EdictsAddUp(rune: RuneId, transfers: seq<Transfer>)
    ensures EdictTotal(Edicts(rune, transfers)) == Runes(transfers)
  {
    if transfers != [] {
      var n := |transfers| - 1;
      EdictsAddUp(rune, transfers[..n]);
      EdictsLast(rune, transfers);
      var rest, last := Edicts(rune, transfers[..n]), Edict(rune, transfers[n].runes, 1 + n);
      assert (rest + [last])[..|rest|] == rest;
    }
  }

  /** The edict is for one of the transfers, of more than nothing. */
  predicate EdictFor(rune: RuneId, transfers: seq<Transfer>, e: Edict) {
    1 <= e.output <= |transfers| && e == Edict(rune, transfers[e.output - 1].runes, e.output) && e.amount > 0
  }

  lemma {:induction false} EdictsAre(rune: RuneId, transfers: seq<Transfer>)
    ensures forall k :: 0 <= k < |Edicts(rune, transfers)| ==> EdictFor(rune, transfers, Edicts(rune, transfers)[k])
  {
    if transfers == [] {
      assert Edicts(rune, transfers) == [];
    } else {
      var n := |transfers| - 1;
      EdictsAre(rune, transfers[..n]);
      EdictsLast(rune, transfers);
      hide Edicts;
      var rest, edicts := Edicts(rune, transfers[..n]), Edicts(rune, transfers);
      forall k | 0 <= k < |edicts| ensures EdictFor(rune, transfers, edicts[k]) {
        if k < |rest| {
          assert EdictFor(rune, transfers[..n], rest[k]);
        }
      }
    }
  }

  /** The output an edict names pays the address the edict's runes are meant for. */
  lemma EdictsPayTheirAddress(outpoints: seq<OutPoint>, paying: PayingInput, transfers: seq<Transfer>, rune: RuneId,
                              k: nat)
    requires k < |Edicts(rune, transfers)|
    ensures var tx := PartialTransaction(outpoints, paying, transfers, rune); var e := Edicts(rune, transfers)[k];
            && 1 <= e.output < |tx.outputs| && e.rune == rune && e.amount == transfers[e.output - 1].runes
            && tx.outputs[e.output] == PayTo(transfers[e.output - 1].address, transfers[e.output - 1].sats)
  {
    EdictsAre(rune, transfers);
    hide Edicts;
  }

  /** Applied to at least what they ask for, the edicts give every transfer exactly its runes. */
  lemma {:induction false} AppliedExactly(rune: RuneId, transfers: seq<Transfer>, unallocated: nat)
    requires Runes(transfers) <= unallocated
    ensures var (balances, left) := Apply(Edicts(rune, transfers), rune, unallocated);
            && left == unallocated - Runes(transfers)
            && (forall i :: 0 <= i < |transfers| ==> Held(balances, 1 + i) == transfers[i].runes)
            && (forall o :: o in balances ==> 1 <= o <= |transfers|)
  {
    if transfers == [] {
      assert Edicts(rune, transfers) == [];
    } else {
      var n := |transfers| - 1;
      AppliedExactly(rune, transfers[..n], unallocated);
      EdictsLast(rune, transfers);
      ApplyLast(Edicts(rune, transfers[..n]), Edict(rune, transfers[n].runes, 1 + n), unallocated);
      hide Edicts, Apply;
      assert forall i :: 0 <= i < n ==> transfers[..n][i] == transfers[i];
    }
  }

  // ----- The transfers of an exit -----

  const DUST_AMOUNT: u64 := 546

  /** The exit, then the change if there is any. */
  function ExitTransfers(exitAddress: Address, changeAddress: Address, exitAmount: u64, total: u64): seq<Transfer> {
    [Transfer(exitAddress, DUST_AMOUNT, exitAmount)]
    + if total > exitAmount then [Transfer(changeAddress, DUST_AMOUNT, total - exitAmount)] else []
  }

  /** All runes of the selected inputs are handed out: the exit amount to output 1, which pays the exit address, and the
      change to output 2, which pays the change address; nothing is left unallocated. */
  lemma ExitConserves(outpoints: seq<OutPoint>, paying: PayingInput, rune: RuneId, exitAddress: Address,
                      changeAddress: Address, exitAmount: u64, total: u64)
    requires exitAmount <= total
    ensures var transfers := ExitTransfers(exitAddress, changeAddress, exitAmount, total);
            var tx := PartialTransaction(outpoints, paying, transfers, rune);
            var (balances, left) := Apply(Edicts(rune, transfers), rune, total);
            && tx.outputs[0] == OpReturn(Edicts(rune, transfers))
            && EdictTotal(Edicts(rune, transfers)) == total && left == 0
            && tx.outputs[1] == PayTo(exitAddress, DUST_AMOUNT) && Held(balances, 1) == exitAmount
            && (total > exitAmount ==>
                  && |tx.outputs| == 3 && tx.outputs[2] == PayTo(changeAddress, DUST_AMOUNT)
                  && Held(balances, 2) == total - exitAmount)
  {
    hide Apply, EdictTotal;
    var transfers := ExitTransfers(exitAddress, changeAddress, exitAmount, total);
    assert Runes(transfers) == total by {
      assert Runes([transfers[0]]) == exitAmount by {
        assert [transfers[0]][..0] == [];
      }
      assert |transfers| == 2 ==> transfers[..1] == [transfers[0]];
      assert |transfers| == 1 ==> transfers == [transfers[0]];
    }
    EdictsAddUp(rune, transfers);
    AppliedExactly(rune, transfers, total);
    assert transfers[0].runes == exitAmount;
  }

  /** The change is recorded at output 1, while output 2 pays it: the record names an output paying the recorded address
      exactly when exit and change go to one address. */
  lemma RecordedChangeIff(outpoints: seq<OutPoint>, paying: PayingInput, rune: RuneId, exitAddress: Address,
                          changeAddress: Address, exitAmount: u64, total: u64)
    requires exitAmount < total
    ensures var tx := PartialTransaction(outpoints, paying, ExitTransfers(exitAddress, changeAddress, exitAmount, total), rune);
            (tx.outputs[1] == PayTo(changeAddress, DUST_AMOUNT) <==> exitAddress == changeAddress)
            && tx.outputs[2] == PayTo(changeAddress, DUST_AMOUNT)
  {
    ExitConserves(outpoints, paying, rune, exitAddress, changeAddress, exitAmount, total);
  }
}

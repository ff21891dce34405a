/**
 * The exit: selects outputs of the rune for the amount, derives a change address if they exceed it, builds and signs
 * the transaction, broadcasts it and records the change.
 *
 * A failure after the selection leaves the selected outputs marked spent.
 */
module ExitFlow {
  import opened Wrappers
  import opened Machine
  import opened Utxo
  import opened ExitTransaction
  import Laws = UtxoLaws

  type ShareId = nat
  type Nonce = nat

  datatype DepositInfo = DepositInfo(share: ShareId, nonce: Nonce, bridge: Option<Address>, amount: u64)

  datatype FlowError = InfoNotFound | NoBridgeAddress | Database(error: DbError) | AddressTaken | Aggregator | Hashing | Signing | Broadcast

  /** What the flow asks of the rest of the system; `None` and false are failures. A signature hash is taken over the
      unsigned transaction, the spent output's address and value and the input's index. */
  datatype Services = Services(
    changeAddress: (ShareId, Nonce) -> Option<Address>,
    sighash: (seq<OutPoint>, seq<TxOut>, Address, u64, nat) -> Option<seq<byte>>,
    sign: (ShareId, seq<byte>, Nonce, nat) -> Option<Signature>,
    broadcast: Transaction -> bool,
    txid: (seq<OutPoint>, seq<TxOut>) -> Txid)

  function Prevouts(tx: Transaction): seq<OutPoint> {
    seq(|tx.inputs|, i requires 0 <= i < |tx.inputs| => tx.inputs[i].outpoint)
  }

  /** The signature for input `i`, which spends `u`: made under the share and nonce of the address that `u` pays, over that
      address and the value of `u`. */
  function SignatureFor(s: Services, infos: map<Address, DepositInfo>, tx: Transaction, u: Utxo, i: nat)
    : Option<Signature> {
    var hash := s.sighash(Prevouts(tx), tx.outputs, u.address, u.satsAmount, i);
    if hash.None? || u.address !in infos then None
    else s.sign(infos[u.address].share, hash.value, infos[u.address].nonce, i)
  }

  /** Input `i` spends the selected output `i - 1` and carries the signature for it. */
  ghost predicate SignedInput(s: Services, infos: map<Address, DepositInfo>, tx: Transaction, us: seq<Utxo>, i: nat)
    requires 1 <= i < |tx.inputs| && i <= |us|
  {
    var signature := SignatureFor(s, infos, tx, us[i - 1], i);
    && tx.inputs[i].outpoint == us[i - 1].outpoint
    && signature.Some? && tx.inputs[i].unlock == Some(AllAnyoneCanPay(signature.value))
  }

  ghost predicate CanSignInput(s: Services, infos: map<Address, DepositInfo>, tx: Transaction, us: seq<Utxo>, i: nat) {
    1 <= i <= |us| && SignatureFor(s, infos, tx, us[i - 1], i).Some?
  }

  /** Every selected output's address is known and its input can be signed. */
  ghost predicate CanSign(s: Services, infos: map<Address, DepositInfo>, tx: Transaction, us: seq<Utxo>) {
    forall i :: 1 <= i <= |us| ==> CanSignInput(s, infos, tx, us, i)
  }

  function OutPointsOf(us: seq<Utxo>): seq<OutPoint> {
    seq(|us|, i requires 0 <= i < |us| => us[i].outpoint)
  }

  /** Built for the selected outputs and signed on every one of them. */
  ghost predicate Complete(s: Services, infos: map<Address, DepositInfo>, tx: Transaction, us: seq<Utxo>,
                           paying: PayingInput, transfers: seq<Transfer>, rune: RuneId) {
    var partial := PartialTransaction(OutPointsOf(us), paying, transfers, rune);
    && tx.outputs == partial.outputs && Prevouts(tx) == Prevouts(partial) && |tx.inputs| == |us| + 1
    && tx.inputs[0] == partial.inputs[0]
    && forall i :: 1 <= i <= |us| ==> SignedInput(s, infos, tx, us, i)
  }

  // ----- What the network checks -----

  /** Whatever is signed under the share and nonce of an address passes the check against that address. */
  ghost predicate Checks(s: Services, infos: map<Address, DepositInfo>, check: (Address, seq<byte>, Signature) -> bool) {
    forall a, hash, i, g :: a in infos && s.sign(infos[a].share, hash, infos[a].nonce, i) == Some(g) ==> check(a, hash, g)
  }

  /** Input `i` of the transaction spends `o`, which pays `sats` to `address`, and its witness is a signature that passes the
      check against that address, over the hash of this transaction's outpoints and outputs, that output and this index. */
  ghost predicate Unlocks(s: Services, check: (Address, seq<byte>, Signature) -> bool, tx: Transaction, i: nat, o: OutPoint,
                          address: Address, sats: u64)
    requires i < |tx.inputs|
  {
    exists prevouts, hash, g ::
      && |prevouts| == |tx.inputs| && (forall k :: 0 <= k < |prevouts| ==> prevouts[k] == tx.inputs[k].outpoint)
      && s.sighash(prevouts, tx.outputs, address, sats, i) == Some(hash)
      && tx.inputs[i] == TxIn(o, Some(AllAnyoneCanPay(g))) && check(address, hash, g)
  }

  ghost predicate UnlocksSelected(s: Services, check: (Address, seq<byte>, Signature) -> bool, tx: Transaction,
                                  us: seq<Utxo>, i: nat)
    requires 1 <= i <= |us| && i < |tx.inputs|
  {
    Unlocks(s, check, tx, i, us[i - 1].outpoint, us[i - 1].address, us[i - 1].satsAmount)
  }

  /** Every input after the paying one is accepted for the output selected for it. */
  ghost predicate Accepted(s: Services, check: (Address, seq<byte>, Signature) -> bool, tx: Transaction, us: seq<Utxo>) {
    |tx.inputs| == |us| + 1
    && forall i :: 1 <= i <= |us| ==> UnlocksSelected(s, check, tx, us, i)
  }

  /** Every input after the paying one spends a row of the table and is accepted for the address and value of that row. */
  ghost predicate AcceptedFor(s: Services, check: (Address, seq<byte>, Signature) -> bool, tx: Transaction, rows: Rows) {
    forall i :: 1 <= i < |tx.inputs| ==>
      var o := tx.inputs[i].outpoint;
      o in rows && Unlocks(s, check, tx, i, o, rows[o].address, ToU64(rows[o].satsAmount))
  }

  lemma CompleteIsAccepted(s: Services, infos: map<Address, DepositInfo>, check: (Address, seq<byte>, Signature) -> bool,
                           tx: Transaction, us: seq<Utxo>, paying: PayingInput, transfers: seq<Transfer>, rune: RuneId)
    requires Complete(s, infos, tx, us, paying, transfers, rune) && Checks(s, infos, check)
    ensures Accepted(s, check, tx, us)
  {
    hide PartialTransaction;
    forall i | 1 <= i <= |us| ensures UnlocksSelected(s, check, tx, us, i) {
      assert SignedInput(s, infos, tx, us, i);
      var u, prevouts := us[i - 1], Prevouts(tx);
      var hash := s.sighash(prevouts, tx.outputs, u.address, u.satsAmount, i).value;
      var g := s.sign(infos[u.address].share, hash, infos[u.address].nonce, i).value;
      assert check(u.address, hash, g);
    }
  }

  lemma SelectedAreRows(rows: Rows, locked: set<OutPoint>, rune: RuneId, cs: seq<Utxo>, target: u64, us: seq<Utxo>)
    requires IsCandidates(rows, locked, rune, cs) && Pick(cs, target).Success? && Returned(us, Pick(cs, target).value)
    ensures forall u :: u in us ==>
              u.outpoint in rows && u.address == rows[u.outpoint].address && u.satsAmount == ToU64(rows[u.outpoint].satsAmount)
  {
    forall u | u in us
      ensures u.outpoint in rows && u.address == rows[u.outpoint].address
      ensures u.satsAmount == ToU64(rows[u.outpoint].satsAmount)
    {
      var v :| v in Pick(cs, target).value && u == v.(status := Spent);
      var i :| 0 <= i < |cs| && cs[i] == v;
      assert IsCandidate(rows, locked, rune, cs[i]);
    }
  }

  lemma AcceptedForRows(s: Services, check: (Address, seq<byte>, Signature) -> bool, tx: Transaction, us: seq<Utxo>,
                        rows: Rows)
    requires Accepted(s, check, tx, us)
    requires forall u :: u in us ==>
               u.outpoint in rows && u.address == rows[u.outpoint].address && u.satsAmount == ToU64(rows[u.outpoint].satsAmount)
    ensures AcceptedFor(s, check, tx, rows)
  {
    forall i | 1 <= i < |tx.inputs|
      ensures var o := tx.inputs[i].outpoint;
              o in rows && Unlocks(s, check, tx, i, o, rows[o].address, ToU64(rows[o].satsAmount))
    {
      var u := us[i - 1];
      assert u in us && UnlocksSelected(s, check, tx, us, i);
    }
  }

  function ChangeRow(address: Address, rune: RuneId, change: u64): Row {
    Row(address, ToI64(change), rune, Confirmed, ToI64(DUST_AMOUNT))
  }

  /** What an exit has done. */
  datatype Exit = Exit(info: DepositInfo, rune: RuneId, exitAddress: Address, changeAddress: Address, paying: PayingInput,
                       candidates: seq<Utxo>, selected: seq<Utxo>, total: u64, tx: Transaction)

  method CreateTransaction(us: seq<Utxo>, paying: PayingInput, transfers: seq<Transfer>, rune: RuneId)
    returns (tx: Transaction)
    ensures tx == PartialTransaction(OutPointsOf(us), paying, transfers, rune)
  {
    tx := CreateRunePartialTransaction(OutPointsOf(us), paying, transfers, rune);
  }

  /** Signs the inputs from 1 on, each for its selected output. */
  method SignInputs(s: Services, infos: map<Address, DepositInfo>, partial: Transaction, us: seq<Utxo>,
                    paying: PayingInput, transfers: seq<Transfer>, rune: RuneId)
    returns (r: Result<Transaction, FlowError>)
    requires partial == PartialTransaction(OutPointsOf(us), paying, transfers, rune)
    ensures r.Success? <==> CanSign(s, infos, partial, us)
    ensures r.Success? ==> Complete(s, infos, r.value, us, paying, transfers, rune)
    ensures r.Success? ==> forall check :: Checks(s, infos, check) ==> Accepted(s, check, r.value, us)
  {
    hide Checks, Accepted;
    var tx := partial;
    for i := 1 to |tx.inputs|
      invariant |tx.inputs| == |us| + 1 && tx.outputs == partial.outputs && Prevouts(tx) == Prevouts(partial)
      invariant tx.inputs[0] == partial.inputs[0]
      invariant forall j :: 1 <= j < i ==> SignedInput(s, infos, tx, us, j)
    {
      var address := us[i - 1].address;
      SameHashes(s, infos, tx, partial, us[i - 1], i);
      var hash := s.sighash(Prevouts(tx), tx.outputs, address, us[i - 1].satsAmount, i);
      assert CanSignInput(s, infos, partial, us, i) <==> SignatureFor(s, infos, partial, us[i - 1], i).Some?;
      if hash.None? {
        return Failure(Hashing);
      }
      if address !in infos {
        return Failure(InfoNotFound);
      }
      var signature := s.sign(infos[address].share, hash.value, infos[address].nonce, i);
      if signature.None? {
        return Failure(Signing);
      }
      SpentAt(tx, partial, i);
      SigningKeepsOthers(s, infos, tx, us, i, signature.value);
      tx := WithSignature(tx, i, signature.value);
    }
    forall i | 1 <= i <= |us| ensures CanSignInput(s, infos, partial, us, i) {
      assert SignedInput(s, infos, tx, us, i);
      SameHashes(s, infos, tx, partial, us[i - 1], i);
    }
    forall check | Checks(s, infos, check) ensures Accepted(s, check, tx, us) {
      CompleteIsAccepted(s, infos, check, tx, us, paying, transfers, rune);
    }
    return Success(tx);
  }

  lemma SameHashes(s: Services, infos: map<Address, DepositInfo>, tx: Transaction, partial: Transaction, u: Utxo, i: nat)
    requires Prevouts(tx) == Prevouts(partial) && tx.outputs == partial.outputs
    ensures SignatureFor(s, infos, tx, u, i) == SignatureFor(s, infos, partial, u, i)
  {
  }

  /** A complete transaction exists only if every input can be signed, and then there is one. */
  lemma CompleteIsUnique(s: Services, infos: map<Address, DepositInfo>, tx: Transaction, tx': Transaction, us: seq<Utxo>,
                         paying: PayingInput, transfers: seq<Transfer>, rune: RuneId)
    requires Complete(s, infos, tx, us, paying, transfers, rune)
    ensures CanSign(s, infos, PartialTransaction(OutPointsOf(us), paying, transfers, rune), us)
    ensures Complete(s, infos, tx', us, paying, transfers, rune) ==> tx == tx'
  {
    var partial := PartialTransaction(OutPointsOf(us), paying, transfers, rune);
    forall i | 1 <= i <= |us| ensures CanSignInput(s, infos, partial, us, i) {
      assert SignedInput(s, infos, tx, us, i);
      SameHashes(s, infos, tx, partial, us[i - 1], i);
    }
    if Complete(s, infos, tx', us, paying, transfers, rune) {
      forall i | 1 <= i <= |us| ensures tx.inputs[i] == tx'.inputs[i] {
        assert SignedInput(s, infos, tx, us, i) && SignedInput(s, infos, tx', us, i);
        SameHashes(s, infos, tx, tx', us[i - 1], i);
      }
      assert tx.inputs == tx'.inputs;
    }
  }

  lemma SpentAt(tx: Transaction, partial: Transaction, i: nat)
    requires i < |tx.inputs| && Prevouts(tx) == Prevouts(partial)
    ensures i < |partial.inputs| && tx.inputs[i].outpoint == partial.inputs[i].outpoint
  {
    assert |Prevouts(tx)| == |tx.inputs|;
    assert Prevouts(tx)[i] == Prevouts(partial)[i];
  }

  /** A signature changes no hash: the hash is taken over what is spent and the outputs. */
  lemma SigningKeepsOthers(s: Services, infos: map<Address, DepositInfo>, tx: Transaction, us: seq<Utxo>, i: nat,
                           signature: Signature)
    requires 1 <= i < |tx.inputs| == |us| + 1
    ensures Prevouts(WithSignature(tx, i, signature)) == Prevouts(tx)
    ensures forall j :: 1 <= j < |tx.inputs| && j != i && SignedInput(s, infos, tx, us, j) ==>
              SignedInput(s, infos, WithSignature(tx, i, signature), us, j)
  {
  }

  // ----- When an exit succeeds -----

  /** A nonce in use keeps its row; an address in use under another nonce is refused. */
  function InsertInfo(infos: map<Address, DepositInfo>, address: Address, info: DepositInfo)
    : Option<map<Address, DepositInfo>> {
    if exists a :: a in infos && infos[a].nonce == info.nonce then Some(infos)
    else if address in infos then None
    else Some(infos[address := info])
  }

  /** The address for the change, with the deposit addresses once it is recorded; the exit address stands in when there
      is no change. */
  function ChangeFor(s: Services, infos: map<Address, DepositInfo>, info: DepositInfo, nonce: Nonce, total: u64,
                     exitAddress: Address): Option<(Address, map<Address, DepositInfo>)> {
    if total <= info.amount then Some((exitAddress, infos))
    else
      var derived := s.changeAddress(info.share, nonce);
      if derived.None? then None
      else
        var inserted := InsertInfo(infos, derived.value, DepositInfo(info.share, nonce, None, total - info.amount));
        if inserted.None? then None else Some((derived.value, inserted.value))
  }

  /** The deposit addresses once the change, if it has one, is recorded; a later failure does not take it back. */
  function InfosAfter(s: Services, infos: map<Address, DepositInfo>, info: DepositInfo, nonce: Nonce, total: u64,
                      exitAddress: Address): map<Address, DepositInfo> {
    var change := ChangeFor(s, infos, info, nonce, total, exitAddress);
    if change.Some? then change.value.1 else infos
  }

  /** The change has an address, a complete transaction exists and the network takes it. */
  ghost predicate Settles(s: Services, infos: map<Address, DepositInfo>, info: DepositInfo, rune: RuneId, exitAddress: Address,
                          paying: PayingInput, us: seq<Utxo>, total: u64, nonce: Nonce) {
    var change := ChangeFor(s, infos, info, nonce, total, exitAddress);
    change.Some? &&
    exists tx :: Complete(s, change.value.1, tx, us, paying, ExitTransfers(exitAddress, change.value.0, info.amount, total), rune)
                 && s.broadcast(tx)
  }

  lemma ExitAccepted(s: Services, infos: map<Address, DepositInfo>, rows: Rows, locked: set<OutPoint>, e: Exit,
                     transfers: seq<Transfer>)
    requires IsCandidates(rows, locked, e.rune, e.candidates) && Pick(e.candidates, e.info.amount).Success?
    requires Returned(e.selected, Pick(e.candidates, e.info.amount).value)
    requires Complete(s, infos, e.tx, e.selected, e.paying, transfers, e.rune)
    ensures forall check :: Checks(s, infos, check) ==> AcceptedFor(s, check, e.tx, rows)
  {
    hide Checks, Accepted, AcceptedFor, Complete;
    SelectedAreRows(rows, locked, e.rune, e.candidates, e.info.amount, e.selected);
    hide IsCandidates, Pick, Returned;
    forall check | Checks(s, infos, check) ensures AcceptedFor(s, check, e.tx, rows) {
      CompleteIsAccepted(s, infos, check, e.tx, e.selected, e.paying, transfers, e.rune);
      AcceptedForRows(s, check, e.tx, e.selected, rows);
    }
  }

  /** Without change, nothing is recorded. Otherwise the change goes to the address derived for the nonce, which is recorded with
      the rest of the amount, unless the nonce is in use. */
  ghost predicate ChangeRecorded(s: Services, infos: map<Address, DepositInfo>, info: DepositInfo, nonce: Nonce, total: u64,
                                 exitAddress: Address, change: Address, infos': map<Address, DepositInfo>) {
    if total <= info.amount then change == exitAddress && infos' == infos
    else
      && s.changeAddress(info.share, nonce) == Some(change)
      && ((exists a :: a in infos && infos[a].nonce == nonce) ==> infos' == infos)
      && ((forall a :: a in infos ==> infos[a].nonce != nonce) ==>
            change !in infos && infos' == infos[change := DepositInfo(info.share, nonce, None, total - info.amount)])
  }

  lemma ChangeIs(s: Services, infos: map<Address, DepositInfo>, info: DepositInfo, nonce: Nonce, total: u64,
                 exitAddress: Address)
    ensures var change := ChangeFor(s, infos, info, nonce, total, exitAddress);
            change.Some? ==> ChangeRecorded(s, infos, info, nonce, total, exitAddress, change.value.0, change.value.1)
  {
  }

  /** The rows afterwards: the spent ones marked, the change added if there is any, all others as they were. */
  ghost predicate RowsAre(before: Rows, spent: set<OutPoint>, at: OutPoint, change: Option<Row>, after: Rows) {
    && after.Keys == before.Keys + (if change.Some? then {at} else {})
    && forall o :: o in after ==>
         after[o] == if change.Some? && o == at then change.value else if o in spent then before[o].(status := Spent) else before[o]
  }

  lemma RowsAfter(s: Services, rows: Rows, e: Exit)
    ensures RowsAre(rows, OutPoints(e.selected), OutPoint(s.txid(Prevouts(e.tx), e.tx.outputs), 1),
                    if e.total > e.info.amount
                    then Some(Row(e.changeAddress, ToI64(e.total - e.info.amount), e.rune, Confirmed, 546)) else None,
                    AfterExit(s, rows, e))
  {
    hide OutPoints, Prevouts;
  }

  class ExitRouter {
    const services: Services
    const table: UtxoTable
    const users: map<ShareId, RuneId>
    const payingUtxos: map<Address, PayingInput>
    var depositInfos: map<Address, DepositInfo>

    constructor (services: Services, table: UtxoTable, users: map<ShareId, RuneId>,
                 payingUtxos: map<Address, PayingInput>, infos: map<Address, DepositInfo>)
      ensures this.services == services && this.table == table && this.users == users && this.payingUtxos == payingUtxos
      ensures depositInfos == infos
    {
      this.services, this.table, this.users, this.payingUtxos := services, table, users, payingUtxos;
      depositInfos := infos;
    }

    method InsertDepositInfo(address: Address, info: DepositInfo) returns (ok: bool)
      modifies this`depositInfos
      ensures ok <==> InsertInfo(old(depositInfos), address, info).Some?
      ensures depositInfos == if ok then InsertInfo(old(depositInfos), address, info).value else old(depositInfos)
    {
      if exists a :: a in depositInfos && depositInfos[a].nonce == info.nonce {
        return true;
      }
      if address in depositInfos {
        return false;
      }
      depositInfos := depositInfos[address := info];
      return true;
    }

    /** The deposit is known, with its user, an exit address and an input to pay the fee. */
    predicate CanPrepare(spark: Address)
      reads this
    {
      spark in depositInfos && var info := depositInfos[spark];
      info.share in users && info.bridge.Some? && info.bridge.value in payingUtxos
    }

    predicate Prepared(spark: Address, e: Exit)
      reads this
    {
      && CanPrepare(spark) && e.info == depositInfos[spark] && e.rune == users[e.info.share]
      && e.exitAddress == e.info.bridge.value && e.paying == payingUtxos[e.exitAddress]
    }

    method ChangeAddress(info: DepositInfo, nonce: Nonce, total: u64, exitAddress: Address)
      returns (r: Result<Address, FlowError>)
      modifies this`depositInfos
      ensures var change := ChangeFor(services, old(depositInfos), info, nonce, total, exitAddress);
              && (r.Success? <==> change.Some?)
              && (r.Success? ==> change.value == (r.value, depositInfos))
              && (r.Failure? ==> depositInfos == old(depositInfos))
    {
      if total <= info.amount {
        return Success(exitAddress);
      }
      var derived := services.changeAddress(info.share, nonce);
      if derived.None? {
        return Failure(Aggregator);
      }
      var inserted := InsertDepositInfo(derived.value, DepositInfo(info.share, nonce, None, total - info.amount));
      return if inserted then Success(derived.value) else Failure(AddressTaken);
    }

    /** Everything after the selection. */
    method Settle(info: DepositInfo, rune: RuneId, exitAddress: Address, paying: PayingInput, us: seq<Utxo>, total: u64,
                  nonce: Nonce)
      returns (r: Result<(), FlowError>, change: Address, tx: Transaction)
      modifies this`depositInfos, table
      ensures r.Success? <==> Settles(services, old(depositInfos), info, rune, exitAddress, paying, us, total, nonce)
      ensures depositInfos == InfosAfter(services, old(depositInfos), info, nonce, total, exitAddress)
      ensures r.Success? ==>
                && ChangeFor(services, old(depositInfos), info, nonce, total, exitAddress) == Some((change, depositInfos))
                && Complete(services, depositInfos, tx, us, paying, ExitTransfers(exitAddress, change, info.amount, total), rune)
                && table.rows == WithChange(services, old(table.rows), tx, change, rune, info.amount, total)
      ensures r.Failure? ==> table.rows == old(table.rows)
    {
      hide Complete, PartialTransaction, ExitTransfers, ChangeFor, CanSign;
      change, tx := exitAddress, Transaction([], []);
      var derived := ChangeAddress(info, nonce, total, exitAddress);
      if derived.Failure? {
        r := Failure(derived.error);
        return;
      }
      change := derived.value;
      var transfers := ExitTransfers(exitAddress, change, info.amount, total);
      tx := CreateTransaction(us, paying, transfers, rune);
      var signed := SignInputs(services, depositInfos, tx, us, paying, transfers, rune);
      forall other, another | Complete(services, depositInfos, other, us, paying, transfers, rune)
        ensures CanSign(services, depositInfos, PartialTransaction(OutPointsOf(us), paying, transfers, rune), us)
        ensures Complete(services, depositInfos, another, us, paying, transfers, rune) ==> other == another
      {
        CompleteIsUnique(services, depositInfos, other, another, us, paying, transfers, rune);
      }
      if signed.Failure? {
        r := Failure(signed.error);
        return;
      }
      tx := signed.value;
      if !services.broadcast(tx) {
        r := Failure(Broadcast);
        return;
      }
      if total > info.amount {
        var u := Utxo(OutPoint(services.txid(Prevouts(tx), tx.outputs), 1), change, total - info.amount, rune, Confirmed, DUST_AMOUNT);
        var _ := table.InsertUtxo(u);
      }
      r := Success(());
    }

    /** `locked` are the rows that other transactions have locked. An exit that cannot be prepared, or lacks funds, changes
        no row; after that its selection is spent, and it succeeds exactly when it settles. */
    method Handle(spark: Address, nonce: Nonce, locked: set<OutPoint>) returns (r: Result<(), FlowError>, ghost e: Exit)
      modifies this, table
      ensures !old(CanPrepare(spark)) ==> r.Failure? && table.rows == old(table.rows) && depositInfos == old(depositInfos)
      ensures old(CanPrepare(spark)) ==>
                old(Prepared(spark, e)) && IsCandidates(old(table.rows), locked, e.rune, e.candidates)
      ensures old(CanPrepare(spark)) && Pick(e.candidates, e.info.amount).Failure? ==>
                && r == Failure(Database(Pick(e.candidates, e.info.amount).error))
                && table.rows == old(table.rows) && depositInfos == old(depositInfos)
      ensures old(CanPrepare(spark)) && Pick(e.candidates, e.info.amount).Success? ==>
                && Returned(e.selected, Pick(e.candidates, e.info.amount).value) && e.total == Sum(e.selected) >= e.info.amount
                && (r.Success? <==>
                      Settles(services, old(depositInfos), e.info, e.rune, e.exitAddress, e.paying, e.selected, e.total, nonce))
                && depositInfos == InfosAfter(services, old(depositInfos), e.info, nonce, e.total, e.exitAddress)
                && table.rows == if r.Success? then AfterExit(services, old(table.rows), e)
                                 else MarkSpent(old(table.rows), OutPoints(e.selected))
      ensures r.Success? ==>
                && ChangeFor(services, old(depositInfos), e.info, nonce, e.total, e.exitAddress) == Some((e.changeAddress, depositInfos))
                && Complete(services, depositInfos, e.tx, e.selected, e.paying,
                            ExitTransfers(e.exitAddress, e.changeAddress, e.info.amount, e.total), e.rune)
      ensures r.Success? ==> forall check :: Checks(services, depositInfos, check) ==> AcceptedFor(services, check, e.tx, old(table.rows))
      ensures r.Success? ==>
                && ChangeRecorded(services, old(depositInfos), e.info, nonce, e.total, e.exitAddress, e.changeAddress, depositInfos)
                && RowsAre(old(table.rows), OutPoints(e.selected), OutPoint(services.txid(Prevouts(e.tx), e.tx.outputs), 1),
                           if e.total > e.info.amount
                           then Some(Row(e.changeAddress, ToI64(e.total - e.info.amount), e.rune, Confirmed, 546)) else None, table.rows)
    {
      hide Checks, AcceptedFor, InfosAfter, ChangeRecorded, RowsAre;
      hide IsCandidates, Complete, Returned, Pick, ExitTransfers, OutPoints, MarkSpent, Sum, Settles, ChangeFor;
      e := Exit(DepositInfo(0, 0, None, 0), 0, 0, 0, PayingInput(OutPoint(0, 0), 0, 0, 0), [], [], 0, Transaction([], []));
      var exitAddress, rune, paying, prepared := Prepare(spark);
      if prepared.Failure? {
        return Failure(prepared.error), e;
      }
      var info := depositInfos[spark];
      ghost var before := table.rows;
      var selection, candidates := table.SelectUtxosForAmount(rune, info.amount, locked);
      e := Exit(info, rune, exitAddress, exitAddress, paying, candidates, [], 0, Transaction([], []));
      if selection.Failure? {
        return Failure(Database(selection.error)), e;
      }
      var us := selection.value;
      SelectedTotal(before, locked, rune, candidates, info.amount, us);
      var total := SumOf(us);
      var settled, change, tx := Settle(info, rune, exitAddress, paying, us, total, nonce);
      e := Exit(info, rune, exitAddress, change, paying, candidates, us, total, tx);
      if settled.Success? {
        ChangeIs(services, old(depositInfos), info, nonce, total, exitAddress);
        RowsAfter(services, before, e);
        ExitAccepted(services, depositInfos, before, locked, e, ExitTransfers(exitAddress, change, info.amount, total));
      }
      return settled, e;
    }

    method Prepare(spark: Address)
      returns (exitAddress: Address, rune: RuneId, paying: PayingInput, r: Result<(), FlowError>)
      ensures r.Success? <==> CanPrepare(spark)
      ensures r.Success? ==>
                && rune == users[depositInfos[spark].share] && exitAddress == depositInfos[spark].bridge.value
                && paying == payingUtxos[exitAddress]
    {
      exitAddress, rune, paying := 0, 0, PayingInput(OutPoint(0, 0), 0, 0, 0);
      if spark !in depositInfos {
        r := Failure(InfoNotFound);
        return;
      }
      var info := depositInfos[spark];
      if info.share !in users {
        r := Failure(InfoNotFound);
        return;
      }
      rune := users[info.share];
      if info.bridge.None? {
        r := Failure(NoBridgeAddress);
        return;
      }
      exitAddress := info.bridge.value;
      if exitAddress !in payingUtxos {
        r := Failure(InfoNotFound);
        return;
      }
      paying := payingUtxos[exitAddress];
      r := Success(());
    }
  }

  /** The change, if any, recorded at output 1 of the transaction. */
  ghost function WithChange(s: Services, rows: Rows, tx: Transaction, change: Address, rune: RuneId, amount: u64,
                            total: u64): Rows {
    if total > amount then rows[OutPoint(s.txid(Prevouts(tx), tx.outputs), 1) := ChangeRow(change, rune, total - amount)] else rows
  }

  /** The table after a successful exit. */
  ghost function AfterExit(s: Services, rows: Rows, e: Exit): Rows {
    WithChange(s, MarkSpent(rows, OutPoints(e.selected)), e.tx, e.changeAddress, e.rune, e.info.amount, e.total)
  }

  method SumOf(us: seq<Utxo>) returns (total: u64)
    requires Sum(us) < TWO_64
    ensures total == Sum(us)
  {
    total := 0;
    for n := 0 to |us|
      invariant total == Sum(us[..n])
    {
      assert us[..n + 1][..n] == us[..n];
      SumPrefix(us, n + 1);
      total := total + us[n].runeAmount;
    }
    assert us[..|us|] == us;
  }

  lemma SumPrefix(us: seq<Utxo>, n: nat)
    requires n <= |us|
    ensures Sum(us[..n]) <= Sum(us)
  {
    if n == |us| {
      assert us[..n] == us;
    } else {
      assert us[..|us| - 1][..n] == us[..n];
      SumPrefix(us[..|us| - 1], n);
    }
  }

  /** The order in which the update returns the rows does not change their sum. */
  lemma SelectedTotal(rows: Rows, locked: set<OutPoint>, rune: RuneId, cs: seq<Utxo>, target: u64, us: seq<Utxo>)
    requires IsCandidates(rows, locked, rune, cs) && Pick(cs, target).Success? && Returned(us, Pick(cs, target).value)
    ensures Sum(us) == Sum(Pick(cs, target).value) && target <= Sum(us) < TWO_64
    ensures OutPoints(us) == OutPoints(Pick(cs, target).value)
  {
    CandidatesAreRows(rows, locked, rune, cs, Needed(cs, target));
    Laws.ReturnedSum(rows, us, cs[..Needed(cs, target)]);
  }
}

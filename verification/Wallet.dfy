/** The federation's wallet: its transactions, its outputs, and the payments made from them. */
module Wallet {
  import opened Util
  import opened Bitcoin
  import opened Tapscript

  const TRANSACTION_VERSION := 2
  const LOCK_TIME: nat := 0

  datatype TxIn = TxIn(previousOutput: OutPoint, witnesses: seq<Item>)

  datatype Transaction = Transaction(version: int, lockTime: nat, inputs: seq<TxIn>, outputs: seq<TxOut>)

  datatype Error =
    | DbError | MissingPegoutProposal | InvalidChangeOutput | InvalidPegoutOutputCount | InvalidPegoutOutput
    | UnspendableInput | InvalidTransactionHeader | FeesExceedPegoutValue | UnknownOrSpentInput

  datatype Utxo = Utxo(txout: TxOut, isSpent: bool)

  type Utxos = map<OutPoint, Utxo>

  function Spends(inputs: seq<TxIn>): (ops: seq<OutPoint>)
    ensures |ops| == |inputs| && forall i :: 0 <= i < |ops| ==> ops[i] == inputs[i].previousOutput
  {
    if inputs == [] then [] else [inputs[0].previousOutput] + Spends(inputs[1..])
  }

  function TxidOf(tx: Transaction): Txid {
    Txid(tx.version, tx.lockTime, Spends(tx.inputs), tx.outputs)
  }

  predicate Spendable(utxos: Utxos, op: OutPoint) {
    op in utxos && !utxos[op].isSpent
  }

  // ---- Registering transactions

  /** The wallet after recording the first `n` outputs that pay the federation. */
  function WithOutputs(utxos: Utxos, tx: Transaction, federation: ScriptPubKey, n: nat): Utxos
    requires n <= |tx.outputs|
  {
    if n == 0 then utxos
    else
      var before := WithOutputs(utxos, tx, federation, n - 1);
      var out := tx.outputs[n - 1];
      if out.scriptPubKey == federation then before[OutPoint(TxidOf(tx), n - 1) := Utxo(out, false)] else before
  }

  /** The wallet after marking the first `n` inputs spent; stops at one it does not know. */
  function WithSpent(utxos: Utxos, tx: Transaction, n: nat): Utxos
    requires n <= |tx.inputs|
  {
    if n == 0 then utxos
    else
      var before := WithSpent(utxos, tx, n - 1);
      var op := tx.inputs[n - 1].previousOutput;
      if op in before && Known(utxos, tx, n - 1) then before[op := before[op].(isSpent := true)] else before
  }

  predicate Known(utxos: Utxos, tx: Transaction, n: nat)
    requires n <= |tx.inputs|
  {
    forall i :: 0 <= i < n ==> tx.inputs[i].previousOutput in utxos
  }

  function AfterPegout(utxos: Utxos, tx: Transaction, federation: ScriptPubKey): Utxos {
    var spent := WithSpent(utxos, tx, |tx.inputs|);
    if Known(utxos, tx, |tx.inputs|) then WithOutputs(spent, tx, federation, |tx.outputs|) else spent
  }

  // ---- Balance

  function Worth(u: Utxo): nat {
    if u.isSpent then 0 else u.txout.value
  }

  ghost function Balance(utxos: Utxos): nat
    decreases |utxos|
  {
    if utxos == map[] then 0
    else
      var op :| op in utxos;
      Worth(utxos[op]) + Balance(utxos - {op})
  }

  lemma {:induction false} BalanceSplit(utxos: Utxos, op: OutPoint)
    requires op in utxos
    ensures Balance(utxos) == Worth(utxos[op]) + Balance(utxos - {op})
    decreases |utxos|
  {
    var p :| p in utxos && Balance(utxos) == Worth(utxos[p]) + Balance(utxos - {p});
    if p != op {
      BalanceSplit(utxos - {p}, op);
      BalanceSplit(utxos - {op}, p);
      assert utxos - {p} - {op} == utxos - {op} - {p};
    }
  }

  lemma BalanceUpdate(utxos: Utxos, op: OutPoint, u: Utxo)
    ensures Balance(utxos[op := u]) + (if op in utxos then Worth(utxos[op]) else 0) == Balance(utxos) + Worth(u)
  {
    BalanceSplit(utxos[op := u], op);
    assert utxos[op := u] - {op} == utxos - {op};
    if op in utxos { BalanceSplit(utxos, op); } else { assert utxos - {op} == utxos; }
  }

  function FederationValue(outputs: seq<TxOut>, federation: ScriptPubKey, n: nat): nat
    requires n <= |outputs|
  {
    if n == 0 then 0
    else FederationValue(outputs, federation, n - 1)
         + if outputs[n - 1].scriptPubKey == federation then outputs[n - 1].value else 0
  }

  predicate FreshOutputs(utxos: Utxos, tx: Transaction) {
    forall op :: op in utxos ==> op.txid != TxidOf(tx)
  }

  /** Recording a transaction's outputs adds what it pays the federation, and touches nothing else. */
  lemma {:induction false} OutputsAddTheirValue(utxos: Utxos, tx: Transaction, federation: ScriptPubKey, n: nat)
    requires FreshOutputs(utxos, tx) && n <= |tx.outputs|
    ensures Balance(WithOutputs(utxos, tx, federation, n))
         == Balance(utxos) + FederationValue(tx.outputs, federation, n)
    ensures forall op :: op in utxos ==> op in WithOutputs(utxos, tx, federation, n)
                                         && WithOutputs(utxos, tx, federation, n)[op] == utxos[op]
    ensures forall op :: op in WithOutputs(utxos, tx, federation, n) && op !in utxos ==>
              op.txid == TxidOf(tx) && op.vout < n
  {
    if n > 0 {
      OutputsAddTheirValue(utxos, tx, federation, n - 1);
      var before := WithOutputs(utxos, tx, federation, n - 1);
      BalanceUpdate(before, OutPoint(TxidOf(tx), n - 1), Utxo(tx.outputs[n - 1], false));
    }
  }

  function InputValue(utxos: Utxos, tx: Transaction, n: nat): nat
    requires n <= |tx.inputs| && Known(utxos, tx, n)
  {
    if n == 0 then 0 else InputValue(utxos, tx, n - 1) + utxos[tx.inputs[n - 1].previousOutput].txout.value
  }

  predicate DistinctInputs(tx: Transaction) {
    forall i, j :: 0 <= i < j < |tx.inputs| ==> tx.inputs[i].previousOutput != tx.inputs[j].previousOutput
  }

  predicate SpendableInputs(utxos: Utxos, tx: Transaction) {
    forall i :: 0 <= i < |tx.inputs| ==> Spendable(utxos, tx.inputs[i].previousOutput)
  }

  /** Marking spendable inputs spent takes exactly their value out of the balance. */
  lemma {:induction false} SpendingTakesItsValue(utxos: Utxos, tx: Transaction, n: nat)
    requires DistinctInputs(tx) && SpendableInputs(utxos, tx) && n <= |tx.inputs|
    ensures Balance(WithSpent(utxos, tx, n)) + InputValue(utxos, tx, n) == Balance(utxos)
    ensures WithSpent(utxos, tx, n).Keys == utxos.Keys
    ensures forall i :: n <= i < |tx.inputs| ==>
              Spendable(WithSpent(utxos, tx, n), tx.inputs[i].previousOutput)
              && WithSpent(utxos, tx, n)[tx.inputs[i].previousOutput] == utxos[tx.inputs[i].previousOutput]
    ensures forall i :: 0 <= i < n ==> !Spendable(WithSpent(utxos, tx, n), tx.inputs[i].previousOutput)
  {
    if n > 0 {
      SpendingTakesItsValue(utxos, tx, n - 1);
      var before, op := WithSpent(utxos, tx, n - 1), tx.inputs[n - 1].previousOutput;
      BalanceUpdate(before, op, before[op].(isSpent := true));
    }
  }

  /** Registering a pegout changes the balance by exactly minus its inputs plus what it pays back to the
      federation, and its inputs cannot be spent again. */
  lemma PegoutChangesBalance(utxos: Utxos, tx: Transaction, federation: ScriptPubKey)
    requires DistinctInputs(tx) && SpendableInputs(utxos, tx) && FreshOutputs(utxos, tx)
    ensures Balance(AfterPegout(utxos, tx, federation)) + InputValue(utxos, tx, |tx.inputs|)
         == Balance(utxos) + FederationValue(tx.outputs, federation, |tx.outputs|)
    ensures forall i :: 0 <= i < |tx.inputs| ==>
              !Spendable(AfterPegout(utxos, tx, federation), tx.inputs[i].previousOutput)
  {
    SpendingTakesItsValue(utxos, tx, |tx.inputs|);
    OutputsAddTheirValue(WithSpent(utxos, tx, |tx.inputs|), tx, federation, |tx.outputs|);
  }

  // ---- Payments

  predicate OutputOk(required: TxOut, actual: TxOut) {
    required.scriptPubKey == actual.scriptPubKey && actual.value <= required.value
  }

  /** `check_payment_proposal`, without outputs fetched from the Bitcoin network. */
  function CheckProposal(
      utxos: Utxos, required: seq<TxOut>, proposal: Option<Transaction>, federation: ScriptPubKey): Result<(), Error>
  {
    if proposal.None? then (if required == [] then Ok(()) else Err(MissingPegoutProposal))
    else
      var tx := proposal.value;
      var n := |tx.outputs|;
      if n == |required| + 1 && tx.outputs[n - 1].scriptPubKey != federation then Err(InvalidChangeOutput)
      else if n != |required| + 1 && n != |required| then Err(InvalidPegoutOutputCount)
      else if exists i :: 0 <= i < |required| && !OutputOk(required[i], tx.outputs[i]) then Err(InvalidPegoutOutput)
      else if !SpendableInputs(utxos, tx) then Err(UnspendableInput)
      else if tx.lockTime != LOCK_TIME || tx.version != TRANSACTION_VERSION then Err(InvalidTransactionHeader)
      else Ok(())
  }

  /** Exactly which proposals a member agrees to: every required output is paid to its own script and at most
      in full, one more output may return change to the federation, every input is an unspent output of the
      wallet, and version and lock time are the fixed ones. No proposal is needed when nothing is required. */
  lemma ProposalAcceptedIff(
      utxos: Utxos, required: seq<TxOut>, proposal: Option<Transaction>, federation: ScriptPubKey)
    ensures CheckProposal(utxos, required, proposal, federation).Ok? <==>
            match proposal
            case None => |required| == 0
            case Some(tx) =>
              && |required| <= |tx.outputs| <= |required| + 1
              && (forall i :: 0 <= i < |required| ==>
                    tx.outputs[i].scriptPubKey == required[i].scriptPubKey && tx.outputs[i].value <= required[i].value)
              && (forall i :: |required| <= i < |tx.outputs| ==> tx.outputs[i].scriptPubKey == federation)
              && (forall i :: 0 <= i < |tx.inputs| ==>
                    tx.inputs[i].previousOutput in utxos && !utxos[tx.inputs[i].previousOutput].isSpent)
              && tx.version == 2 && tx.lockTime == 0
  {
    if proposal.Some? {
      var tx := proposal.value;
      forall i | 0 <= i < |required| && |required| <= |tx.outputs|
        ensures OutputOk(required[i], tx.outputs[i]) <==>
                tx.outputs[i].scriptPubKey == required[i].scriptPubKey && tx.outputs[i].value <= required[i].value
      {}
    }
  }

  /** What a list of outputs pays to others than the federation. */
  function PaidOutside(outputs: seq<TxOut>, federation: ScriptPubKey): nat {
    if outputs == [] then 0
    else (if outputs[0].scriptPubKey == federation then 0 else outputs[0].value)
         + PaidOutside(outputs[1..], federation)
  }

  lemma {:induction false} PaysAtMost(outputs: seq<TxOut>, required: seq<TxOut>, federation: ScriptPubKey)
    requires |required| <= |outputs|
    requires forall i :: 0 <= i < |required| ==> outputs[i].value <= required[i].value
    requires forall i :: |required| <= i < |outputs| ==> outputs[i].scriptPubKey == federation
    ensures PaidOutside(outputs, federation) <= TotalValue(required)
  {
    if outputs != [] { PaysAtMost(outputs[1..], if required == [] then [] else required[1..], federation); }
  }

  /** A proposal that is agreed to never pays more out of the federation than was required. */
  lemma AcceptedPaysAtMostRequired(
      utxos: Utxos, required: seq<TxOut>, tx: Transaction, federation: ScriptPubKey)
    requires CheckProposal(utxos, required, Some(tx), federation).Ok?
    ensures PaidOutside(tx.outputs, federation) <= TotalValue(required)
  {
    ProposalAcceptedIff(utxos, required, Some(tx), federation);
    PaysAtMost(tx.outputs, required, federation);
  }

  /** What coin selection returns: the outputs to spend, and the change if any. */
  datatype Selection = Selection(selected: seq<OutPoint>, change: Option<nat>)

  /** Coin selection picks distinct outputs among the spendable ones it is offered. */
  predicate SelectsFrom(utxos: Utxos, sel: Selection) {
    && (forall i :: 0 <= i < |sel.selected| ==> Spendable(utxos, sel.selected[i]))
    && (forall i, j :: 0 <= i < j < |sel.selected| ==> sel.selected[i] != sel.selected[j])
  }

  function DivCeil(a: nat, b: nat): nat
    requires b > 0
  {
    if a % b == 0 then a / b else a / b + 1
  }

  /** The total deducted covers the fee and exceeds it by less than one unit per pegout. */
  lemma FeesAreCovered(totalFee: nat, n: nat)
    requires n > 0
    ensures totalFee <= n * DivCeil(totalFee, n) < totalFee + n
  {}

  function Inputs(selected: seq<OutPoint>): (inputs: seq<TxIn>)
    ensures |inputs| == |selected|
    ensures forall i :: 0 <= i < |inputs| ==> inputs[i] == TxIn(selected[i], [])
  {
    if selected == [] then [] else [TxIn(selected[0], [])] + Inputs(selected[1..])
  }

  function ChangeOutputs(sel: Selection, federation: ScriptPubKey): seq<TxOut> {
    if sel.change.Some? then [TxOut(federation, sel.change.value)] else []
  }

  /** `tx` pays each requested output less `fee`, spends the selection, and returns the change. */
  predicate PaysOut(tx: Transaction, outputs: seq<TxOut>, sel: Selection, fee: nat, federation: ScriptPubKey) {
    && tx.version == TRANSACTION_VERSION && tx.lockTime == LOCK_TIME
    && tx.inputs == Inputs(sel.selected)
    && |tx.outputs| == |outputs| + |ChangeOutputs(sel, federation)|
    && tx.outputs[|outputs|..] == ChangeOutputs(sel, federation)
    && forall i :: 0 <= i < |outputs| ==>
         tx.outputs[i].scriptPubKey == outputs[i].scriptPubKey && tx.outputs[i].value + fee == outputs[i].value
  }

  /** A payment the wallet makes passes the check every other member makes on it. */
  lemma PaymentPassesCheck(
      utxos: Utxos, tx: Transaction, outputs: seq<TxOut>, sel: Selection, fee: nat, federation: ScriptPubKey)
    requires SelectsFrom(utxos, sel) && PaysOut(tx, outputs, sel, fee, federation)
    ensures CheckProposal(utxos, outputs, Some(tx), federation) == Ok(())
    ensures DistinctInputs(tx)
  {}

  lemma {:induction false} NothingReturns(outputs: seq<TxOut>, federation: ScriptPubKey, n: nat)
    requires n <= |outputs| && forall i :: 0 <= i < n ==> outputs[i].scriptPubKey != federation
    ensures FederationValue(outputs, federation, n) == 0
  {
    if n > 0 { NothingReturns(outputs, federation, n - 1); }
  }

  /** A payment of the wallet to others costs it exactly what it spends less the change. */
  lemma PaymentCostsInputsLessChange(
      utxos: Utxos, tx: Transaction, outputs: seq<TxOut>, sel: Selection, fee: nat, federation: ScriptPubKey)
    requires SelectsFrom(utxos, sel) && PaysOut(tx, outputs, sel, fee, federation) && FreshOutputs(utxos, tx)
    requires forall i :: 0 <= i < |outputs| ==> outputs[i].scriptPubKey != federation
    ensures Known(utxos, tx, |tx.inputs|)
    ensures Balance(AfterPegout(utxos, tx, federation)) + InputValue(utxos, tx, |tx.inputs|)
         == Balance(utxos) + if sel.change.Some? then sel.change.value else 0
  {
    PaymentPassesCheck(utxos, tx, outputs, sel, fee, federation);
    PegoutChangesBalance(utxos, tx, federation);
    OnlyChangeReturns(tx, outputs, sel, fee, federation);
  }

  lemma OnlyChangeReturns(
      tx: Transaction, outputs: seq<TxOut>, sel: Selection, fee: nat, federation: ScriptPubKey)
    requires PaysOut(tx, outputs, sel, fee, federation)
    requires forall i :: 0 <= i < |outputs| ==> outputs[i].scriptPubKey != federation
    ensures FederationValue(tx.outputs, federation, |tx.outputs|) ==
            if sel.change.Some? then sel.change.value else 0
  {
    NothingReturns(tx.outputs, federation, |outputs|);
    if sel.change.Some? { assert tx.outputs[|outputs|] == tx.outputs[|outputs|..][0]; }
  }

  function TotalValue(outputs: seq<TxOut>): nat {
    if outputs == [] then 0 else outputs[0].value + TotalValue(outputs[1..])
  }

  lemma {:induction false} DeductedFromEach(outputs: seq<TxOut>, paid: seq<TxOut>, fee: nat)
    requires |paid| == |outputs| && forall i :: 0 <= i < |outputs| ==> paid[i].value + fee == outputs[i].value
    ensures TotalValue(paid) + |outputs| * fee == TotalValue(outputs)
  {
    if outputs != [] {
      DeductedFromEach(outputs[1..], paid[1..], fee);
      assert |outputs| * fee == fee + |outputs[1..]| * fee;
    }
  }

  /** What the pegouts receive in total falls short of what was requested by at least the fee and by less
      than the fee plus the number of pegouts. */
  lemma PegoutsBearTheFee(
      tx: Transaction, outputs: seq<TxOut>, sel: Selection, totalFee: nat, federation: ScriptPubKey)
    requires outputs != [] && PaysOut(tx, outputs, sel, DivCeil(totalFee, |outputs|), federation)
    ensures var received := TotalValue(tx.outputs[..|outputs|]);
            received + totalFee <= TotalValue(outputs) < received + totalFee + |outputs|
  {
    FeesAreCovered(totalFee, |outputs|);
    DeductedFromEach(outputs, tx.outputs[..|outputs|], DivCeil(totalFee, |outputs|));
  }

  // ---- The wallet object

  class UtxoManager {
    const federation: ScriptPubKey
    var txs: map<Txid, Transaction>
    var utxos: Utxos

    constructor (federation: ScriptPubKey)
      ensures this.federation == federation && txs == map[] && utxos == map[]
    {
      this.federation := federation;
      txs, utxos := map[], map[];
    }

    method RegisterOutputsFrom(tx: Transaction)
      modifies this`utxos
      ensures utxos == WithOutputs(old(utxos), tx, federation, |tx.outputs|)
    {
      for vout := 0 to |tx.outputs|
        invariant utxos == WithOutputs(old(utxos), tx, federation, vout)
      {
        if tx.outputs[vout].scriptPubKey == federation {
          utxos := utxos[OutPoint(TxidOf(tx), vout) := Utxo(tx.outputs[vout], false)];
        }
      }
    }

    method RegisterPegin(tx: Transaction)
      modifies this
      ensures txs == old(txs)[TxidOf(tx) := tx]
      ensures utxos == WithOutputs(old(utxos), tx, federation, |tx.outputs|)
    {
      txs := txs[TxidOf(tx) := tx];
      RegisterOutputsFrom(tx);
    }

    method RegisterPegout(tx: Transaction) returns (r: Result<(), Error>)
      modifies this
      ensures txs == old(txs)[TxidOf(tx) := tx]
      ensures utxos == AfterPegout(old(utxos), tx, federation)
      ensures r == if Known(old(utxos), tx, |tx.inputs|) then Ok(()) else Err(DbError)
    {
      txs := txs[TxidOf(tx) := tx];
      for i := 0 to |tx.inputs|
        invariant utxos == WithSpent(old(utxos), tx, i) && utxos.Keys == old(utxos).Keys
        invariant Known(old(utxos), tx, i) && txs == old(txs)[TxidOf(tx) := tx]
      {
        var op := tx.inputs[i].previousOutput;
        if op !in utxos {
          SpentStops(old(utxos), tx, i, |tx.inputs|);
          return Err(DbError);
        }
        utxos := utxos[op := utxos[op].(isSpent := true)];
      }
      RegisterOutputsFrom(tx);
      return Ok(());
    }

    method GetBalance() returns (total: nat)
      ensures total == Balance(utxos)
    {
      total := 0;
      var left := utxos;
      while left != map[]
        invariant total + Balance(left) == Balance(utxos)
        decreases |left|
      {
        var op :| op in left;
        BalanceSplit(left, op);
        total := total + if left[op].isSpent then 0 else left[op].txout.value;
        left := left - {op};
      }
    }

    method CheckPaymentProposal(required: seq<TxOut>, proposal: Option<Transaction>) returns (r: Result<(), Error>)
      ensures r == CheckProposal(utxos, required, proposal, federation)
    {
      if proposal.None? { return if required == [] then Ok(()) else Err(MissingPegoutProposal); }
      var tx := proposal.value;
      var n := |tx.outputs|;
      if n == |required| + 1 {
        if tx.outputs[n - 1].scriptPubKey != federation { return Err(InvalidChangeOutput); }
      } else if n != |required| {
        return Err(InvalidPegoutOutputCount);
      }
      for i := 0 to |required|
        invariant forall j :: 0 <= j < i ==> OutputOk(required[j], tx.outputs[j])
      {
        if !OutputOk(required[i], tx.outputs[i]) { return Err(InvalidPegoutOutput); }
      }
      for i := 0 to |tx.inputs|
        invariant forall j :: 0 <= j < i ==> Spendable(utxos, tx.inputs[j].previousOutput)
      {
        if !Spendable(utxos, tx.inputs[i].previousOutput) { return Err(UnspendableInput); }
      }
      if tx.lockTime != LOCK_TIME || tx.version != TRANSACTION_VERSION { return Err(InvalidTransactionHeader); }
      return Ok(());
    }

    /** `totalFee` is the fee the rate gives for the transaction's weight. Fails when some pegout does not
        exceed its share of the fee. */
    method CreatePayment(outputs: seq<TxOut>, sel: Selection, totalFee: nat) returns (r: Result<Transaction, Error>)
      requires outputs != []
      ensures r.Ok? <==> forall i :: 0 <= i < |outputs| ==> outputs[i].value > DivCeil(totalFee, |outputs|)
      ensures r.Ok? ==> PaysOut(r.value, outputs, sel, DivCeil(totalFee, |outputs|), federation)
      ensures r.Err? ==> r.error == FeesExceedPegoutValue
    {
      var paid := outputs + ChangeOutputs(sel, federation);
      var fee := DivCeil(totalFee, |outputs|);
      for i := 0 to |outputs|
        invariant |paid| == |outputs| + |ChangeOutputs(sel, federation)|
        invariant paid[i..] == (outputs + ChangeOutputs(sel, federation))[i..]
        invariant forall j :: 0 <= j < i ==>
                    outputs[j].value > fee && paid[j] == outputs[j].(value := outputs[j].value - fee)
      {
        assert paid[i] == paid[i..][0] == outputs[i];
        if paid[i].value <= fee { return Err(FeesExceedPegoutValue); }
        paid := paid[i := paid[i].(value := paid[i].value - fee)];
      }
      assert paid[|outputs|..] == ChangeOutputs(sel, federation);
      return Ok(Transaction(TRANSACTION_VERSION, LOCK_TIME, Inputs(sel.selected), paid));
    }
  }

  lemma {:induction false} SpentStops(utxos: Utxos, tx: Transaction, i: nat, n: nat)
    requires i < n <= |tx.inputs| && tx.inputs[i].previousOutput !in utxos
    requires WithSpent(utxos, tx, i).Keys == utxos.Keys
    ensures WithSpent(utxos, tx, n) == WithSpent(utxos, tx, i)
  {
    if n > i + 1 { SpentStops(utxos, tx, i, n - 1); }
  }

  /** One of the first `n` inputs spends `op`. */
  predicate Spent(tx: Transaction, n: nat, op: OutPoint)
    requires n <= |tx.inputs|
  {
    exists j :: 0 <= j < n && tx.inputs[j].previousOutput == op
  }

  /** Registering stops at the first input the wallet does not know: the inputs before it are spent, everything
      else is as it was, and no output is recorded. */
  lemma UnknownInputStops(utxos: Utxos, tx: Transaction, federation: ScriptPubKey, i: nat)
    requires i < |tx.inputs| && tx.inputs[i].previousOutput !in utxos
    requires forall j :: 0 <= j < i ==> tx.inputs[j].previousOutput in utxos
    ensures var after := AfterPegout(utxos, tx, federation);
            && after.Keys == utxos.Keys
            && forall op :: op in utxos ==>
                 && after[op].txout == utxos[op].txout
                 && (after[op].isSpent <==> utxos[op].isSpent || Spent(tx, i, op))
  {
    SpentExactly(utxos, tx, i);
    SpentStops(utxos, tx, i, |tx.inputs|);
  }

  lemma {:induction false} SpentExactly(utxos: Utxos, tx: Transaction, n: nat)
    requires n <= |tx.inputs| && Known(utxos, tx, n)
    ensures var after := WithSpent(utxos, tx, n);
            && after.Keys == utxos.Keys
            && forall op :: op in utxos ==>
                 && after[op].txout == utxos[op].txout
                 && (after[op].isSpent <==> utxos[op].isSpent || Spent(tx, n, op))
  {
    if n > 0 { SpentExactly(utxos, tx, n - 1); }
  }
}

/** Outputs and transaction ids. An id is a free term over everything but the witnesses, so signing a
    transaction does not change it and different transactions have different ids. */
module Bitcoin {

  type ScriptPubKey = nat

  datatype TxOut = TxOut(scriptPubKey: ScriptPubKey, value: nat)

  datatype Txid = Txid(version: int, lockTime: nat, spends: seq<OutPoint>, outputs: seq<TxOut>)

  datatype OutPoint = OutPoint(txid: Txid, vout: nat)
}

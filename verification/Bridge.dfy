/** Peg-ins as the bridge reports them. */
module Bridge {

  /** A transaction id as the number by which sorted maps order it. */
  type TxKey = nat

  type Address = nat

  /** The amount in satoshis, the account it is for, and the height of the Bitcoin block it is in. */
  datatype PegIn = PegIn(txid: TxKey, amount: nat, account: Address, height: nat)
}

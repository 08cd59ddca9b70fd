/** Fees from the blocks that earned them to the accounts that receive them. */
module Payouts {
  import opened Blocks
  import opened Bridge
  import opened Withdrawals

  /** What all headers of a chain pay to miners and federation, in Gwei: each splits what the accumulator
      held at its parent. The amounts do not depend on who mined. */
  function PaidOut(h: Hash, federation: seq<Address>): nat
    requires federation != []
  {
    if h.Zero? then 0
    else PaidOut(h.block.parent, federation) +
         if h.block.header.Some? then Total(SplitFees(AccumulatedFees(h.block.parent), 0, federation)) else 0
  }

  lemma {:induction false} PaidOutOfPaidFees(h: Hash, federation: seq<Address>)
    requires federation != []
    ensures PaidOut(h, federation) * WEI_PER_GWEI <= PaidFees(h)
  {
    if h.Root? {
      PaidOutOfPaidFees(h.block.parent, federation);
      SplitFeesConserves(AccumulatedFees(h.block.parent), 0, federation);
    }
  }

  /** No chain ever pays out more than its blocks earned before its last header. */
  lemma PayoutsNeverExceedFees(h: Hash, federation: seq<Address>)
    requires federation != []
    ensures PaidOut(h, federation) * WEI_PER_GWEI + AccumulatedFees(h) <= TotalFees(h)
  {
    PaidOutOfPaidFees(h, federation);
    FeesAreConserved(h);
  }
}

# Alys: a verified model of its core

Alys is a federated sidechain of Bitcoin. A federation of authorities produces and approves blocks; Bitcoin
miners merge-mine them and thereby finalize ranges of blocks; bitcoin moves in and out through a threshold
multisignature wallet. This project models the parts of Alys where several operations have to agree with each
other, and proves what they keep over every input and every run.

## What is modelled

**Finalization** (`Blocks`, `Node`, `Chain`, `Runs`, `Safety`, `Mining`). `Blocks` says what a chain of blocks means
on its own: what its AuxPoW headers finalize, which ranges they cover, which pegouts they settle, which fees they pay.
`Node` gives the node's state (block store, height index, head, latest-PoW pointer, fee column, candidates, hash cache,
table of handed-out work) and what each handler does to it. `Chain` holds the handlers as imperative code over that
state, with the loops of the original, proved against `Node`. The other three prove what every sequence of handlers
keeps: `Runs` the height index, the latest-PoW pointer and the fee column; `Safety` the limit on blocks without proof
of work, the tiling of the chain by finalized ranges and the pegouts; `Mining` the hash cache that replaces the parent
walk, and the agreement between a commitment handed to a miner and the one recomputed when the work comes back.

**Pegs** (`Withdrawals`, `Payouts`, `Pegins`, `Wallet`, `Signing`, `Tapscript`). The producer's withdrawals against the
validator's expectations, the payout of fees over a whole chain, the peg-in monitor across restarts, the wallet's
balance and payments, the collection of signatures, and the redeem script run on the part of the Tapscript machine it
uses ("Rules for signature opcodes" of BIP 342).

**Approvals** (`Approvals`, `Candidates`). Aggregated approvals, the two-thirds quorum, and the two-map candidate cache.

**Work** (`Targets`, `AuxPow`). Compact targets and their adjustment; merged-mining proofs (Merged mining
specification on en.bitcoin.it).

**Rate limits** (`RateLimiter`, `SelfLimiter`, `Outbound`). The GCRA limiter, the queues in front of it, and what they
let go over time.

`Util`, `Bitcoin` and `Bridge` hold shared definitions.

## How to read it

- Hashes are free terms: `Root(b)` stands for the canonical root of `b`, so hashes are injective and acyclic.
  Signatures are terms made of signer and message; an aggregate signature is the multiset of its parts.
- Every handler is one atomic step. Outcomes that depend on signatures, peg data or proof of work are inputs of the
  step that checks them (`Verdicts`), and theorems hold for all of them.
- `Contiguous` is the execution layer's promise that a block's number is its parent's plus one; the consensus code
  does not check it.
- Safety is relative to a base: a block whose finalized block lies on its own branch. Nothing is asked of the history
  before it, so old ranges that break the rules do not matter; with genesis as base the whole chain is covered.
- The `View` of an object is its state as a value; each method equates the new view with a specification function of
  the old one, and the lemmas are about those functions.

Where the code does not meet what is wanted of it, the exact condition is proved:

- The link between a range and the last finalized block is not checked at or below height 53143.
  `Safety.UnlinkedRangePasses` gives blocks that pass every check and finalize an old block again, and
  `Safety.CheckedBlockFollowsRulesIff` says exactly which checked blocks follow the rules. Such a block costs nothing
  afterwards: `Safety.AnyImportIsBase`.
- The end of a range only has to be stored. After a rollback a header whose range ends on the abandoned branch passes
  every check: `Safety.AbandonedRangePasses`, with a run that leads there in `Safety.AbandonedRangeIsReachable`.
- A block's parent only has to be stored. `Runs.StaleParentBreaksIndex` shows that importing on a parent that does
  not descend from the head always breaks the height index, `Runs.ImportKeepsIndexIff` gives the condition.
- A rollback leaves the hash cache alone: `Mining.RollbackKeepsCacheIff`. Filling the cache puts the head itself into it
  when the head is already finalized, as on a chain that only has genesis: `Mining.InitMatchesIff`. Every commitment
  such a node makes is refused until it imports a header from elsewhere: `Mining.FreshNodeNeverQueues`.
- An honest block is refused when an account receives both a fee and a peg-in:
  `Withdrawals.HonestBlockAcceptedIff`, `Withdrawals.DistinctRecipientsAcceptedIff`.
- A block that lists a peg-in twice credits it twice: `Pegins.ImportCreditsOnceIff`. A monitor that starts before the
  node is synced skips peg-ins: `Pegins.UnsyncedIsSafeIff`.
- The approval count includes bits beyond the list of authorities, so a block can be approved without two thirds of
  them: one signature of four in `Approvals.OneOfFourIsApproved`. `Approvals.TwoThirdsIff` gives the condition on the
  block, `Approvals.ApprovalMeansTwoThirdsIff` the one on the list.
- The coinbase of a merged-mining proof may carry two headers, and then the proof passes for two blocks:
  `AuxPow.DoubleProofPasses`. `AuxPow.PassesForTwoIff` says exactly when.
- Anybody whose signatures verify is counted towards the threshold, federation member or not:
  `Signing.FinalizedPassesCheckIff`.
- The quota's documentation calls the number of tokens the burst size; rounding can let more through:
  `RateLimiter.BurstIsMaxTokensIff`.
- The percentage of an adjustment above 155 percent may not fit in a byte: `Targets.ConversionFailsIff`.

## Model

| member | source | states |
|---|---|---|
| `Blocks.AncestorsAreLinear` | app/src/chain.rs:1232-1275 | of two ancestors of one block the lower is an ancestor of the higher |
| `Blocks.AncestorByNumber` | app/src/store.rs:109-125 | a chain has one block per height |
| `Blocks.SuffixSplit` | app/src/chain.rs:1232-1275 | the blocks between two ancestors split at any block in between |
| `Blocks.SuffixMembers` | app/src/chain.rs:1232-1275 | the blocks after an ancestor are exactly the ancestors of the tip with a greater number |
| `Blocks.SuffixNumbers` | app/src/chain.rs:1232-1275 | those blocks are in height order, none twice |
| `Blocks.FinalizedOfSound` | app/src/chain.rs:1417-1468 | on a chain that follows the rules from any base on, the last finalized block is an ancestor of the tip and not above it |
| `Blocks.RangeAdvances` | app/src/chain.rs:1325-1351 | an accepted header strictly raises the finalized height and never reaches its own block |
| `Blocks.UnfinalizedIsBounded` | app/src/chain.rs:1064-1083 | no tip is more than `max_blocks_without_pow` above its last finalized block, or more than the base was if that is more; nothing is asked of the history before the base |
| `Blocks.RangesTile` | app/src/chain.rs:1325-1351 | the ranges of all headers since the base, put together, are what was finalized since then: no gap, no overlap, in order |
| `Blocks.PegoutsMatchProposals` | app/src/chain.rs:1030-1063 | on a validator the pegouts finalized since the base are the proposals of the chain finalized since then, once each and in order; a full node knows their number |
| `Blocks.FeesAreConserved` | app/src/chain.rs:1610-1654 | fees paid by headers plus fees accumulated are all fees; after a header exactly the fees of all earlier blocks have been paid |
| `Runs.AncestorsAreStored` | app/src/store.rs:179-208 | every ancestor of a stored block is stored |
| `Runs.PanicFreeRun` | app/src/chain.rs:1815-1841 | in every run whatsoever the block a candidate finalizes is stored, so the finalization of an import never panics |
| `Runs.WalkBackFindsSuffix` | app/src/chain.rs:1252-1274 | the parent walk succeeds exactly on ancestors, and then returns the blocks in between |
| `Runs.ProposalWalk` | app/src/chain.rs:1166-1196 | the proposal walk succeeds exactly when the range start is an ancestor of its end, and then returns the range's proposals in chain order |
| `Runs.FindPowFindsNearest` | app/src/chain.rs:706-775 | the search always ends, at the nearest ancestor-or-self with a header, since genesis has one |
| `Safety.LatestFinalizedIsFinalized` | app/src/chain.rs:1417-1468 | the pointer lookup gives the last block finalized by the head's chain |
| `Runs.ImportKeepsIndexIff` | app/src/chain.rs:1656-1677 | importing on any parent leaves the height index right for the new block exactly when it was right for the parent |
| `Runs.StaleParentBreaksIndex` | app/src/chain.rs:913-923 | a candidate whose parent does not descend from the head always leaves a wrong index |
| `Runs.HeadNeverFalls` | app/src/chain.rs:1656-1677 | after any import the head is the new block, unless that one is lower |
| `Runs.RollbackKeepsIndexed` | app/src/chain.rs:777-880 | a rollback moves the head to the head's ancestor of that height and the latest-PoW pointer to its nearest header |
| `Runs.IndexedStep` | app/src/chain.rs:1679-1841 | every handler keeps the index, pointer and fee invariants |
| `Runs.IndexedRun` | app/src/chain.rs:706-880 | after every run of imports on the head, mixed with rollbacks, the index at or below the head gives exactly its ancestors and latest-PoW is the nearest header |
| `Runs.IndexIsTheAncestor` | app/src/store.rs:109-125 | looking up the height of any ancestor of the head gives that ancestor |
| `Runs.StoredFeesAreConserved` | app/src/chain.rs:1610-1620 | on every stored branch the fee column plus what its headers paid out is the sum of its fees, and each header pays what is stored for its parent |
| `Safety.CheckedHeader` | app/src/chain.rs:1018-1063 | a header that passes covers a range that starts right after the last finalized block, with its pegouts listed |
| `Safety.PlainAcceptedIff` | app/src/chain.rs:925-1085 | a block without a header is accepted exactly when it is higher than the head, built on a stored block on both layers, the verdicts on author and pegs are good, it is within the limit above the last finalized block, and settles no pegouts |
| `Safety.HeaderAcceptedIff` | app/src/chain.rs:1018-1063 | a header is accepted exactly when the work is good, the range is stored on one branch, linked above height 53143 and committed to, and the block settles the range's proposals: their number on a full node, themselves and signed on a validator |
| `Safety.HeadedAcceptedIff` | app/src/chain.rs:925-1085 | a block with a header is accepted exactly when it is connected like one without and its header is accepted |
| `Safety.CheckedHeaderFollowsRulesIff` | app/src/chain.rs:1018-1063 | a checked header follows the rules exactly when it is linked and its range ends on its own branch |
| `Safety.CheckedBlockFollowsRulesIff` | app/src/chain.rs:925-1085 | the same for whole blocks on top of the head |
| `Safety.UnlinkedRangePasses` | app/src/chain.rs:1333-1349 | at or below height 53143 a block that finalizes any stored block again passes every check |
| `Safety.AbandonedRangePasses` | app/src/chain.rs:1325-1351 | a range that starts after the last finalized block and ends on an abandoned branch passes every check |
| `Safety.AbandonedRangeIsReachable` | app/src/chain.rs:777-880 | importing a block, rolling it back and proposing a competitor that finalizes it leads there |
| `Safety.SaneStep` | app/src/chain.rs:925-1125 | every handler keeps all blocks stored on top of the base following the rules |
| `Safety.SaneRun` | app/src/chain.rs:925-1125 | so does every run, with rollbacks down to the base |
| `Safety.RegularRunSafety` | app/src/chain.rs:777-1085 | with rollbacks down to the base, as long as ranges end on the branch of their block, the limit, the tiling and the pegout order hold after every run |
| `Safety.SaneIsSafe` | app/src/chain.rs:1064-1083 | the invariant gives the limit, the tiling and the pegout order for the head |
| `Safety.ForwardIsRegular` | app/src/chain.rs:953-972 | without rollbacks a block that passes can only extend the head, and its range can only end on the head's branch |
| `Safety.LinearRun` | app/src/chain.rs:925-1125 | without rollbacks no fork ever competes with the head and every candidate extends it |
| `Safety.ForwardRunSafety` | app/src/chain.rs:925-1125 | in every run without rollbacks, whatever is proposed, the head stays within the limit, ranges tile what was finalized since the base and pegouts are its proposals once each in order |
| `Safety.WellFormedRunSafety` | app/src/chain.rs:1325-1351 | the same from any state whose finalized block lies on the head's branch, with unlinked ranges in its history or not |
| `Safety.AnyImportIsBase` | app/src/chain.rs:1656-1841 | after any import whose range ends on its branch, rule-breaking or not, its own block is a base |
| `Safety.GenesisRunSafety` | app/src/chain.rs:925-1125 | from genesis: the configured limit, the whole finalized chain tiled, its pegouts its proposals |
| `Mining.ResetFindsRangeEnd` | app/src/block_hash_cache.rs:59-71 | cutting the cache after the end of an accepted range leaves what the parent walk finds from there |
| `Mining.CacheFollowsSoundBlock` | app/src/chain.rs:1778-1799 | the cache update turns the walk's result for the parent into the walk's result for the block |
| `Mining.ImportSucceeds` | app/src/chain.rs:1778-1841 | with a matching cache no import fails, neither in the finalization nor in the reset |
| `Mining.InitMatchesIff` | app/src/chain.rs:2524-2550 | filling the cache matches the walk exactly when the head is above the last finalized block |
| `Mining.RollbackKeepsCacheIff` | app/src/chain.rs:777-880 | a rollback keeps the cache right only when it does not move the head |
| `Mining.GenesisIsMining` | app/src/chain.rs:1510-1532 | a node that just stored genesis satisfies every invariant; filling its cache puts genesis in |
| `Mining.FreshWorkIsRefused` | app/src/chain.rs:1325-1351 | work that starts with genesis is refused, because its walk would start at the parent of genesis |
| `Mining.FreshNodeNeverQueues` | app/src/auxpow_miner.rs:428-495 | a node that fills its cache on a chain with only genesis queues no header of its own, in any run until it imports a header made elsewhere |
| `Mining.FirstHeaderRepairsCache` | app/src/chain.rs:1778-1799 | importing that header makes the cache match |
| `Mining.MiningStep` | app/src/auxpow_miner.rs:357-495 | every step without rollback keeps cache and handed-out work right |
| `Mining.MiningRun` | app/src/auxpow_miner.rs:357-495 | in every run without rollbacks the cache is what the parent walk finds, and every commitment still describes its blocks |
| `Mining.FinalizedMonotone` | app/src/chain.rs:1417-1468 | a later header has finalized strictly more |
| `Mining.EntryIsStored` | app/src/auxpow_miner.rs:384-401 | a commitment's range is stored and starts right after what was finalized when it was made |
| `Mining.SubmitRecomputesCommitment` | app/src/chain.rs:1325-1358 | on submission `check_pow` recomputes exactly the committed hashes while no newer header was imported, even if the head advanced; after one the range is refused, except at heights where the link is not checked |
| `Mining.SolvedWorkIsQueuedIff` | app/src/chain.rs:2607-2632 | a solved commitment is queued exactly when it was made on the last block with a header (or starts at or below height 53143) and its range is not queued already; it replaces a header for another range |
| `Mining.UnsolvedWorkIsForgotten` | app/src/auxpow_miner.rs:428-495 | insufficient work, or work for another commitment, only leaves the table |
| `Mining.WorkIsOfferedIff` | app/src/chain.rs:2552-2579 | all unfinalized blocks are offered, unless there are none or they are queued already |
| `Mining.BlockExtendsChain` | app/src/chain.rs:925-1125 | a checked block that is accepted becomes the head, is stored and indexed, clears the queue if it carries a header and keeps it otherwise, and leaves cache and work right |
| `Mining.MiningCycle` | app/src/auxpow_miner.rs:357-495 | work offered and solved is queued as a header that ends at the head; a connected block that carries it and settles the proposals of all unfinalized blocks is accepted and finalizes up to that head |
| `Chain.BlockHashCache.Init` | app/src/block_hash_cache.rs:37-43 | replaces the contents |
| `Chain.BlockHashCache.Add` | app/src/block_hash_cache.rs:45-49 | appends one hash |
| `Chain.BlockHashCache.ResetWith` | app/src/block_hash_cache.rs:59-71 | drops everything up to the first occurrence, or fails and changes nothing |
| `Chain.Chain.GetHashes` | app/src/chain.rs:1232-1275 | the loop returns what the recursive parent walk returns, errors included |
| `Chain.Chain.GetPaymentProposals` | app/src/chain.rs:1166-1196 | the loop that collects newest first and reverses returns the proposals in chain order |
| `Chain.Chain.FindPowBlockForRollback` | app/src/chain.rs:706-775 | the loop ends and returns the nearest header or the error |
| `Chain.Chain.RollbackHead` | app/src/chain.rs:777-880 | the new state is the rolled-back one, and it succeeds exactly when target and search do |
| `Chain.Chain.LatestFinalizedRef` | app/src/chain.rs:1417-1468 | the last finalized block through the latest-PoW pointer |
| `Chain.Chain.RunCheckPow` | app/src/chain.rs:1293-1380 | the verdict on a header's range and commitment |
| `Chain.Chain.SameTxids` | app/src/chain.rs:1045-1062 | the pairwise comparison of listed and required pegouts decides equality |
| `Chain.Chain.RunCheckHeader` | app/src/chain.rs:1018-1063 | the verdict on a block's header and finalized pegouts |
| `Chain.Chain.RunCheckBlock` | app/src/chain.rs:925-1085 | the verdict on a proposed block, case by case |
| `Chain.Chain.ProcessBlock` | app/src/chain.rs:925-1125 | a block becomes a candidate exactly when it passes; nothing else changes |
| `Chain.Chain.MaybeAcceptBlock` | app/src/chain.rs:1484-1508 | an approved candidate empties the cache of candidates and is imported; a failed verdict or a missing candidate changes nothing |
| `Chain.Chain.UpdateHashCache` | app/src/chain.rs:1778-1799 | the cache after an import, or the failure that leaves it alone |
| `Chain.Chain.UpdateHeadRef` | app/src/chain.rs:1656-1677 | the head moves unless it is already higher |
| `Chain.Chain.Finalize` | app/src/chain.rs:1815-1841 | a header drops the queued one, and either becomes the latest or fails because its range end is missing |
| `Chain.Chain.StoreBlock` | app/src/chain.rs:1751-1776 | the stored state after an import: block, index, head, pointer, fees; on a panic only the in-memory head and queue have changed |
| `Chain.Chain.ImportBlock` | app/src/chain.rs:1751-1802 | the whole import with its failures |
| `Chain.Chain.PushAuxpow` | app/src/chain.rs:2607-2632 | a solved header is queued, and true returned, exactly when its range is not queued already and it passes |
| `Chain.Chain.InitBlockHashCache` | app/src/chain.rs:2660-2668 | fills the cache, or fails and changes nothing |
| `Chain.AuxPowMiner.CreateAuxBlock` | app/src/auxpow_miner.rs:357-401 | hands out the cached hashes and remembers their range, or fails for the reason given |
| `Chain.AuxPowMiner.SubmitAuxBlock` | app/src/auxpow_miner.rs:428-495 | forgets the commitment, and queues the header it was solved for or fails for the reason given |
| `Payouts.PayoutsNeverExceedFees` | app/src/chain.rs:224-250 | over any chain the wei paid to miners and federation plus the fees still accumulated never exceed the fees earned |
| `Payouts.PaidOutOfPaidFees` | app/src/chain.rs:224-250 | each header pays out of the fees read at its parent only |
| `Withdrawals.SplitFeesConserves` | app/src/chain.rs:232-250 | a split pays at most what it is given, and less by under one wei per member plus one Gwei per recipient |
| `Withdrawals.SplitAmounts` | app/src/chain.rs:232-250 | the miner gets four fifths of the fees in whole Gwei, every member the same equal part of the rest, and nobody anything when there are none |
| `Withdrawals.FillIsBounded` | app/src/chain.rs:252-382 | at most sixteen accounts are credited, with exactly what was processed for each |
| `Withdrawals.ProcessedIff` | app/src/chain.rs:312-356 | a queued peg-in is processed exactly when its account is credited, and left out only when sixteen accounts are |
| `Withdrawals.PegInsConserved` | app/src/engine.rs:33-55 | peg-in withdrawals total ten Gwei per processed satoshi |
| `Withdrawals.AllMatchedIff` | app/src/chain.rs:418-434 | striking out withdrawals leaves no expectation exactly when each is in the payload |
| `Withdrawals.ExpectIs` | app/src/chain.rs:389-416 | the validator expects, if every listed peg-in is new and confirmed, the last fee plus ten Gwei per satoshi for every account that is paid a fee or pegged in |
| `Withdrawals.PayloadAcceptedIff` | app/src/chain.rs:384-435 | a payload is accepted exactly when every listed peg-in is new and confirmed and for each such account that sum is among the withdrawals |
| `Withdrawals.FirstBadPeginDecides` | app/src/chain.rs:401-407 | the first listed peg-in that is included already, or not confirmed, decides the error |
| `Withdrawals.ExpectAddsCredits` | app/src/chain.rs:400-416 | the validator expects the fees plus the credits of the listed peg-ins |
| `Withdrawals.HonestBlockAcceptedIff` | app/src/chain.rs:252-435 | an honest block passes exactly when for each account with both a fee and a peg-in the sum is listed |
| `Withdrawals.HonestBlockAccepted` | app/src/chain.rs:252-435 | with fee recipients disjoint from peg-in accounts every honest block passes |
| `Withdrawals.DistinctRecipientsAcceptedIff` | app/src/chain.rs:252-435 | with distinct fee recipients it passes exactly when no account receives both a nonzero fee and a nonzero peg-in |
| `Withdrawals.Pegger.CreditAll` | app/src/chain.rs:312-356 | the loop credits and processes as specified |
| `Withdrawals.Pegger.FillPegins` | app/src/chain.rs:252-382 | forgets what the wallet has, then credits the rest in txid order |
| `Withdrawals.Pegger.CheckWithdrawals` | app/src/chain.rs:384-435 | the verdict on a payload's withdrawals |
| `Pegins.MonitorIsSafe` | app/src/chain.rs:2448-2493 | a streamed block keeps the guarantee |
| `Pegins.RescanIsSafe` | app/src/chain.rs:2476-2490 | the stored height is safe: every peg-in below it is in the wallet |
| `Pegins.RescanIsTight` | app/src/chain.rs:2476-2490 | no more is scanned again than has to be: the stored height is the next one or that of a queued peg-in |
| `Pegins.PassingIsNew` | app/src/chain.rs:401-404 | a payload that passes the withdrawal check lists no peg-in of the wallet |
| `Pegins.ImportIsSafe` | app/src/chain.rs:1704-1717 | importing a payload that passes the withdrawal check and lists no peg-in twice keeps the guarantee, and moves its peg-ins from queue to wallet |
| `Pegins.ImportCreditsOnceIff` | app/src/chain.rs:401-404 | after a payload that passes, exactly the peg-ins of the wallet have been credited, once each, exactly when it lists none twice |
| `Pegins.RestartIsSafe` | app/src/app.rs:213-216 | a restart at any point keeps the guarantee |
| `Pegins.RunIsSafe` | app/src/chain.rs:2436-2493 | in every run with restarts each streamed peg-in is in the wallet or queued, everything below the stored height is in the wallet, and exactly the peg-ins of the wallet have been credited, once each |
| `Pegins.FoundAfterRestart` | app/src/chain.rs:2436-2493 | after a restart every peg-in is in the wallet or queued once the stream has passed its block again, even if the queue that held it was lost |
| `Pegins.UnsyncedIsSafeIff` | app/src/chain.rs:2448-2493 | an unsynced monitor keeps the guarantee exactly when the block brings nothing new |
| `Pegins.PegInMonitor.OnBlock` | app/src/chain.rs:2448-2493 | the callback queues the peg-ins and stores the rescan height |
| `Pegins.PegInMonitor.ImportPegins` | app/src/chain.rs:1704-1717 | the loop moves the listed peg-ins from queue to wallet |
| `Pegins.PegInMonitor.Restart` | app/src/app.rs:213-216 | the queue is lost and the stream starts at the stored height |
| `Wallet.OutputsAddTheirValue` | crates/federation/src/bitcoin_signing.rs:61-92 | registering outputs adds what pays the federation and touches nothing else |
| `Wallet.SpendingTakesItsValue` | crates/federation/src/bitcoin_signing.rs:104-122 | spending takes exactly the inputs' value and makes them unspendable |
| `Wallet.PegoutChangesBalance` | crates/federation/src/bitcoin_signing.rs:104-122 | a registered pegout changes the balance by minus inputs plus federation outputs, and cannot be spent from again |
| `Wallet.UnknownInputStops` | crates/federation/src/bitcoin_signing.rs:104-122 | registering stops at the first unknown input: earlier inputs are spent, nothing else changes, no output is recorded |
| `Wallet.FeesAreCovered` | crates/federation/src/bitcoin_signing.rs:342-353 | the shares cover the fee and exceed it by less than one unit per pegout |
| `Wallet.ProposalAcceptedIff` | crates/federation/src/bitcoin_signing.rs:128-195 | a member agrees exactly to proposals that pay every required output to its own script and at most in full, return at most one change output to the federation, spend known unspent outputs, and have the fixed version and lock time |
| `Wallet.AcceptedPaysAtMostRequired` | crates/federation/src/bitcoin_signing.rs:128-195 | an accepted proposal pays no more out of the federation than was required |
| `Wallet.PaymentPassesCheck` | crates/federation/src/bitcoin_signing.rs:128-195 | a payment of the wallet passes the check of every other member |
| `Wallet.PaymentCostsInputsLessChange` | crates/federation/src/bitcoin_signing.rs:278-355 | registering a payment to others costs the wallet exactly its inputs less the change |
| `Wallet.PegoutsBearTheFee` | crates/federation/src/bitcoin_signing.rs:342-353 | pegouts receive less than requested by at least the fee and less than the fee plus their number |
| `Wallet.BalanceUpdate` | crates/federation/src/bitcoin_signing.rs:357-366 | changing one output changes the balance by the difference of worth |
| `Wallet.UtxoManager.RegisterOutputsFrom` | crates/federation/src/bitcoin_signing.rs:61-92 | the loop records every output that pays the federation |
| `Wallet.UtxoManager.RegisterPegin` | crates/federation/src/bitcoin_signing.rs:94-102 | stores the transaction and its federation outputs |
| `Wallet.UtxoManager.RegisterPegout` | crates/federation/src/bitcoin_signing.rs:104-122 | marks inputs spent until one is unknown; only then fails, and then records no outputs |
| `Wallet.UtxoManager.GetBalance` | crates/federation/src/bitcoin_signing.rs:357-366 | the loop sums the unspent outputs |
| `Wallet.UtxoManager.CheckPaymentProposal` | crates/federation/src/bitcoin_signing.rs:128-195 | the verdict on a proposal |
| `Wallet.UtxoManager.CreatePayment` | crates/federation/src/bitcoin_signing.rs:278-355 | succeeds exactly when every pegout exceeds its share of the fee, and then pays each one less that share |
| `Tapscript.KeyChecksTally` | crates/federation/src/bitcoin_signing.rs:658-672 | the folded key checks consume one element per key and leave the number of valid signatures, or fail |
| `Tapscript.RedeemScriptAcceptsIff` | crates/federation/src/bitcoin_signing.rs:658-672 | the redeem script accepts exactly witnesses with one element per key, valid where given, at least the threshold given |
| `Signing.AllMembersIff` | crates/federation/src/bitcoin_signing.rs:534-567 | as many keys signed as there are signatures exactly when all signers are members |
| `Signing.PairedSigsAligned` | crates/federation/src/bitcoin_signing.rs:442-469 | pairing witnesses with reversed keys finds one signature per non-empty element, and all verify exactly when each element is empty or verifies for the key at its place |
| `Signing.SigsCountSigners` | crates/federation/src/bitcoin_signing.rs:534-567 | the assembled elements count the members among the signers, each verifying for its key |
| `Signing.CheckInputIff` | crates/federation/src/bitcoin_signing.rs:423-485 | any witness is accepted exactly when it has one element per key, last key first, each empty or verifying for its key, exactly the threshold of signatures, then the redeem script and control block |
| `Signing.AcceptedInputSpends` | crates/federation/src/bitcoin_signing.rs:423-485 | a witness that ends that way is accepted exactly when the redeem script succeeds on its elements and they hold exactly the threshold |
| `Signing.CheckSignaturesIff` | crates/federation/src/bitcoin_signing.rs:423-485 | a transaction is accepted exactly when every input is known and passes |
| `Signing.AcceptedTransactionSpends` | crates/federation/src/bitcoin_signing.rs:423-485 | every input of an accepted transaction makes the redeem script succeed |
| `Signing.AlignedPassesCheckIff` | crates/federation/src/bitcoin_signing.rs:423-485 | the node accepts an assembled witness exactly at the threshold |
| `Signing.AlignedSpendsIff` | crates/federation/src/bitcoin_signing.rs:658-672 | the script accepts it exactly from the threshold on |
| `Signing.FinalizedInput` | crates/federation/src/bitcoin_signing.rs:569-613 | a finalized input passes the check, and can be spent, exactly when all signers are members |
| `Signing.FinalizeShape` | crates/federation/src/bitcoin_signing.rs:569-613 | finalizing succeeds at the threshold, keeps the transaction id, and gives each input its witness |
| `Signing.FinalizedPassesCheckIff` | crates/federation/src/bitcoin_signing.rs:423-485 | a finalized pegout passes `check_transaction_signatures` exactly when all signers are members |
| `Signing.CollectingKeepsVerified` | crates/federation/src/bitcoin_signing.rs:794-817 | collecting keeps every signature verified and never exceeds the threshold |
| `Signing.CollectsUpToThreshold` | crates/federation/src/bitcoin_signing.rs:794-817 | whatever is submitted in any order, every member collected gave good signatures, and there are as many as did, up to the threshold |
| `Signing.CollectionCompletesIff` | crates/federation/src/bitcoin_signing.rs:819-824 | a transaction can be finalized exactly when enough different members submitted good signatures |
| `Signing.SignatureCollector.CheckInputSignatures` | crates/federation/src/bitcoin_signing.rs:487-511 | accepts exactly one verifying signature per input, all inputs known, and says which of the three is missing |
| `Signing.SignatureCollector.Collect` | crates/federation/src/bitcoin_signing.rs:809-815 | one member's signatures are added if they verify and the threshold is not reached |
| `Signing.SignatureCollector.AddSignature` | crates/federation/src/bitcoin_signing.rs:794-817 | the entry is created if needed and updated, with the verdict on the signatures; everything filed stays verified |
| `Signing.SignatureCollector.GetFinalized` | crates/federation/src/bitcoin_signing.rs:819-824 | returns the finalized transaction under the id it was asked for, or the error |
| `Signing.SignatureCollector.CleanupSignaturesFor` | crates/federation/src/bitcoin_signing.rs:789-791 | forgets one transaction and keeps the rest |
| `Approvals.AddKeepsConsistent` | app/src/signatures.rs:81-112 | adding a checked approval keeps the aggregate verifying |
| `Approvals.AggregateHoldsEachSignerOnce` | app/src/signatures.rs:50-112 | for any order and repetition of checked approvals each signer is set once and the aggregate verifies |
| `Approvals.OrderDoesNotMatter` | app/src/signatures.rs:81-95 | approvals with the same signers give the same aggregate |
| `Approvals.EnoughApprovalsIff` | app/src/aura.rs:135-153 | checked approvals approve a block exactly when two thirds of the authorities are among their signers |
| `Approvals.CountIncludesBeyond` | app/src/signatures.rs:114-116 | the count is the number of signing authorities plus the bits set beyond their list |
| `Approvals.TwoThirdsIff` | app/src/aura.rs:135-153 | two thirds of the authorities signed exactly when the count reaches the requirement without the bits beyond the list |
| `Approvals.SignersSigned` | app/src/signatures.rs:97-112 | every authority whose bit is set signed that root |
| `Approvals.ApprovalMeansTwoThirdsIff` | app/src/aura.rs:135-153 | approval means two thirds for every aggregate exactly when the list has at most one member or fills the fifteen bits |
| `Approvals.OneOfFourIsApproved` | app/src/aura.rs:135-153 | one signature of four is approved, with two bits beyond the list |
| `Approvals.QuorumsOverlap` | app/src/aura.rs:135-153 | two blocks that reach the requirement without bits beyond the list share at least a third of the authorities |
| `Candidates.InsertKeepsCoherent` | app/src/block_candidate/block_candidate_cache.rs:54-117 | inserting never fails and keeps the two maps inverse at nonzero heights |
| `Candidates.ApproveKeepsCoherent` | app/src/block_candidate/block_candidate_cache.rs:119-160 | so does adding an approval |
| `Candidates.RemoveKeepsCoherent` | app/src/block_candidate/block_candidate_cache.rs:162-170 | so does removing |
| `Candidates.RunKeepsCoherent` | app/src/block_candidate/block_candidate_cache.rs:54-175 | so does every run |
| `Candidates.InsertedStaysIff` | app/src/block_candidate/block_candidate_cache.rs:54-117 | an inserted block becomes the candidate of its height exactly when there was none, replacing is allowed, its slot is higher, or it was there already |
| `Candidates.HighestSlotStays` | app/src/block_candidate/block_candidate_cache.rs:54-117 | over any run of approvals and inserts that may not replace, the candidate of a height has at least the slot of every block inserted for it |
| `Candidates.KeptWasInserted` | app/src/block_candidate/block_candidate_cache.rs:54-117 | in any run every candidate has the root of a block inserted in it or there before |
| `Candidates.ApprovalIsMerged` | app/src/block_candidate/block_candidate_cache.rs:119-160 | a valid approval of a cached block sets its signer's bit and adds the signature, unless it is set already, and leaves all other heights and hashes as they were |
| `Candidates.BadApprovalIsRefused` | app/src/block_candidate/block_candidate_cache.rs:119-160 | an approval with a wrong signature or index changes nothing |
| `Candidates.GetBlockReturnsRoot` | app/src/block_candidate/mod.rs:74-86 | after every run a lookup returns only the block with that root, approved only over that root |
| `Candidates.AcceptedBlockHasQuorum` | app/src/chain.rs:1484-1508 | as long as no inserted block has bits beyond the list, a block accepted from the cache carries two thirds of the authorities' signatures over the requested root |
| `Candidates.RunKeepsListed` | app/src/block_candidate/block_candidate_cache.rs:54-175 | no run of the cache sets a bit beyond the list |
| `Candidates.PaddedBlockIsAccepted` | app/src/chain.rs:1484-1508 | with two to fourteen authorities some inserted block is accepted without two thirds |
| `Candidates.CachedBlockIsFound` | app/src/block_candidate/mod.rs:74-86 | every cached block is found by its root |
| `Candidates.BlockCandidateCache.AddCheckedBlock` | app/src/block_candidate/candidate_state.rs:42-61 | the loop drains the queued approvals into the block |
| `Candidates.BlockCandidateCache.Insert` | app/src/block_candidate/block_candidate_cache.rs:54-117 | the cache after an insertion |
| `Candidates.BlockCandidateCache.AddApproval` | app/src/block_candidate/block_candidate_cache.rs:119-160 | the cache after an approval |
| `Candidates.BlockCandidateCache.Remove` | app/src/block_candidate/block_candidate_cache.rs:162-170 | the cache after a removal |
| `Candidates.BlockCandidateCache.Clear` | app/src/block_candidate/block_candidate_cache.rs:172-175 | the empty cache |
| `Candidates.BlockCandidateCache.Get` | app/src/block_candidate/mod.rs:74-86 | the lookup through both maps |
| `Targets.UnpackedEncode` | app/src/auxpow_miner.rs:148-184 | unpacking a packed number is truncation to 23 significant bits at byte granularity |
| `Targets.DecodeEncode` | app/src/auxpow_miner.rs:148-184 | for every 256-bit target packing and unpacking truncates: at most the target, exact below 2^23, short by at most one part in 2^15, no overflow |
| `Targets.PackingMonotone` | app/src/auxpow_miner.rs:168-184 | packing is monotone |
| `Targets.PackingIdempotent` | app/src/auxpow_miner.rs:168-184 | packing twice is packing once |
| `Targets.EncodeFits` | app/src/auxpow_miner.rs:168-184 | the packed form fits in 32 bits |
| `Targets.PercentageMonotone` | app/src/auxpow_miner.rs:205-240 | for any maximum the adjustment grows with the height gap and never exceeds 100 plus the maximum |
| `Targets.PercentageIs` | app/src/auxpow_miner.rs:197-240 | the adjustment is the gap over the spacing to the nearest percent, ties to even, capped by the maximum below one hundred and by one hundred plus it above |
| `Targets.ConversionFailsIff` | app/src/auxpow_miner.rs:189-270 | the conversion to a byte fails exactly when the maximum is above 155 and the rounded ratio above 255 |
| `Targets.NextWorkMonotoneAndBounded` | app/src/auxpow_miner.rs:189-270 | up to a maximum of 155 the next target always exists; where it exists it grows with the height gap and is at most the last one times (100 + max) / 100 |
| `Targets.NextWorkIs` | app/src/auxpow_miner.rs:240-270 | the next target is the last one in whole hundredths times the percentage, or the greatest one if that does not fit, less at most one part in 2^15 |
| `Targets.OnScheduleKeepsTarget` | app/src/auxpow_miner.rs:189-270 | at exactly the target spacing the target is kept up to rounding |
| `Targets.RequiredWorkIsBounded` | app/src/auxpow_miner.rs:272-324 | the same bound at every height, retargeting or not |
| `Targets.RetargetsIff` | app/src/auxpow_miner.rs:272-324 | the target is adjusted exactly when retargeting is on and the head is at a multiple of the interval or the gap to the last header is longer than an interval |
| `AuxPow.CheckMerkleBranch` | app/src/auxpow.rs:93-108 | the loop folds the branch by the bits of the side mask |
| `AuxPow.FoldReachesRoot` | app/src/auxpow.rs:93-108 | in every full tree, folding the leaf at any position along its siblings with the position as mask gives the root |
| `AuxPow.FoldIsBinding` | app/src/auxpow.rs:93-108 | with an injective hash root, mask and depth determine leaf and branch |
| `AuxPow.IndexIsWrapping` | app/src/auxpow.rs:373-384 | the slot equals the specification's 32-bit wrapping formula |
| `AuxPow.IndexFits` | app/src/auxpow.rs:373-384 | for heights up to 30 nothing overflows 64 bits and the slot lies in the tree |
| `AuxPow.LittleEndianRoundTrip` | app/src/auxpow.rs:152-196 | a 32-bit number is the sum of its four bytes, lowest first, and survives them |
| `AuxPow.HeaderLayout` | app/src/auxpow.rs:184-196 | magic bytes, hash, size and nonce, the numbers lowest byte first |
| `AuxPow.HeaderRoundTrip` | app/src/auxpow.rs:152-196 | a written header reads back with its hash reversed, and only for that hash |
| `AuxPow.HeaderIsUnique` | app/src/auxpow.rs:152-196 | a script that reads as a header is the one that header writes |
| `AuxPow.CheckIff` | app/src/auxpow.rs:317-371 | a proof passes exactly when it is anchored in the parent and the third output, or else the fourth, names the block's root with the right size and slot |
| `AuxPow.PassesForTwoIff` | app/src/auxpow.rs:223-247 | with an injective hash a proof passes for two different blocks exactly when it is anchored and its third and fourth outputs name their roots |
| `AuxPow.ProofBindsOneBlock` | app/src/auxpow.rs:317-371 | a proof passes for one block only, unless its third and fourth outputs both name a root |
| `AuxPow.DoubleProofPasses` | app/src/auxpow.rs:223-247 | a coinbase with a header for each of two blocks passes for both |
| `AuxPow.MinedCheck` | app/src/auxpow.rs:394-453 | the built-in miner's proof passes for every chain id but the parent's, which is the one error |
| `AuxPow.Mine` | app/src/auxpow.rs:394-453 | returns the first nonce that meets the target, with a proof that passes; panics exactly when there is none or the chain id is the parent's |
| `RateLimiter.GrantedFitsAbove` | app/src/network/rpc/rate_limiter.rs:292-328 | whatever is granted from now on fits between the present fill level and the end of the window plus one bucket |
| `RateLimiter.WindowIsBounded` | app/src/network/rpc/rate_limiter.rs:292-334 | in any window the granted tokens cost at most one bucket plus the window's length, whatever else is requested or pruned |
| `RateLimiter.SpendingIsAdditive` | app/src/network/rpc/rate_limiter.rs:292-328 | a sum of tokens is granted at once exactly when the parts are one after the other, and leaves the same bucket |
| `RateLimiter.GrantedInFullIff` | app/src/network/rpc/rate_limiter.rs:292-334 | a key with a full bucket gets everything it asks for, in any run, exactly when its requests between any two of them cost at most one bucket plus the time between the two |
| `RateLimiter.RequestKeepsSame` | app/src/network/rpc/rate_limiter.rs:292-334 | a pruned and an unpruned map answer a request alike and stay alike |
| `RateLimiter.PruningIsInvisible` | app/src/network/rpc/rate_limiter.rs:330-334 | prunes at any points of a run change no decision |
| `RateLimiter.PruneDropsIff` | app/src/network/rpc/rate_limiter.rs:330-334 | pruning drops exactly the keys whose bucket was full before the limit |
| `RateLimiter.WaitIsExact` | app/src/network/rpc/rate_limiter.rs:313-328 | the reported wait is the shortest that succeeds |
| `RateLimiter.BurstIsMaxTokensIff` | app/src/network/rpc/rate_limiter.rs:271-288 | a fresh key may spend the quota at once; more exactly when rounding leaves a whole token's time over |
| `RateLimiter.Admit` | app/src/network/rpc/rate_limiter.rs:292-328 | the decision and the updated map |
| `RateLimiter.Limiter.Allows` | app/src/network/rpc/rate_limiter.rs:292-328 | the same on the limiter's own map |
| `RateLimiter.Limiter.Prune` | app/src/network/rpc/rate_limiter.rs:330-334 | keeps exactly the keys whose bucket is not full |
| `SelfLimiter.ServeConserves` | app/src/network/rpc/self_limiter.rs:141-161 | serving a queue loses and duplicates nothing, and leaves a queue exactly when it asks for a timer |
| `SelfLimiter.ServeShape` | app/src/network/rpc/self_limiter.rs:141-161 | what is sent is the stretch at the front that the limiter lets through, and the request after it moves to the end |
| `SelfLimiter.TimerFired` | app/src/network/rpc/self_limiter.rs:163-170 | a timer that fires leaves its key without one and every other key with one |
| `SelfLimiter.AllowsKeepsBalance` | app/src/network/rpc/self_limiter.rs:69-95 | a new request keeps the books balanced |
| `SelfLimiter.FiredKeepsBalance` | app/src/network/rpc/self_limiter.rs:141-161 | so does a fired timer |
| `SelfLimiter.PollKeepsBalance` | app/src/network/rpc/self_limiter.rs:163-180 | so does a poll |
| `SelfLimiter.RunKeepsBalance` | app/src/network/rpc/self_limiter.rs:69-180 | after every run each queue is non-empty with exactly one pending timer in the delay queue, no other timer is pending, and submitted requests are those sent, ready and queued |
| `SelfLimiter.TimerServesFront` | app/src/network/rpc/self_limiter.rs:141-161 | when a queue's first timer fires its first request is sent |
| `Outbound.LetGoIsWhatIsAdded` | app/src/network/rpc/self_limiter.rs:69-180 | exactly the requests the limiter lets through join those sent or ready |
| `Outbound.OutboundIsBounded` | app/src/network/rpc/self_limiter.rs:69-180 | in any window of any run the requests let go for a peer and protocol, queued before or not, cost at most one bucket plus the length of the window, leaving out those larger than a bucket |
| `Outbound.NewTimerIsExact` | app/src/network/rpc/self_limiter.rs:81-92 | the timer started for a delayed request runs out exactly when it can go |
| `Outbound.NextTimerIsExact` | app/src/network/rpc/self_limiter.rs:144-153 | so does the one started for the request that stopped a queue |
| `Outbound.RefusedAgainCostsMore` | app/src/network/rpc/self_limiter.rs:141-161 | when a timer fires and nothing goes, the front costs more than the request the timer was for |
| `Outbound.QueueProgresses` | app/src/network/rpc/self_limiter.rs:141-161 | a queue sends something after at most one firing more than it has costlier requests |
| `SelfLimiter.SelfRateLimiter.TrySendRequest` | app/src/network/rpc/self_limiter.rs:100-137 | each of the limiter's three answers becomes a request that goes out or a wait, and the limiter is charged only for one that fits |
| `SelfLimiter.WaitingIsExact` | app/src/network/rpc/self_limiter.rs:100-137 | a refused request waits exactly as long as it is told to, asking again any earlier gives the rest of the wait, and asking costs nothing |
| `SelfLimiter.SelfRateLimiter.Allows` | app/src/network/rpc/self_limiter.rs:69-95 | the outcome and the new books |
| `SelfLimiter.SelfRateLimiter.DrainQueue` | app/src/network/rpc/self_limiter.rs:144-156 | the loop pops, marks ready and requeues as specified |
| `SelfLimiter.SelfRateLimiter.NextPeerRequestReady` | app/src/network/rpc/self_limiter.rs:141-161 | a served queue gets a new timer or is removed |
| `SelfLimiter.SelfRateLimiter.PollReady` | app/src/network/rpc/self_limiter.rs:163-180 | one expired timer, pruning, and at most one request handed out |

## Left out

- Hash collisions, BLS, Schnorr, SHA-256d, Taproot addresses: hashes and signatures are symbolic; only `AuxPow` computes on bytes, with the hash function as a parameter.
- 64-bit and 256-bit overflow of amounts, fees and of the limiter's time arithmetic: numbers are unbounded except in `Targets` and `AuxPow`.
- Proof-of-work targets, chain id and bits inside `check_pow`, the author check with its slots and timestamps, and the skipping of proof and signature checks up to height 533683: they are the `Verdicts` of a step. `Targets`, `AuxPow`, `Withdrawals` and `Signing` model the parts on their own.
- Chain.Chain.RunCheckPow: whether the work meets the target for the required bits and the chain id is one verdict.
- Chain.Chain.RunCheckHeader: the signatures of the listed pegouts are one verdict, looked at after all ids are compared, where the source alternates; only the kind of error can differ.
- Chain.Chain.RunCheckBlock: the author check and the peg checks are verdicts.
- Chain.Chain.ProcessBlock: keeps candidates as a set and takes what the candidate cache drops as a parameter; `Candidates` models that cache. The node's own approval and the closing attempt to accept are steps of their own.
- Chain.Chain.MaybeAcceptBlock: takes the verdict on the quorum, which `Approvals` models, as a parameter.
- Chain.Chain.ImportBlock: the peg-ins and pegouts a validator registers on import are in `Pegins` and `Wallet`. The stored head is not kept apart from the one in memory; they differ only after a panic, and no run reaches one.
- Chain.AuxPowMiner.CreateAuxBlock: the bits, height and chain id that go out with the commitment are left out.
- Several error variants of the source are one error here where it builds them from text.
- Cache claims after a rollback, and index claims for parents that do not descend from the head: false, with the exact conditions proved.
- Delivery of approvals that arrive before their block: they are parked at height 0 and the cache does not move them, so nothing is claimed about them.
- `AggregateApproval`, `CandidateState`, transactions and partially signed transactions are values; updates inside them and aliasing are not captured. The Bitcoin database of the wallet is a pair of maps.
- The limiter of each protocol is a part of one map from peer and protocol, with the protocol's rate.
- A request that is refused when its queue is served goes to the back, as in the source, so no first-in first-out order is claimed.
- Outbound.OutboundIsBounded: requests larger than a bucket are not counted, because the source sends them without charging them.
- Wallet.UtxoManager.CreatePayment: the coin selection's result and the fee for the transaction's weight are parameters; the selection is only assumed to pick distinct spendable outputs.
- Wallet.UtxoManager.CheckPaymentProposal: without outputs fetched from the Bitcoin network (`try_fetch_utxo`, `register_utxos`).
- AuxPow.CheckMerkleBranch: the mask is an unbounded number, so bits from the 32nd on are zero; what the source's 32-bit shift does on a coinbase branch of more than 32 levels is not modelled.
- Targets.NextWorkMonotoneAndBounded: decimal arithmetic is exact up to the rounding to two decimals; the 28-digit precision of the decimal type is not modelled.
- The signature-operation budget, the script size limits and numbers beyond small integers in Tapscript.
- The coinbase parser that reads the header from the script signature, the block column by AuxPoW height, and the pow limit, which the source does not apply when retargeting.
- Engine API, Bitcoin and JSON-RPC servers, libp2p networking, gossip, block sync with its circuit breaker and peer fallback, metrics, configuration, command line, Solidity contracts and scripts: input and output, or logic that would only add easy members.

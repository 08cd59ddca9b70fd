/** Blocks, their hashes, and what a chain of blocks means on its own, independent of any store.

    A hash is a free term: `Root(b)` stands for `canonical_root` of block `b`, so hashes are injective
    and a block cannot contain its own hash. `Zero` is the all-zero hash the genesis block points to. */
module Blocks {
  import opened Util
  import opened Bitcoin

  datatype Hash = Zero | Root(block: Block)

  /** A merged-mining proof, reduced to the list of block hashes it commits to (`aggregate_hash` is
      injective). Whether it meets the difficulty target is an input of the steps that check it. */
  datatype WorkProof = WorkProof(committed: seq<Hash>)

  datatype AuxPowHeader = AuxPowHeader(
    rangeStart: Hash, rangeEnd: Hash, height: nat, auxpow: Option<WorkProof>)

  /** `proposal` and `finalized` are the txids of the pegout proposal and of the finalized pegouts;
      `fees` is what `total_fees` computes from the block's transactions and receipts. */
  datatype Block = Block(
    parent: Hash, number: nat, header: Option<AuxPowHeader>,
    payloadHash: nat, payloadParent: nat,
    proposal: Option<Txid>, finalized: seq<Txid>, fees: nat)

  datatype Config = Config(maxBlocksWithoutPow: nat, isValidator: bool)

  function Number(h: Hash): nat {
    if h.Zero? then 0 else h.block.number
  }

  /** `a` is `h` or one of its ancestors. */
  predicate IsAncestor(a: Hash, h: Hash) {
    a == h || (h.Root? && IsAncestor(a, h.block.parent))
  }

  /** The hashes after `a` up to and including `h`, oldest first. */
  function Suffix(a: Hash, h: Hash): seq<Hash> {
    if a == h || h.Zero? then [] else Suffix(a, h.block.parent) + [h]
  }

  /** The nearest ancestor-or-self that carries an AuxPoW header. */
  function PowAncestor(h: Hash): (p: Hash)
    ensures p.Root? ==> p.block.header.Some?
  {
    if h.Zero? || h.block.header.Some? then h else PowAncestor(h.block.parent)
  }

  /** The last block finalized by the AuxPoW headers of `h` and its ancestors. A header of height 0
      (genesis) finalizes the block that carries it. */
  function Finalized(h: Hash): Hash {
    var p := PowAncestor(h);
    if p.Zero? then Zero
    else if p.block.header.value.height != 0 then p.block.header.value.rangeEnd
    else p
  }

  /** The pegout proposals of a list of blocks, in list order. */
  function Proposals(hs: seq<Hash>): seq<Txid> {
    if hs == [] then []
    else Proposals(hs[..|hs| - 1]) + ProposalOf(hs[|hs| - 1])
  }

  function ProposalOf(h: Hash): seq<Txid> {
    if h.Root? && h.block.proposal.Some? then [h.block.proposal.value] else []
  }

  predicate IsGenesis(b: Block) {
    && b.parent == Zero && b.number == 0
    && b.header == Some(AuxPowHeader(Zero, Zero, 0, None))
    && b.proposal == None && b.finalized == []
  }

  /** The finalized pegouts listed by `b` are the ones its range requires. A full node only compares
      the counts. */
  predicate ListsRequired(b: Block, required: seq<Txid>, cfg: Config) {
    && |b.finalized| == |required|
    && (cfg.isValidator ==> b.finalized == required)
  }

  /** `h` is the tip of a chain that starts at genesis and whose numbers are consecutive. */
  predicate Numbered(h: Hash) {
    h.Root? &&
    if h.block.parent.Zero? then IsGenesis(h.block)
    else Numbered(h.block.parent) && h.block.number == Number(h.block.parent) + 1
  }

  /** `b` follows its parent by the rules: without a header it stays within the limit above what its
      parent finalized; a header's range starts right after that, ends on the parent's branch, and its
      pegouts are listed. */
  predicate FollowsRules(b: Block, cfg: Config) {
    match b.header
    case None =>
      b.number <= Number(Finalized(b.parent)) + cfg.maxBlocksWithoutPow && b.finalized == []
    case Some(p) =>
      && p.height != 0
      && IsAncestor(p.rangeEnd, b.parent)
      && p.rangeStart.Root? && IsAncestor(p.rangeStart, p.rangeEnd)
      && p.rangeStart.block.parent == Finalized(b.parent)
      && ListsRequired(b, Proposals(Suffix(Finalized(b.parent), p.rangeEnd)), cfg)
  }

  /** `h` is `base` or was built on it by blocks that follow the rules. */
  predicate RuledFrom(base: Hash, h: Hash, cfg: Config) {
    h == base || (h.Root? && RuledFrom(base, h.block.parent, cfg) && FollowsRules(h.block, cfg))
  }

  /** A block from which the rules can be counted: what it has finalized lies on its own branch. Nothing
      is asked of the blocks before it, which may hold unlinked ranges. */
  predicate IsBase(base: Hash) {
    Numbered(base) && Finalized(base).Root? && IsAncestor(Finalized(base), base)
  }

  predicate Sound(base: Hash, h: Hash, cfg: Config) {
    IsBase(base) && Numbered(h) && RuledFrom(base, h, cfg)
  }

  // ---- Ancestors and suffixes

  lemma {:induction false} AncestorTransitive(a: Hash, b: Hash, c: Hash)
    requires IsAncestor(a, b) && IsAncestor(b, c)
    ensures IsAncestor(a, c)
  {
    if b != c { AncestorTransitive(a, b, c.block.parent); }
  }

  /** Along a numbered chain the numbers count the blocks. */
  lemma {:induction false} AncestorOfNumbered(a: Hash, h: Hash)
    requires Numbered(h) && IsAncestor(a, h) && a.Root?
    ensures Numbered(a)
    ensures Number(a) + |Suffix(a, h)| == Number(h)
  {
    if a != h { AncestorOfNumbered(a, h.block.parent); }
  }

  lemma {:induction false} AncestorByNumber(a: Hash, b: Hash, h: Hash)
    requires Numbered(h) && IsAncestor(a, h) && IsAncestor(b, h) && a.Root? && b.Root?
    requires Number(a) == Number(b)
    ensures a == b
  {
    AncestorOfNumbered(a, h);
    AncestorOfNumbered(b, h);
    if a != h && b != h { AncestorByNumber(a, b, h.block.parent); }
  }

  /** Of two ancestors of one block, the lower is an ancestor of the higher. */
  lemma {:induction false} AncestorsAreLinear(a: Hash, b: Hash, h: Hash)
    requires Numbered(h) && IsAncestor(a, h) && IsAncestor(b, h) && a.Root? && b.Root?
    requires Number(a) <= Number(b)
    ensures IsAncestor(a, b)
  {
    AncestorOfNumbered(b, h);
    if b != h && a != h { AncestorsAreLinear(a, b, h.block.parent); }
  }

  function Depth(h: Hash): nat {
    if h.Zero? then 0 else 1 + Depth(h.block.parent)
  }

  lemma {:induction false} AncestorDepth(a: Hash, h: Hash)
    requires IsAncestor(a, h)
    ensures Depth(a) <= Depth(h)
    ensures Depth(a) == Depth(h) ==> a == h
  {
    if a != h { AncestorDepth(a, h.block.parent); }
  }

  lemma {:induction false} SuffixSplit(a: Hash, b: Hash, h: Hash)
    requires IsAncestor(a, b) && IsAncestor(b, h)
    ensures Suffix(a, h) == Suffix(a, b) + Suffix(b, h)
  {
    AncestorDepth(a, b);
    AncestorDepth(b, h);
    if b != h && a != h {
      SuffixSplit(a, b, h.block.parent);
      assert Suffix(a, b) + Suffix(b, h.block.parent) + [h]
          == Suffix(a, b) + (Suffix(b, h.block.parent) + [h]);
    }
  }

  /** The members of a suffix are exactly the ancestors numbered above its start. */
  lemma {:induction false} SuffixMembers(a: Hash, h: Hash, x: Hash)
    requires Numbered(h) && IsAncestor(a, h) && a.Root?
    ensures x in Suffix(a, h) <==> x.Root? && IsAncestor(x, h) && Number(x) > Number(a)
  {
    if a == h {
      if x.Root? && IsAncestor(x, h) { AncestorOfNumbered(x, h); }
    } else {
      AncestorOfNumbered(a, h);
      SuffixMembers(a, h.block.parent, x);
    }
  }

  /** No block occurs twice in a suffix: position `i` holds the block numbered `Number(a) + 1 + i`. */
  lemma {:induction false} SuffixNumbers(a: Hash, h: Hash, i: nat)
    requires Numbered(h) && IsAncestor(a, h) && a.Root? && i < |Suffix(a, h)|
    ensures Number(Suffix(a, h)[i]) == Number(a) + 1 + i
  {
    AncestorOfNumbered(a, h);
    if i < |Suffix(a, h)| - 1 { SuffixNumbers(a, h.block.parent, i); }
  }

  // ---- Finalization

  lemma {:induction false} PowAncestorOfNumbered(h: Hash)
    requires Numbered(h)
    ensures PowAncestor(h).Root? && IsAncestor(PowAncestor(h), h)
  {
    if h.block.header.None? { PowAncestorOfNumbered(h.block.parent); }
  }

  /** Genesis is a base, and has finalized itself. */
  lemma GenesisIsBase(g: Block)
    requires IsGenesis(g)
    ensures IsBase(Root(g)) && Finalized(Root(g)) == Root(g)
  {}

  lemma {:induction false} BaseIsAncestor(base: Hash, h: Hash, cfg: Config)
    requires RuledFrom(base, h, cfg)
    ensures IsAncestor(base, h)
  {
    if h != base { BaseIsAncestor(base, h.block.parent, cfg); }
  }

  lemma {:induction false} AncestorOfSound(base: Hash, a: Hash, h: Hash, cfg: Config)
    requires Sound(base, h, cfg) && IsAncestor(base, a) && IsAncestor(a, h)
    ensures Sound(base, a, cfg)
  {
    if a != h {
      AncestorDepth(base, a);
      AncestorDepth(a, h.block.parent);
      AncestorOfSound(base, a, h.block.parent, cfg);
    }
  }

  /** What a chain has finalized lies on that chain. */
  lemma {:induction false} FinalizedOfSound(base: Hash, h: Hash, cfg: Config)
    requires Sound(base, h, cfg)
    ensures Finalized(h).Root? && IsAncestor(Finalized(h), h) && Number(Finalized(h)) <= Number(h)
  {
    if h != base && h.block.header.None? { FinalizedOfSound(base, h.block.parent, cfg); }
    AncestorOfNumbered(Finalized(h), h);
  }

  /** An accepted header finalizes strictly more than its parent had finalized, and never its own block. */
  lemma RangeAdvances(base: Hash, h: Hash, cfg: Config)
    requires Sound(base, h, cfg) && h != base && h.block.header.Some?
    ensures Number(Finalized(h.block.parent)) < Number(Finalized(h)) < Number(h)
    ensures IsAncestor(Finalized(h.block.parent), Finalized(h))
  {
    var b := h.block;
    var p := b.header.value;
    FinalizedOfSound(base, b.parent, cfg);
    AncestorOfNumbered(p.rangeEnd, b.parent);
    AncestorOfNumbered(p.rangeStart, p.rangeEnd);
    AncestorTransitive(Finalized(b.parent), p.rangeStart, p.rangeEnd);
  }

  /** The number of blocks above the last finalized one. */
  function Unfinalized(h: Hash): int {
    Number(h) - Number(Finalized(h))
  }

  /** The limit without proof of work, or the number of unfinalized blocks at the base if that is more. */
  function Limit(base: Hash, cfg: Config): int {
    if Unfinalized(base) <= cfg.maxBlocksWithoutPow then cfg.maxBlocksWithoutPow else Unfinalized(base)
  }

  /** The number of blocks above the last finalized one never exceeds the limit. */
  lemma {:induction false} UnfinalizedIsBounded(base: Hash, h: Hash, cfg: Config)
    requires Sound(base, h, cfg)
    ensures Unfinalized(h) <= Limit(base, cfg)
  {
    if h != base && h.block.header.Some? {
      UnfinalizedIsBounded(base, h.block.parent, cfg);
      RangeAdvances(base, h, cfg);
    }
  }

  /** The ranges of all headers after `base`, put one after the other. */
  function RangesFrom(base: Hash, h: Hash): seq<Hash> {
    if h == base || h.Zero? then []
    else RangesFrom(base, h.block.parent) +
         match h.block.header
         case None => []
         case Some(p) =>
           if p.rangeStart.Root? then Suffix(p.rangeStart.block.parent, p.rangeEnd) else []
  }

  /** The finalized pegouts of all blocks after `base`, put one after the other. */
  function FinalizedPegoutsFrom(base: Hash, h: Hash): seq<Txid> {
    if h == base || h.Zero? then [] else FinalizedPegoutsFrom(base, h.block.parent) + h.block.finalized
  }

  lemma {:induction false} FinalizedGrows(base: Hash, h: Hash, cfg: Config)
    requires Sound(base, h, cfg)
    ensures IsAncestor(Finalized(base), Finalized(h))
  {
    if h != base {
      FinalizedGrows(base, h.block.parent, cfg);
      if h.block.header.Some? {
        RangeAdvances(base, h, cfg);
        AncestorTransitive(Finalized(base), Finalized(h.block.parent), Finalized(h));
      }
    }
  }

  /** The ranges tile what was finalized since the base: no gap, no overlap, in chain order. */
  lemma {:induction false} RangesTile(base: Hash, h: Hash, cfg: Config)
    requires Sound(base, h, cfg)
    ensures RangesFrom(base, h) == Suffix(Finalized(base), Finalized(h))
  {
    if h != base {
      RangesTile(base, h.block.parent, cfg);
      if h.block.header.Some? { SplitAtFinalized(base, h, cfg); }
    }
  }

  lemma SplitAtFinalized(base: Hash, h: Hash, cfg: Config)
    requires Sound(base, h, cfg) && h != base && h.block.header.Some?
    ensures var last := Finalized(h.block.parent);
            Suffix(Finalized(base), Finalized(h)) == Suffix(Finalized(base), last) + Suffix(last, Finalized(h))
  {
    FinalizedGrows(base, h.block.parent, cfg);
    RangeAdvances(base, h, cfg);
    SuffixSplit(Finalized(base), Finalized(h.block.parent), Finalized(h));
  }

  lemma {:induction false} ProposalsAppend(s: seq<Hash>, t: seq<Hash>)
    ensures Proposals(s + t) == Proposals(s) + Proposals(t)
  {
    if t == [] {
      assert s + t == s;
    } else {
      assert (s + t)[..|s + t| - 1] == s + t[..|t| - 1];
      ProposalsAppend(s, t[..|t| - 1]);
    }
  }

  /** On a validator the pegouts finalized since the base are the proposals of the chain finalized since
      then, each once and in chain order; a full node knows their number. */
  lemma {:induction false} PegoutsMatchProposals(base: Hash, h: Hash, cfg: Config)
    requires Sound(base, h, cfg)
    ensures var due := Proposals(Suffix(Finalized(base), Finalized(h)));
            && |FinalizedPegoutsFrom(base, h)| == |due|
            && (cfg.isValidator ==> FinalizedPegoutsFrom(base, h) == due)
  {
    if h != base {
      PegoutsMatchProposals(base, h.block.parent, cfg);
      if h.block.header.Some? {
        SplitAtFinalized(base, h, cfg);
        var last := Finalized(h.block.parent);
        ProposalsAppend(Suffix(Finalized(base), last), Suffix(last, Finalized(h)));
      }
    }
  }

  // ---- Fees

  /** What the fee accumulator holds after `h`: the fees since the last header, that block included. */
  function AccumulatedFees(h: Hash): nat {
    if h.Zero? then 0
    else if h.block.header.Some? then h.block.fees
    else AccumulatedFees(h.block.parent) + h.block.fees
  }

  /** What the headers up to `h` have paid out: each one pays what the accumulator held at its parent. */
  function PaidFees(h: Hash): nat {
    if h.Zero? then 0
    else PaidFees(h.block.parent) + if h.block.header.Some? then AccumulatedFees(h.block.parent) else 0
  }

  function TotalFees(h: Hash): nat {
    if h.Zero? then 0 else TotalFees(h.block.parent) + h.block.fees
  }

  /** Every fee is either paid out once or still accumulated; right after a header exactly the fees of
      all earlier blocks have been paid. */
  lemma {:induction false} FeesAreConserved(h: Hash)
    ensures PaidFees(h) + AccumulatedFees(h) == TotalFees(h)
    ensures h.Root? && h.block.header.Some? ==> PaidFees(h) == TotalFees(h.block.parent)
  {
    if h.Root? { FeesAreConserved(h.block.parent); }
  }
}

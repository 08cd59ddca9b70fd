/** Runs of the node: what every sequence of handlers keeps of the store, the height index, the latest-PoW
    pointer and the fee column. */
module Runs {
  import opened Util
  import opened Blocks
  import opened Node

  datatype Step =
    | Process(b: Block, v: Verdicts, dropped: set<Block>)
    | Accept(b: Block)
    | Rollback(target: nat)
    | CreateWork
    | SubmitWork(commitment: seq<Hash>, proof: WorkProof, workOk: bool)

  function Apply(s: State, cfg: Config, step: Step): State {
    match step
    case Process(b, v, dropped) => Processed(s, cfg, b, v, dropped)
    case Accept(b) => Accepted(s, b)
    case Rollback(target) => RolledBack(s, target)
    case CreateWork => WorkCreated(s)
    case SubmitWork(c, proof, workOk) => WorkSubmitted(s, c, proof, workOk)
  }

  function Run(s: State, cfg: Config, steps: seq<Step>): State
    decreases |steps|
  {
    if steps == [] then s else Run(Apply(s, cfg, steps[0]), cfg, steps[1..])
  }

  // ---- What a run is assumed to provide

  /** The execution layer numbers blocks consecutively. */
  predicate Contiguous(b: Block) {
    b.parent.Root? ==> b.number == b.parent.block.number + 1
  }

  /** Blocks are numbered by the execution layer, an imported block extends the current head, and
      rollbacks go down, as both callers make them. */
  predicate ExtendsHead(s: State, step: Step) {
    match step
    case Process(b, _, _) => Contiguous(b)
    case Accept(b) => s.head.Some? && b.parent == s.head.value.hash
    case Rollback(target) => s.head.Some? && target <= s.head.value.height
    case _ => true
  }

  predicate ExtendsHeadRun(s: State, cfg: Config, steps: seq<Step>)
    decreases |steps|
  {
    steps != [] ==> ExtendsHead(s, steps[0]) && ExtendsHeadRun(Apply(s, cfg, steps[0]), cfg, steps[1..])
  }

  // ---- Invariants

  predicate Closed(store: Store) {
    forall h :: h in store ==> store[h].parent.Zero? || store[h].parent in store
  }

  /** The height index at or below `tip` gives exactly the ancestors of `tip`. */
  predicate IndexMatches(index: map<nat, Hash>, tip: Hash) {
    forall i :: 0 <= i <= Number(tip) ==>
      i in index && index[i].Root? && IsAncestor(index[i], tip) && Number(index[i]) == i
  }

  ghost predicate AllNumbered(store: Store) {
    forall h :: h in store ==> Numbered(h)
  }

  ghost predicate FeesMatch(store: Store, fees: map<Hash, nat>) {
    forall h :: h in store ==> h in fees && fees[h] == AccumulatedFees(h)
  }

  /** Candidates were checked on a stored parent at or above the head. */
  predicate CandidatesExtend(store: Store, pending: set<Block>, height: nat) {
    forall b :: b in pending ==> b.parent in store && Number(b.parent) >= height && b.number == Number(b.parent) + 1
  }

  /** The block a candidate finalizes is stored. */
  predicate PanicFree(store: Store, pending: set<Block>) {
    forall b :: b in pending ==> !ImportPanics(store, b)
  }

  function Ref(h: Hash): BlockRef {
    BlockRef(h, Number(h))
  }

  /** The store is a tree of numbered chains, the index and the latest-PoW pointer describe the head's
      branch, and the fee column holds the accumulator of every branch. */
  ghost predicate Indexed(s: State) {
    && s.head.Some? && s.head.value.hash in s.blocks && s.head == Some(Ref(s.head.value.hash))
    && Closed(s.blocks) && AllNumbered(s.blocks)
    && IndexMatches(s.index, s.head.value.hash)
    && s.latestPow == Some(Ref(PowAncestor(s.head.value.hash)))
    && FeesMatch(s.blocks, s.fees)
    && CandidatesExtend(s.blocks, s.pending, s.head.value.height) && PanicFree(s.blocks, s.pending)
  }

  /** A node that has just stored genesis, before the cache is filled. */
  function GenesisState(g: Block): State {
    Imported(State(map[], map[], None, None, map[], None, {}, [], map[]), g)
  }

  // ---- Imports never panic

  lemma CheckedIsPanicFree(s: State, cfg: Config, b: Block, v: Verdicts)
    requires CheckBlock(s, cfg, b, v).Ok?
    ensures !ImportPanics(s.blocks, b)
  {
    if b.header.Some? { assert ProposalsBetween(s.blocks, b.header.value.rangeStart, b.header.value.rangeEnd).Ok?; }
  }

  lemma NewCandidateIsPanicFree(store: Store, pending: set<Block>, b: Block, dropped: set<Block>)
    requires PanicFree(store, pending) && !ImportPanics(store, b)
    ensures PanicFree(store, pending + {b} - dropped)
  {}

  lemma PanicFreeStep(s: State, cfg: Config, step: Step)
    requires PanicFree(s.blocks, s.pending)
    ensures var s' := Apply(s, cfg, step);
            PanicFree(s'.blocks, s'.pending)
  {
    match step
    case Process(b, v, dropped) =>
      if CheckBlock(s, cfg, b, v).Ok? {
        CheckedIsPanicFree(s, cfg, b, v);
        NewCandidateIsPanicFree(s.blocks, s.pending, b, dropped);
      }
    case Accept(_) =>
    case Rollback(_) =>
    case CreateWork =>
    case SubmitWork(_, _, _) =>
  }

  /** Whatever is proposed, accepted, rolled back or mined, the finalization of an import finds its block:
      a candidate was checked against a store that has only grown since. */
  lemma {:induction false} PanicFreeRun(s: State, cfg: Config, steps: seq<Step>)
    requires PanicFree(s.blocks, s.pending)
    ensures var s' := Run(s, cfg, steps);
            PanicFree(s'.blocks, s'.pending)
    decreases |steps|
  {
    if steps != [] {
      PanicFreeStep(s, cfg, steps[0]);
      PanicFreeRun(Apply(s, cfg, steps[0]), cfg, steps[1..]);
    }
  }

  // ---- The store walks find ancestors

  lemma {:induction false} AncestorsAreStored(store: Store, a: Hash, h: Hash)
    requires Closed(store) && h in store && IsAncestor(a, h) && a.Root?
    ensures a in store
  {
    if a != h { AncestorsAreStored(store, a, store[h].parent); }
  }

  /** The parent walk succeeds exactly on ancestors, with the blocks in between. */
  lemma {:induction false} WalkBackFindsSuffix(store: Store, from: Hash, to: Hash)
    requires Closed(store) && (to in store || to.Zero?) && from.Root?
    ensures IsAncestor(from, to) ==> WalkBack(store, from, to) == Ok(Suffix(from, to))
    ensures !IsAncestor(from, to) ==> WalkBack(store, from, to) == Err(InvalidBlockRange)
  {
    if to != from && to.Root? { WalkBackFindsSuffix(store, from, store[to].parent); }
  }

  lemma SuffixFromParent(from: Hash, to: Hash)
    requires from.Root? && IsAncestor(from, to)
    ensures Proposals(Suffix(from.block.parent, to)) ==
            if from == to then ProposalOf(to)
            else Proposals(Suffix(from.block.parent, to.block.parent)) + ProposalOf(to)
  {
    AncestorDepth(from, to);
    assert Depth(from.block.parent) < Depth(to);
    var hs := Suffix(from.block.parent, to);
    assert hs[..|hs| - 1] == Suffix(from.block.parent, to.block.parent);
  }

  /** The proposal walk succeeds exactly on ancestors, with the proposals of the whole range. */
  lemma {:induction false} ProposalWalk(store: Store, from: Hash, to: Hash)
    requires Closed(store) && (to in store || to.Zero?) && from.Root?
    ensures IsAncestor(from, to) ==>
              ProposalsBetween(store, from, to) == Ok(Proposals(Suffix(from.block.parent, to)))
    ensures !IsAncestor(from, to) ==> ProposalsBetween(store, from, to) == Err(InvalidBlockRange)
  {
    if to != from && to.Root? { ProposalWalk(store, from, store[to].parent); }
    if IsAncestor(from, to) { SuffixFromParent(from, to); }
  }

  /** The backward search of a rollback always ends at a header, because genesis carries one. */
  lemma {:induction false} FindPowFindsNearest(store: Store, h: Hash)
    requires Closed(store) && h in store && Numbered(h)
    ensures FindPow(store, h) == Ok(Some(PowAncestor(h)))
  {
    if store[h].header.None? { FindPowFindsNearest(store, store[h].parent); }
  }

  // ---- The index, the latest-PoW pointer and the fee column

  /** Importing a block on any stored parent leaves the index right for the new head exactly when it
      was already right for the parent. */
  lemma ImportKeepsIndexIff(s: State, b: Block)
    requires b.parent.Root? && b.number == Number(b.parent) + 1 && !ImportPanics(s.blocks, b)
    ensures IndexMatches(Imported(s, b).index, Root(b)) <==> IndexMatches(s.index, b.parent)
  {
    var s' := Imported(s, b);
    if IndexMatches(s'.index, Root(b)) {
      forall i | 0 <= i <= Number(b.parent)
        ensures i in s.index && s.index[i].Root? && IsAncestor(s.index[i], b.parent) && Number(s.index[i]) == i
      {
        assert i in s'.index && i != b.number;
      }
    }
    if IndexMatches(s.index, b.parent) {
      forall i | 0 <= i <= b.number
        ensures i in s'.index && s'.index[i].Root? && IsAncestor(s'.index[i], Root(b)) && Number(s'.index[i]) == i
      {
        if i < b.number { assert s'.index[i] == s.index[i]; }
      }
    }
  }

  /** Why imports must extend the head: the parent is only required to be stored, and on a parent that
      does not descend from the head the index never fits the new head. */
  lemma StaleParentBreaksIndex(s: State, b: Block)
    requires Indexed(s) && b in s.pending && !IsAncestor(s.head.value.hash, b.parent)
    ensures !IndexMatches(Imported(s, b).index, Root(b))
  {
    ImportKeepsIndexIff(s, b);
    var i := s.head.value.height;
    AncestorByNumber(s.index[i], s.head.value.hash, s.head.value.hash);
  }

  /** Whatever is imported, the head never falls: it is the new block unless that one is lower. */
  lemma HeadNeverFalls(s: State, b: Block)
    requires s.head.Some?
    ensures var head := Imported(s, b).head;
            head == if b.number < s.head.value.height then s.head else Some(BlockRef(Root(b), b.number))
  {}

  lemma ImportExtendingHead(s: State, b: Block)
    requires Indexed(s) && b in s.pending && b.parent == s.head.value.hash
    ensures Indexed(Accepted(s, b))
  {
    var s0 := s.(pending := {});
    var s' := Imported(s0, b);
    ImportKeepsIndexIff(s0, b);
    assert IndexMatches(s0.index, b.parent);
    assert Numbered(Root(b));
    assert AccumulatedFees(Root(b)) == FeesAfter(s0.fees, b);
  }

  lemma AcceptKeepsIndexed(s: State, b: Block)
    requires Indexed(s) && s.head.Some? && b.parent == s.head.value.hash
    ensures Indexed(Accepted(s, b))
  {
    if b in s.pending { ImportExtendingHead(s, b); }
  }

  lemma IndexBelow(s: State, target: nat)
    requires Indexed(s) && target <= s.head.value.height
    ensures target in s.index && s.index[target] in s.blocks && Number(s.index[target]) == target
    ensures IndexMatches(s.index, s.index[target])
  {
    var h, head := s.index[target], s.head.value.hash;
    AncestorsAreStored(s.blocks, h, head);
    forall i | 0 <= i <= target
      ensures IsAncestor(s.index[i], h)
    {
      AncestorsAreLinear(s.index[i], h, head);
    }
  }

  lemma RollbackKeepsIndexed(s: State, target: nat)
    requires Indexed(s) && target <= s.head.value.height
    ensures Indexed(RolledBack(s, target))
    ensures RolledBack(s, target).head == Some(Ref(s.index[target]))
  {
    var h := s.index[target];
    IndexBelow(s, target);
    FindPowFindsNearest(s.blocks, h);
    PowAncestorOfNumbered(h);
  }

  /** The steps that leave the chain itself alone. */
  predicate SameChain(s: State, s': State) {
    && s'.blocks == s.blocks && s'.index == s.index && s'.head == s.head
    && s'.latestPow == s.latestPow && s'.fees == s.fees
  }

  lemma CheckedExtendsStore(s: State, cfg: Config, b: Block, v: Verdicts)
    requires CheckBlock(s, cfg, b, v).Ok? && Contiguous(b) && s.head.Some?
    ensures b.parent in s.blocks && s.head.value.height <= Number(b.parent) == b.number - 1
  {}

  lemma NewCandidateKeepsIndexed(s: State, b: Block, dropped: set<Block>)
    requires Indexed(s) && b.parent in s.blocks && !ImportPanics(s.blocks, b)
    requires s.head.value.height <= Number(b.parent) == b.number - 1
    ensures Indexed(s.(pending := s.pending + {b} - dropped))
  {}

  lemma ProcessKeepsIndexed(s: State, cfg: Config, b: Block, v: Verdicts, dropped: set<Block>)
    requires Indexed(s) && Contiguous(b)
    ensures Indexed(Processed(s, cfg, b, v, dropped))
  {
    if CheckBlock(s, cfg, b, v).Ok? {
      CheckedExtendsStore(s, cfg, b, v);
      CheckedIsPanicFree(s, cfg, b, v);
      NewCandidateKeepsIndexed(s, b, dropped);
    }
  }

  lemma MinerKeepsChain(s: State, cfg: Config, step: Step)
    requires step.CreateWork? || step.SubmitWork?
    ensures var s' := Apply(s, cfg, step);
            SameChain(s, s') && s'.pending == s.pending && s'.cache == s.cache
  {}

  lemma MinerKeepsIndexed(s: State, cfg: Config, step: Step)
    requires Indexed(s) && (step.CreateWork? || step.SubmitWork?)
    ensures Indexed(Apply(s, cfg, step))
  {
    MinerKeepsChain(s, cfg, step);
  }

  lemma IndexedStep(s: State, cfg: Config, step: Step)
    requires Indexed(s) && ExtendsHead(s, step)
    ensures Indexed(Apply(s, cfg, step))
  {
    match step
    case Process(b, v, dropped) => ProcessKeepsIndexed(s, cfg, b, v, dropped);
    case Accept(b) => AcceptKeepsIndexed(s, b);
    case Rollback(target) => RollbackKeepsIndexed(s, target);
    case CreateWork => MinerKeepsIndexed(s, cfg, step);
    case SubmitWork(_, _, _) => MinerKeepsIndexed(s, cfg, step);
  }

  /** In every run of imports that extend the head, mixed with rollbacks, the height index at or below
      the head gives exactly the head's ancestors and the latest-PoW pointer is the nearest header. */
  lemma {:induction false} IndexedRun(s: State, cfg: Config, steps: seq<Step>)
    requires Indexed(s) && ExtendsHeadRun(s, cfg, steps)
    ensures Indexed(Run(s, cfg, steps))
    decreases |steps|
  {
    if steps != [] {
      IndexedStep(s, cfg, steps[0]);
      IndexedRun(Apply(s, cfg, steps[0]), cfg, steps[1..]);
    }
  }

  /** The index entry at `i` is the one ancestor of the head numbered `i`. */
  lemma IndexIsTheAncestor(s: State, a: Hash)
    requires Indexed(s) && a.Root? && IsAncestor(a, s.head.value.hash)
    ensures Number(a) in s.index && s.index[Number(a)] == a
  {
    AncestorOfNumbered(a, s.head.value.hash);
    AncestorByNumber(a, s.index[Number(a)], s.head.value.hash);
  }

  /** On every stored branch, rolled back or not, the fee column plus what the branch's headers paid out is
      the sum of its blocks' fees, and each header pays what is stored for its parent. */
  lemma {:induction false} StoredFeesAreConserved(s: State, h: Hash)
    requires Indexed(s) && h in s.blocks
    ensures PaidFees(h) + s.fees[h] == TotalFees(h)
    ensures h.block.header.Some? && h.block.parent.Root? ==>
              h.block.parent in s.fees && PaidFees(h) == PaidFees(h.block.parent) + s.fees[h.block.parent]
  {
    FeesAreConserved(h);
  }
}

/** Safety of finalization: what every run keeps of the limit on unfinalized blocks, the tiling of the chain by
    finalized ranges, and the pegouts they settle. Everything is relative to a base block, so that nothing is
    asked of the history before it. */
module Safety {
  import opened Util
  import opened Bitcoin
  import opened Blocks
  import opened Node
  import opened Runs

  // ---- Accepted blocks follow the rules

  /** What the head's chain has finalized lies on that chain. */
  ghost predicate Rooted(s: State) {
    Indexed(s) && IsBase(s.head.value.hash)
  }

  lemma LatestPowIsStored(s: State)
    requires Indexed(s)
    ensures s.latestPow.value.hash in s.blocks
  {
    PowAncestorOfNumbered(s.head.value.hash);
    AncestorsAreStored(s.blocks, s.latestPow.value.hash, s.head.value.hash);
  }

  lemma LatestFinalizedIsFinalized(s: State)
    requires Rooted(s)
    ensures LatestFinalized(s) == Ok(Some(Ref(Finalized(s.head.value.hash))))
    ensures Finalized(s.head.value.hash) in s.blocks
  {
    LatestPowIsStored(s);
    AncestorsAreStored(s.blocks, Finalized(s.head.value.hash), s.head.value.hash);
  }

  /** The header's range is one for which the link check applies, or is linked anyway, and the header
      carries the nonzero height every mined header has. */
  predicate Linked(s: State, p: AuxPowHeader) {
    && p.height != 0
    && (p.rangeStart.Root? && s.head.Some? ==>
          Number(p.rangeStart) > UNLINKED_HEIGHT
          || p.rangeStart.block.parent == Finalized(s.head.value.hash))
  }

  /** The header's range ends on the branch of the block that carries it. */
  predicate OnBranch(b: Block) {
    b.header.Some? ==> IsAncestor(b.header.value.rangeEnd, b.parent)
  }

  /** What `check_pow` computes, for a range whose start is stored. */
  lemma ExpectedHashesIn(s: State, p: AuxPowHeader)
    requires Rooted(s) && p.rangeStart in s.blocks
    ensures var start := p.rangeStart.block;
            ExpectedHashes(s, p) ==
            if start.number > UNLINKED_HEIGHT && start.parent != Finalized(s.head.value.hash)
            then Err(InvalidPowRange)
            else HashesBetween(s.blocks, start.parent, p.rangeEnd)
  {
    LatestPowIsStored(s);
    LatestFinalizedIsFinalized(s);
  }

  /** A header that passes both the range check and the proposal walk covers a range that starts right
      after the last finalized block; the degenerate range below it is caught by the walk. */
  lemma CheckedHeader(s: State, cfg: Config, b: Block, v: Verdicts)
    requires Rooted(s) && b.header.Some? && Linked(s, b.header.value)
    requires CheckHeader(s, cfg, b, v).Ok?
    ensures var p := b.header.value;
            var last := Finalized(s.head.value.hash);
            && p.rangeStart.Root? && p.rangeStart.block.parent == last
            && p.rangeEnd in s.blocks && IsAncestor(p.rangeStart, p.rangeEnd)
            && ListsRequired(b, Proposals(Suffix(last, p.rangeEnd)), cfg)
  {
    LatestFinalizedIsFinalized(s);
    var p := b.header.value;
    assert ExpectedHashes(s, p).Ok?;
    ProposalWalk(s.blocks, p.rangeStart, p.rangeEnd);
  }

  lemma CheckedUnheaded(s: State, cfg: Config, b: Block)
    requires Rooted(s) && b.parent == s.head.value.hash && b.header.None?
    requires CheckNoHeader(s, cfg, b).Ok?
    ensures FollowsRules(b, cfg)
  {
    LatestFinalizedIsFinalized(s);
  }

  /** When the link check was skipped for an unlinked range, the range does not start where it should. */
  lemma UnlinkedBreaksRules(s: State, cfg: Config, b: Block)
    requires Rooted(s) && b.parent == s.head.value.hash && b.header.Some?
    requires !Linked(s, b.header.value)
    ensures !FollowsRules(b, cfg)
  {}

  lemma CheckedHeaderFollowsRulesIff(s: State, cfg: Config, b: Block, v: Verdicts)
    requires Rooted(s) && b.parent == s.head.value.hash && b.header.Some?
    requires CheckHeader(s, cfg, b, v).Ok?
    ensures FollowsRules(b, cfg) <==> Linked(s, b.header.value) && OnBranch(b)
  {
    if Linked(s, b.header.value) { CheckedHeader(s, cfg, b, v); } else { UnlinkedBreaksRules(s, cfg, b); }
  }

  lemma CheckedParts(s: State, cfg: Config, b: Block, v: Verdicts)
    requires CheckBlock(s, cfg, b, v).Ok?
    ensures if b.header.Some? then CheckHeader(s, cfg, b, v).Ok? else CheckNoHeader(s, cfg, b).Ok?
  {}

  /** A checked block on top of the head follows the rules exactly when its header, if any, is linked and
      its range ends on the block's own branch. */
  lemma CheckedBlockFollowsRulesIff(s: State, cfg: Config, b: Block, v: Verdicts)
    requires Rooted(s) && b.parent == s.head.value.hash
    requires CheckBlock(s, cfg, b, v).Ok?
    ensures FollowsRules(b, cfg) <==> (b.header.Some? ==> Linked(s, b.header.value) && OnBranch(b))
  {
    CheckedParts(s, cfg, b, v);
    if b.header.Some? { CheckedHeaderFollowsRulesIff(s, cfg, b, v); } else { CheckedUnheaded(s, cfg, b); }
  }

  // ---- Exactly which blocks are accepted

  /** What every proposed block has to meet: it is no genesis block, is higher than the head, is built on a
      stored block on both layers, and the verdicts on its author and, on a validator, its pegs are good. */
  predicate Connected(s: State, cfg: Config, b: Block, v: Verdicts)
    requires s.head.Some?
  {
    && s.head.value.height < b.number
    && b.parent.Root? && b.parent in s.blocks && b.payloadParent == b.parent.block.payloadHash
    && v.signedByAuthor && (cfg.isValidator ==> v.pegsOk)
  }

  /** A block without a header is accepted exactly when it is connected, within the limit above the last
      finalized block, and settles no pegouts. */
  lemma PlainAcceptedIff(s: State, cfg: Config, b: Block, v: Verdicts)
    requires Rooted(s) && b.header.None?
    ensures CheckBlock(s, cfg, b, v).Ok? <==>
            && Connected(s, cfg, b, v)
            && b.number <= Number(Finalized(s.head.value.hash)) + cfg.maxBlocksWithoutPow
            && b.finalized == []
  {
    LatestFinalizedIsFinalized(s);
  }

  lemma RangeHashes(store: Store, start: Hash, end: Hash)
    requires Closed(store) && AllNumbered(store) && end in store
    requires start.Root? && start.block.parent.Root? && IsAncestor(start, end)
    ensures start in store && HashesBetween(store, start.block.parent, end) == Ok(Suffix(start.block.parent, end))
  {
    var last := start.block.parent;
    AncestorsAreStored(store, start, end);
    AncestorOfNumbered(start, end);
    AncestorTransitive(last, start, end);
    WalkBackFindsSuffix(store, last, end);
  }

  /** The range is stored on one branch, is linked where the link is checked, and the work commits to it. */
  predicate CommitsToRange(s: State, p: AuxPowHeader)
    requires s.head.Some?
  {
    && p.rangeEnd in s.blocks && p.rangeStart.Root? && IsAncestor(p.rangeStart, p.rangeEnd)
    && p.rangeStart.block.parent.Root?
    && (Number(p.rangeStart) > 53143 ==> p.rangeStart.block.parent == Finalized(s.head.value.hash))
    && p.auxpow == Some(WorkProof(Suffix(p.rangeStart.block.parent, p.rangeEnd)))
  }

  lemma CommitmentPassesIff(s: State, p: AuxPowHeader, workOk: bool)
    requires Rooted(s) && p.rangeEnd in s.blocks && p.rangeStart.Root? && IsAncestor(p.rangeStart, p.rangeEnd)
    ensures CheckPow(s, p, workOk).Ok? <==> workOk && CommitsToRange(s, p)
  {
    AncestorsAreStored(s.blocks, p.rangeStart, p.rangeEnd);
    ExpectedHashesIn(s, p);
    if p.rangeStart.block.parent.Root? { RangeHashes(s.blocks, p.rangeStart, p.rangeEnd); }
  }

  /** The block settles exactly the pegouts that are due: their number on a full node, themselves and signed
      on a validator. */
  predicate Settles(b: Block, due: seq<Txid>, cfg: Config, v: Verdicts) {
    |b.finalized| == |due| && (cfg.isValidator ==> b.finalized == due && v.pegoutsSigned)
  }

  lemma HeaderParts(s: State, cfg: Config, b: Block, v: Verdicts)
    requires b.header.Some?
    ensures var p := b.header.value;
            var due := ProposalsBetween(s.blocks, p.rangeStart, p.rangeEnd);
            CheckHeader(s, cfg, b, v).Ok? <==>
            CheckPow(s, p, v.workOk).Ok? && due.Ok? && Settles(b, due.value, cfg, v)
  {}

  lemma PassingStartIsStored(s: State, p: AuxPowHeader, workOk: bool)
    requires CheckPow(s, p, workOk).Ok?
    ensures p.rangeStart in s.blocks && p.rangeEnd in s.blocks
  {}

  /** A header is accepted exactly when the work is good and commits to its range, and the block settles the
      proposals of that range. */
  lemma HeaderAcceptedIff(s: State, cfg: Config, b: Block, v: Verdicts)
    requires Rooted(s) && b.header.Some?
    ensures var p := b.header.value;
            CheckHeader(s, cfg, b, v).Ok? <==>
            && v.workOk && CommitsToRange(s, p)
            && Settles(b, Proposals(Suffix(p.rangeStart.block.parent, p.rangeEnd)), cfg, v)
  {
    var p := b.header.value;
    HeaderParts(s, cfg, b, v);
    if CheckPow(s, p, v.workOk).Ok? { PassingStartIsStored(s, p, v.workOk); }
    if p.rangeEnd in s.blocks && p.rangeStart.Root? {
      ProposalWalk(s.blocks, p.rangeStart, p.rangeEnd);
      if IsAncestor(p.rangeStart, p.rangeEnd) { CommitmentPassesIff(s, p, v.workOk); }
    }
  }

  lemma HeadedParts(s: State, cfg: Config, b: Block, v: Verdicts)
    requires s.head.Some? && b.header.Some?
    ensures CheckBlock(s, cfg, b, v).Ok? <==> Connected(s, cfg, b, v) && CheckHeader(s, cfg, b, v).Ok?
  {}

  /** A block with a header is accepted exactly when it is connected and its header is. */
  lemma HeadedAcceptedIff(s: State, cfg: Config, b: Block, v: Verdicts)
    requires Rooted(s) && b.header.Some?
    ensures var p := b.header.value;
            CheckBlock(s, cfg, b, v).Ok? <==>
            && Connected(s, cfg, b, v) && v.workOk && CommitsToRange(s, p)
            && Settles(b, Proposals(Suffix(p.rangeStart.block.parent, p.rangeEnd)), cfg, v)
  {
    HeadedParts(s, cfg, b, v);
    HeaderAcceptedIff(s, cfg, b, v);
  }

  // ---- Both conditions are needed

  const PASSED: Verdicts := Verdicts(true, true, true, true)

  lemma OneBlockSuffix(h: Hash)
    requires h.Root?
    ensures Suffix(h.block.parent, h) == [h] && Proposals([h]) == ProposalOf(h)
  {
    AncestorDepth(h.block.parent, h);
    assert Suffix(h.block.parent, h.block.parent) == [] && [h][..0] == [];
    assert Proposals([h][..0]) == [];
  }

  /** Why `Linked` is needed: at or below the unlinked height any stored block can be finalized again. Such
      a block passes every check and moves finalization to `x`, whatever was finalized before. */
  lemma UnlinkedRangePasses(s: State, cfg: Config, x: Hash, b: Block)
    requires Rooted(s) && x in s.blocks && x.block.parent.Root? && Number(x) <= UNLINKED_HEIGHT
    requires b.parent == s.head.value.hash && Contiguous(b) && b.payloadParent == b.parent.block.payloadHash
    requires b.header == Some(AuxPowHeader(x, x, 1, Some(WorkProof([x])))) && b.finalized == ProposalOf(x)
    ensures CheckBlock(s, cfg, b, PASSED) == Ok(())
    ensures Finalized(Root(b)) == x
  {
    OneBlockSuffix(x);
    HeadedAcceptedIff(s, cfg, b, PASSED);
  }

  /** Why `OnBranch` is needed: after a rollback a range may start right after the last finalized block and
      end on the abandoned branch. Such a block passes every check and finalizes a block that is not its
      ancestor. */
  lemma AbandonedRangePasses(s: State, cfg: Config, start: Hash, end: Hash, b: Block)
    requires Rooted(s) && end in s.blocks && start.Root? && IsAncestor(start, end)
    requires start.block.parent == Finalized(s.head.value.hash) && !IsAncestor(end, s.head.value.hash)
    requires b.parent == s.head.value.hash && Contiguous(b) && b.payloadParent == b.parent.block.payloadHash
    requires b.header == Some(AuxPowHeader(start, end, 1, Some(WorkProof(Suffix(start.block.parent, end)))))
    requires b.finalized == Proposals(Suffix(start.block.parent, end))
    ensures CheckBlock(s, cfg, b, PASSED) == Ok(())
    ensures !FollowsRules(b, cfg) && !IsAncestor(Finalized(Root(b)), b.parent)
  {
    HeadedAcceptedIff(s, cfg, b, PASSED);
  }

  // ---- Runs with rollbacks

  ghost predicate RuledStore(store: Store, base: Hash, cfg: Config) {
    forall h :: h in store && IsAncestor(base, h) ==> RuledFrom(base, h, cfg)
  }

  predicate RuledCandidates(pending: set<Block>, head: Hash, cfg: Config) {
    forall b :: b in pending && b.parent == head ==> FollowsRules(b, cfg)
  }

  /** Every stored block built on `base`, and every candidate that extends the head, follows the rules. */
  ghost predicate Sane(s: State, cfg: Config, base: Hash) {
    && Indexed(s)
    && IsBase(base) && IsAncestor(base, s.head.value.hash)
    && RuledStore(s.blocks, base, cfg) && RuledCandidates(s.pending, s.head.value.hash, cfg)
  }

  /** Imports extend the head, rollbacks stop at the base, and ranges are linked and end on their branch. */
  predicate Regular(s: State, base: Hash, step: Step) {
    && ExtendsHead(s, step)
    && (step.Rollback? ==> Number(base) <= step.target)
    && (step.Process? && step.b.header.Some? ==> Linked(s, step.b.header.value) && OnBranch(step.b))
  }

  predicate RegularRun(s: State, cfg: Config, base: Hash, steps: seq<Step>)
    decreases |steps|
  {
    steps != [] ==> Regular(s, base, steps[0]) && RegularRun(Apply(s, cfg, steps[0]), cfg, base, steps[1..])
  }

  lemma HeadIsSound(s: State, cfg: Config, base: Hash)
    requires Sane(s, cfg, base)
    ensures Sound(base, s.head.value.hash, cfg) && Rooted(s)
    ensures Number(base) <= s.head.value.height
  {
    FinalizedOfSound(base, s.head.value.hash, cfg);
    AncestorOfNumbered(base, s.head.value.hash);
  }

  lemma ExtensionIsSound(s: State, cfg: Config, base: Hash, b: Block)
    requires Sane(s, cfg, base) && b.parent == s.head.value.hash && Contiguous(b) && FollowsRules(b, cfg)
    ensures Sound(base, Root(b), cfg) && Root(b) != base
  {
    HeadIsSound(s, cfg, base);
  }

  lemma RollbackKeepsSane(s: State, cfg: Config, base: Hash, target: nat)
    requires Sane(s, cfg, base) && Number(base) <= target <= s.head.value.height
    ensures Sane(RolledBack(s, target), cfg, base)
  {
    var head := s.head.value.hash;
    RollbackKeepsIndexed(s, target);
    AncestorsAreLinear(base, s.index[target], head);
    if target == s.head.value.height { AncestorByNumber(s.index[target], head, head); }
  }

  lemma AcceptedIsHead(s: State, b: Block)
    requires s.head.Some? && s.head.value.height < b.number && b in s.pending && !ImportPanics(s.blocks, b)
    ensures var s' := Accepted(s, b);
            && s'.blocks == s.blocks[Root(b) := b] && s'.head == Some(Ref(Root(b))) && s'.pending == {}
            && s'.work == s.work
  {}

  /** `s'` is `s` with `b` imported on top of its head. */
  predicate Extended(s: State, s': State, b: Block) {
    && s.head.Some? && b.parent == s.head.value.hash
    && s'.blocks == s.blocks[Root(b) := b] && s'.head == Some(Ref(Root(b))) && s'.pending == {}
  }

  lemma AcceptedExtends(s: State, b: Block)
    requires Indexed(s) && b in s.pending && b.parent == s.head.value.hash
    ensures Indexed(Accepted(s, b)) && Extended(s, Accepted(s, b), b)
  {
    ImportExtendingHead(s, b);
    AcceptedIsHead(s, b);
  }

  lemma ExtendedIsSane(s: State, s': State, cfg: Config, base: Hash, b: Block)
    requires Sane(s, cfg, base) && Indexed(s') && Extended(s, s', b) && FollowsRules(b, cfg)
    ensures Sane(s', cfg, base)
  {
    assert RuledFrom(base, Root(b), cfg);
  }

  lemma AcceptKeepsSane(s: State, cfg: Config, base: Hash, b: Block)
    requires Sane(s, cfg, base) && b in s.pending && b.parent == s.head.value.hash
    ensures Sane(Accepted(s, b), cfg, base)
  {
    AcceptedExtends(s, b);
    ExtendedIsSane(s, Accepted(s, b), cfg, base, b);
  }

  lemma ProcessKeepsSane(s: State, cfg: Config, base: Hash, b: Block, v: Verdicts, dropped: set<Block>)
    requires Sane(s, cfg, base) && Regular(s, base, Process(b, v, dropped))
    ensures Sane(Processed(s, cfg, b, v, dropped), cfg, base)
  {
    if CheckBlock(s, cfg, b, v).Ok? {
      ProcessKeepsIndexed(s, cfg, b, v, dropped);
      HeadIsSound(s, cfg, base);
      if b.parent == s.head.value.hash { CheckedBlockFollowsRulesIff(s, cfg, b, v); }
    }
  }

  lemma MinerKeepsSane(s: State, cfg: Config, base: Hash, step: Step)
    requires Sane(s, cfg, base) && (step.CreateWork? || step.SubmitWork?)
    ensures Sane(Apply(s, cfg, step), cfg, base)
  {
    MinerKeepsIndexed(s, cfg, step);
    MinerKeepsChain(s, cfg, step);
  }

  lemma SaneStep(s: State, cfg: Config, base: Hash, step: Step)
    requires Sane(s, cfg, base) && Regular(s, base, step)
    ensures Sane(Apply(s, cfg, step), cfg, base)
  {
    match step
    case Process(b, v, dropped) => ProcessKeepsSane(s, cfg, base, b, v, dropped);
    case Accept(b) => if b in s.pending { AcceptKeepsSane(s, cfg, base, b); }
    case Rollback(target) => RollbackKeepsSane(s, cfg, base, target);
    case CreateWork => MinerKeepsSane(s, cfg, base, step);
    case SubmitWork(_, _, _) => MinerKeepsSane(s, cfg, base, step);
  }

  lemma {:induction false} SaneRun(s: State, cfg: Config, base: Hash, steps: seq<Step>)
    requires Sane(s, cfg, base) && RegularRun(s, cfg, base, steps)
    ensures Sane(Run(s, cfg, steps), cfg, base)
    decreases |steps|
  {
    if steps != [] {
      SaneStep(s, cfg, base, steps[0]);
      SaneRun(Apply(s, cfg, steps[0]), cfg, base, steps[1..]);
    }
  }

  /** The head is never further above the last finalized block than the limit, the ranges since the base
      tile what was finalized since then, and on a validator the pegouts finalized since the base are
      exactly its proposals, once each and in chain order. */
  predicate SafeHead(s: State, cfg: Config, base: Hash)
    requires s.head.Some?
  {
    var head := s.head.value.hash;
    var done := Suffix(Finalized(base), Finalized(head));
    && s.head.value.height <= Number(Finalized(head)) + Limit(base, cfg)
    && LatestFinalized(s) == Ok(Some(Ref(Finalized(head))))
    && RangesFrom(base, head) == done
    && |FinalizedPegoutsFrom(base, head)| == |Proposals(done)|
    && (cfg.isValidator ==> FinalizedPegoutsFrom(base, head) == Proposals(done))
  }

  lemma SaneIsSafe(s: State, cfg: Config, base: Hash)
    requires Sane(s, cfg, base)
    ensures SafeHead(s, cfg, base)
  {
    var head := s.head.value.hash;
    HeadIsSound(s, cfg, base);
    LatestFinalizedIsFinalized(s);
    UnfinalizedIsBounded(base, head, cfg);
    RangesTile(base, head, cfg);
    PegoutsMatchProposals(base, head, cfg);
  }

  /** Rollbacks included: as long as accepted ranges end on the branch of their block, the limit and the
      tiling hold after every step. */
  lemma RegularRunSafety(s: State, cfg: Config, base: Hash, steps: seq<Step>)
    requires Sane(s, cfg, base) && RegularRun(s, cfg, base, steps)
    ensures var s' := Run(s, cfg, steps);
            s'.head.Some? && SafeHead(s', cfg, base)
  {
    SaneRun(s, cfg, base, steps);
    SaneIsSafe(Run(s, cfg, steps), cfg, base);
  }

  // ---- Runs without rollbacks

  /** No rollback; nothing is assumed about parents or about where ranges end. */
  predicate Forward(s: State, step: Step) {
    && !step.Rollback?
    && (step.Process? ==> Contiguous(step.b))
    && (step.Process? && step.b.header.Some? ==> Linked(s, step.b.header.value))
  }

  predicate ForwardRun(s: State, cfg: Config, steps: seq<Step>)
    decreases |steps|
  {
    steps != [] ==> Forward(s, steps[0]) && ForwardRun(Apply(s, cfg, steps[0]), cfg, steps[1..])
  }

  /** `h` is built on the last finalized block or is as high as the head. */
  predicate Reaches(h: Hash, head: Hash) {
    IsAncestor(Finalized(head), h) || Number(h) >= Number(head)
  }

  /** Stored forks ended before the last finalized block and below the head. */
  predicate NoForks(store: Store, head: Hash) {
    forall h :: h in store && Reaches(h, head) ==> IsAncestor(h, head)
  }

  predicate CandidatesOn(pending: set<Block>, head: Hash) {
    forall b :: b in pending ==> b.parent == head
  }

  /** No fork competes with the head, and every candidate extends it. */
  ghost predicate Linear(s: State, cfg: Config, base: Hash) {
    Sane(s, cfg, base) && NoForks(s.blocks, s.head.value.hash) && CandidatesOn(s.pending, s.head.value.hash)
  }

  /** Without rollbacks an accepted proposal can only extend the head, and its range can only end on
      the head's branch. */
  lemma ForwardIsRegular(s: State, cfg: Config, base: Hash, step: Step)
    requires Linear(s, cfg, base) && Forward(s, step)
    requires step.Accept? ==> step.b in s.pending
    requires step.Process? ==> CheckBlock(s, cfg, step.b, step.v).Ok?
    ensures Regular(s, base, step)
    ensures step.Process? ==> step.b.parent == s.head.value.hash
  {
    if step.Process? {
      var b, head := step.b, s.head.value.hash;
      AncestorOfNumbered(b.parent, head);
      AncestorByNumber(b.parent, head, head);
      if b.header.Some? {
        HeadIsSound(s, cfg, base);
        CheckedParts(s, cfg, b, step.v);
        CheckedHeader(s, cfg, b, step.v);
        AncestorTransitive(Finalized(head), b.header.value.rangeStart, b.header.value.rangeEnd);
      }
    }
  }

  lemma ProcessKeepsLinear(s: State, cfg: Config, base: Hash, b: Block, v: Verdicts, dropped: set<Block>)
    requires Linear(s, cfg, base) && Forward(s, Process(b, v, dropped)) && CheckBlock(s, cfg, b, v).Ok?
    ensures Linear(Processed(s, cfg, b, v, dropped), cfg, base)
  {
    ForwardIsRegular(s, cfg, base, Process(b, v, dropped));
    ProcessKeepsSane(s, cfg, base, b, v, dropped);
  }

  /** What reaches a new head also reached its parent. */
  lemma ReachesParent(base: Hash, b: Block, cfg: Config, h: Hash)
    requires Sound(base, Root(b), cfg) && Root(b) != base && Reaches(h, Root(b))
    ensures Reaches(h, b.parent)
  {
    if IsAncestor(Finalized(Root(b)), h) && b.header.Some? {
      RangeAdvances(base, Root(b), cfg);
      AncestorTransitive(Finalized(b.parent), Finalized(Root(b)), h);
    }
  }

  lemma ExtendedIsLinear(s: State, s': State, cfg: Config, base: Hash, b: Block)
    requires Linear(s, cfg, base) && Sane(s', cfg, base) && Extended(s, s', b)
    requires Sound(base, Root(b), cfg) && Root(b) != base
    ensures Linear(s', cfg, base)
  {
    forall h | h in s.blocks && Reaches(h, Root(b))
      ensures IsAncestor(h, b.parent)
    {
      ReachesParent(base, b, cfg, h);
    }
  }

  lemma AcceptKeepsLinear(s: State, cfg: Config, base: Hash, b: Block)
    requires Linear(s, cfg, base) && b in s.pending
    ensures Linear(Accepted(s, b), cfg, base)
  {
    AcceptedExtends(s, b);
    ExtendedIsSane(s, Accepted(s, b), cfg, base, b);
    ExtensionIsSound(s, cfg, base, b);
    ExtendedIsLinear(s, Accepted(s, b), cfg, base, b);
  }

  lemma LinearStep(s: State, cfg: Config, base: Hash, step: Step)
    requires Linear(s, cfg, base) && Forward(s, step)
    ensures Linear(Apply(s, cfg, step), cfg, base)
  {
    match step
    case Process(b, v, dropped) =>
      if CheckBlock(s, cfg, b, v).Ok? { ProcessKeepsLinear(s, cfg, base, b, v, dropped); }
    case Accept(b) => if b in s.pending { AcceptKeepsLinear(s, cfg, base, b); }
    case CreateWork => MinerKeepsLinear(s, cfg, base, step);
    case SubmitWork(_, _, _) => MinerKeepsLinear(s, cfg, base, step);
  }

  lemma MinerKeepsLinear(s: State, cfg: Config, base: Hash, step: Step)
    requires Linear(s, cfg, base) && (step.CreateWork? || step.SubmitWork?)
    ensures Linear(Apply(s, cfg, step), cfg, base)
  {
    MinerKeepsSane(s, cfg, base, step);
    MinerKeepsChain(s, cfg, step);
  }

  lemma {:induction false} LinearRun(s: State, cfg: Config, base: Hash, steps: seq<Step>)
    requires Linear(s, cfg, base) && ForwardRun(s, cfg, steps)
    ensures Linear(Run(s, cfg, steps), cfg, base)
    decreases |steps|
  {
    if steps != [] {
      LinearStep(s, cfg, base, steps[0]);
      LinearRun(Apply(s, cfg, steps[0]), cfg, base, steps[1..]);
    }
  }

  /** In every run without rollbacks the head is safe, whatever parents and range ends are proposed. */
  lemma ForwardRunSafety(s: State, cfg: Config, base: Hash, steps: seq<Step>)
    requires Linear(s, cfg, base) && ForwardRun(s, cfg, steps)
    ensures var s' := Run(s, cfg, steps);
            s'.head.Some? && SafeHead(s', cfg, base)
  {
    LinearRun(s, cfg, base, steps);
    SaneIsSafe(Run(s, cfg, steps), cfg, base);
  }

  // ---- Where runs may start

  /** Nothing stored is built on the head. */
  predicate IsTip(s: State)
    requires s.head.Some?
  {
    forall h :: h in s.blocks && IsAncestor(s.head.value.hash, h) ==> h == s.head.value.hash
  }

  /** The head of any well-formed state is a base, whatever ranges its history holds. */
  lemma AnyHeadIsBase(s: State, cfg: Config)
    requires Rooted(s) && IsTip(s) && s.pending == {}
    ensures Sane(s, cfg, s.head.value.hash)
  {}

  lemma AcceptedIsTip(s: State, b: Block)
    requires Indexed(s) && b in s.pending && b.parent == s.head.value.hash && Root(b) !in s.blocks
    ensures IsTip(Accepted(s, b))
  {
    AcceptedIsHead(s, b);
    forall h | h in s.blocks
      ensures !IsAncestor(Root(b), h)
    {
      if IsAncestor(Root(b), h) { AncestorsAreStored(s.blocks, Root(b), h); }
    }
  }

  /** In every run without rollbacks from any well-formed state, unlinked ranges in its history or not, the
      head is safe relative to where the run started. */
  lemma WellFormedRunSafety(s: State, cfg: Config, steps: seq<Step>)
    requires Rooted(s) && IsTip(s) && s.pending == {} && ForwardRun(s, cfg, steps)
    requires NoForks(s.blocks, s.head.value.hash)
    ensures var s' := Run(s, cfg, steps);
            s'.head.Some? && SafeHead(s', cfg, s.head.value.hash)
  {
    AnyHeadIsBase(s, cfg);
    ForwardRunSafety(s, cfg, s.head.value.hash, steps);
  }

  /** A header that breaks the rules costs nothing afterwards: once it is imported its own block is a base,
      as long as its range ends on its branch. */
  lemma AnyImportIsBase(s: State, cfg: Config, b: Block)
    requires Indexed(s) && b in s.pending && b.parent == s.head.value.hash && Root(b) !in s.blocks
    requires IsBase(Root(b))
    ensures Sane(Accepted(s, b), cfg, Root(b))
  {
    ImportExtendingHead(s, b);
    AcceptedIsHead(s, b);
    AcceptedIsTip(s, b);
    AnyHeadIsBase(Accepted(s, b), cfg);
  }

  /** From genesis, in every run without rollbacks: the limit is the configured one, the ranges tile the whole
      finalized chain, and on a validator its pegouts are its proposals. */
  lemma GenesisRunSafety(g: Block, cfg: Config, steps: seq<Step>)
    requires IsGenesis(g) && ForwardRun(GenesisState(g), cfg, steps)
    ensures var s := Run(GenesisState(g), cfg, steps);
            s.head.Some? &&
            var head := s.head.value.hash;
            && s.head.value.height <= Number(Finalized(head)) + cfg.maxBlocksWithoutPow
            && RangesFrom(Root(g), head) == Suffix(Root(g), Finalized(head))
            && (cfg.isValidator ==>
                  FinalizedPegoutsFrom(Root(g), head) == Proposals(Suffix(Root(g), Finalized(head))))
  {
    GenesisIsBase(g);
    GenesisIsLinear(g, cfg);
    ForwardRunSafety(GenesisState(g), cfg, Root(g), steps);
  }

  lemma GenesisIsLinear(g: Block, cfg: Config)
    requires IsGenesis(g)
    ensures Linear(GenesisState(g), cfg, Root(g))
  {
    var s := GenesisState(g);
    GenesisIsBase(g);
    assert s.blocks == map[Root(g) := g];
    assert IndexMatches(s.index, Root(g));
  }

  // ---- A run that abandons a branch

  predicate FollowsPayload(b: Block) {
    b.parent.Root? && b.payloadParent == b.parent.block.payloadHash
  }

  lemma AcceptedAfterGenesis(g: Block, cfg: Config, a: Block)
    requires IsGenesis(g) && a.parent == Root(g) && a.number == 1 && a.header.None? && a.finalized == []
    requires FollowsPayload(a) && cfg.maxBlocksWithoutPow >= 1
    ensures var s := Accepted(Processed(GenesisState(g), cfg, a, PASSED, {}), a);
            Sane(s, cfg, Root(g)) && s.head == Some(Ref(Root(a)))
  {
    var s0 := GenesisState(g);
    GenesisIsLinear(g, cfg);
    GenesisIsBase(g);
    LatestFinalizedIsFinalized(s0);
    assert CheckBlock(s0, cfg, a, PASSED) == Ok(());
    ProcessKeepsSane(s0, cfg, Root(g), a, PASSED, {});
    var s1 := Processed(s0, cfg, a, PASSED, {});
    AcceptKeepsSane(s1, cfg, Root(g), a);
    AcceptedIsHead(s1, a);
  }

  predicate FinalizesOnly(b: Block, x: Hash) {
    b.header == Some(AuxPowHeader(x, x, 1, Some(WorkProof([x])))) && b.finalized == ProposalOf(x)
  }

  lemma AbandonedBlockPasses(s: State, cfg: Config, x: Hash, b: Block)
    requires Rooted(s) && x in s.blocks && x.block.parent == Finalized(s.head.value.hash)
    requires !IsAncestor(x, s.head.value.hash)
    requires b.parent == s.head.value.hash && Contiguous(b) && FollowsPayload(b) && FinalizesOnly(b, x)
    ensures CheckBlock(s, cfg, b, PASSED) == Ok(()) && !FollowsRules(b, cfg)
  {
    OneBlockSuffix(x);
    AbandonedRangePasses(s, cfg, x, x, b);
  }

  lemma BackToGenesis(s: State, cfg: Config, g: Block, a: Block)
    requires IsGenesis(g) && Sane(s, cfg, Root(g)) && s.head == Some(Ref(Root(a))) && a.parent == Root(g)
    ensures var s' := RolledBack(s, 0);
            s'.head == Some(Ref(Root(g))) && Rooted(s') && Root(a) in s'.blocks
  {
    IndexIsTheAncestor(s, Root(g));
    RollbackKeepsIndexed(s, 0);
    GenesisIsBase(g);
  }

  lemma AbandonedAfterRollback(s: State, cfg: Config, g: Block, a: Block, b: Block)
    requires IsGenesis(g) && Sane(s, cfg, Root(g)) && s.head == Some(Ref(Root(a))) && a.parent == Root(g)
    requires b.parent == Root(g) && b.number == 1 && FollowsPayload(b) && FinalizesOnly(b, Root(a))
    ensures var s' := RolledBack(s, 0);
            && s'.head == Some(Ref(Root(g)))
            && CheckBlock(s', cfg, b, PASSED) == Ok(()) && !FollowsRules(b, cfg)
  {
    BackToGenesis(s, cfg, g, a);
    GenesisIsBase(g);
    AncestorDepth(Root(g), Root(a));
    assert !IsAncestor(Root(a), Root(g));
    AbandonedBlockPasses(RolledBack(s, 0), cfg, Root(a), b);
  }

  /** A real run ends in such a state: a block is imported and rolled back, and then a competing block that
      finalizes it is accepted by every check. */
  lemma AbandonedRangeIsReachable(g: Block, cfg: Config, a: Block, b: Block)
    requires IsGenesis(g) && a.parent == Root(g) && a.number == 1 && a.header.None? && a.finalized == []
    requires b.parent == Root(g) && b.number == 1 && FinalizesOnly(b, Root(a))
    requires FollowsPayload(a) && FollowsPayload(b) && cfg.maxBlocksWithoutPow >= 1
    ensures var s := Run(GenesisState(g), cfg, [Process(a, PASSED, {}), Accept(a), Rollback(0)]);
            && s.head == Some(Ref(Root(g)))
            && CheckBlock(s, cfg, b, PASSED) == Ok(()) && !FollowsRules(b, cfg)
  {
    AcceptedAfterGenesis(g, cfg, a);
    AbandonedAfterRollback(Accepted(Processed(GenesisState(g), cfg, a, PASSED, {}), a), cfg, g, a, b);
    RunOfThree(GenesisState(g), cfg, Process(a, PASSED, {}), Accept(a), Rollback(0));
  }

  lemma RunOfThree(s: State, cfg: Config, x: Step, y: Step, z: Step)
    ensures Run(s, cfg, [x, y, z]) == Apply(Apply(Apply(s, cfg, x), cfg, y), cfg, z)
  {
    assert [x, y, z][1..] == [y, z] && [y, z][1..] == [z];
    assert Run(Apply(Apply(s, cfg, x), cfg, y), cfg, [z]) == Apply(Apply(Apply(s, cfg, x), cfg, y), cfg, z);
  }
}

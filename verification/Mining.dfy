/** Merge mining: the cache of unfinalized block hashes, the commitments handed to miners, and what the node
    recomputes when the work comes back. */
module Mining {
  import opened Util
  import opened Blocks
  import opened Node
  import opened Runs
  import opened Safety

  // ---- The hash cache

  /** The hash cache holds what the parent walk would find. */
  predicate CacheMatches(s: State) {
    s.head.Some? && s.cache == Suffix(Finalized(s.head.value.hash), s.head.value.hash)
  }

  lemma {:induction false} AfterFirstSplits(pre: seq<Hash>, x: Hash, post: seq<Hash>)
    requires x !in pre
    ensures AfterFirst(pre + [x] + post, x) == Some(post)
  {
    var hs := pre + [x] + post;
    if pre == [] {
      assert hs[1..] == post;
    } else {
      assert hs[1..] == pre[1..] + [x] + post;
      AfterFirstSplits(pre[1..], x, post);
    }
  }

  /** Cutting the cache after the end of a new range leaves what the parent walk would find from there. */
  lemma ResetFindsRangeEnd(last: Hash, end: Hash, head: Hash)
    requires Numbered(head) && last.Root? && IsAncestor(last, end) && IsAncestor(end, head) && last != end
    ensures AfterFirst(Suffix(last, head), end) == Some(Suffix(end, head))
  {
    AncestorDepth(last, end);
    AncestorOfNumbered(end, head);
    AncestorOfNumbered(last, end);
    SuffixSplit(last, end, head);
    if IsAncestor(last, end.block.parent) {
      SuffixMembers(last, end.block.parent, end);
      if end in Suffix(last, end.block.parent) { AncestorDepth(end, end.block.parent); }
    }
    AfterFirstSplits(Suffix(last, end.block.parent), end, Suffix(end, head));
  }

  lemma HeaderIsUnfinalized(base: Hash, b: Block, cfg: Config)
    requires Sound(base, Root(b), cfg) && Root(b) != base
    ensures Finalized(Root(b)) != Root(b)
    ensures b.header.Some? ==>
              AfterFirst(Suffix(Finalized(b.parent), b.parent), b.header.value.rangeEnd)
              == Some(Suffix(b.header.value.rangeEnd, b.parent))
  {
    FinalizedOfSound(base, b.parent, cfg);
    if b.header.Some? {
      RangeAdvances(base, Root(b), cfg);
      ResetFindsRangeEnd(Finalized(b.parent), b.header.value.rangeEnd, b.parent);
    } else {
      AncestorDepth(Finalized(b.parent), b.parent);
    }
  }

  /** The cache update turns what the walk finds for the parent into what it finds for the block. */
  lemma CacheFollowsSoundBlock(base: Hash, b: Block, cfg: Config)
    requires Sound(base, Root(b), cfg) && Root(b) != base
    ensures CachedAfter(Suffix(Finalized(b.parent), b.parent), b) == Ok(Suffix(Finalized(Root(b)), Root(b)))
  {
    HeaderIsUnfinalized(base, b, cfg);
  }

  /** With a matching cache an import never fails: neither the finalization nor the cache reset. */
  lemma ImportSucceeds(s: State, cfg: Config, base: Hash, b: Block)
    requires Linear(s, cfg, base) && CacheMatches(s) && b in s.pending
    ensures ImportResult(s.(pending := {}), b) == Ok(())
    ensures CacheMatches(Accepted(s, b))
  {
    ExtensionIsSound(s, cfg, base, b);
    CacheFollowsSoundBlock(base, b, cfg);
  }

  lemma CacheStep(s: State, cfg: Config, base: Hash, step: Step)
    requires Linear(s, cfg, base) && CacheMatches(s) && Forward(s, step)
    ensures CacheMatches(Apply(s, cfg, step))
  {
    if step.Accept? && step.b in s.pending { ImportSucceeds(s, cfg, base, step.b); }
  }

  /** Filling the cache at start-up makes it match exactly when the head is above the last finalized
      block; on a chain that only has genesis the cache starts with genesis in it. */
  lemma InitMatchesIff(s: State)
    requires Rooted(s)
    ensures CacheMatches(CacheInitialized(s)) <==> Finalized(s.head.value.hash) != s.head.value.hash
  {
    var head := s.head.value.hash;
    LatestFinalizedIsFinalized(s);
    AncestorOfNumbered(Finalized(head), head);
    WalkBackFindsSuffix(s.blocks, Finalized(head), head);
    if Number(Finalized(head)) == Number(head) { AncestorByNumber(Finalized(head), head, head); }
  }

  lemma LastOfSuffix(a: Hash, h: Hash)
    requires h.Root? && a != h
    ensures Suffix(a, h) != [] && Suffix(a, h)[|Suffix(a, h)| - 1] == h
  {}

  /** A rollback leaves a matching cache matching only when it does not move the head. */
  lemma RollbackKeepsCacheIff(s: State, cfg: Config, base: Hash, target: nat)
    requires Sane(s, cfg, base) && CacheMatches(s) && Number(base) <= target <= s.head.value.height
    ensures CacheMatches(RolledBack(s, target)) <==> target == s.head.value.height
  {
    var head, h := s.head.value.hash, s.index[target];
    RollbackKeepsIndexed(s, target);
    if target == s.head.value.height {
      AncestorByNumber(h, head, head);
    } else {
      HeaderIsUnfinalized(base, head.block, cfg);
      LastOfSuffix(Finalized(head), head);
      if Finalized(h) != h { LastOfSuffix(Finalized(h), h); }
    }
  }

  // ---- Handed-out work

  /** A commitment covers the blocks between what the header at that time had finalized and the head at
      that time, which is still on the current branch. */
  predicate EntryMatches(c: seq<Hash>, i: AuxInfo, base: Hash, head: Hash) {
    && c != [] && i.startHash == c[0] && i.endHash == c[|c| - 1]
    && i.lastHash == PowAncestor(i.endHash)
    && IsAncestor(base, i.endHash) && IsAncestor(i.endHash, head)
    && c == Suffix(Finalized(i.endHash), i.endHash)
  }

  predicate WorkMatches(s: State, base: Hash) {
    s.head.Some? && forall c :: c in s.work ==> EntryMatches(c, s.work[c], base, s.head.value.hash)
  }

  ghost predicate Mining(s: State, cfg: Config, base: Hash) {
    Linear(s, cfg, base) && CacheMatches(s) && WorkMatches(s, base)
  }

  lemma EntriesSurvive(s: State, s': State, base: Hash)
    requires WorkMatches(s, base) && s'.head.Some?
    requires forall c :: c in s'.work ==> c in s.work && s'.work[c] == s.work[c]
    requires IsAncestor(s.head.value.hash, s'.head.value.hash)
    ensures WorkMatches(s', base)
  {
    forall c | c in s'.work
      ensures EntryMatches(c, s'.work[c], base, s'.head.value.hash)
    {
      AncestorTransitive(s.work[c].endHash, s.head.value.hash, s'.head.value.hash);
    }
  }

  lemma CreatedEntryMatches(s: State, cfg: Config, base: Hash)
    requires Mining(s, cfg, base)
    ensures WorkMatches(WorkCreated(s), base)
  {
    var head := s.head.value.hash;
    if s.cache != [] { LastOfSuffix(Finalized(head), head); }
  }

  lemma WorkFollowsHead(s: State, s': State, base: Hash, b: Block)
    requires WorkMatches(s, base) && s'.work == s.work && s'.head == Some(Ref(Root(b)))
    requires b.parent == s.head.value.hash
    ensures WorkMatches(s', base)
  {
    EntriesSurvive(s, s', base);
  }

  lemma AcceptKeepsWork(s: State, base: Hash, b: Block)
    requires Indexed(s) && WorkMatches(s, base) && b in s.pending && b.parent == s.head.value.hash
    ensures WorkMatches(Accepted(s, b), base)
  {
    AcceptedIsHead(s, b);
    WorkFollowsHead(s, Accepted(s, b), base, b);
  }

  lemma WorkStep(s: State, cfg: Config, base: Hash, step: Step)
    requires Mining(s, cfg, base) && Forward(s, step)
    ensures WorkMatches(Apply(s, cfg, step), base)
  {
    match step
    case Process(b, v, dropped) => EntriesSurvive(s, Processed(s, cfg, b, v, dropped), base);
    case Accept(b) => if b in s.pending { AcceptKeepsWork(s, base, b); }
    case CreateWork => CreatedEntryMatches(s, cfg, base);
    case SubmitWork(c, proof, workOk) => EntriesSurvive(s, WorkSubmitted(s, c, proof, workOk), base);
  }

  lemma MiningStep(s: State, cfg: Config, base: Hash, step: Step)
    requires Mining(s, cfg, base) && Forward(s, step)
    ensures Mining(Apply(s, cfg, step), cfg, base)
  {
    LinearStep(s, cfg, base, step);
    CacheStep(s, cfg, base, step);
    WorkStep(s, cfg, base, step);
  }

  /** In every run without rollbacks the hash cache equals what the parent walk finds, and every
      commitment handed out still describes the blocks it was made for. */
  lemma {:induction false} MiningRun(s: State, cfg: Config, base: Hash, steps: seq<Step>)
    requires Mining(s, cfg, base) && ForwardRun(s, cfg, steps)
    ensures Mining(Run(s, cfg, steps), cfg, base)
    decreases |steps|
  {
    if steps != [] {
      MiningStep(s, cfg, base, steps[0]);
      MiningRun(Apply(s, cfg, steps[0]), cfg, base, steps[1..]);
    }
  }

  lemma {:induction false} FirstOfSuffix(a: Hash, h: Hash)
    requires IsAncestor(a, h) && a != h
    ensures Suffix(a, h) != [] && Suffix(a, h)[0].Root? && Suffix(a, h)[0].block.parent == a
    ensures IsAncestor(Suffix(a, h)[0], h)
  {
    if a != h.block.parent { FirstOfSuffix(a, h.block.parent); }
  }

  /** A header further up the chain has finalized more. */
  lemma {:induction false} FinalizedMonotone(base: Hash, a: Hash, h: Hash, cfg: Config)
    requires Sound(base, h, cfg) && IsAncestor(base, a) && IsAncestor(a, h)
    ensures Number(Finalized(a)) <= Number(Finalized(h))
    ensures PowAncestor(a) != PowAncestor(h) ==> Number(Finalized(a)) < Number(Finalized(h))
  {
    if a != h {
      AncestorDepth(base, a);
      AncestorDepth(a, h.block.parent);
      FinalizedMonotone(base, a, h.block.parent, cfg);
      if h.block.header.Some? { RangeAdvances(base, h, cfg); }
    }
  }

  /** The range of a commitment lies in the store and starts right after what was finalized then. */
  lemma EntryIsStored(s: State, cfg: Config, base: Hash, c: seq<Hash>)
    requires Linear(s, cfg, base) && WorkMatches(s, base) && c in s.work
    ensures var i := s.work[c];
            var from := Finalized(i.endHash);
            && i.startHash in s.blocks && i.endHash in s.blocks && from in s.blocks
            && i.startHash.block.parent == from
            && IsAncestor(from, i.endHash) && Number(from) < Number(i.endHash)
  {
    var i, head := s.work[c], s.head.value.hash;
    assert EntryMatches(c, i, base, head);
    var from := Finalized(i.endHash);
    HeadIsSound(s, cfg, base);
    AncestorOfSound(base, i.endHash, head, cfg);
    FinalizedOfSound(base, i.endHash, cfg);
    AncestorsAreStored(s.blocks, i.endHash, head);
    FirstOfSuffix(from, i.endHash);
    AncestorsAreStored(s.blocks, i.startHash, i.endHash);
    AncestorsAreStored(s.blocks, from, i.endHash);
    AncestorOfNumbered(from, i.endHash);
  }

  lemma CommitmentHashes(s: State, cfg: Config, base: Hash, c: seq<Hash>)
    requires Mining(s, cfg, base) && c in s.work
    ensures var i := s.work[c];
            && i.startHash in s.blocks && i.startHash.block.parent == Finalized(i.endHash)
            && HashesBetween(s.blocks, Finalized(i.endHash), i.endHash) == Ok(c)
  {
    var i := s.work[c];
    EntryIsStored(s, cfg, base, c);
    WalkBackFindsSuffix(s.blocks, Finalized(i.endHash), i.endHash);
    assert EntryMatches(c, i, base, s.head.value.hash);
  }

  lemma CurrentIff(s: State, cfg: Config, base: Hash, c: seq<Hash>)
    requires Mining(s, cfg, base) && c in s.work
    ensures var i := s.work[c];
            i.lastHash == s.latestPow.value.hash <==> Finalized(i.endHash) == Finalized(s.head.value.hash)
  {
    assert EntryMatches(c, s.work[c], base, s.head.value.hash);
    HeadIsSound(s, cfg, base);
    FinalizedMonotone(base, s.work[c].endHash, s.head.value.hash, cfg);
  }

  /** Submitting a commitment made earlier in the run: as long as no newer header has been imported the node
      recomputes exactly the committed hashes, even if the head has advanced. After a newer header the old
      range is refused, unless it starts at a height where the link is not checked. */
  lemma SubmitRecomputesCommitment(s: State, cfg: Config, base: Hash, c: seq<Hash>, proof: WorkProof)
    requires Mining(s, cfg, base) && c in s.work
    ensures var i := s.work[c];
            ExpectedHashes(s, SolvedHeader(i, proof)) ==
            if i.lastHash == s.latestPow.value.hash || Number(i.startHash) <= UNLINKED_HEIGHT then Ok(c)
            else Err(InvalidPowRange)
  {
    HeadIsSound(s, cfg, base);
    CommitmentHashes(s, cfg, base, c);
    CurrentIff(s, cfg, base, c);
    ExpectedHashesIn(s, SolvedHeader(s.work[c], proof));
  }

  /** A header for the same range is queued already. */
  predicate RangeQueued(s: State, p: AuxPowHeader) {
    s.queuedPow.Some? && s.queuedPow.value.rangeStart == p.rangeStart && s.queuedPow.value.rangeEnd == p.rangeEnd
  }

  lemma QueuedIfExpected(s: State, c: seq<Hash>)
    requires c in s.work && s.work[c].lastHash in s.blocks
    requires s.head.Some? && s.head.value.hash in s.blocks
    ensures var p := SolvedHeader(s.work[c], WorkProof(c));
            WorkSubmitted(s, c, WorkProof(c), true).queuedPow ==
            if ExpectedHashes(s, p) == Ok(c) && !RangeQueued(s, p) then Some(p) else s.queuedPow
  {}

  lemma EntryHeaderIsStored(s: State, cfg: Config, base: Hash, c: seq<Hash>)
    requires Mining(s, cfg, base) && c in s.work
    ensures s.work[c].lastHash in s.blocks
  {
    assert EntryMatches(c, s.work[c], base, s.head.value.hash);
    EntryIsStored(s, cfg, base, c);
    PowAncestorOfNumbered(s.work[c].endHash);
    AncestorsAreStored(s.blocks, s.work[c].lastHash, s.work[c].endHash);
  }

  /** A solved commitment is queued exactly then, in place of a header queued for another range. */
  lemma SolvedWorkIsQueuedIff(s: State, cfg: Config, base: Hash, c: seq<Hash>)
    requires Mining(s, cfg, base) && c in s.work
    ensures var i, p := s.work[c], SolvedHeader(s.work[c], WorkProof(c));
            WorkSubmitted(s, c, WorkProof(c), true).queuedPow ==
            if (i.lastHash == s.latestPow.value.hash || Number(i.startHash) <= UNLINKED_HEIGHT) && !RangeQueued(s, p)
            then Some(p) else s.queuedPow
  {
    SubmitRecomputesCommitment(s, cfg, base, c, WorkProof(c));
    EntryHeaderIsStored(s, cfg, base, c);
    QueuedIfExpected(s, c);
  }

  /** Work without enough work, or for another commitment, changes nothing but the table. */
  lemma UnsolvedWorkIsForgotten(s: State, c: seq<Hash>, proof: WorkProof, workOk: bool)
    requires !workOk || proof.committed != c
    ensures WorkSubmitted(s, c, proof, workOk) == s.(work := s.work - {c})
  {
    if c !in s.work { assert s.work - {c} == s.work; }
  }

  /** All unfinalized blocks are offered, unless there are none or they are queued already. */
  lemma WorkIsOfferedIff(s: State, cfg: Config, base: Hash)
    requires Mining(s, cfg, base)
    ensures var head := s.head.value.hash;
            WorkOffer(s) ==
            if s.queuedPow.Some? && s.queuedPow.value.rangeEnd == head then Err(NoWorkToDo)
            else if Finalized(head) == head then Err(HashRetrievalError)
            else Ok(Suffix(Finalized(head), head))
    ensures WorkOffer(s).Ok? ==> WorkOffer(s).value in WorkCreated(s).work
  {
    LatestPowIsStored(s);
    var head := s.head.value.hash;
    if Finalized(head) != head { LastOfSuffix(Finalized(head), head); }
  }

  // ---- A block's way into the chain

  /** A checked block that is accepted becomes the head, is stored and indexed, clears the queue if it
      carries a header and keeps it otherwise, and leaves the cache and the work table right. */
  lemma BlockExtendsChain(s: State, cfg: Config, base: Hash, b: Block, v: Verdicts)
    requires Mining(s, cfg, base) && Forward(s, Process(b, v, {})) && CheckBlock(s, cfg, b, v).Ok?
    ensures var s' := Accepted(Processed(s, cfg, b, v, {}), b);
            && Mining(s', cfg, base)
            && s'.head == Some(Ref(Root(b))) && s'.blocks == s.blocks[Root(b) := b]
            && b.number in s'.index && s'.index[b.number] == Root(b)
            && s'.queuedPow == if b.header.Some? then None else s.queuedPow
  {
    var step, s1 := Process(b, v, {}), Processed(s, cfg, b, v, {});
    MiningStep(s, cfg, base, step);
    assert b in s1.pending;
    MiningStep(s1, cfg, base, Accept(b));
    AcceptedIsHead(s1, b);
    QueueAfterImport(s1, b);
    IndexIsTheAncestor(Accepted(s1, b), Root(b));
  }

  lemma QueueAfterImport(s: State, b: Block)
    requires b in s.pending && !ImportPanics(s.blocks, b)
    ensures Accepted(s, b).queuedPow == if b.header.Some? then None else s.queuedPow
  {}

  lemma CreatedAndSolved(s: State, cfg: Config, base: Hash)
    requires Mining(s, cfg, base) && WorkOffer(s).Ok?
    ensures var c, s1 := s.cache, WorkCreated(s);
            && c in s1.work && Mining(s1, cfg, base) && s1.head == s.head && s1.latestPow == s.latestPow
            && s1.work[c] == AuxInfo(s.latestPow.value.hash, c[0], s.head.value.hash)
            && s1.queuedPow == s.queuedPow
            && c != [] && c[0].Root? && c[0].block.parent == Finalized(s.head.value.hash)
  {
    var head := s.head.value.hash;
    WorkIsOfferedIff(s, cfg, base);
    MiningStep(s, cfg, base, CreateWork);
    LastOfSuffix(Finalized(head), head);
    HeadIsSound(s, cfg, base);
    FirstOfSuffix(Finalized(head), head);
  }

  lemma OfferedCommits(s: State, cfg: Config, base: Hash, c: seq<Hash>, p: AuxPowHeader)
    requires Mining(s, cfg, base) && Finalized(s.head.value.hash) != s.head.value.hash
    requires c == Suffix(Finalized(s.head.value.hash), s.head.value.hash) && c != []
    requires p.rangeStart == c[0] && p.rangeEnd == s.head.value.hash && p.auxpow == Some(WorkProof(c))
    ensures CommitsToRange(s, p) && p.rangeStart.block.parent == Finalized(s.head.value.hash)
  {
    var head := s.head.value.hash;
    HeadIsSound(s, cfg, base);
    FirstOfSuffix(Finalized(head), head);
  }

  /** The whole cycle: work that is offered and solved is queued as a header for all unfinalized blocks; a
      connected block that carries it and settles their proposals is accepted, and finalizes up to the head
      the work was made for. */
  lemma MiningCycle(s: State, cfg: Config, base: Hash, b: Block, v: Verdicts)
    requires Mining(s, cfg, base) && WorkOffer(s).Ok?
    requires var head := s.head.value.hash;
             && Connected(s, cfg, b, v) && v.workOk && b.header.Some?
             && Settles(b, Proposals(Suffix(Finalized(head), head)), cfg, v)
    ensures var head := s.head.value.hash;
            var s' := WorkSubmitted(WorkCreated(s), s.cache, WorkProof(s.cache), true);
            && s'.queuedPow.Some? && s'.queuedPow.value.rangeEnd == head && s'.head == s.head
            && (b.header == s'.queuedPow ==> CheckBlock(s', cfg, b, v).Ok? && Finalized(Root(b)) == head)
  {
    var head, c, s1 := s.head.value.hash, s.cache, WorkCreated(s);
    WorkIsOfferedIff(s, cfg, base);
    CreatedAndSolved(s, cfg, base);
    SolvedWorkIsQueuedIff(s1, cfg, base, c);
    var s' := WorkSubmitted(s1, c, WorkProof(c), true);
    MiningStep(s1, cfg, base, SubmitWork(c, WorkProof(c), true));
    HeadIsSound(s', cfg, base);
    if b.header == s'.queuedPow {
      MinerKeepsChain(s, cfg, CreateWork);
      MinerKeepsChain(s1, cfg, SubmitWork(c, WorkProof(c), true));
      OfferedCommits(s', cfg, base, c, b.header.value);
      HeadedAcceptedIff(s', cfg, b, v);
    }
  }

  // ---- A fresh node

  /** A node that has just stored genesis satisfies every invariant, except that filling the cache puts
      genesis into it. */
  lemma GenesisIsMining(g: Block, cfg: Config)
    requires IsGenesis(g)
    ensures Mining(GenesisState(g), cfg, Root(g))
    ensures CacheInitialized(GenesisState(g)).cache == [Root(g)]
  {
    GenesisIsLinear(g, cfg);
    GenesisIsBase(g);
    LatestFinalizedIsFinalized(GenesisState(g));
  }

  /** No header since genesis: the cache, and every commitment, starts with genesis itself. */
  ghost predicate Fresh(s: State, cfg: Config, g: Hash) {
    && Linear(s, cfg, g) && PowAncestor(s.head.value.hash) == g && g.Root? && IsGenesis(g.block)
    && s.cache == [g] + Suffix(g, s.head.value.hash)
    && s.queuedPow.None?
    && (forall c :: c in s.work ==> s.work[c].startHash == g)
  }

  /** Work that starts with genesis is refused: the walk would start at the parent of genesis. */
  lemma FreshWorkIsRefused(s: State, cfg: Config, g: Hash, c: seq<Hash>, proof: WorkProof)
    requires Fresh(s, cfg, g) && c in s.work
    ensures ExpectedHashes(s, SolvedHeader(s.work[c], proof)) == Err(MissingBlock)
  {
    HeadIsSound(s, cfg, g);
    AncestorsAreStored(s.blocks, g, s.head.value.hash);
    ExpectedHashesIn(s, SolvedHeader(s.work[c], proof));
  }

  lemma FreshSurvives(s: State, s': State, cfg: Config, g: Hash)
    requires Fresh(s, cfg, g) && Linear(s', cfg, g) && s'.head == s.head && s'.cache == s.cache
    requires s'.queuedPow.None? && forall c :: c in s'.work ==> s'.work[c].startHash == g
    ensures Fresh(s', cfg, g)
  {}

  lemma SubmitFrame(s: State, c: seq<Hash>, proof: WorkProof, workOk: bool)
    ensures var s' := WorkSubmitted(s, c, proof, workOk);
            && s'.head == s.head && s'.cache == s.cache
            && forall k :: k in s'.work ==> k in s.work && s'.work[k] == s.work[k]
  {}

  lemma FreshIsNotQueued(s: State, cfg: Config, g: Hash, c: seq<Hash>, proof: WorkProof, workOk: bool)
    requires Fresh(s, cfg, g)
    ensures WorkSubmitted(s, c, proof, workOk).queuedPow == None
  {
    if c in s.work {
      FreshWorkIsRefused(s, cfg, g, c, proof);
      RefusedIsNotQueued(s, c, proof, workOk);
    }
  }

  lemma FreshSubmit(s: State, cfg: Config, g: Hash, c: seq<Hash>, proof: WorkProof, workOk: bool)
    requires Fresh(s, cfg, g)
    ensures Fresh(WorkSubmitted(s, c, proof, workOk), cfg, g)
  {
    MinerKeepsLinear(s, cfg, g, SubmitWork(c, proof, workOk));
    SubmitFrame(s, c, proof, workOk);
    FreshIsNotQueued(s, cfg, g, c, proof, workOk);
    FreshSurvives(s, WorkSubmitted(s, c, proof, workOk), cfg, g);
  }

  lemma RefusedIsNotQueued(s: State, c: seq<Hash>, proof: WorkProof, workOk: bool)
    requires c in s.work && ExpectedHashes(s, SolvedHeader(s.work[c], proof)).Err?
    ensures WorkSubmitted(s, c, proof, workOk).queuedPow == s.queuedPow
  {}

  lemma FreshAccept(s: State, cfg: Config, g: Hash, b: Block)
    requires Fresh(s, cfg, g) && b in s.pending && b.header.None?
    ensures Fresh(Accepted(s, b), cfg, g)
  {
    AcceptKeepsLinear(s, cfg, g, b);
    AcceptedIsHead(s, b);
    ExtensionIsSound(s, cfg, g, b);
    assert [g] + Suffix(g, b.parent) + [Root(b)] == [g] + (Suffix(g, b.parent) + [Root(b)]);
  }

  /** No header is imported. */
  predicate HeadlessRun(steps: seq<Step>) {
    steps != [] ==> (steps[0].Accept? ==> steps[0].b.header.None?) && HeadlessRun(steps[1..])
  }

  lemma FreshStep(s: State, cfg: Config, g: Hash, step: Step)
    requires Fresh(s, cfg, g) && Forward(s, step) && (step.Accept? ==> step.b.header.None?)
    ensures Fresh(Apply(s, cfg, step), cfg, g)
  {
    match step
    case Process(_, _, _) => LinearStep(s, cfg, g, step);
    case Accept(b) => if b in s.pending { FreshAccept(s, cfg, g, b); }
    case CreateWork => LinearStep(s, cfg, g, step); MinerKeepsChain(s, cfg, step);
    case SubmitWork(c, proof, workOk) => FreshSubmit(s, cfg, g, c, proof, workOk);
  }

  lemma {:induction false} FreshRun(s: State, cfg: Config, g: Hash, steps: seq<Step>)
    requires Fresh(s, cfg, g) && ForwardRun(s, cfg, steps) && HeadlessRun(steps)
    ensures Fresh(Run(s, cfg, steps), cfg, g)
    decreases |steps|
  {
    if steps != [] {
      FreshStep(s, cfg, g, steps[0]);
      FreshRun(Apply(s, cfg, steps[0]), cfg, g, steps[1..]);
    }
  }

  /** A node that fills its cache on a chain with only genesis never queues a header of its own: until it
      imports a header made elsewhere, whatever is mined on its commitments is refused. */
  lemma FreshNodeNeverQueues(g: Block, cfg: Config, steps: seq<Step>)
    requires IsGenesis(g) && HeadlessRun(steps) && ForwardRun(CacheInitialized(GenesisState(g)), cfg, steps)
    ensures Run(CacheInitialized(GenesisState(g)), cfg, steps).queuedPow == None
  {
    FreshStart(g, cfg);
    FreshRun(CacheInitialized(GenesisState(g)), cfg, Root(g), steps);
  }

  lemma FreshStart(g: Block, cfg: Config)
    requires IsGenesis(g)
    ensures Fresh(CacheInitialized(GenesisState(g)), cfg, Root(g))
  {
    GenesisIsMining(g, cfg);
    var s := GenesisState(g);
    assert CacheInitialized(s) == s.(cache := [Root(g)]);
  }

  /** The first header imported repairs the cache. */
  lemma FirstHeaderRepairsCache(s: State, cfg: Config, g: Hash, b: Block)
    requires Fresh(s, cfg, g) && b in s.pending && b.header.Some?
    ensures CacheMatches(Accepted(s, b))
  {
    ExtensionIsSound(s, cfg, g, b);
    RepairedCache(g, b, cfg);
    AcceptedIsHead(s, b);
  }

  lemma RepairedCache(g: Hash, b: Block, cfg: Config)
    requires Sound(g, Root(b), cfg) && Root(b) != g && b.header.Some? && Finalized(b.parent) == g
    ensures CachedAfter([g] + Suffix(g, b.parent), b) == Ok(Suffix(Finalized(Root(b)), Root(b)))
  {
    HeaderIsUnfinalized(g, b, cfg);
    RangeAdvances(g, Root(b), cfg);
    assert ([g] + Suffix(g, b.parent))[1..] == Suffix(g, b.parent);
  }
}

/** The cache of proposed blocks that collect approvals: one candidate per height, found by block root
    through a second map. */
module Candidates {
  import opened Util
  import opened Approvals

  datatype SignedBlock = SignedBlock(root: BlockRoot, approval: Aggregate)

  datatype CandidateState = CheckedBlock(block: SignedBlock) | QueuedApprovals(approvals: seq<Approval>)

  datatype ApproveBlock = ApproveBlock(blockHash: BlockRoot, approval: Approval)

  datatype Cache = Cache(byHeight: map<nat, CandidateState>, heights: map<BlockRoot, nat>)

  // ---- One candidate

  function WithApproval(state: CandidateState, a: Approval): Result<CandidateState, Error> {
    match state
    case QueuedApprovals(v) => Ok(QueuedApprovals(v + [a]))
    case CheckedBlock(b) =>
      var agg := Add(b.approval, a);
      if agg.Err? then Err(agg.error) else Ok(CheckedBlock(b.(approval := agg.value)))
  }

  function WithUnchecked(state: CandidateState, a: ApproveBlock, authorities: seq<PublicKey>):
      Result<CandidateState, Error>
  {
    var checked := Check(a.approval, a.blockHash, authorities);
    if checked.Err? then Err(checked.error) else WithApproval(state, checked.value)
  }

  /** The queued approvals merged into `b`, in order. */
  function Merged(b: SignedBlock, approvals: seq<Approval>): Result<SignedBlock, Error>
    decreases |approvals|
  {
    if approvals == [] then Ok(b)
    else
      var agg := Add(b.approval, approvals[0]);
      if agg.Err? then Err(agg.error) else Merged(b.(approval := agg.value), approvals[1..])
  }

  /** A block replaces a block, and takes over queued approvals; the queue is emptied even on failure. */
  function WithBlock(state: CandidateState, b: SignedBlock): (CandidateState, Result<(), Error>) {
    match state
    case CheckedBlock(_) => (CheckedBlock(b), Ok(()))
    case QueuedApprovals(v) =>
      var merged := Merged(b, v);
      if merged.Ok? then (CheckedBlock(merged.value), Ok(())) else (QueuedApprovals([]), Err(merged.error))
  }

  // ---- The cache

  function Inserted(c: Cache, b: SignedBlock, replace: bool): (Cache, Result<(), Error>) {
    var h := b.root.height;
    if h in c.byHeight && c.byHeight[h].CheckedBlock? then
      var existing := c.byHeight[h].block;
      if b.root.slot > existing.root.slot || replace
      then (Cache(c.byHeight[h := CheckedBlock(b)], (c.heights - {existing.root})[b.root := h]), Ok(()))
      else (c, Ok(()))
    else
      var queue := if h in c.byHeight then c.byHeight[h] else QueuedApprovals([]);
      var (state, r) := WithBlock(queue, b);
      if r.Ok? then (Cache(c.byHeight[h := state], c.heights[b.root := h]), r)
      else (if h in c.byHeight then c.(byHeight := c.byHeight[h := state]) else c, r)
  }

  function Approved(c: Cache, a: ApproveBlock, authorities: seq<PublicKey>, lenient: bool): (Cache, Result<(), Error>) {
    var hash := a.blockHash;
    if hash in c.heights && c.heights[hash] in c.byHeight then
      var h := c.heights[hash];
      var state := c.byHeight[h];
      if state.CheckedBlock? && state.block.root != hash && !lenient then (c.(heights := c.heights - {hash}), Ok(()))
      else
        var state' := WithUnchecked(state, a, authorities);
        if state'.Err? then (c, Err(state'.error)) else (c.(byHeight := c.byHeight[h := state'.value]), Ok(()))
    else
      var state := WithUnchecked(QueuedApprovals([]), a, authorities);
      if state.Err? then (c, Err(state.error))
      else (Cache(c.byHeight[0 := state.value], c.heights[hash := 0]), Ok(()))
  }

  function Removed(c: Cache, hash: BlockRoot): Cache {
    if hash in c.heights then Cache(c.byHeight - {c.heights[hash]}, c.heights - {hash}) else c
  }

  function GetBlock(c: Cache, hash: BlockRoot): Option<SignedBlock> {
    if hash in c.heights && c.heights[hash] in c.byHeight && c.byHeight[c.heights[hash]].CheckedBlock?
    then Some(c.byHeight[c.heights[hash]].block) else None
  }

  // ---- What every step keeps

  /** The candidate at a nonzero height is a block of that height, filed under its root, and its aggregate
      is made of signatures over that root. */
  predicate CandidateOk(c: Cache, h: nat, authorities: seq<PublicKey>)
    requires h in c.byHeight
  {
    && c.byHeight[h].CheckedBlock?
    && var b := c.byHeight[h].block;
       && b.root.height == h && b.root in c.heights && c.heights[b.root] == h
       && Consistent(b.approval, authorities, b.root)
  }

  /** At nonzero heights the two maps are inverse to each other; height 0 only parks approvals. */
  predicate Coherent(c: Cache, authorities: seq<PublicKey>) {
    && (0 in c.byHeight ==> c.byHeight[0].QueuedApprovals?)
    && (forall h :: h in c.byHeight && h != 0 ==> CandidateOk(c, h, authorities))
    && (forall r :: r in c.heights && c.heights[r] != 0 ==>
          && c.heights[r] in c.byHeight && c.byHeight[c.heights[r]].CheckedBlock?
          && c.byHeight[c.heights[r]].block.root == r)
  }

  lemma InsertKeepsCoherent(c: Cache, b: SignedBlock, replace: bool, authorities: seq<PublicKey>)
    requires Coherent(c, authorities) && b.root.height >= 1 && Consistent(b.approval, authorities, b.root)
    ensures Coherent(Inserted(c, b, replace).0, authorities)
    ensures Inserted(c, b, replace).1 == Ok(())
  {
    var c', h := Inserted(c, b, replace).0, b.root.height;
    if h in c.byHeight { assert CandidateOk(c, h, authorities); }
    forall k | k in c'.byHeight && k != 0
      ensures CandidateOk(c', k, authorities)
    {
      if k != h { assert CandidateOk(c, k, authorities); }
    }
  }

  lemma ApproveKeepsCoherent(c: Cache, a: ApproveBlock, authorities: seq<PublicKey>, lenient: bool)
    requires Coherent(c, authorities)
    ensures Coherent(Approved(c, a, authorities, lenient).0, authorities)
  {
    var c', hash := Approved(c, a, authorities, lenient).0, a.blockHash;
    if hash in c.heights && c.heights[hash] != 0 {
      var h := c.heights[hash];
      assert CandidateOk(c, h, authorities);
      var b := c.byHeight[h].block;
      if WithUnchecked(c.byHeight[h], a, authorities).Ok? {
        AddKeepsConsistent(b.approval, a.approval, authorities, hash);
      }
    }
    forall k | k in c'.byHeight && k != 0
      ensures CandidateOk(c', k, authorities)
    {
      assert CandidateOk(c, k, authorities);
    }
  }

  lemma RemoveKeepsCoherent(c: Cache, hash: BlockRoot, authorities: seq<PublicKey>)
    requires Coherent(c, authorities)
    ensures Coherent(Removed(c, hash), authorities)
  {
    var c' := Removed(c, hash);
    forall h | h in c'.byHeight && h != 0
      ensures CandidateOk(c', h, authorities)
    {
      assert CandidateOk(c, h, authorities) && c'.byHeight[h] == c.byHeight[h];
    }
  }

  datatype Step =
    | Insert(b: SignedBlock, replace: bool)
    | AddApproval(a: ApproveBlock, lenient: bool)
    | Remove(hash: BlockRoot)
    | Clear

  function Apply(c: Cache, step: Step, authorities: seq<PublicKey>): Cache {
    match step
    case Insert(b, replace) => Inserted(c, b, replace).0
    case AddApproval(a, lenient) => Approved(c, a, authorities, lenient).0
    case Remove(hash) => Removed(c, hash)
    case Clear => Cache(map[], map[])
  }

  function Run(c: Cache, steps: seq<Step>, authorities: seq<PublicKey>): Cache
    decreases |steps|
  {
    if steps == [] then c else Run(Apply(c, steps[0], authorities), steps[1..], authorities)
  }

  /** Inserted blocks are not genesis, and their signature was verified before. */
  predicate InsertsChecked(steps: seq<Step>, authorities: seq<PublicKey>) {
    forall i :: 0 <= i < |steps| && steps[i].Insert? ==>
      steps[i].b.root.height >= 1 && Consistent(steps[i].b.approval, authorities, steps[i].b.root)
  }

  lemma StepKeepsCoherent(c: Cache, step: Step, authorities: seq<PublicKey>)
    requires Coherent(c, authorities)
    requires step.Insert? ==> step.b.root.height >= 1 && Consistent(step.b.approval, authorities, step.b.root)
    ensures Coherent(Apply(c, step, authorities), authorities)
  {
    match step
    case Insert(b, replace) => InsertKeepsCoherent(c, b, replace, authorities);
    case AddApproval(a, lenient) => ApproveKeepsCoherent(c, a, authorities, lenient);
    case Remove(hash) => RemoveKeepsCoherent(c, hash, authorities);
    case Clear =>
  }

  /** In every run the two maps stay inverse to each other at nonzero heights. */
  lemma {:induction false} RunKeepsCoherent(c: Cache, steps: seq<Step>, authorities: seq<PublicKey>)
    requires Coherent(c, authorities) && InsertsChecked(steps, authorities)
    ensures Coherent(Run(c, steps, authorities), authorities)
    decreases |steps|
  {
    if steps != [] {
      StepKeepsCoherent(c, steps[0], authorities);
      RunKeepsCoherent(Apply(c, steps[0], authorities), steps[1..], authorities);
    }
  }

  /** A lookup only ever returns the block with that root, and every signature merged into it is over that
      root. */
  lemma GetBlockReturnsRoot(steps: seq<Step>, authorities: seq<PublicKey>, hash: BlockRoot)
    requires InsertsChecked(steps, authorities)
    ensures var found := GetBlock(Run(Cache(map[], map[]), steps, authorities), hash);
            found.Some? ==> found.value.root == hash && Consistent(found.value.approval, authorities, hash)
  {
    RunKeepsCoherent(Cache(map[], map[]), steps, authorities);
    var c := Run(Cache(map[], map[]), steps, authorities);
    if GetBlock(c, hash).Some? { assert CandidateOk(c, c.heights[hash], authorities); }
  }

  // ---- Which block stays

  /** An inserted block is the candidate of its height afterwards exactly when there was none, it may replace
      any, its slot is higher, or it was there already. */
  lemma InsertedStaysIff(c: Cache, b: SignedBlock, replace: bool, authorities: seq<PublicKey>)
    requires Coherent(c, authorities) && b.root.height >= 1
    ensures var h := b.root.height;
            GetBlock(Inserted(c, b, replace).0, b.root) == Some(b) <==>
            || h !in c.byHeight || replace || GetBlock(c, b.root) == Some(b)
            || (c.byHeight[h].CheckedBlock? && b.root.slot > c.byHeight[h].block.root.slot)
  {
    var h := b.root.height;
    if h in c.byHeight { assert CandidateOk(c, h, authorities); }
    assert Merged(b, []) == Ok(b);
  }

  /** No block is removed or replaced regardless of its slot. */
  predicate Adds(step: Step) {
    (step.Insert? && !step.replace) || step.AddApproval?
  }

  predicate OnlyAdds(steps: seq<Step>) {
    forall i :: 0 <= i < |steps| ==> Adds(steps[i])
  }

  /** The candidate at height `h` is a block of at least this slot. */
  predicate SlotAtLeast(c: Cache, h: nat, slot: nat) {
    h in c.byHeight && c.byHeight[h].CheckedBlock? && c.byHeight[h].block.root.slot >= slot
  }

  lemma InsertKeepsSlot(c: Cache, b: SignedBlock, authorities: seq<PublicKey>, h: nat, slot: nat)
    requires Coherent(c, authorities) && h >= 1 && SlotAtLeast(c, h, slot) && b.root.height >= 1
    ensures SlotAtLeast(Inserted(c, b, false).0, h, slot)
  {
    assert CandidateOk(c, h, authorities);
  }

  lemma ApproveKeepsSlot(
      c: Cache, a: ApproveBlock, authorities: seq<PublicKey>, lenient: bool, h: nat, slot: nat)
    requires Coherent(c, authorities) && h >= 1 && SlotAtLeast(c, h, slot)
    ensures SlotAtLeast(Approved(c, a, authorities, lenient).0, h, slot)
  {
    assert CandidateOk(c, h, authorities);
    if a.blockHash in c.heights && c.heights[a.blockHash] != 0 {
      assert CandidateOk(c, c.heights[a.blockHash], authorities);
    }
  }

  lemma StepKeepsSlot(c: Cache, step: Step, authorities: seq<PublicKey>, h: nat, slot: nat)
    requires Coherent(c, authorities) && h >= 1 && SlotAtLeast(c, h, slot) && Adds(step)
    requires step.Insert? ==> step.b.root.height >= 1
    ensures SlotAtLeast(Apply(c, step, authorities), h, slot)
  {
    if step.Insert? {
      InsertKeepsSlot(c, step.b, authorities, h, slot);
    } else {
      ApproveKeepsSlot(c, step.a, authorities, step.lenient, h, slot);
    }
  }

  lemma {:induction false} RunKeepsSlot(c: Cache, steps: seq<Step>, authorities: seq<PublicKey>, h: nat, slot: nat)
    requires Coherent(c, authorities) && InsertsChecked(steps, authorities) && OnlyAdds(steps)
    requires h >= 1 && SlotAtLeast(c, h, slot)
    ensures SlotAtLeast(Run(c, steps, authorities), h, slot)
    decreases |steps|
  {
    if steps != [] {
      StepKeepsCoherent(c, steps[0], authorities);
      StepKeepsSlot(c, steps[0], authorities, h, slot);
      RunKeepsSlot(Apply(c, steps[0], authorities), steps[1..], authorities, h, slot);
    }
  }

  lemma InsertReachesSlot(c: Cache, b: SignedBlock, authorities: seq<PublicKey>)
    requires Coherent(c, authorities) && b.root.height >= 1
    ensures SlotAtLeast(Inserted(c, b, false).0, b.root.height, b.root.slot)
  {
    if b.root.height in c.byHeight { assert CandidateOk(c, b.root.height, authorities); }
    assert Merged(b, []) == Ok(b);
  }

  /** Over any run that only adds, the candidate of a height has at least the slot of every block inserted for
      that height. */
  lemma {:induction false} HighestSlotStays(c: Cache, steps: seq<Step>, authorities: seq<PublicKey>, i: nat)
    requires Coherent(c, authorities) && InsertsChecked(steps, authorities) && OnlyAdds(steps)
    requires i < |steps| && steps[i].Insert?
    ensures SlotAtLeast(Run(c, steps, authorities), steps[i].b.root.height, steps[i].b.root.slot)
    decreases |steps|
  {
    var next := Apply(c, steps[0], authorities);
    StepKeepsCoherent(c, steps[0], authorities);
    if i == 0 {
      InsertReachesSlot(c, steps[0].b, authorities);
      RunKeepsSlot(next, steps[1..], authorities, steps[0].b.root.height, steps[0].b.root.slot);
    } else {
      HighestSlotStays(next, steps[1..], authorities, i - 1);
    }
  }

  function InsertedRoots(steps: seq<Step>): set<BlockRoot> {
    if steps == [] then {}
    else (if steps[0].Insert? then {steps[0].b.root} else {}) + InsertedRoots(steps[1..])
  }

  predicate RootsAmong(c: Cache, roots: set<BlockRoot>) {
    forall h :: h in c.byHeight && h != 0 && c.byHeight[h].CheckedBlock? ==> c.byHeight[h].block.root in roots
  }

  lemma StepKeepsRoots(c: Cache, step: Step, authorities: seq<PublicKey>, roots: set<BlockRoot>)
    requires Coherent(c, authorities) && RootsAmong(c, roots) && (step.Insert? ==> step.b.root.height >= 1)
    ensures RootsAmong(Apply(c, step, authorities), roots + if step.Insert? then {step.b.root} else {})
  {
    if step.Insert? && step.b.root.height in c.byHeight { assert CandidateOk(c, step.b.root.height, authorities); }
    if step.Insert? { assert Merged(step.b, []) == Ok(step.b); }
  }

  /** And it is one of the inserted blocks. */
  lemma {:induction false} KeptWasInserted(
      c: Cache, steps: seq<Step>, authorities: seq<PublicKey>, roots: set<BlockRoot>)
    requires Coherent(c, authorities) && InsertsChecked(steps, authorities) && RootsAmong(c, roots)
    ensures RootsAmong(Run(c, steps, authorities), roots + InsertedRoots(steps))
    decreases |steps|
  {
    if steps == [] {
      assert roots + {} == roots;
    } else {
      var more := roots + if steps[0].Insert? then {steps[0].b.root} else {};
      StepKeepsCoherent(c, steps[0], authorities);
      StepKeepsRoots(c, steps[0], authorities, roots);
      KeptWasInserted(Apply(c, steps[0], authorities), steps[1..], authorities, more);
      assert more + InsertedRoots(steps[1..]) == roots + InsertedRoots(steps);
    }
  }

  /** A valid approval of a cached block sets its signer's bit and adds the signature, and changes nothing else
      about the block. */
  lemma ApprovalIsMerged(c: Cache, a: ApproveBlock, authorities: seq<PublicKey>, lenient: bool, b: SignedBlock)
    requires Coherent(c, authorities) && GetBlock(c, a.blockHash) == Some(b)
    requires var i := a.approval.authorityIndex;
             && i < |authorities| && i < |b.approval.bits|
             && a.approval.signature == Signature(authorities[i], a.blockHash)
    ensures var i := a.approval.authorityIndex;
            var (c', r) := Approved(c, a, authorities, lenient);
            && r == Ok(())
            && GetBlock(c', a.blockHash) ==
               Some(if b.approval.bits[i] then b
                    else SignedBlock(b.root, Aggregate(b.approval.bits[i := true],
                                                       b.approval.signature + multiset{a.approval.signature})))
            && c'.heights == c.heights && c'.byHeight.Keys == c.byHeight.Keys
            && forall h :: h in c.byHeight && h != c.heights[a.blockHash] ==> c'.byHeight[h] == c.byHeight[h]
  {
    assert CandidateOk(c, c.heights[a.blockHash], authorities);
  }

  /** An approval with another signature or index is refused and changes nothing. */
  lemma BadApprovalIsRefused(c: Cache, a: ApproveBlock, authorities: seq<PublicKey>, lenient: bool)
    requires Coherent(c, authorities)
    requires var i := a.approval.authorityIndex;
             i >= |authorities| || a.approval.signature != Signature(authorities[i], a.blockHash)
    ensures Approved(c, a, authorities, lenient).0 == c && Approved(c, a, authorities, lenient).1.Err?
  {
    if a.blockHash in c.heights && c.heights[a.blockHash] in c.byHeight && c.heights[a.blockHash] != 0 {
      assert CandidateOk(c, c.heights[a.blockHash], authorities);
    }
  }

  // ---- Quorums of cached blocks

  /** No cached block has bits beyond a list of `n` authorities. */
  predicate AllListed(c: Cache, n: nat) {
    forall h :: h in c.byHeight && c.byHeight[h].CheckedBlock? ==>
      Beyond(c.byHeight[h].block.approval.bits, n) == {}
  }

  predicate InsertsListed(steps: seq<Step>, n: nat) {
    forall i :: 0 <= i < |steps| && steps[i].Insert? ==> Beyond(steps[i].b.approval.bits, n) == {}
  }

  lemma ApproveKeepsListed(c: Cache, a: ApproveBlock, authorities: seq<PublicKey>, lenient: bool)
    requires AllListed(c, |authorities|)
    ensures AllListed(Approved(c, a, authorities, lenient).0, |authorities|)
  {
    var n := |authorities|;
    forall bits: seq<bool> | a.approval.authorityIndex < n && a.approval.authorityIndex < |bits|
      ensures Beyond(bits[a.approval.authorityIndex := true], n) == Beyond(bits, n)
    {}
  }

  lemma InsertKeepsListed(c: Cache, b: SignedBlock, replace: bool, authorities: seq<PublicKey>, n: nat)
    requires Coherent(c, authorities) && b.root.height >= 1 && AllListed(c, n) && Beyond(b.approval.bits, n) == {}
    ensures AllListed(Inserted(c, b, replace).0, n)
  {}

  lemma StepKeepsListed(c: Cache, step: Step, authorities: seq<PublicKey>)
    requires Coherent(c, authorities) && AllListed(c, |authorities|)
    requires step.Insert? ==> step.b.root.height >= 1 && Beyond(step.b.approval.bits, |authorities|) == {}
    ensures AllListed(Apply(c, step, authorities), |authorities|)
  {
    match step
    case Insert(b, replace) => InsertKeepsListed(c, b, replace, authorities, |authorities|);
    case AddApproval(a, lenient) => ApproveKeepsListed(c, a, authorities, lenient);
    case Remove(hash) =>
    case Clear =>
  }

  lemma {:induction false} RunKeepsListed(c: Cache, steps: seq<Step>, authorities: seq<PublicKey>)
    requires Coherent(c, authorities) && InsertsChecked(steps, authorities)
    requires AllListed(c, |authorities|) && InsertsListed(steps, |authorities|)
    ensures AllListed(Run(c, steps, authorities), |authorities|)
    decreases |steps|
  {
    if steps != [] {
      StepKeepsCoherent(c, steps[0], authorities);
      StepKeepsListed(c, steps[0], authorities);
      RunKeepsListed(Apply(c, steps[0], authorities), steps[1..], authorities);
    }
  }

  /** As long as no inserted block has bits beyond the list, a block accepted from the cache carries the
      signatures of two thirds of the authorities over the root it was asked for. */
  lemma AcceptedBlockHasQuorum(steps: seq<Step>, authorities: seq<PublicKey>, hash: BlockRoot, b: SignedBlock)
    requires InsertsChecked(steps, authorities) && InsertsListed(steps, |authorities|)
    requires GetBlock(Run(Cache(map[], map[]), steps, authorities), hash) == Some(b)
    requires MajorityApproved(b.approval, authorities, b.root)
    ensures TwoThirds(b.approval, |authorities|)
    ensures forall i :: i in Signers(b.approval.bits, |authorities|) ==>
              Signature(authorities[i], hash) in b.approval.signature
  {
    GetBlockReturnsRoot(steps, authorities, hash);
    RunKeepsListed(Cache(map[], map[]), steps, authorities);
    TwoThirdsIff(b.approval, |authorities|);
    SignersSigned(b.approval, authorities, hash);
  }

  /** With more than one authority and room in the bit list, a block can be inserted that is accepted without
      two thirds. */
  lemma PaddedBlockIsAccepted(authorities: seq<PublicKey>, root: BlockRoot) returns (b: SignedBlock)
    requires 1 < |authorities| < MAX_VALIDATORS && root.height >= 1
    ensures InsertsChecked([Insert(b, false)], authorities)
    ensures GetBlock(Run(Cache(map[], map[]), [Insert(b, false)], authorities), root) == Some(b)
    ensures MajorityApproved(b.approval, authorities, root) && !TwoThirds(b.approval, |authorities|)
  {
    var agg := PaddedIsApproved(authorities, root);
    b := SignedBlock(root, agg);
    assert Merged(b, []) == Ok(b);
    assert [Insert(b, false)][1..] == [];
  }

  /** A cached block is found by its root. */
  lemma CachedBlockIsFound(c: Cache, h: nat, authorities: seq<PublicKey>)
    requires Coherent(c, authorities) && h in c.byHeight && h != 0
    ensures c.byHeight[h].CheckedBlock? && GetBlock(c, c.byHeight[h].block.root) == Some(c.byHeight[h].block)
  {}

  // ---- The cache object

  class BlockCandidateCache {
    var candidatesByHeight: map<nat, CandidateState>
    var hashToHeight: map<BlockRoot, nat>

    ghost function View(): Cache
      reads this
    {
      Cache(candidatesByHeight, hashToHeight)
    }

    constructor ()
      ensures View() == Cache(map[], map[])
    {
      candidatesByHeight, hashToHeight := map[], map[];
    }

    /** Puts `b` into a candidate, draining the approvals queued for it. */
    static method AddCheckedBlock(candidate: CandidateState, b: SignedBlock)
        returns (state: CandidateState, r: Result<(), Error>)
      ensures (state, r) == WithBlock(candidate, b)
    {
      if candidate.CheckedBlock? { return CheckedBlock(b), Ok(()); }
      var queue := candidate.approvals;
      var block := b;
      while queue != []
        invariant Merged(block, queue) == Merged(b, candidate.approvals)
        decreases |queue|
      {
        var agg := Add(block.approval, queue[0]);
        queue := queue[1..];
        if agg.Err? { return QueuedApprovals([]), Err(agg.error); }
        block := block.(approval := agg.value);
      }
      return CheckedBlock(block), Ok(());
    }

    method Insert(b: SignedBlock, replace: bool) returns (r: Result<(), Error>)
      modifies this
      ensures (View(), r) == Inserted(old(View()), b, replace)
    {
      var h := b.root.height;
      if h in candidatesByHeight {
        var candidate := candidatesByHeight[h];
        if candidate.CheckedBlock? {
          var existing := candidate.block;
          if b.root.slot > existing.root.slot || replace {
            hashToHeight := hashToHeight - {existing.root};
            candidatesByHeight := candidatesByHeight[h := CheckedBlock(b)];
            hashToHeight := hashToHeight[b.root := h];
          }
          return Ok(());
        }
        var state, added := AddCheckedBlock(candidate, b);
        candidatesByHeight := candidatesByHeight[h := state];
        if added.Err? { return added; }
        hashToHeight := hashToHeight[b.root := h];
      } else {
        var state, added := AddCheckedBlock(QueuedApprovals([]), b);
        if added.Err? { return added; }
        candidatesByHeight := candidatesByHeight[h := state];
        hashToHeight := hashToHeight[b.root := h];
      }
      return Ok(());
    }

    method AddApproval(a: ApproveBlock, authorities: seq<PublicKey>, lenient: bool) returns (r: Result<(), Error>)
      modifies this
      ensures (View(), r) == Approved(old(View()), a, authorities, lenient)
    {
      var hash := a.blockHash;
      if hash in hashToHeight && hashToHeight[hash] in candidatesByHeight {
        var h := hashToHeight[hash];
        var candidate := candidatesByHeight[h];
        if candidate.CheckedBlock? && candidate.block.root != hash && !lenient {
          hashToHeight := hashToHeight - {hash};
          return Ok(());
        }
        var state := WithUnchecked(candidate, a, authorities);
        if state.Err? { return Err(state.error); }
        candidatesByHeight := candidatesByHeight[h := state.value];
        return Ok(());
      }
      var state := WithUnchecked(QueuedApprovals([]), a, authorities);
      if state.Err? { return Err(state.error); }
      hashToHeight := hashToHeight[hash := 0];
      candidatesByHeight := candidatesByHeight[0 := state.value];
      return Ok(());
    }

    method Remove(hash: BlockRoot) returns (state: Option<CandidateState>)
      modifies this
      ensures View() == Removed(old(View()), hash)
    {
      if hash !in hashToHeight { return None; }
      var h := hashToHeight[hash];
      state := if h in candidatesByHeight then Some(candidatesByHeight[h]) else None;
      hashToHeight := hashToHeight - {hash};
      candidatesByHeight := candidatesByHeight - {h};
    }

    method Clear()
      modifies this
      ensures View() == Cache(map[], map[])
    {
      candidatesByHeight, hashToHeight := map[], map[];
    }

    method Get(hash: BlockRoot) returns (block: Option<SignedBlock>)
      ensures block == GetBlock(View(), hash)
    {
      if hash in hashToHeight {
        var h := hashToHeight[hash];
        if h in candidatesByHeight && candidatesByHeight[h].CheckedBlock? {
          return Some(candidatesByHeight[h].block);
        }
      }
      return None;
    }
  }
}

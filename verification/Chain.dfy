/** The handlers that change the node's state, step by step, proved against the specifications of
    module `Node`. */
module Chain {
  import opened Util
  import opened Bitcoin
  import opened Blocks
  import opened Node

  lemma ReverseAppend<T>(s: seq<T>, x: T)
    ensures Reverse(s + [x]) == [x] + Reverse(s)
  {}

  function Joined<T>(front: Result<seq<T>, Error>, back: seq<T>): Result<seq<T>, Error> {
    match front case Err(e) => Err(e) case Ok(s) => Ok(s + back)
  }

  lemma JoinedEmpty<T>(front: Result<seq<T>, Error>)
    ensures Joined(front, []) == front
  {
    if front.Ok? { assert front.value + [] == front.value; }
  }

  lemma JoinedMiddle<T>(front: Result<seq<T>, Error>, middle: seq<T>, back: seq<T>)
    ensures Joined(Joined(front, middle), back) == Joined(front, middle + back)
  {
    if front.Ok? { assert front.value + middle + back == front.value + (middle + back); }
  }

  lemma ProposalsStep(store: Store, from: Hash, current: Hash, newer: seq<Txid>)
    requires current in store && current != from
    ensures Joined(ProposalsBetween(store, from, current), newer)
         == Joined(ProposalsBetween(store, from, store[current].parent), ProposalOf(current) + newer)
  {
    JoinedMiddle(ProposalsBetween(store, from, store[current].parent), ProposalOf(current), newer);
  }

  lemma {:induction false} AfterFirstAt(hs: seq<Hash>, i: nat)
    requires i < |hs| && forall j :: 0 <= j < i ==> hs[j] != hs[i]
    ensures AfterFirst(hs, hs[i]) == Some(hs[i + 1..])
  {
    if i > 0 {
      assert hs[1..][i - 1] == hs[i];
      AfterFirstAt(hs[1..], i - 1);
    }
  }

  lemma {:induction false} AfterFirstMissing(hs: seq<Hash>, h: Hash)
    requires h !in hs
    ensures AfterFirst(hs, h) == None
  {
    if hs != [] { AfterFirstMissing(hs[1..], h); }
  }

  class BlockHashCache {
    var hashes: seq<Hash>

    constructor ()
      ensures hashes == []
    {
      hashes := [];
    }

    method Init(hs: seq<Hash>)
      modifies this
      ensures hashes == hs
    {
      hashes := hs;
    }

    method Add(h: Hash)
      modifies this
      ensures hashes == old(hashes) + [h]
    {
      hashes := hashes + [h];
    }

    /** Drops everything up to and including the first `h`. */
    method ResetWith(h: Hash) returns (r: Result<(), Error>)
      modifies this
      ensures match AfterFirst(old(hashes), h)
              case None => r == Err(HashNotInCache) && hashes == old(hashes)
              case Some(rest) => r == Ok(()) && hashes == rest
    {
      for index := 0 to |hashes|
        invariant hashes == old(hashes)
        invariant forall j :: 0 <= j < index ==> hashes[j] != h
      {
        if hashes[index] == h {
          AfterFirstAt(hashes, index);
          hashes := hashes[index + 1..];
          return Ok(());
        }
      }
      AfterFirstMissing(hashes, h);
      return Err(HashNotInCache);
    }
  }

  class Chain {
    const cfg: Config
    const cache: BlockHashCache
    var blocks: Store
    var index: map<nat, Hash>
    var head: Option<BlockRef>
    var latestPow: Option<BlockRef>
    var fees: map<Hash, nat>
    var queuedPow: Option<AuxPowHeader>
    var pending: set<Block>

    ghost function View(): State
      reads this, cache
    {
      State(blocks, index, head, latestPow, fees, queuedPow, pending, cache.hashes, map[])
    }

    constructor (cfg: Config)
      ensures this.cfg == cfg && fresh(cache)
      ensures View() == State(map[], map[], None, None, map[], None, {}, [], map[])
    {
      this.cfg := cfg;
      blocks, index, fees := map[], map[], map[];
      head, latestPow, queuedPow, pending := None, None, None, {};
      cache := new BlockHashCache();
    }

    method GetHashes(from: Hash, to: Hash) returns (r: Result<seq<Hash>, Error>)
      ensures r == HashesBetween(blocks, from, to)
    {
      if from !in blocks || to !in blocks { return Err(MissingBlock); }
      if blocks[from].number >= blocks[to].number { return Ok([from]); }
      var current, hashes := to, [];
      JoinedEmpty(WalkBack(blocks, from, to));
      while current != from
        invariant WalkBack(blocks, from, to) == Joined(WalkBack(blocks, from, current), Reverse(hashes))
        decreases current
      {
        ReverseAppend(hashes, current);
        ghost var newer := Reverse(hashes);
        hashes := hashes + [current];
        if current !in blocks { return Err(InvalidBlockRange); }
        JoinedMiddle(WalkBack(blocks, from, blocks[current].parent), [current], newer);
        current := blocks[current].parent;
      }
      assert [] + Reverse(hashes) == Reverse(hashes);
      return Ok(Reverse(hashes));
    }

    /** The proposals from `from` to `to`, collected newest first and reversed at the end. */
    method GetPaymentProposals(from: Hash, to: Hash) returns (r: Result<seq<Txid>, Error>)
      ensures r == ProposalsBetween(blocks, from, to)
    {
      var current, ret := to, [];
      JoinedEmpty(ProposalsBetween(blocks, from, to));
      while true
        invariant ProposalsBetween(blocks, from, to)
               == Joined(ProposalsBetween(blocks, from, current), Reverse(ret))
        decreases current
      {
        if current !in blocks { return Err(InvalidBlockRange); }
        var block := blocks[current];
        ghost var newer := Reverse(ret);
        if block.proposal.Some? {
          ReverseAppend(ret, block.proposal.value);
          ret := ret + [block.proposal.value];
        }
        assert Reverse(ret) == ProposalOf(current) + newer;
        if current == from { return Ok(Reverse(ret)); }
        ProposalsStep(blocks, from, current, newer);
        current := block.parent;
      }
    }

    method FindPowBlockForRollback(target: nat) returns (r: Result<Option<Hash>, Error>)
      ensures r == if target !in index || index[target] !in blocks then Err(MissingBlock)
                   else FindPow(blocks, index[target])
    {
      if target !in index || index[target] !in blocks { return Err(MissingBlock); }
      var current := index[target];
      while true
        invariant current in blocks && FindPow(blocks, index[target]) == FindPow(blocks, current)
        decreases current
      {
        if blocks[current].header.Some? { return Ok(Some(current)); }
        if blocks[current].parent.Zero? { return Ok(None); }
        if blocks[current].parent !in blocks { return Err(MissingParent); }
        current := blocks[current].parent;
      }
    }

    method RollbackHead(target: nat) returns (r: Result<(), Error>)
      modifies this
      ensures View() == RolledBack(old(View()), target)
      ensures r.Ok? <==> old(target in index && index[target] in blocks && FindPow(blocks, index[target]).Ok?)
    {
      if target !in index || index[target] !in blocks { return Err(MissingBlock); }
      var hash := index[target];
      var found := FindPowBlockForRollback(target);
      if found.Err? { return Err(found.error); }
      head := Some(BlockRef(hash, blocks[hash].number));
      if found.value.Some? {
        latestPow := Some(BlockRef(found.value.value, blocks[found.value.value].number));
      }
      return Ok(());
    }

    method LatestFinalizedRef() returns (r: Result<Option<BlockRef>, Error>)
      ensures r == LatestFinalized(View())
    {
      if latestPow.None? { return Ok(None); }
      var pow := latestPow.value;
      if pow.hash !in blocks || blocks[pow.hash].header.None? { return Err(InvalidBlockRange); }
      var p := blocks[pow.hash].header.value;
      if p.height == 0 { return Ok(Some(pow)); }
      if p.rangeEnd !in blocks { return Err(InvalidBlockRange); }
      return Ok(Some(BlockRef(p.rangeEnd, blocks[p.rangeEnd].number)));
    }

    method RunCheckPow(p: AuxPowHeader, workOk: bool) returns (r: Result<(), Error>)
      ensures r == CheckPow(View(), p, workOk)
    {
      if latestPow.None? { return Err(Panicked); }
      if latestPow.value.hash !in blocks { return Err(MissingBlock); }
      var last := LatestFinalizedRef();
      if last.Err? { return Err(last.error); }
      if last.value.None? || p.rangeStart !in blocks { return Err(MissingBlock); }
      var start := blocks[p.rangeStart];
      if start.number > UNLINKED_HEIGHT && start.parent != last.value.value.hash { return Err(InvalidPowRange); }
      var hashes := GetHashes(start.parent, p.rangeEnd);
      if hashes.Err? { return Err(hashes.error); }
      if head.None? || head.value.hash !in blocks { return Err(HeadMissing); }
      if p.auxpow.None? { return Err(Panicked); }
      if !workOk { return Err(InvalidPow); }
      if p.auxpow.value.committed != hashes.value { return Err(Panicked); }
      return Ok(());
    }

    static method SameTxids(required: seq<Txid>, listed: seq<Txid>) returns (same: bool)
      requires |required| == |listed|
      ensures same <==> required == listed
    {
      for i := 0 to |listed|
        invariant required[..i] == listed[..i]
      {
        if required[i] != listed[i] { return false; }
      }
      return true;
    }

    method RunCheckHeader(b: Block, v: Verdicts) returns (r: Result<(), Error>)
      requires b.header.Some?
      ensures r == CheckHeader(View(), cfg, b, v)
    {
      var p := b.header.value;
      var checked := RunCheckPow(p, v.workOk);
      if checked.Err? { return checked; }
      var required := GetPaymentProposals(p.rangeStart, p.rangeEnd);
      if required.Err? { return Err(required.error); }
      if |required.value| != |b.finalized| { return Err(IllegalFinalization); }
      if cfg.isValidator {
        var same := SameTxids(required.value, b.finalized);
        if !same { return Err(IllegalFinalization); }
        if !v.pegoutsSigned { return Err(FederationError); }
      }
      return Ok(());
    }

    method RunCheckBlock(b: Block, v: Verdicts) returns (r: Result<(), Error>)
      ensures r == CheckBlock(View(), cfg, b, v)
    {
      if b.parent.Zero? { return Err(ProcessGenesis); }
      if head.Some? && head.value.height >= b.number { return Err(InvalidBlock); }
      if b.parent !in blocks { return Err(MissingParent); }
      if blocks[b.parent].payloadHash != b.payloadParent { return Err(ExecutionHashChainIncontiguous); }
      if !v.signedByAuthor { return Err(AuraError); }
      if cfg.isValidator && !v.pegsOk { return Err(FederationError); }
      if b.header.Some? {
        r := RunCheckHeader(b, v);
        return;
      } else {
        var last := LatestFinalizedRef();
        if last.Err? { return Err(last.error); }
        var finalizedHeight := if last.value.Some? then last.value.value.height else 0;
        if b.number > finalizedHeight + cfg.maxBlocksWithoutPow { return Err(MissingRequiredPow); }
        if b.finalized != [] { return Err(IllegalFinalization); }
      }
      return Ok(());
    }

    method ProcessBlock(b: Block, v: Verdicts, dropped: set<Block>) returns (r: Result<(), Error>)
      modifies this
      ensures r == CheckBlock(old(View()), cfg, b, v)
      ensures View() == Processed(old(View()), cfg, b, v, dropped)
    {
      r := RunCheckBlock(b, v);
      if r.Ok? { pending := pending + {b} - dropped; }
    }

    /** Called with the candidate found under a hash; `approved` is the verdict on its quorum. */
    method MaybeAcceptBlock(b: Block, approved: Result<bool, Error>) returns (r: Result<(), Error>)
      modifies this, cache
      ensures View() == if approved == Ok(true) then Accepted(old(View()), b) else old(View())
      ensures r == if b !in old(pending) then Err(CandidateCacheError)
                   else if approved.Err? then Err(approved.error)
                   else if !approved.value then Ok(())
                   else ImportResult(old(View()), b)
    {
      if b !in pending { return Err(CandidateCacheError); }
      if approved.Err? { return Err(approved.error); }
      if !approved.value { return Ok(()); }
      pending := {};
      r := ImportBlock(b);
    }

    method UpdateHashCache(b: Block) returns (r: Result<(), Error>)
      modifies cache
      ensures match CachedAfter(old(cache.hashes), b)
              case Ok(hs) => r == Ok(()) && cache.hashes == hs
              case Err(e) => r == Err(e) && cache.hashes == old(cache.hashes)
    {
      if b.number == 0 { return Ok(()); }
      if b.header.Some? {
        r := cache.ResetWith(b.header.value.rangeEnd);
        if r.Err? { return r; }
      }
      cache.Add(Root(b));
      return Ok(());
    }

    method UpdateHeadRef(b: Block)
      modifies this`head
      ensures View() == old(View()).(head := HeadAfter(old(head), b))
    {
      if head.Some? && head.value.height > b.number { return; }
      head := Some(BlockRef(Root(b), b.number));
    }

    /** A header drops the queued one, and the block its range ends with must be stored. */
    method Finalize(b: Block) returns (r: Result<(), Error>)
      modifies this`queuedPow, this`latestPow
      ensures r == if ImportPanics(old(blocks), b) then Err(Panicked) else Ok(())
      ensures View() == old(View()).(
                queuedPow := if b.header.Some? then None else old(queuedPow),
                latestPow := if b.header.Some? && r.Ok? then Some(BlockRef(Root(b), b.number)) else old(latestPow))
    {
      if b.header.None? { return Ok(()); }
      queuedPow := None;
      var end := b.header.value.rangeEnd;
      if end.Root? && end !in blocks { return Err(Panicked); }
      latestPow := Some(BlockRef(Root(b), b.number));
      return Ok(());
    }

    method AccumulateFees(b: Block) returns (total: nat)
      ensures total == FeesAfter(fees, b)
    {
      total := if b.header.Some? || b.parent !in fees then 0 else fees[b.parent];
      total := total + b.fees;
    }

    method CommitBlock(b: Block, total: nat)
      modifies this`blocks, this`index, this`fees
      ensures View() == old(View()).(blocks := old(blocks)[Root(b) := b], index := old(index)[b.number := Root(b)],
                                     fees := old(fees)[Root(b) := total])
    {
      blocks, index, fees := blocks[Root(b) := b], index[b.number := Root(b)], fees[Root(b) := total];
    }

    /** Everything an import does before the hash cache. */
    method StoreBlock(b: Block) returns (r: Result<(), Error>)
      modifies this
      ensures r == if ImportPanics(old(blocks), b) then Err(Panicked) else Ok(())
      ensures r.Ok? ==> View() == Committed(old(View()), b)
      ensures r.Err? ==> View() == old(View()).(head := HeadAfter(old(head), b), queuedPow := None)
    {
      var total := AccumulateFees(b);
      UpdateHeadRef(b);
      r := Finalize(b);
      if r.Ok? { CommitBlock(b, total); }
    }

    method ImportBlock(b: Block) returns (r: Result<(), Error>)
      modifies this, cache
      ensures View() == Imported(old(View()), b)
      ensures r == ImportResult(old(View()), b)
    {
      r := StoreBlock(b);
      if r.Ok? { r := UpdateHashCache(b); }
    }

    method PushAuxpow(p: AuxPowHeader, workOk: bool) returns (queued: bool)
      modifies this`queuedPow
      ensures View() == old(View()).(queuedPow := QueuedAfter(old(View()), p, workOk))
      ensures queued <==> Queues(old(View()), p, workOk)
    {
      if queuedPow.Some? && queuedPow.value.rangeStart == p.rangeStart && queuedPow.value.rangeEnd == p.rangeEnd {
        return false;
      }
      var checked := RunCheckPow(p, workOk);
      if checked.Ok? { queuedPow := Some(p); }
      return checked.Ok?;
    }

    method InitBlockHashCache() returns (r: Result<(), Error>)
      modifies cache
      ensures View() == CacheInitialized(old(View()))
      ensures r.Ok? <==> AggregateHashes(old(View())).Ok?
    {
      if head.None? { return Err(HeadMissing); }
      var last := LatestFinalizedRef();
      if last.Err? { return Err(last.error); }
      if last.value.None? { return Err(MissingBlock); }
      var hashes := GetHashes(last.value.value.hash, head.value.hash);
      if hashes.Err? { return Err(hashes.error); }
      cache.Init(hashes.value);
      return Ok(());
    }
  }

  lemma CheckIgnoresWork(s: State, work: map<seq<Hash>, AuxInfo>, p: AuxPowHeader, workOk: bool)
    ensures QueuedAfter(s.(work := work), p, workOk) == QueuedAfter(s, p, workOk)
  {}

  /** The commitment is forgotten in any case, and a header that passes is pushed. */
  lemma SubmitEffect(s: State, c: seq<Hash>, proof: WorkProof, workOk: bool)
    requires c in s.work
    ensures var s' := s.(work := s.work - {c});
            WorkSubmitted(s, c, proof, workOk) ==
            if SubmitResult(s, c, proof, workOk).Err? then s'
            else s'.(queuedPow := QueuedAfter(s', SolvedHeader(s.work[c], proof), workOk))
  {
    CheckIgnoresWork(s, s.work - {c}, SolvedHeader(s.work[c], proof), workOk);
  }

  class AuxPowMiner {
    const chain: Chain
    var state: map<seq<Hash>, AuxInfo>

    ghost function View(): State
      reads this, chain, chain.cache
    {
      chain.View().(work := state)
    }

    constructor (chain: Chain)
      ensures this.chain == chain && state == map[]
    {
      this.chain := chain;
      state := map[];
    }

    method CreateAuxBlock(synced: bool) returns (r: Result<seq<Hash>, Error>)
      modifies this
      ensures View() == if synced then WorkCreated(old(View())) else old(View())
      ensures r == if synced then WorkOffer(old(View())) else Err(ChainSyncing)
    {
      if !synced { return Err(ChainSyncing); }
      if chain.latestPow.None? || chain.latestPow.value.hash !in chain.blocks { return Err(Panicked); }
      var last := chain.latestPow.value.hash;
      if chain.head.None? { return Err(HeadMissing); }
      if chain.queuedPow.Some? && chain.queuedPow.value.rangeEnd == chain.head.value.hash {
        return Err(NoWorkToDo);
      }
      var hashes := chain.cache.hashes;
      if hashes == [] { return Err(HashRetrievalError); }
      state := state[hashes := AuxInfo(last, hashes[0], hashes[|hashes| - 1])];
      return Ok(hashes);
    }

    method Push(p: AuxPowHeader, workOk: bool)
      modifies chain`queuedPow
      ensures View() == old(View()).(queuedPow := QueuedAfter(old(View()), p, workOk))
    {
      CheckIgnoresWork(chain.View(), state, p, workOk);
      var _ := chain.PushAuxpow(p, workOk);
    }

    method Forget(commitment: seq<Hash>)
      modifies this`state
      ensures View() == old(View()).(work := old(View()).work - {commitment})
    {
      state := state - {commitment};
    }

    method Judge(info: AuxInfo, commitment: seq<Hash>, proof: WorkProof, workOk: bool) returns (r: Result<(), Error>)
      ensures r == SubmitResult(chain.View().(work := map[commitment := info]), commitment, proof, workOk)
    {
      if info.lastHash !in chain.blocks { return Err(Panicked); }
      if !workOk { return Err(InvalidPow); }
      if proof.committed != commitment { return Err(InvalidPow); }
      return Ok(());
    }

    method SubmitAuxBlock(commitment: seq<Hash>, proof: WorkProof, workOk: bool) returns (r: Result<(), Error>)
      modifies this, chain`queuedPow
      ensures View() == WorkSubmitted(old(View()), commitment, proof, workOk)
      ensures r == SubmitResult(old(View()), commitment, proof, workOk)
    {
      ghost var s := View();
      if commitment !in state { return Err(UnknownAuxBlock); }
      var info := state[commitment];
      SubmitEffect(s, commitment, proof, workOk);
      Forget(commitment);
      r := Judge(info, commitment, proof, workOk);
      assert r == SubmitResult(s, commitment, proof, workOk);
      if r.Ok? {
        assert chain.blocks[info.lastHash].number == Number(info.lastHash);
        var p := AuxPowHeader(info.startHash, info.endHash, chain.blocks[info.lastHash].number + 1, Some(proof));
        assert p == SolvedHeader(s.work[commitment], proof);
        Push(p, workOk);
      }
    }
  }
}

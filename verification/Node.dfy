/** The node's persistent and in-memory chain state, and what each handler does to it. Every handler is one
    atomic step. */
module Node {
  import opened Util
  import opened Bitcoin
  import opened Blocks

  datatype Error =
    | ProcessGenesis | InvalidBlock | MissingParent | MissingBlock | ExecutionHashChainIncontiguous
    | AuraError | FederationError | InvalidBlockRange | InvalidPowRange | InvalidPow
    | IllegalFinalization | MissingRequiredPow | CandidateCacheError | HashNotInCache
    | NoWorkToDo | HashRetrievalError | HeadMissing | ChainSyncing | UnknownAuxBlock
    | Panicked

  datatype BlockRef = BlockRef(hash: Hash, height: nat)

  /** The block column of the database: keyed by the canonical root of the stored block. */
  type Store = m: map<Hash, Block> | forall h :: h in m ==> h == Root(m[h]) witness map[]

  /** What the miner remembers about a commitment it handed out. */
  datatype AuxInfo = AuxInfo(lastHash: Hash, startHash: Hash, endHash: Hash)

  /** `head` is the in-memory head, which every completed step leaves equal to the stored one.
      `pending` are the checked candidates waiting for approvals. `work` is the miner's table, keyed
      by the committed hashes. */
  datatype State = State(
    blocks: Store, index: map<nat, Hash>, head: Option<BlockRef>, latestPow: Option<BlockRef>,
    fees: map<Hash, nat>, queuedPow: Option<AuxPowHeader>, pending: set<Block>,
    cache: seq<Hash>, work: map<seq<Hash>, AuxInfo>)

  /** Outcomes of the checks that depend on signatures, peg data and proof of work. */
  datatype Verdicts = Verdicts(signedByAuthor: bool, pegsOk: bool, pegoutsSigned: bool, workOk: bool)

  /** Ranges that start at or below this height are not tied to the last finalized block. */
  const UNLINKED_HEIGHT: nat := 53143

  // ---- Reading the store

  /** The hashes after `from` up to `to`, found by following parents through the store. */
  function WalkBack(store: Store, from: Hash, to: Hash): Result<seq<Hash>, Error> {
    if to == from then Ok([])
    else if to !in store then Err(InvalidBlockRange)
    else match WalkBack(store, from, store[to].parent)
         case Err(e) => Err(e)
         case Ok(hs) => Ok(hs + [to])
  }

  function HashesBetween(store: Store, from: Hash, to: Hash): Result<seq<Hash>, Error> {
    if from !in store || to !in store then Err(MissingBlock)
    else if store[from].number >= store[to].number then Ok([from])
    else WalkBack(store, from, to)
  }

  /** The pegout proposals from `from` to `to`, both included, found by following parents. */
  function ProposalsBetween(store: Store, from: Hash, to: Hash): Result<seq<Txid>, Error> {
    if to !in store then Err(InvalidBlockRange)
    else if to == from then Ok(ProposalOf(to))
    else match ProposalsBetween(store, from, store[to].parent)
         case Err(e) => Err(e)
         case Ok(ts) => Ok(ts + ProposalOf(to))
  }

  /** The nearest stored block at or below `h` that carries a header. */
  function FindPow(store: Store, h: Hash): (r: Result<Option<Hash>, Error>)
    ensures r.Ok? && r.value.Some? ==> r.value.value in store && store[r.value.value].header.Some?
  {
    if h !in store then Err(MissingParent)
    else if store[h].header.Some? then Ok(Some(h))
    else if store[h].parent.Zero? then Ok(None)
    else FindPow(store, store[h].parent)
  }

  function LatestFinalized(s: State): Result<Option<BlockRef>, Error> {
    if s.latestPow.None? then Ok(None)
    else
      var pow := s.latestPow.value;
      if pow.hash !in s.blocks || s.blocks[pow.hash].header.None? then Err(InvalidBlockRange)
      else
        var p := s.blocks[pow.hash].header.value;
        if p.height == 0 then Ok(Some(pow))
        else if p.rangeEnd !in s.blocks then Err(InvalidBlockRange)
        else Ok(Some(BlockRef(p.rangeEnd, s.blocks[p.rangeEnd].number)))
  }

  // ---- Checking

  /** The hashes an AuxPoW header has to commit to. */
  function ExpectedHashes(s: State, p: AuxPowHeader): Result<seq<Hash>, Error> {
    if s.latestPow.None? then Err(Panicked)
    else if s.latestPow.value.hash !in s.blocks then Err(MissingBlock)
    else
      match LatestFinalized(s)
      case Err(e) => Err(e)
      case Ok(None) => Err(MissingBlock)
      case Ok(Some(last)) =>
        if p.rangeStart !in s.blocks then Err(MissingBlock)
        else
          var start := s.blocks[p.rangeStart];
          if start.number > UNLINKED_HEIGHT && start.parent != last.hash then Err(InvalidPowRange)
          else HashesBetween(s.blocks, start.parent, p.rangeEnd)
  }

  function CheckPow(s: State, p: AuxPowHeader, workOk: bool): Result<(), Error> {
    match ExpectedHashes(s, p)
    case Err(e) => Err(e)
    case Ok(hashes) =>
      if s.head.None? || s.head.value.hash !in s.blocks then Err(HeadMissing)
      else if p.auxpow.None? then Err(Panicked)
      else if !workOk then Err(InvalidPow)
      else if p.auxpow.value.committed != hashes then Err(Panicked)
      else Ok(())
  }

  function CheckHeader(s: State, cfg: Config, b: Block, v: Verdicts): Result<(), Error>
    requires b.header.Some?
  {
    var p := b.header.value;
    match CheckPow(s, p, v.workOk)
    case Err(e) => Err(e)
    case Ok(_) =>
      match ProposalsBetween(s.blocks, p.rangeStart, p.rangeEnd)
      case Err(e) => Err(e)
      case Ok(required) =>
        if |required| != |b.finalized| then Err(IllegalFinalization)
        else if cfg.isValidator && required != b.finalized then Err(IllegalFinalization)
        else if cfg.isValidator && !v.pegoutsSigned then Err(FederationError)
        else Ok(())
  }

  function CheckNoHeader(s: State, cfg: Config, b: Block): Result<(), Error> {
    match LatestFinalized(s)
    case Err(e) => Err(e)
    case Ok(last) =>
      var finalizedHeight := if last.Some? then last.value.height else 0;
      if b.number > finalizedHeight + cfg.maxBlocksWithoutPow then Err(MissingRequiredPow)
      else if b.finalized != [] then Err(IllegalFinalization)
      else Ok(())
  }

  function CheckBlock(s: State, cfg: Config, b: Block, v: Verdicts): Result<(), Error> {
    if b.parent.Zero? then Err(ProcessGenesis)
    else if s.head.Some? && s.head.value.height >= b.number then Err(InvalidBlock)
    else if b.parent !in s.blocks then Err(MissingParent)
    else if s.blocks[b.parent].payloadHash != b.payloadParent then Err(ExecutionHashChainIncontiguous)
    else if !v.signedByAuthor then Err(AuraError)
    else if cfg.isValidator && !v.pegsOk then Err(FederationError)
    else if b.header.Some? then CheckHeader(s, cfg, b, v)
    else CheckNoHeader(s, cfg, b)
  }

  // ---- Steps

  /** What follows the first occurrence of `h`. */
  function AfterFirst(hs: seq<Hash>, h: Hash): Option<seq<Hash>> {
    if hs == [] then None else if hs[0] == h then Some(hs[1..]) else AfterFirst(hs[1..], h)
  }

  function CachedAfter(cache: seq<Hash>, b: Block): Result<seq<Hash>, Error> {
    if b.number == 0 then Ok(cache)
    else if b.header.None? then Ok(cache + [Root(b)])
    else match AfterFirst(cache, b.header.value.rangeEnd)
         case None => Err(HashNotInCache)
         case Some(rest) => Ok(rest + [Root(b)])
  }

  function FeesAfter(fees: map<Hash, nat>, b: Block): nat {
    (if b.header.Some? || b.parent !in fees then 0 else fees[b.parent]) + b.fees
  }

  predicate ImportPanics(store: Store, b: Block) {
    b.header.Some? && b.header.value.rangeEnd.Root? && b.header.value.rangeEnd !in store
  }

  function HeadAfter(head: Option<BlockRef>, b: Block): Option<BlockRef> {
    if head.Some? && head.value.height > b.number then head else Some(BlockRef(Root(b), b.number))
  }

  /** The database and in-memory updates of an import, without the hash cache. */
  function Committed(s: State, b: Block): State {
    var ref := BlockRef(Root(b), b.number);
    s.(blocks := s.blocks[Root(b) := b],
       index := s.index[b.number := Root(b)],
       head := HeadAfter(s.head, b),
       latestPow := if b.header.Some? then Some(ref) else s.latestPow,
       fees := s.fees[Root(b) := FeesAfter(s.fees, b)],
       queuedPow := if b.header.Some? then None else s.queuedPow)
  }

  /** The state after importing `b`. A panic comes after the in-memory head and the queued header have
      changed and before anything is stored; a failing cache update comes after the commit. */
  function Imported(s: State, b: Block): State {
    if ImportPanics(s.blocks, b) then s.(head := HeadAfter(s.head, b), queuedPow := None)
    else Committed(s, b).(cache := match CachedAfter(s.cache, b) case Ok(c) => c case Err(_) => s.cache)
  }

  function ImportResult(s: State, b: Block): Result<(), Error> {
    if ImportPanics(s.blocks, b) then Err(Panicked)
    else match CachedAfter(s.cache, b) case Ok(_) => Ok(()) case Err(e) => Err(e)
  }

  /** Checks a proposed block and, if it passes, keeps it as a candidate. The candidate cache may drop
      other candidates, or the new one, when several compete for a height. */
  function Processed(s: State, cfg: Config, b: Block, v: Verdicts, dropped: set<Block>): State {
    if CheckBlock(s, cfg, b, v).Err? then s else s.(pending := s.pending + {b} - dropped)
  }

  /** A candidate reached its quorum: the cache is emptied and the block imported, without new checks. */
  function Accepted(s: State, b: Block): State {
    if b in s.pending then Imported(s.(pending := {}), b) else s
  }

  function RolledBack(s: State, target: nat): State {
    if target !in s.index || s.index[target] !in s.blocks then s
    else
      match FindPow(s.blocks, s.index[target])
      case Err(_) => s
      case Ok(found) =>
        var h := s.index[target];
        s.(head := Some(BlockRef(h, s.blocks[h].number)),
           latestPow := if found.Some? then Some(BlockRef(found.value, Number(found.value)))
                        else s.latestPow)
  }

  /** The hashes the cache is filled with when the node starts. */
  function AggregateHashes(s: State): Result<seq<Hash>, Error> {
    if s.head.None? then Err(HeadMissing)
    else match LatestFinalized(s)
         case Err(e) => Err(e)
         case Ok(None) => Err(MissingBlock)
         case Ok(Some(last)) => HashesBetween(s.blocks, last.hash, s.head.value.hash)
  }

  function CacheInitialized(s: State): State {
    match AggregateHashes(s) case Err(_) => s case Ok(hs) => s.(cache := hs)
  }

  predicate HasWork(s: State) {
    s.queuedPow.None? || s.head.None? || s.queuedPow.value.rangeEnd != s.head.value.hash
  }

  /** Hands out the cached hashes as a commitment to mine on. */
  function WorkCreated(s: State): State {
    if WorkOffer(s).Err? then s
    else s.(work := s.work[s.cache := AuxInfo(
              s.latestPow.value.hash, s.cache[0], s.cache[|s.cache| - 1])])
  }

  /** The commitment handed out, or why there is none. */
  function WorkOffer(s: State): Result<seq<Hash>, Error> {
    if s.latestPow.None? || s.latestPow.value.hash !in s.blocks then Err(Panicked)
    else if s.head.None? then Err(HeadMissing)
    else if !HasWork(s) then Err(NoWorkToDo)
    else if s.cache == [] then Err(HashRetrievalError)
    else Ok(s.cache)
  }

  /** The header the node builds from a solved proof. */
  function SolvedHeader(info: AuxInfo, proof: WorkProof): AuxPowHeader {
    AuxPowHeader(info.startHash, info.endHash, Number(info.lastHash) + 1, Some(proof))
  }

  /** A solved header is queued unless its range is queued already or `check_pow` refuses it. */
  predicate Queues(s: State, p: AuxPowHeader, workOk: bool) {
    && !(s.queuedPow.Some? && s.queuedPow.value.rangeStart == p.rangeStart
         && s.queuedPow.value.rangeEnd == p.rangeEnd)
    && CheckPow(s, p, workOk).Ok?
  }

  function QueuedAfter(s: State, p: AuxPowHeader, workOk: bool): Option<AuxPowHeader> {
    if Queues(s, p, workOk) then Some(p) else s.queuedPow
  }

  /** A miner returns a proof for `commitment`. */
  function WorkSubmitted(s: State, commitment: seq<Hash>, proof: WorkProof, workOk: bool): State {
    if commitment !in s.work then s
    else
      var info := s.work[commitment];
      var s' := s.(work := s.work - {commitment});
      if info.lastHash !in s.blocks || !workOk || proof.committed != commitment then s'
      else s'.(queuedPow := QueuedAfter(s, SolvedHeader(info, proof), workOk))
  }

  function SubmitResult(s: State, commitment: seq<Hash>, proof: WorkProof, workOk: bool): Result<(), Error> {
    if commitment !in s.work then Err(UnknownAuxBlock)
    else if s.work[commitment].lastHash !in s.blocks then Err(Panicked)
    else if !workOk || proof.committed != commitment then Err(InvalidPow)
    else Ok(())
  }
}

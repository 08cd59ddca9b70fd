/** Merged-mining proofs: Merkle branches, the chain's slot in the merged-mining tree, the header in the
    coinbase, and the check that ties them together (Merged mining specification, en.bitcoin.it). */
module AuxPow {
  import opened Util

  type Byte = b: nat | b < 256
  type Bytes = seq<Byte>

  /** A hash is a string of bytes. `node` is double SHA-256 of two hashes, `txid` the id of a coinbase with
      the given output scripts. */
  datatype Hashing = Hashing(node: (Bytes, Bytes) -> Bytes, txid: seq<Bytes> -> Bytes)

  ghost predicate Injective(hash: Hashing) {
    forall a, b, c, d :: hash.node(a, b) == hash.node(c, d) ==> a == c && b == d
  }

  datatype MerkleBranch = MerkleBranch(hashes: seq<Bytes>, sideMask: nat)

  datatype Error =
    | MissingHeader | MissingMerkleRoot | CoinbaseInvalidOutputs | ParentHasChainId | MerkleBranchTooLong
    | MerkleRootIncorrect | InvalidMerkleSize | WrongIndex | NoNonceFound

  // ---- Merkle branches

  function Pow2(n: nat): (p: nat)
    ensures p >= 1
  {
    if n == 0 then 1 else 2 * Pow2(n - 1)
  }

  function Join(hash: Hashing, h: Bytes, sibling: Bytes, right: bool): Bytes {
    if right then hash.node(sibling, h) else hash.node(h, sibling)
  }

  /** Climbs the branch; each mask bit says whether the current hash is a right child. */
  function Fold(hash: Hashing, h: Bytes, siblings: seq<Bytes>, mask: nat): Bytes
    decreases |siblings|
  {
    if siblings == [] then h
    else Fold(hash, Join(hash, h, siblings[0], mask % 2 == 1), siblings[1..], mask / 2)
  }

  function MaskBit(mask: nat, n: nat): bool {
    mask / Pow2(n) % 2 == 1
  }

  /** `check_merkle_branch` */
  method CheckMerkleBranch(hash: Hashing, branch: MerkleBranch, leaf: Bytes) returns (h: Bytes)
    ensures h == Fold(hash, leaf, branch.hashes, branch.sideMask)
  {
    h := leaf;
    for n := 0 to |branch.hashes|
      invariant Fold(hash, leaf, branch.hashes, branch.sideMask)
             == Fold(hash, h, branch.hashes[n..], branch.sideMask / Pow2(n))
    {
      DivideTwice(branch.sideMask, Pow2(n), 2);
      assert branch.hashes[n..][1..] == branch.hashes[n + 1..];
      h := Join(hash, h, branch.hashes[n], MaskBit(branch.sideMask, n));
    }
  }

  // ---- Arithmetic

  lemma MulStrict(d: nat, a: nat, b: nat)
    requires a < b
    ensures d * a + d <= d * b
  {
    assert d * (a + 1) == d * a + d;
    assert d * (a + 1) <= d * b;
  }

  lemma QuotientIs(a: nat, d: nat, q: nat, r: nat)
    requires d > 0 && a == d * q + r && r < d
    ensures a / d == q && a % d == r
  {
    var q' := a / d;
    assert a == d * q' + a % d;
    if q' > q { MulStrict(d, q, q'); }
    if q' < q { MulStrict(d, q', q); }
  }

  lemma Regroup(b: nat, c: nat, s: nat, t: nat)
    ensures b * (c * s + t) == (c * b) * s + b * t
  {
    assert b * (c * s + t) == b * (c * s) + b * t;
    assert b * (c * s) == (c * b) * s;
  }

  lemma InnerRemainder(b: nat, c: nat, t: nat, r: nat)
    requires t < c && r < b
    ensures b * t + r < c * b
  {
    assert b * (t + 1) <= b * c by { if t + 1 < c { MulStrict(b, t + 1, c); } }
    assert b * (t + 1) == b * t + b;
  }

  lemma DivideTwice(a: nat, b: nat, c: nat)
    requires b > 0 && c > 0
    ensures c * b > 0 && a / b / c == a / (c * b)
  {
    var q, r := a / b, a % b;
    var s, t := q / c, q % c;
    assert a == b * q + r;
    assert q == c * s + t;
    Regroup(b, c, s, t);
    InnerRemainder(b, c, t, r);
    QuotientIs(a, c * b, s, b * t + r);
  }

  lemma AddMultiple(x: nat, m: nat, k: nat)
    requires m > 0
    ensures (x + m * k) % m == x % m && (x + m * k) / m == x / m + k
  {
    assert x == m * (x / m) + x % m;
    assert x + m * k == m * (x / m + k) + x % m;
    QuotientIs(x + m * k, m, x / m + k, x % m);
  }

  // ---- Full trees

  datatype Tree = Leaf(hash: Bytes) | Node(left: Tree, right: Tree)

  predicate Full(t: Tree, height: nat) {
    match t
    case Leaf(_) => height == 0
    case Node(l, r) => height > 0 && Full(l, height - 1) && Full(r, height - 1)
  }

  function RootOf(hash: Hashing, t: Tree): Bytes {
    match t
    case Leaf(h) => h
    case Node(l, r) => hash.node(RootOf(hash, l), RootOf(hash, r))
  }

  function LeafAt(t: Tree, height: nat, index: nat): Bytes
    requires Full(t, height)
  {
    match t
    case Leaf(h) => h
    case Node(l, r) => LeafAt(if MaskBit(index, height - 1) then r else l, height - 1, index)
  }

  /** The siblings on the way from a leaf up to the root. */
  function Siblings(hash: Hashing, t: Tree, height: nat, index: nat): (ss: seq<Bytes>)
    requires Full(t, height)
    ensures |ss| == height
  {
    match t
    case Leaf(_) => []
    case Node(l, r) =>
      if MaskBit(index, height - 1) then Siblings(hash, r, height - 1, index) + [RootOf(hash, l)]
      else Siblings(hash, l, height - 1, index) + [RootOf(hash, r)]
  }

  lemma {:induction false} FoldAppend(hash: Hashing, h: Bytes, siblings: seq<Bytes>, last: Bytes, mask: nat)
    ensures Fold(hash, h, siblings + [last], mask)
         == Join(hash, Fold(hash, h, siblings, mask), last, MaskBit(mask, |siblings|))
    decreases |siblings|
  {
    var all := siblings + [last];
    if siblings == [] {
      assert all[1..] == [] && all[0] == last;
      var j := Join(hash, h, last, mask % 2 == 1);
      assert Fold(hash, j, [], mask / 2) == j;
      assert mask / Pow2(0) == mask;
    } else {
      assert all[1..] == siblings[1..] + [last];
      FoldAppend(hash, Join(hash, h, siblings[0], mask % 2 == 1), siblings[1..], last, mask / 2);
      DivideTwice(mask, 2, Pow2(|siblings| - 1));
      assert Pow2(|siblings| - 1) * 2 == Pow2(|siblings|);
    }
  }

  lemma {:induction false} FoldFromLeaf(hash: Hashing, t: Tree, height: nat, index: nat)
    requires Full(t, height)
    ensures Fold(hash, LeafAt(t, height, index), Siblings(hash, t, height, index), index) == RootOf(hash, t)
  {
    match t
    case Leaf(_) =>
    case Node(l, r) =>
      var (child, other) := if MaskBit(index, height - 1) then (r, l) else (l, r);
      FoldFromLeaf(hash, child, height - 1, index);
      FoldAppend(hash, LeafAt(child, height - 1, index), Siblings(hash, child, height - 1, index),
                 RootOf(hash, other), index);
  }

  /** The leaves from left to right. */
  function Leaves(t: Tree): seq<Bytes> {
    match t
    case Leaf(h) => [h]
    case Node(l, r) => Leaves(l) + Leaves(r)
  }

  lemma HighBit(x: nat, m: nat)
    requires m > 0
    ensures x % (2 * m) == (if x / m % 2 == 1 then m else 0) + x % m
  {
    var q, r := x / m, x % m;
    var b := q % 2;
    assert q == 2 * (q / 2) + b && x == m * q + r;
    assert x == (2 * m) * (q / 2) + (m * b + r) by { assert m * (2 * (q / 2) + b) == (2 * m) * (q / 2) + m * b; }
    assert m * b + r < 2 * m by { MulStrict(m, b, 2); }
    QuotientIs(x, 2 * m, q / 2, m * b + r);
  }

  /** Following the bits of the index from the top leads to the leaf at that position. */
  lemma {:induction false} LeafAtIsLeaf(t: Tree, height: nat, index: nat)
    requires Full(t, height)
    ensures |Leaves(t)| == Pow2(height)
    ensures LeafAt(t, height, index) == Leaves(t)[index % Pow2(height)]
  {
    match t
    case Leaf(_) =>
    case Node(l, r) =>
      LeafAtIsLeaf(l, height - 1, index);
      LeafAtIsLeaf(r, height - 1, index);
      HighBit(index, Pow2(height - 1));
  }

  /** Climbing from any leaf of a full tree along its siblings, with its position as side mask, gives the
      root. */
  lemma FoldReachesRoot(hash: Hashing, t: Tree, height: nat, index: nat)
    requires Full(t, height) && index < Pow2(height)
    ensures |Leaves(t)| == Pow2(height)
    ensures Fold(hash, Leaves(t)[index], Siblings(hash, t, height, index), index) == RootOf(hash, t)
  {
    LeafAtIsLeaf(t, height, index);
    QuotientIs(index, Pow2(height), 0, index);
    FoldFromLeaf(hash, t, height, index);
  }

  /** With an injective hash, the root, the mask and the depth determine the leaf and the whole branch. */
  lemma {:induction false} FoldIsBinding(
      hash: Hashing, g: Bytes, h: Bytes, bs: seq<Bytes>, cs: seq<Bytes>, mask: nat)
    requires Injective(hash) && |bs| == |cs| && Fold(hash, g, bs, mask) == Fold(hash, h, cs, mask)
    ensures g == h && bs == cs
    decreases |bs|
  {
    if bs != [] {
      var right := mask % 2 == 1;
      FoldIsBinding(hash, Join(hash, g, bs[0], right), Join(hash, h, cs[0], right), bs[1..], cs[1..], mask / 2);
      assert bs == [bs[0]] + bs[1..] && cs == [cs[0]] + cs[1..];
    }
  }

  // ---- The chain's slot

  const FACTOR: nat := 1103515245
  const OFFSET: nat := 12345
  const U32: nat := 0x1_0000_0000
  const U64: nat := 0x1_0000_0000_0000_0000

  function Scramble(x: nat): nat {
    x * FACTOR + OFFSET
  }

  /** `get_expected_index`: the pseudo-random slot of a chain in a tree of the given height. */
  function ExpectedIndex(nonce: nat, chainId: nat, height: nat): nat {
    var m := Pow2(height);
    Scramble(Scramble(nonce) % m + chainId) % m
  }

  /** The same slot as the specification computes it, in 32-bit arithmetic that wraps around. */
  function WrappingIndex(nonce: nat, chainId: nat, height: nat): nat {
    var a := (nonce * 1103515245 + 12345) % 0x1_0000_0000;
    var b := (a + chainId) % 0x1_0000_0000;
    (b * 1103515245 + 12345) % 0x1_0000_0000 % Pow2(height)
  }

  lemma {:induction false} Pow2Divides(h: nat, n: nat)
    requires h <= n
    ensures Pow2(n) == Pow2(h) * Pow2(n - h)
  {
    if h < n { Pow2Divides(h, n - 1); }
  }

  lemma Pow2Of32()
    ensures Pow2(32) == U32
  {
    assert Pow2(8) == 256 by { assert Pow2(4) == 16; }
    assert Pow2(16) == 0x1_0000 by { Pow2Divides(8, 16); }
    Pow2Divides(16, 32);
  }

  lemma ScrambleMod(x: nat, y: nat, m: nat, k: nat)
    requires m > 0 && x == y + m * k
    ensures Scramble(x) % m == Scramble(y) % m
  {
    assert Scramble(x) == Scramble(y) + m * (k * FACTOR);
    AddMultiple(Scramble(y), m, k * FACTOR);
  }

  lemma ModOfMod(x: nat, m: nat, k: nat)
    requires m > 0 && k > 0
    ensures m * k > 0 && x % (m * k) % m == x % m
  {
    var w := m * k;
    assert x == w * (x / w) + x % w;
    assert w * (x / w) == m * (k * (x / w));
    AddMultiple(x % w, m, k * (x / w));
  }

  /** Reducing `x` modulo a multiple of `m` before adding `c` does not change the result modulo `m`. */
  lemma ReduceEarly(x: nat, c: nat, m: nat, k: nat)
    requires m > 0 && k > 0
    ensures m * k > 0 && Scramble(x % (m * k) + c) % m == Scramble(x + c) % m
  {
    var w := m * k;
    assert x == x % w + w * (x / w);
    assert w * (x / w) == m * (k * (x / w));
    ScrambleMod(x + c, x % w + c, m, k * (x / w));
  }

  lemma SlotIsWrapping(x: nat, c: nat, m: nat, k: nat)
    requires m > 0 && k > 0
    ensures m * k > 0
    ensures Scramble(x % m + c) % m == Scramble((x % (m * k) + c) % (m * k)) % (m * k) % m
  {
    var w := m * k;
    assert m * 1 == m;
    ReduceEarly(x, c, m, 1);
    ReduceEarly(x, c, m, k);
    ReduceEarly(x % w + c, 0, m, k);
    ModOfMod(Scramble((x % w + c) % w), m, k);
  }

  /** Reducing early, late, or to 32 bits in between gives the same slot. */
  lemma IndexIsWrapping(nonce: nat, chainId: nat, height: nat)
    requires height <= 32
    ensures ExpectedIndex(nonce, chainId, height) == WrappingIndex(nonce, chainId, height)
  {
    Pow2Of32();
    Pow2Divides(height, 32);
    SlotIsWrapping(Scramble(nonce), chainId, Pow2(height), Pow2(32 - height));
  }

  lemma SmallScramble(x: nat)
    requires x < U32 + 0x4000_0000
    ensures Scramble(x) < U64
  {}

  lemma Remainder(x: nat, m: nat)
    requires m > 0
    ensures x % m < m
  {}

  /** For 32-bit inputs and the heights the check admits, no intermediate value overflows 64 bits and the
      slot lies inside the tree. */
  lemma IndexFits(nonce: nat, chainId: nat, height: nat)
    requires nonce < U32 && chainId < U32 && height <= 30
    ensures Scramble(nonce) < U64
    ensures Scramble(Scramble(nonce) % Pow2(height) + chainId) < U64
    ensures ExpectedIndex(nonce, chainId, height) < Pow2(height)
  {
    var m := Pow2(height);
    SmallPow2(height);
    Remainder(Scramble(nonce), m);
    SmallScramble(nonce);
    SmallScramble(Scramble(nonce) % m + chainId);
    Remainder(Scramble(Scramble(nonce) % m + chainId), m);
  }

  lemma SmallPow2(h: nat)
    requires h <= 30
    ensures Pow2(h) <= 0x4000_0000
  {
    Pow2Divides(h, 30);
    Pow2Of30();
    MulAtLeast(Pow2(h), Pow2(30 - h));
  }

  lemma MulAtLeast(a: nat, b: nat)
    requires b >= 1
    ensures a <= a * b
  {}

  lemma Pow2Of30()
    ensures Pow2(30) == 0x4000_0000
  {
    assert Pow2(10) == 1024 by { assert Pow2(5) == 32; }
    Pow2Divides(10, 20);
    Pow2Divides(20, 30);
  }

  // ---- The header in the coinbase

  const MAGIC: Bytes := [0xfa, 0xbe, 0x6d, 0x6d]
  const HEADER_LENGTH: nat := 44

  datatype MergedMiningHeader = MergedMiningHeader(magic: Bytes, blockHash: Bytes, merkleSize: nat, merkleNonce: nat)

  function LittleEndian(n: nat): (bs: Bytes)
    requires n < U32
    ensures |bs| == 4
  {
    [n % 256, n / 256 % 256, n / 0x1_0000 % 256, n / 0x100_0000]
  }

  function FromLittleEndian(bs: Bytes): nat
    requires |bs| == 4
  {
    var b0: nat, b1: nat, b2: nat, b3: nat := bs[0], bs[1], bs[2], bs[3];
    b0 + 256 * b1 + 0x1_0000 * b2 + 0x100_0000 * b3
  }

  lemma LittleEndianRoundTrip(n: nat)
    requires n < U32
    ensures FromLittleEndian(LittleEndian(n)) == n
    ensures var bs := LittleEndian(n);
            n == bs[0] as int + 256 * bs[1] as int + 0x1_0000 * bs[2] as int + 0x100_0000 * bs[3] as int
  {
    assert n / 0x1_0000 == n / 256 / 256 && n / 0x100_0000 == n / 256 / 256 / 256;
  }

  lemma LittleEndianUnique(bs: Bytes)
    requires |bs| == 4
    ensures FromLittleEndian(bs) < U32 && LittleEndian(FromLittleEndian(bs)) == bs
  {
    var n := FromLittleEndian(bs);
    var b1: nat, b2: nat, b3: nat := bs[1], bs[2], bs[3];
    assert n / 256 == b1 + 256 * b2 + 0x1_0000 * b3;
    assert n / 0x1_0000 == n / 256 / 256 == b2 + 256 * b3;
    assert n / 0x100_0000 == n / 256 / 256 / 256 == b3;
  }

  predicate ProperHeader(h: MergedMiningHeader) {
    h.magic == MAGIC && |h.blockHash| == 32 && h.merkleSize < U32 && h.merkleNonce < U32
  }

  function ToScript(h: MergedMiningHeader): Bytes
    requires h.merkleSize < U32 && h.merkleNonce < U32
  {
    h.magic + h.blockHash + LittleEndian(h.merkleSize) + LittleEndian(h.merkleNonce)
  }

  /** The script holds the hash in reverse byte order. */
  function FromScript(script: Bytes, root: Bytes): Result<MergedMiningHeader, Error> {
    if |script| != HEADER_LENGTH || script[..4] != MAGIC then Err(MissingHeader)
    else
      var hash := Reverse(script[4..36]);
      if hash != root then Err(MissingMerkleRoot)
      else Ok(MergedMiningHeader(MAGIC, hash, FromLittleEndian(script[36..40]), FromLittleEndian(script[40..44])))
  }

  /** The layout of a header: four magic bytes, the hash, the size and the nonce, the numbers with their lowest
      byte first. */
  lemma HeaderLayout(h: MergedMiningHeader)
    requires ProperHeader(h)
    ensures var s := ToScript(h);
            && |s| == 44 && s[..4] == [0xfa, 0xbe, 0x6d, 0x6d] && s[4..36] == h.blockHash
            && h.merkleSize ==
               s[36] as int + 256 * s[37] as int + 0x1_0000 * s[38] as int + 0x100_0000 * s[39] as int
            && h.merkleNonce ==
               s[40] as int + 256 * s[41] as int + 0x1_0000 * s[42] as int + 0x100_0000 * s[43] as int
  {
    LittleEndianRoundTrip(h.merkleSize);
    LittleEndianRoundTrip(h.merkleNonce);
  }

  /** Writing a header and reading it back gives the header with its hash reversed, and only for that
      hash. */
  lemma HeaderRoundTrip(h: MergedMiningHeader, root: Bytes)
    requires ProperHeader(h)
    ensures FromScript(ToScript(h), root) ==
            if root == Reverse(h.blockHash) then Ok(h.(blockHash := root)) else Err(MissingMerkleRoot)
  {
    var s := ToScript(h);
    assert s[..4] == h.magic && s[4..36] == h.blockHash;
    assert s[36..40] == LittleEndian(h.merkleSize) && s[40..44] == LittleEndian(h.merkleNonce);
    LittleEndianRoundTrip(h.merkleSize);
    LittleEndianRoundTrip(h.merkleNonce);
  }

  lemma Pieces(script: Bytes)
    requires |script| == HEADER_LENGTH
    ensures script == script[..4] + script[4..36] + script[36..40] + script[40..44]
  {}

  lemma WrittenBack(magic: Bytes, hash: Bytes, size: Bytes, nonce: Bytes)
    requires |size| == 4 && |nonce| == 4
    ensures var h := MergedMiningHeader(magic, hash, FromLittleEndian(size), FromLittleEndian(nonce));
            h.merkleSize < U32 && h.merkleNonce < U32 && ToScript(h) == magic + hash + size + nonce
  {
    LittleEndianUnique(size);
    LittleEndianUnique(nonce);
  }

  /** A script that reads as a header is the one that header writes. */
  lemma HeaderIsUnique(script: Bytes, root: Bytes)
    requires FromScript(script, root).Ok?
    ensures var h := FromScript(script, root).value;
            ProperHeader(h) && h.blockHash == root && ToScript(h.(blockHash := Reverse(root))) == script
  {
    Pieces(script);
    ReverseTwice(script[4..36]);
    WrittenBack(MAGIC, script[4..36], script[36..40], script[40..44]);
  }

  /** The header is in the third output or else in the fourth. */
  function ParseCoinbase(outputs: seq<Bytes>, root: Bytes): Result<MergedMiningHeader, Error> {
    if |outputs| <= 2 then Err(CoinbaseInvalidOutputs)
    else
      var third := FromScript(outputs[2], root);
      if third.Ok? then third
      else if |outputs| <= 3 then Err(CoinbaseInvalidOutputs)
      else FromScript(outputs[3], root)
  }

  // ---- The check

  datatype AuxPow = AuxPow(
    coinbaseOutputs: seq<Bytes>, coinbaseBranch: MerkleBranch, blockchainBranch: MerkleBranch,
    parentVersion: nat, parentMerkleRoot: Bytes, parentNonce: nat)

  function ParentChainId(a: AuxPow): nat {
    a.parentVersion / 0x1_0000
  }

  function Check(hash: Hashing, a: AuxPow, auxHash: Bytes, chainId: nat): Result<(), Error> {
    var branch := a.blockchainBranch;
    var root := Reverse(Fold(hash, auxHash, branch.hashes, branch.sideMask));
    var height := |branch.hashes|;
    if ParentChainId(a) == chainId then Err(ParentHasChainId)
    else if height > 30 then Err(MerkleBranchTooLong)
    else if Fold(hash, hash.txid(a.coinbaseOutputs), a.coinbaseBranch.hashes, a.coinbaseBranch.sideMask)
            != a.parentMerkleRoot then Err(MerkleRootIncorrect)
    else
      var header := ParseCoinbase(a.coinbaseOutputs, root);
      if header.Err? then Err(header.error)
      else if header.value.blockHash != root then Err(MissingMerkleRoot)
      else if header.value.merkleSize != Pow2(height) then Err(InvalidMerkleSize)
      else if branch.sideMask != ExpectedIndex(header.value.merkleNonce, chainId, height) then Err(WrongIndex)
      else Ok(())
  }

  /** The root of the merged-mining tree for a block, as the header spells it. */
  function RootFor(hash: Hashing, a: AuxPow, auxHash: Bytes): Bytes {
    Reverse(Fold(hash, auxHash, a.blockchainBranch.hashes, a.blockchainBranch.sideMask))
  }

  /** The checks that do not depend on the block. */
  predicate Anchored(hash: Hashing, a: AuxPow, chainId: nat) {
    && ParentChainId(a) != chainId && |a.blockchainBranch.hashes| <= 30
    && Fold(hash, hash.txid(a.coinbaseOutputs), a.coinbaseBranch.hashes, a.coinbaseBranch.sideMask)
       == a.parentMerkleRoot
  }

  /** Output `i` is a header for `root`, with the size and the slot that the branch has. */
  predicate Names(a: AuxPow, i: nat, root: Bytes, chainId: nat) {
    i < |a.coinbaseOutputs| &&
    var header, height := FromScript(a.coinbaseOutputs[i], root), |a.blockchainBranch.hashes|;
    && header.Ok? && header.value.merkleSize == Pow2(height)
    && a.blockchainBranch.sideMask == ExpectedIndex(header.value.merkleNonce, chainId, height)
  }

  /** A proof passes for a block exactly when it is anchored and the third output names the block's root,
      or the fourth does and the third is no header for it. */
  lemma CheckIff(hash: Hashing, a: AuxPow, h: Bytes, chainId: nat)
    ensures var root, outputs := RootFor(hash, a, h), a.coinbaseOutputs;
            Check(hash, a, h, chainId).Ok? <==>
            && Anchored(hash, a, chainId)
            && (Names(a, 2, root, chainId)
                || (Names(a, 3, root, chainId) && FromScript(outputs[2], root).Err?))
  {}

  lemma OneRootPerScript(script: Bytes, r: Bytes, s: Bytes)
    requires FromScript(script, r).Ok? && FromScript(script, s).Ok?
    ensures r == s == Reverse(script[4..36])
  {}

  lemma RootsDiffer(hash: Hashing, a: AuxPow, g: Bytes, h: Bytes)
    requires Injective(hash) && RootFor(hash, a, g) == RootFor(hash, a, h)
    ensures g == h
  {
    var b := a.blockchainBranch;
    ReverseTwice(Fold(hash, g, b.hashes, b.sideMask));
    ReverseTwice(Fold(hash, h, b.hashes, b.sideMask));
    FoldIsBinding(hash, g, h, b.hashes, b.hashes, b.sideMask);
  }

  /** A proof passes for two different blocks exactly when it is anchored and its third and fourth outputs
      name the roots of the two. */
  lemma PassesForTwoIff(hash: Hashing, a: AuxPow, g: Bytes, h: Bytes, chainId: nat)
    requires Injective(hash) && g != h
    ensures var x, y := RootFor(hash, a, g), RootFor(hash, a, h);
            Check(hash, a, g, chainId).Ok? && Check(hash, a, h, chainId).Ok? <==>
            && Anchored(hash, a, chainId)
            && ((Names(a, 2, x, chainId) && Names(a, 3, y, chainId))
                || (Names(a, 2, y, chainId) && Names(a, 3, x, chainId)))
  {
    var x, y := RootFor(hash, a, g), RootFor(hash, a, h);
    if x == y { RootsDiffer(hash, a, g, h); }
    CheckIff(hash, a, g, chainId);
    CheckIff(hash, a, h, chainId);
    var outputs := a.coinbaseOutputs;
    if |outputs| > 2 && FromScript(outputs[2], x).Ok? && FromScript(outputs[2], y).Ok? {
      OneRootPerScript(outputs[2], x, y);
    }
    if |outputs| > 3 && FromScript(outputs[3], x).Ok? && FromScript(outputs[3], y).Ok? {
      OneRootPerScript(outputs[3], x, y);
    }
  }

  /** Output `i` is a header, for whatever root, with the size and the slot that the branch has. */
  predicate NamesSome(a: AuxPow, i: nat, chainId: nat) {
    && i < |a.coinbaseOutputs| && |a.coinbaseOutputs[i]| == HEADER_LENGTH
    && Names(a, i, Reverse(a.coinbaseOutputs[i][4..36]), chainId)
  }

  /** One proof commits to one block, unless its third and fourth outputs both name a root. */
  lemma ProofBindsOneBlock(hash: Hashing, a: AuxPow, g: Bytes, h: Bytes, chainId: nat)
    requires Injective(hash) && Check(hash, a, g, chainId).Ok? && Check(hash, a, h, chainId).Ok?
    requires !(NamesSome(a, 2, chainId) && NamesSome(a, 3, chainId))
    ensures g == h
  {
    if g != h { PassesForTwoIff(hash, a, g, h, chainId); }
  }

  /** A coinbase with a header for each of two blocks, and empty branches. */
  function DoubleProof(hash: Hashing, g: Bytes, h: Bytes, nonce: nat): AuxPow {
    var outputs := [[], [], ToScript(MergedMiningHeader(MAGIC, g, 1, 0)), ToScript(MergedMiningHeader(MAGIC, h, 1, 0))];
    AuxPow(outputs, MerkleBranch([], 0), MerkleBranch([], 0), PARENT_CHAIN_ID * 0x1_0000, hash.txid(outputs), nonce)
  }

  lemma NamesOwnHash(a: AuxPow, i: nat, g: Bytes, chainId: nat)
    requires |g| == 32 && i < |a.coinbaseOutputs| && a.blockchainBranch == MerkleBranch([], 0)
    requires a.coinbaseOutputs[i] == ToScript(MergedMiningHeader(MAGIC, g, 1, 0))
    ensures Names(a, i, Reverse(g), chainId)
    ensures forall root :: root != Reverse(g) ==> FromScript(a.coinbaseOutputs[i], root).Err?
  {
    var header := MergedMiningHeader(MAGIC, g, 1, 0);
    HeaderRoundTrip(header, Reverse(g));
    forall root | root != Reverse(g)
      ensures FromScript(a.coinbaseOutputs[i], root).Err?
    {
      HeaderRoundTrip(header, root);
    }
    assert ExpectedIndex(0, chainId, 0) == 0;
  }

  /** Such a proof passes for both blocks, under every chain id but the parent's own. */
  lemma DoubleProofPasses(hash: Hashing, g: Bytes, h: Bytes, nonce: nat, chainId: nat)
    requires |g| == 32 && |h| == 32 && chainId != PARENT_CHAIN_ID
    ensures var a := DoubleProof(hash, g, h, nonce);
            Check(hash, a, g, chainId).Ok? && Check(hash, a, h, chainId).Ok?
  {
    var a := DoubleProof(hash, g, h, nonce);
    NamesOwnHash(a, 2, g, chainId);
    NamesOwnHash(a, 3, h, chainId);
    CheckIff(hash, a, g, chainId);
    CheckIff(hash, a, h, chainId);
    ReverseTwice(g);
    ReverseTwice(h);
  }

  // ---- Mining

  const PARENT_CHAIN_ID: nat := 1

  /** The proof the built-in miner builds: empty branches, and the block's hash in the third output. */
  function Template(hash: Hashing, sidechainHash: Bytes, nonce: nat): AuxPow {
    var outputs := [[], [], ToScript(MergedMiningHeader(MAGIC, sidechainHash, 1, 0))];
    AuxPow(outputs, MerkleBranch([], 0), MerkleBranch([], 0), PARENT_CHAIN_ID * 0x1_0000, hash.txid(outputs), nonce)
  }

  /** A mined proof passes the check for every chain id but the parent's own. */
  lemma MinedCheck(hash: Hashing, sidechainHash: Bytes, nonce: nat, chainId: nat)
    requires |sidechainHash| == 32
    ensures Check(hash, Template(hash, sidechainHash, nonce), sidechainHash, chainId) ==
            if chainId == PARENT_CHAIN_ID then Err(ParentHasChainId) else Ok(())
  {}

  /** Tries nonces until `meets` says the parent header reaches the target. The errors are panics of the
      source: the sanity check fails only for the parent's own chain id. */
  method Mine(hash: Hashing, sidechainHash: Bytes, meets: nat -> bool, chainId: nat)
      returns (r: Result<AuxPow, Error>)
    requires |sidechainHash| == 32
    ensures r.Ok? ==>
              && r.value == Template(hash, sidechainHash, r.value.parentNonce) && meets(r.value.parentNonce)
              && Check(hash, r.value, sidechainHash, chainId).Ok?
              && forall n :: 0 <= n < r.value.parentNonce ==> !meets(n)
    ensures r.Err? ==>
              if chainId == PARENT_CHAIN_ID && exists n :: 0 <= n < U32 - 1 && meets(n)
              then r.error == ParentHasChainId
              else r.error == NoNonceFound && forall n :: 0 <= n < U32 - 1 ==> !meets(n)
  {
    var aux := Template(hash, sidechainHash, 0);
    for nonce := 0 to U32 - 1
      invariant forall n :: 0 <= n < nonce ==> !meets(n)
      invariant aux == Template(hash, sidechainHash, aux.parentNonce)
    {
      aux := aux.(parentNonce := nonce);
      if meets(nonce) {
        MinedCheck(hash, sidechainHash, nonce, chainId);
        var checked := Check(hash, aux, sidechainHash, chainId);
        return if checked.Ok? then Ok(aux) else Err(checked.error);
      }
    }
    return Err(NoNonceFound);
  }
}

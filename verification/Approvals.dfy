/** Approvals of a block and their aggregation. A signature is the term of its signer and message, and an
    aggregate signature the multiset of what was added to it: a free abelian group. */
module Approvals {
  import opened Util

  type PublicKey = nat

  /** A block's canonical root. It determines the block, hence its height and slot. */
  datatype BlockRoot = BlockRoot(height: nat, slot: nat, id: nat)

  datatype Signature = Signature(signer: PublicKey, message: BlockRoot)

  datatype Approval = Approval(signature: Signature, authorityIndex: nat)

  datatype Error = UnknownAuthority | InvalidSignature

  const MAX_VALIDATORS: nat := 15

  datatype Aggregate = Aggregate(bits: seq<bool>, signature: multiset<Signature>)

  function NoBits(n: nat): (bits: seq<bool>)
    ensures |bits| == n && forall i :: 0 <= i < n ==> !bits[i]
  {
    if n == 0 then [] else NoBits(n - 1) + [false]
  }

  function Empty(): Aggregate {
    Aggregate(NoBits(MAX_VALIDATORS), multiset{})
  }

  /** `IndividualApproval::check` */
  function Check(a: Approval, data: BlockRoot, authorities: seq<PublicKey>): Result<Approval, Error> {
    if a.authorityIndex >= |authorities| then Err(UnknownAuthority)
    else if a.signature == Signature(authorities[a.authorityIndex], data) then Ok(a)
    else Err(InvalidSignature)
  }

  function Add(agg: Aggregate, a: Approval): Result<Aggregate, Error> {
    if a.authorityIndex >= |agg.bits| then Err(UnknownAuthority)
    else if agg.bits[a.authorityIndex] then Ok(agg)
    else Ok(Aggregate(agg.bits[a.authorityIndex := true], agg.signature + multiset{a.signature}))
  }

  /** The signatures an aggregate with these bits has to consist of; bits without an authority are skipped. */
  function SignaturesFor(bits: seq<bool>, authorities: seq<PublicKey>, data: BlockRoot): multiset<Signature> {
    if bits == [] || authorities == [] then multiset{}
    else (if bits[0] then multiset{Signature(authorities[0], data)} else multiset{})
         + SignaturesFor(bits[1..], authorities[1..], data)
  }

  /** The aggregate signature is the one its bits stand for. */
  predicate Consistent(agg: Aggregate, authorities: seq<PublicKey>, data: BlockRoot) {
    agg.signature == SignaturesFor(agg.bits, authorities, data)
  }

  /** `AggregateApproval::verify`: an aggregate of no keys never verifies. */
  predicate Verify(agg: Aggregate, authorities: seq<PublicKey>, data: BlockRoot) {
    Consistent(agg, authorities, data) && Signers(agg.bits, |authorities|) != {}
  }

  /** The authorities whose bit is set. */
  function Signers(bits: seq<bool>, n: nat): set<nat> {
    set i | 0 <= i < |bits| && i < n && bits[i]
  }

  function CountSet(bits: seq<bool>): nat {
    if bits == [] then 0 else CountSet(bits[..|bits| - 1]) + if bits[|bits| - 1] then 1 else 0
  }

  function NumApprovals(agg: Aggregate): nat {
    CountSet(agg.bits)
  }

  function RequiredSignatures(n: nat): nat {
    (n * 2 + 2) / 3
  }

  predicate MajorityApproved(agg: Aggregate, authorities: seq<PublicKey>, data: BlockRoot) {
    NumApprovals(agg) >= RequiredSignatures(|authorities|) && Verify(agg, authorities, data)
  }

  // ---- Aggregation

  lemma {:induction false} SettingOneBit(bits: seq<bool>, authorities: seq<PublicKey>, data: BlockRoot, i: nat)
    requires i < |bits| && i < |authorities| && !bits[i]
    ensures SignaturesFor(bits[i := true], authorities, data)
         == SignaturesFor(bits, authorities, data) + multiset{Signature(authorities[i], data)}
    decreases i
  {
    if i == 0 {
      assert bits[0 := true][1..] == bits[1..];
    } else {
      assert bits[i := true][1..] == bits[1..][i - 1 := true];
      SettingOneBit(bits[1..], authorities[1..], data, i - 1);
    }
  }

  /** Adding a checked approval keeps the aggregate verifying over the same root. */
  lemma AddKeepsConsistent(agg: Aggregate, a: Approval, authorities: seq<PublicKey>, data: BlockRoot)
    requires Consistent(agg, authorities, data) && Check(a, data, authorities).Ok? && Add(agg, a).Ok?
    ensures Consistent(Add(agg, a).value, authorities, data)
    ensures Verify(Add(agg, a).value, authorities, data)
  {
    var i := a.authorityIndex;
    if !agg.bits[i] { SettingOneBit(agg.bits, authorities, data, i); }
    assert i in Signers(Add(agg, a).value.bits, |authorities|);
  }

  /** All approvals added one after the other, starting from nothing. */
  function AddAll(approvals: seq<Approval>): Result<Aggregate, Error> {
    if approvals == [] then Ok(Empty())
    else
      var before := AddAll(approvals[..|approvals| - 1]);
      if before.Err? then before else Add(before.value, approvals[|approvals| - 1])
  }

  predicate AllChecked(approvals: seq<Approval>, authorities: seq<PublicKey>, data: BlockRoot) {
    forall i :: 0 <= i < |approvals| ==> Check(approvals[i], data, authorities).Ok?
  }

  predicate Mentions(approvals: seq<Approval>, i: nat) {
    exists j :: 0 <= j < |approvals| && approvals[j].authorityIndex == i
  }

  lemma {:induction false} NoBitsNoSignatures(bits: seq<bool>, authorities: seq<PublicKey>, data: BlockRoot)
    requires forall i :: 0 <= i < |bits| ==> !bits[i]
    ensures SignaturesFor(bits, authorities, data) == multiset{}
  {
    if bits != [] && authorities != [] { NoBitsNoSignatures(bits[1..], authorities[1..], data); }
  }

  /** Checked approvals in any order and with any repetition: each signer is counted once, and the
      aggregate verifies. */
  lemma {:induction false} AggregateHoldsEachSignerOnce(
      approvals: seq<Approval>, authorities: seq<PublicKey>, data: BlockRoot)
    requires AllChecked(approvals, authorities, data) && |authorities| <= MAX_VALIDATORS
    ensures var r := AddAll(approvals);
            && r.Ok? && |r.value.bits| == MAX_VALIDATORS
            && (forall i :: 0 <= i < MAX_VALIDATORS ==> (r.value.bits[i] <==> Mentions(approvals, i)))
            && Consistent(r.value, authorities, data)
            && (approvals != [] ==> Verify(r.value, authorities, data))
  {
    if approvals == [] {
      NoBitsNoSignatures(Empty().bits, authorities, data);
    } else {
      var front, a := approvals[..|approvals| - 1], approvals[|approvals| - 1];
      AggregateHoldsEachSignerOnce(front, authorities, data);
      var before := AddAll(front).value;
      assert Check(a, data, authorities).Ok?;
      AddKeepsConsistent(before, a, authorities, data);
      forall i | 0 <= i < MAX_VALIDATORS
        ensures Add(before, a).value.bits[i] <==> Mentions(approvals, i)
      {
        MentionsLast(approvals, i);
      }
    }
  }

  lemma MentionsLast(approvals: seq<Approval>, i: nat)
    requires approvals != []
    ensures Mentions(approvals, i) <==>
            Mentions(approvals[..|approvals| - 1], i) || approvals[|approvals| - 1].authorityIndex == i
  {}

  /** Only the set of signers matters. */
  lemma OrderDoesNotMatter(a: seq<Approval>, b: seq<Approval>, authorities: seq<PublicKey>, data: BlockRoot)
    requires AllChecked(a, authorities, data) && AllChecked(b, authorities, data)
    requires |authorities| <= MAX_VALIDATORS
    requires forall i :: 0 <= i < MAX_VALIDATORS ==> (Mentions(a, i) <==> Mentions(b, i))
    ensures AddAll(a) == AddAll(b)
  {
    AggregateHoldsEachSignerOnce(a, authorities, data);
    AggregateHoldsEachSignerOnce(b, authorities, data);
    assert AddAll(a).value.bits == AddAll(b).value.bits;
  }

  // ---- Quorums

  lemma {:induction false} CountIsSigners(bits: seq<bool>)
    ensures CountSet(bits) == |Signers(bits, |bits|)|
  {
    if bits != [] {
      var n := |bits| - 1;
      CountIsSigners(bits[..n]);
      var before := Signers(bits[..n], n);
      assert Signers(bits, |bits|) == before + if bits[n] then {n} else {};
    }
  }

  /** The bits set beyond a list of `n` authorities. */
  function Beyond(bits: seq<bool>, n: nat): set<nat> {
    set i | n <= i < |bits| && bits[i]
  }

  /** The approval count is the number of authorities that signed plus the number of bits beyond the list. */
  lemma CountIncludesBeyond(agg: Aggregate, n: nat)
    ensures NumApprovals(agg) == |Signers(agg.bits, n)| + |Beyond(agg.bits, n)|
  {
    CountIsSigners(agg.bits);
    assert Signers(agg.bits, |agg.bits|) == Signers(agg.bits, n) + Beyond(agg.bits, n);
  }

  lemma {:induction false} SignedByEachSigner(bits: seq<bool>, authorities: seq<PublicKey>, data: BlockRoot, i: nat)
    requires i in Signers(bits, |authorities|)
    ensures Signature(authorities[i], data) in SignaturesFor(bits, authorities, data)
    decreases i
  {
    if i > 0 { SignedByEachSigner(bits[1..], authorities[1..], data, i - 1); }
  }

  predicate TwoThirds(agg: Aggregate, n: nat) {
    3 * |Signers(agg.bits, n)| >= 2 * n
  }

  /** The count reaches the requirement without the bits beyond the list. */
  predicate EnoughWithoutBeyond(agg: Aggregate, n: nat) {
    |Beyond(agg.bits, n)| + RequiredSignatures(n) <= NumApprovals(agg)
  }

  /** Two thirds of the authorities signed exactly when the count reaches the requirement without the bits
      beyond the list. */
  lemma TwoThirdsIff(agg: Aggregate, n: nat)
    ensures TwoThirds(agg, n) <==> EnoughWithoutBeyond(agg, n)
  {
    CountIncludesBeyond(agg, n);
  }

  /** An approved block carries, over its own root, the signature of every authority whose bit is set. */
  lemma SignersSigned(agg: Aggregate, authorities: seq<PublicKey>, data: BlockRoot)
    requires Consistent(agg, authorities, data)
    ensures forall i :: i in Signers(agg.bits, |authorities|) ==> Signature(authorities[i], data) in agg.signature
  {
    forall i | i in Signers(agg.bits, |authorities|)
      ensures Signature(authorities[i], data) in agg.signature
    {
      SignedByEachSigner(agg.bits, authorities, data, i);
    }
  }

  function SignersOf(approvals: seq<Approval>): set<nat> {
    set i | 0 <= i < |approvals| :: approvals[i].authorityIndex
  }

  /** Checked approvals, in any order and with any repetition, approve a block exactly when two thirds of the
      authorities are among their signers. */
  lemma EnoughApprovalsIff(approvals: seq<Approval>, authorities: seq<PublicKey>, data: BlockRoot)
    requires AllChecked(approvals, authorities, data) && 0 < |authorities| <= MAX_VALIDATORS
    ensures AddAll(approvals).Ok?
    ensures MajorityApproved(AddAll(approvals).value, authorities, data) <==>
            3 * |SignersOf(approvals)| >= 2 * |authorities|
  {
    var n := |authorities|;
    AggregateHoldsEachSignerOnce(approvals, authorities, data);
    var agg := AddAll(approvals).value;
    forall i
      ensures i in SignersOf(approvals) <==> i in Signers(agg.bits, n)
    {
      if i in SignersOf(approvals) {
        var j :| 0 <= j < |approvals| && approvals[j].authorityIndex == i;
        assert Check(approvals[j], data, authorities).Ok? && Mentions(approvals, i);
      }
    }
    assert SignersOf(approvals) == Signers(agg.bits, n);
    assert forall j :: 0 <= j < |approvals| ==>
             Check(approvals[j], data, authorities).Ok? && approvals[j].authorityIndex < n;
    assert Beyond(agg.bits, n) == {};
    CountIncludesBeyond(agg, n);
  }

  /** The first `k` bits and bit `n`, of fifteen. */
  function Padded(k: nat, n: nat): (bits: seq<bool>)
    requires k <= n < MAX_VALIDATORS
    ensures |bits| == MAX_VALIDATORS && forall i :: 0 <= i < MAX_VALIDATORS ==> (bits[i] <==> i < k || i == n)
  {
    seq(MAX_VALIDATORS, i => i < k || i == n)
  }

  lemma {:induction false} PrefixSigners(bits: seq<bool>, k: nat, n: nat)
    requires k <= n <= |bits| && forall i :: 0 <= i < n ==> (bits[i] <==> i < k)
    ensures |Signers(bits, n)| == k
    decreases n
  {
    if n > 0 {
      PrefixSigners(bits, if k == n then n - 1 else k, n - 1);
      assert Signers(bits, n) == Signers(bits, n - 1) + if k == n then {n - 1} else {};
    }
  }

  /** One bit beyond the list stands in for the last signature that is missing. */
  lemma PaddedIsApproved(authorities: seq<PublicKey>, data: BlockRoot) returns (agg: Aggregate)
    requires 1 < |authorities| < MAX_VALIDATORS
    ensures |agg.bits| == MAX_VALIDATORS && MajorityApproved(agg, authorities, data)
    ensures |Signers(agg.bits, |authorities|)| == RequiredSignatures(|authorities|) - 1
    ensures !TwoThirds(agg, |authorities|)
  {
    var n := |authorities|;
    var k := RequiredSignatures(n) - 1;
    var bits := Padded(k, n);
    agg := Aggregate(bits, SignaturesFor(bits, authorities, data));
    PrefixSigners(bits, k, n);
    assert 0 in Signers(bits, n);
    assert Beyond(bits, n) == {n};
    CountIncludesBeyond(agg, n);
  }

  /** Approval means two thirds for every aggregate exactly when there is no room for bits beyond the list,
      or one signature is enough anyway. */
  lemma ApprovalMeansTwoThirdsIff(authorities: seq<PublicKey>, data: BlockRoot)
    ensures (forall agg: Aggregate :: |agg.bits| <= MAX_VALIDATORS && MajorityApproved(agg, authorities, data) ==>
                             TwoThirds(agg, |authorities|))
            <==> |authorities| <= 1 || |authorities| >= MAX_VALIDATORS
  {
    var n := |authorities|;
    if 1 < n < MAX_VALIDATORS {
      var agg := PaddedIsApproved(authorities, data);
    } else {
      forall agg: Aggregate | |agg.bits| <= MAX_VALIDATORS && MajorityApproved(agg, authorities, data)
        ensures TwoThirds(agg, n)
      {
        if n <= 1 {
          assert Signers(agg.bits, n) != {};
        } else {
          assert Beyond(agg.bits, n) == {};
          TwoThirdsIff(agg, n);
        }
      }
    }
  }

  /** One signature of four is enough, with two bits beyond the list. */
  lemma OneOfFourIsApproved(authorities: seq<PublicKey>, data: BlockRoot)
    requires |authorities| == 4
    ensures var bits := [true, false, false, false, true, true];
            var agg := Aggregate(bits, multiset{Signature(authorities[0], data)});
            MajorityApproved(agg, authorities, data) && Signers(bits, 4) == {0}
  {
    var bits := [true, false, false, false, true, true];
    var agg := Aggregate(bits, multiset{Signature(authorities[0], data)});
    NoBitsNoSignatures(bits[1..4], authorities[1..], data);
    OnlyListed(bits[1..], authorities[1..], data);
    assert bits[1..][..3] == bits[1..4];
    assert Signers(bits, 4) == {0} && Beyond(bits, 4) == {4, 5};
    CountIncludesBeyond(agg, 4);
  }

  /** Bits beyond the list stand for no signature. */
  lemma {:induction false} OnlyListed(bits: seq<bool>, authorities: seq<PublicKey>, data: BlockRoot)
    requires |authorities| <= |bits|
    ensures SignaturesFor(bits, authorities, data) == SignaturesFor(bits[..|authorities|], authorities, data)
  {
    if authorities != [] {
      OnlyListed(bits[1..], authorities[1..], data);
      assert bits[..|authorities|][1..] == bits[1..][..|authorities| - 1];
    }
  }

  lemma {:induction false} IndicesSize(s: set<nat>, n: nat)
    requires forall i :: i in s ==> i < n
    ensures |s| <= n
  {
    if n > 0 {
      IndicesSize(s - {n - 1}, n - 1);
    }
  }

  /** Any two blocks approved by two thirds each share at least a third of the authorities. */
  lemma QuorumsOverlap(a: Aggregate, b: Aggregate, n: nat)
    requires EnoughWithoutBeyond(a, n) && EnoughWithoutBeyond(b, n)
    ensures 3 * |Signers(a.bits, n) * Signers(b.bits, n)| >= n
  {
    TwoThirdsIff(a, n);
    TwoThirdsIff(b, n);
    var s, t := Signers(a.bits, n), Signers(b.bits, n);
    IndicesSize(s + t, n);
    assert |s + t| + |s * t| == |s| + |t|;
  }
}

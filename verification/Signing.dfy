/** Collecting the federation's signatures for a pegout, assembling the signed transaction, and checking it. */
module Signing {
  import opened Util
  import opened Bitcoin
  import opened Tapscript
  import opened Wallet

  datatype Federation = Federation(pubkeys: seq<PubKey>, threshold: nat)

  datatype SigError =
    | TxidNotFound | InvalidNumberOfSignatures | IncorrectSignature | MissingSignature
    | InvalidWitnessLength | InvalidWitnessScript | UnknownInput | DatabaseError

  /** A transaction with the signatures of each member, one per input. */
  datatype Psbt = Psbt(unsigned: Transaction, signatures: map<PubKey, seq<Signature>>)

  function MessageFor(tx: Transaction, input: nat): Message {
    Message(TxidOf(tx), input)
  }

  // ---- Assembling

  /** One element per federation key: the member's signature for the input, or empty. */
  function SigsForInput(psbt: Psbt, input: nat, pubkeys: seq<PubKey>): Result<seq<Item>, SigError> {
    if pubkeys == [] then Ok([])
    else
      var key := pubkeys[0];
      if key in psbt.signatures && input >= |psbt.signatures[key]| then Err(MissingSignature)
      else
        var item := if key in psbt.signatures then Sig(psbt.signatures[key][input]) else Empty;
        var rest := SigsForInput(psbt, input, pubkeys[1..]);
        if rest.Err? then rest else Ok([item] + rest.value)
  }

  function RedeemItems(fed: Federation): seq<Item> {
    [Script(RedeemScript(fed.pubkeys, fed.threshold)), Control]
  }

  function SignedInputs(psbt: Psbt, fed: Federation, n: nat): Result<seq<TxIn>, SigError>
    requires n <= |psbt.unsigned.inputs|
  {
    if n == 0 then Ok([])
    else
      var before := SignedInputs(psbt, fed, n - 1);
      var sigs := SigsForInput(psbt, n - 1, fed.pubkeys);
      if before.Err? then before
      else if sigs.Err? then Err(sigs.error)
      else Ok(before.value + [psbt.unsigned.inputs[n - 1].(witnesses := Reverse(sigs.value) + RedeemItems(fed))])
  }

  function Finalize(psbt: Psbt, fed: Federation): Result<Transaction, SigError> {
    if |psbt.signatures| != fed.threshold then Err(InvalidNumberOfSignatures)
    else
      var inputs := SignedInputs(psbt, fed, |psbt.unsigned.inputs|);
      if inputs.Err? then Err(inputs.error) else Ok(psbt.unsigned.(inputs := inputs.value))
  }

  // ---- Checking

  /** The signature elements of a witness, each next to the key it has to match. */
  function PairedSigs(witnesses: seq<Item>, keys: seq<PubKey>): seq<(Item, PubKey)> {
    if witnesses == [] || keys == [] then []
    else (if witnesses[0].Empty? then [] else [(witnesses[0], keys[0])]) + PairedSigs(witnesses[1..], keys[1..])
  }

  function CheckInput(fed: Federation, witnesses: seq<Item>, msg: Message): Result<(), SigError> {
    var sigs := PairedSigs(witnesses, Reverse(fed.pubkeys));
    if |witnesses| != |fed.pubkeys| + 2 || |sigs| != fed.threshold then Err(InvalidWitnessLength)
    else if exists i :: 0 <= i < |sigs| && !(sigs[i].0.Sig? && Verifies(sigs[i].0.sig, msg, sigs[i].1))
    then Err(IncorrectSignature)
    else if witnesses[|fed.pubkeys|..] != RedeemItems(fed) then Err(InvalidWitnessScript)
    else Ok(())
  }

  /** `check_transaction_signatures`: every input must be known, and is checked on its own. */
  function CheckSignatures(fed: Federation, utxos: Utxos, tx: Transaction, n: nat): Result<(), SigError>
    requires n <= |tx.inputs|
  {
    if !Known(utxos, tx, |tx.inputs|) then Err(UnknownInput)
    else if n == 0 then Ok(())
    else
      var before := CheckSignatures(fed, utxos, tx, n - 1);
      if before.Err? then before else CheckInput(fed, tx.inputs[n - 1].witnesses, MessageFor(tx, n - 1))
  }

  // ---- What the collector keeps

  /** Every collected signature verifies for its input, and there are never more members than needed. */
  predicate PsbtOk(psbt: Psbt, threshold: nat) {
    && |psbt.signatures| <= threshold
    && forall k :: k in psbt.signatures ==>
         && |psbt.signatures[k]| == |psbt.unsigned.inputs|
         && forall i :: 0 <= i < |psbt.signatures[k]| ==>
              Verifies(psbt.signatures[k][i], MessageFor(psbt.unsigned, i), k)
  }

  predicate AllMembers(psbt: Psbt, fed: Federation) {
    forall k :: k in psbt.signatures ==> k in fed.pubkeys
  }

  /** As many federation keys have signed as there are signatures exactly when all signers are members. */
  lemma AllMembersIff(psbt: Psbt, fed: Federation)
    requires Distinct(fed.pubkeys)
    ensures CountIn(fed.pubkeys, psbt.signatures.Keys) == |psbt.signatures| <==> AllMembers(psbt, fed)
  {
    var all, members := psbt.signatures.Keys, Elements(fed.pubkeys);
    CountInDistinct(fed.pubkeys, all);
    SubsetSize(all * members, all);
    if AllMembers(psbt, fed) { assert all * members == all; }
  }

  // ---- Signatures next to keys

  function NonEmpty(items: seq<Item>): nat {
    if items == [] then 0 else (if items[0].Empty? then 0 else 1) + NonEmpty(items[1..])
  }

  lemma {:induction false} NonEmptyAppend(a: seq<Item>, b: seq<Item>)
    ensures NonEmpty(a + b) == NonEmpty(a) + NonEmpty(b)
  {
    if a == [] {
      assert a + b == b;
    } else {
      assert (a + b)[1..] == a[1..] + b;
      NonEmptyAppend(a[1..], b);
    }
  }

  lemma {:induction false} NonEmptyReverse(a: seq<Item>)
    ensures NonEmpty(Reverse(a)) == NonEmpty(a)
  {
    if a != [] {
      NonEmptyReverse(a[1..]);
      NonEmptyAppend(Reverse(a[1..]), [a[0]]);
    }
  }

  predicate AllVerify(sigs: seq<(Item, PubKey)>, msg: Message) {
    forall i :: 0 <= i < |sigs| ==> sigs[i].0.Sig? && Verifies(sigs[i].0.sig, msg, sigs[i].1)
  }

  /** Every element is empty or a signature that verifies for the key at its place. */
  predicate Aligned(items: seq<Item>, keys: seq<PubKey>, msg: Message) {
    |items| == |keys| &&
    forall i :: 0 <= i < |keys| ==>
      items[i].Empty? || (items[i].Sig? && Verifies(items[i].sig, msg, keys[i]))
  }

  lemma AlignedNext(items: seq<Item>, keys: seq<PubKey>, msg: Message)
    requires |items| == |keys| && keys != []
    ensures Aligned(items, keys, msg) <==>
            && (items[0].Empty? || (items[0].Sig? && Verifies(items[0].sig, msg, keys[0])))
            && Aligned(items[1..], keys[1..], msg)
  {
    assert items == [items[0]] + items[1..] && keys == [keys[0]] + keys[1..];
  }

  lemma AllVerifyNext(first: seq<(Item, PubKey)>, rest: seq<(Item, PubKey)>, msg: Message)
    ensures AllVerify(first + rest, msg) <==> AllVerify(first, msg) && AllVerify(rest, msg)
  {
    var all := first + rest;
    if AllVerify(all, msg) {
      assert forall i :: 0 <= i < |first| ==> first[i] == all[i];
      assert forall i :: 0 <= i < |rest| ==> rest[i] == all[|first| + i];
    }
  }

  /** Pairing finds as many signatures as there are non-empty elements, and all of them verify exactly when
      the elements are aligned with the keys. What follows the last key is ignored. */
  lemma {:induction false} PairedSigsAligned(items: seq<Item>, rest: seq<Item>, keys: seq<PubKey>, msg: Message)
    requires |items| == |keys|
    ensures var sigs := PairedSigs(items + rest, keys);
            |sigs| == NonEmpty(items) && (AllVerify(sigs, msg) <==> Aligned(items, keys, msg))
  {
    if keys != [] {
      assert (items + rest)[1..] == items[1..] + rest;
      PairedSigsAligned(items[1..], rest, keys[1..], msg);
      AlignedNext(items, keys, msg);
      var first := if items[0].Empty? then [] else [(items[0], keys[0])];
      assert items[0].Empty? || first[0] == (items[0], keys[0]);
      AllVerifyNext(first, PairedSigs(items[1..] + rest, keys[1..]), msg);
    }
  }

  lemma {:induction false} TallyIsNonEmpty(items: seq<Item>, n: nat)
    requires n <= |items|
    ensures Tally(Reverse(items), n) == NonEmpty(items[..n])
  {
    if n > 0 {
      TallyIsNonEmpty(items, n - 1);
      assert items[..n] == items[..n - 1] + [items[n - 1]];
      NonEmptyAppend(items[..n - 1], [items[n - 1]]);
    }
  }

  /** The assembled elements count the members among the signers, and every one of them verifies. */
  lemma {:induction false} SigsCountSigners(psbt: Psbt, input: nat, pubkeys: seq<PubKey>, threshold: nat)
    requires PsbtOk(psbt, threshold) && input < |psbt.unsigned.inputs|
    ensures var r := SigsForInput(psbt, input, pubkeys);
            && r.Ok? && |r.value| == |pubkeys|
            && NonEmpty(r.value) == CountIn(pubkeys, psbt.signatures.Keys)
            && Aligned(r.value, pubkeys, MessageFor(psbt.unsigned, input))
    decreases |pubkeys|
  {
    if pubkeys != [] { SigsCountSigners(psbt, input, pubkeys[1..], threshold); }
  }

  // ---- The signed transaction

  /** The reversed signatures, then the script and the control block. */
  predicate InputSigned(psbt: Psbt, fed: Federation, i: nat, signed: TxIn) {
    var sigs := SigsForInput(psbt, i, fed.pubkeys);
    i < |psbt.unsigned.inputs| && sigs.Ok?
    && signed == psbt.unsigned.inputs[i].(witnesses := Reverse(sigs.value) + RedeemItems(fed))
  }

  lemma {:induction false} SignedInputsSucceed(psbt: Psbt, fed: Federation, n: nat)
    requires PsbtOk(psbt, fed.threshold) && n <= |psbt.unsigned.inputs|
    ensures var r := SignedInputs(psbt, fed, n);
            r.Ok? && |r.value| == n && forall i :: 0 <= i < n ==> InputSigned(psbt, fed, i, r.value[i])
  {
    if n > 0 {
      SignedInputsSucceed(psbt, fed, n - 1);
      assert SigsForInput(psbt, n - 1, fed.pubkeys).Ok? by {
        SigsCountSigners(psbt, n - 1, fed.pubkeys, fed.threshold);
      }
      assert InputSigned(psbt, fed, n - 1, SignedInputs(psbt, fed, n).value[n - 1]);
    }
  }

  lemma {:induction false} ReversedAligned(items: seq<Item>, keys: seq<PubKey>, msg: Message)
    requires |items| == |keys|
    ensures Aligned(items, keys, msg) <==> Aligned(Reverse(items), Reverse(keys), msg)
  {
    var n := |items|;
    if Aligned(Reverse(items), Reverse(keys), msg) {
      forall i | 0 <= i < n
        ensures items[i].Empty? || (items[i].Sig? && Verifies(items[i].sig, msg, keys[i]))
      {
        assert Reverse(items)[n - 1 - i] == items[i] && Reverse(keys)[n - 1 - i] == keys[i];
      }
    }
  }

  lemma CheckInputParts(fed: Federation, witnesses: seq<Item>, msg: Message)
    requires |witnesses| == |fed.pubkeys| + 2
    ensures var sigs := PairedSigs(witnesses, Reverse(fed.pubkeys));
            CheckInput(fed, witnesses, msg).Ok? <==>
            && |sigs| == fed.threshold && AllVerify(sigs, msg)
            && witnesses[|fed.pubkeys|..] == RedeemItems(fed)
  {}

  /** The node accepts a witness exactly when it consists of one element per key, last key first, each empty
      or a signature that verifies for its key, as many signatures as the threshold, and then the redeem
      script and the control block. */
  lemma CheckInputIff(fed: Federation, w: seq<Item>, msg: Message)
    ensures var n := |fed.pubkeys|;
            CheckInput(fed, w, msg).Ok? <==>
            && |w| == n + 2 && w[n..] == RedeemItems(fed)
            && Aligned(Reverse(w[..n]), fed.pubkeys, msg) && NonEmpty(w[..n]) == fed.threshold
  {
    var n := |fed.pubkeys|;
    if |w| == n + 2 {
      CheckInputParts(fed, w, msg);
      assert w == w[..n] + w[n..];
      PairedSigsAligned(w[..n], w[n..], Reverse(fed.pubkeys), msg);
      ReversedAligned(Reverse(w[..n]), fed.pubkeys, msg);
      ReverseTwice(w[..n]);
    }
  }

  /** A witness the node accepts makes the redeem script succeed, and one that makes it succeed with exactly
      the threshold of signatures is accepted. */
  lemma AcceptedInputSpends(fed: Federation, w: seq<Item>, msg: Message)
    requires fed.pubkeys != [] && |w| == |fed.pubkeys| + 2 && w[|fed.pubkeys|..] == RedeemItems(fed)
    ensures var stack := w[..|fed.pubkeys|];
            CheckInput(fed, w, msg).Ok? <==>
            Succeeds(RedeemScript(fed.pubkeys, fed.threshold), stack, msg) && NonEmpty(stack) == fed.threshold
  {
    var n := |fed.pubkeys|;
    var stack := w[..n];
    CheckInputIff(fed, w, msg);
    TallyIsNonEmpty(Reverse(stack), n);
    NonEmptyReverse(stack);
    ReverseTwice(stack);
    assert Reverse(stack)[..n] == Reverse(stack);
    RedeemScriptAcceptsIff(fed.pubkeys, fed.threshold, stack, msg);
    ValidIsAligned(stack, fed.pubkeys, msg);
  }

  lemma ValidIsAligned(stack: seq<Item>, keys: seq<PubKey>, msg: Message)
    requires |stack| == |keys|
    ensures ValidFor(stack, keys, msg) <==> Aligned(Reverse(stack), keys, msg)
  {
    var items := Reverse(stack);
    forall i | 0 <= i < |keys|
      ensures Checked(ItemFor(stack, i), Key(keys[i]), msg).Some? <==>
              items[i].Empty? || (items[i].Sig? && Verifies(items[i].sig, msg, keys[i]))
    {
      assert items[i] == ItemFor(stack, i);
    }
  }

  /** The node wants exactly the threshold. */
  lemma AlignedPassesCheckIff(fed: Federation, items: seq<Item>, msg: Message)
    requires Aligned(items, fed.pubkeys, msg)
    ensures CheckInput(fed, Reverse(items) + RedeemItems(fed), msg).Ok? <==> NonEmpty(items) == fed.threshold
  {
    var w := Reverse(items) + RedeemItems(fed);
    NonEmptyReverse(items);
    ReverseTwice(items);
    assert w[..|fed.pubkeys|] == Reverse(items) && w[|fed.pubkeys|..] == RedeemItems(fed);
    CheckInputIff(fed, w, msg);
  }

  /** The script wants at least the threshold. */
  lemma AlignedSpendsIff(fed: Federation, items: seq<Item>, msg: Message)
    requires Aligned(items, fed.pubkeys, msg) && fed.pubkeys != []
    ensures Succeeds(RedeemScript(fed.pubkeys, fed.threshold), Reverse(items), msg) <==>
            NonEmpty(items) >= fed.threshold
  {
    var stack := Reverse(items);
    TallyIsNonEmpty(items, |items|);
    assert items[..|items|] == items;
    ReverseTwice(items);
    ValidIsAligned(stack, fed.pubkeys, msg);
    RedeemScriptAcceptsIff(fed.pubkeys, fed.threshold, stack, msg);
  }

  /** One finalized input passes the node's check exactly when all signers are federation members, and
      exactly then the redeem script lets it spend. */
  lemma FinalizedInput(psbt: Psbt, fed: Federation, input: nat)
    requires PsbtOk(psbt, fed.threshold) && |psbt.signatures| == fed.threshold
    requires input < |psbt.unsigned.inputs| && fed.pubkeys != [] && Distinct(fed.pubkeys)
    ensures var sigs := SigsForInput(psbt, input, fed.pubkeys);
            var msg := MessageFor(psbt.unsigned, input);
            && sigs.Ok?
            && (CheckInput(fed, Reverse(sigs.value) + RedeemItems(fed), msg).Ok? <==> AllMembers(psbt, fed))
            && (Succeeds(RedeemScript(fed.pubkeys, fed.threshold), Reverse(sigs.value), msg) <==> AllMembers(psbt, fed))
  {
    var msg, keys := MessageFor(psbt.unsigned, input), fed.pubkeys;
    SigsCountSigners(psbt, input, keys, fed.threshold);
    AllMembersIff(psbt, fed);
    CountBound(keys, psbt.signatures.Keys);
    var items := SigsForInput(psbt, input, keys).value;
    AlignedPassesCheckIff(fed, items, msg);
    AlignedSpendsIff(fed, items, msg);
  }

  lemma CountBound(keys: seq<PubKey>, among: set<PubKey>)
    requires Distinct(keys)
    ensures CountIn(keys, among) <= |among|
  {
    CountInDistinct(keys, among);
    SubsetSize(among * Elements(keys), among);
  }

  predicate InputPasses(fed: Federation, tx: Transaction, i: nat) {
    i < |tx.inputs| && CheckInput(fed, tx.inputs[i].witnesses, MessageFor(tx, i)).Ok?
  }

  lemma {:induction false} CheckEachInput(fed: Federation, utxos: Utxos, tx: Transaction, n: nat)
    requires n <= |tx.inputs| && Known(utxos, tx, |tx.inputs|)
    ensures CheckSignatures(fed, utxos, tx, n).Ok? <==> forall i :: 0 <= i < n ==> InputPasses(fed, tx, i)
  {
    if n > 0 {
      CheckEachInput(fed, utxos, tx, n - 1);
      CheckNextInput(fed, utxos, tx, n);
      EachAndNext(fed, tx, n);
    }
  }

  lemma EachAndNext(fed: Federation, tx: Transaction, n: nat)
    requires n > 0
    ensures (forall i :: 0 <= i < n ==> InputPasses(fed, tx, i)) <==>
            (forall i :: 0 <= i < n - 1 ==> InputPasses(fed, tx, i)) && InputPasses(fed, tx, n - 1)
  {}

  lemma CheckNextInput(fed: Federation, utxos: Utxos, tx: Transaction, n: nat)
    requires 0 < n <= |tx.inputs| && Known(utxos, tx, |tx.inputs|)
    ensures CheckSignatures(fed, utxos, tx, n).Ok? <==>
            CheckSignatures(fed, utxos, tx, n - 1).Ok? && InputPasses(fed, tx, n - 1)
  {}

  /** `check_transaction_signatures` accepts a transaction exactly when every input is known and passes. */
  lemma CheckSignaturesIff(fed: Federation, utxos: Utxos, tx: Transaction)
    ensures CheckSignatures(fed, utxos, tx, |tx.inputs|).Ok? <==>
            && (forall i :: 0 <= i < |tx.inputs| ==> tx.inputs[i].previousOutput in utxos)
            && (forall i :: 0 <= i < |tx.inputs| ==> InputPasses(fed, tx, i))
  {
    if Known(utxos, tx, |tx.inputs|) { CheckEachInput(fed, utxos, tx, |tx.inputs|); }
  }

  /** Every input of a transaction it accepts can be spent: the redeem script succeeds on the elements before
      the script. */
  lemma AcceptedTransactionSpends(fed: Federation, utxos: Utxos, tx: Transaction, i: nat)
    requires fed.pubkeys != [] && i < |tx.inputs| && CheckSignatures(fed, utxos, tx, |tx.inputs|).Ok?
    ensures var w, n := tx.inputs[i].witnesses, |fed.pubkeys|;
            && |w| == n + 2 && w[n] == Script(RedeemScript(fed.pubkeys, fed.threshold))
            && Succeeds(w[n].ops, w[..n], Message(TxidOf(tx), i))
  {
    CheckSignaturesIff(fed, utxos, tx);
    assert InputPasses(fed, tx, i);
    var w, n := tx.inputs[i].witnesses, |fed.pubkeys|;
    CheckInputIff(fed, w, MessageFor(tx, i));
    AcceptedInputSpends(fed, w, MessageFor(tx, i));
    assert w[n] == w[n..][0];
  }

  lemma {:induction false} SpendsUnchanged(a: seq<TxIn>, b: seq<TxIn>)
    requires |a| == |b| && forall i :: 0 <= i < |a| ==> a[i].previousOutput == b[i].previousOutput
    ensures Spends(a) == Spends(b)
  {}

  /** Finalizing always succeeds once the threshold is reached, keeps the transaction id, and gives each
      input the reversed signatures followed by the script and the control block. */
  lemma FinalizeShape(psbt: Psbt, fed: Federation)
    requires PsbtOk(psbt, fed.threshold) && |psbt.signatures| == fed.threshold
    ensures var r := Finalize(psbt, fed);
            && r.Ok? && TxidOf(r.value) == TxidOf(psbt.unsigned) && |r.value.inputs| == |psbt.unsigned.inputs|
            && forall i :: 0 <= i < |r.value.inputs| ==> InputSigned(psbt, fed, i, r.value.inputs[i])
  {
    SignedInputsSucceed(psbt, fed, |psbt.unsigned.inputs|);
    SpendsUnchanged(SignedInputs(psbt, fed, |psbt.unsigned.inputs|).value, psbt.unsigned.inputs);
  }

  /** A finalized pegout passes `check_transaction_signatures` exactly when everybody whose signatures were
      collected is a federation member. */
  lemma FinalizedPassesCheckIff(psbt: Psbt, fed: Federation, utxos: Utxos)
    requires PsbtOk(psbt, fed.threshold) && |psbt.signatures| == fed.threshold
    requires fed.pubkeys != [] && Distinct(fed.pubkeys)
    requires psbt.unsigned.inputs != [] && Known(utxos, psbt.unsigned, |psbt.unsigned.inputs|)
    ensures Finalize(psbt, fed).Ok?
    ensures var tx := Finalize(psbt, fed).value;
            CheckSignatures(fed, utxos, tx, |tx.inputs|).Ok? <==> AllMembers(psbt, fed)
  {
    FinalizeShape(psbt, fed);
    var tx := Finalize(psbt, fed).value;
    forall i | 0 <= i < |tx.inputs|
      ensures InputPasses(fed, tx, i) <==> AllMembers(psbt, fed)
    {
      FinalizedInput(psbt, fed, i);
      assert InputSigned(psbt, fed, i, tx.inputs[i]);
    }
    CheckEachInput(fed, utxos, tx, |tx.inputs|);
    assert InputPasses(fed, tx, 0) <==> AllMembers(psbt, fed);
  }

  // ---- The collector

  predicate MemberSigned(utxos: Utxos, tx: Transaction, key: PubKey, sigs: seq<Signature>) {
    && Known(utxos, tx, |tx.inputs|) && |sigs| == |tx.inputs|
    && forall i :: 0 <= i < |sigs| ==> Verifies(sigs[i], MessageFor(tx, i), key)
  }

  function CheckMember(utxos: Utxos, tx: Transaction, key: PubKey, sigs: seq<Signature>): Result<(), SigError> {
    if !Known(utxos, tx, |tx.inputs|) then Err(UnknownInput)
    else if |sigs| != |tx.inputs| then Err(InvalidNumberOfSignatures)
    else if MemberSigned(utxos, tx, key, sigs) then Ok(())
    else Err(IncorrectSignature)
  }

  /** Once the threshold is reached nothing is checked any more. */
  function AddResult(
      psbt: Psbt, utxos: Utxos, key: PubKey, sigs: seq<Signature>, threshold: nat): Result<(), SigError>
  {
    if |psbt.signatures| >= threshold then Ok(()) else CheckMember(utxos, psbt.unsigned, key, sigs)
  }

  /** One member's signatures are added if they verify, unless the threshold is already reached. */
  function Collected(psbt: Psbt, utxos: Utxos, key: PubKey, sigs: seq<Signature>, threshold: nat): Psbt {
    if |psbt.signatures| >= threshold || !MemberSigned(utxos, psbt.unsigned, key, sigs) then psbt
    else psbt.(signatures := psbt.signatures[key := sigs])
  }

  lemma CollectingKeepsVerified(psbt: Psbt, utxos: Utxos, key: PubKey, sigs: seq<Signature>, threshold: nat)
    requires PsbtOk(psbt, threshold)
    ensures PsbtOk(Collected(psbt, utxos, key, sigs, threshold), threshold)
  {}

  /** Submissions of several members, one after the other. */
  function CollectedAll(
      psbt: Psbt, utxos: Utxos, subs: seq<(PubKey, seq<Signature>)>, threshold: nat): Psbt
    decreases |subs|
  {
    if subs == [] then psbt
    else CollectedAll(Collected(psbt, utxos, subs[0].0, subs[0].1, threshold), utxos, subs[1..], threshold)
  }

  function FirstSigner(utxos: Utxos, tx: Transaction, subs: seq<(PubKey, seq<Signature>)>): set<PubKey>
    requires subs != []
  {
    if MemberSigned(utxos, tx, subs[0].0, subs[0].1) then {subs[0].0} else {}
  }

  /** The members whose submissions are good. */
  function GoodSigners(utxos: Utxos, tx: Transaction, subs: seq<(PubKey, seq<Signature>)>): set<PubKey> {
    if subs == [] then {} else FirstSigner(utxos, tx, subs) + GoodSigners(utxos, tx, subs[1..])
  }

  lemma Regroup<T>(a: set<T>, b: set<T>, c: set<T>)
    ensures a + b + c == a + (b + c)
  {}

  lemma CollectOne(psbt: Psbt, utxos: Utxos, key: PubKey, sigs: seq<Signature>, threshold: nat)
    requires |psbt.signatures| <= threshold
    ensures var after := Collected(psbt, utxos, key, sigs, threshold);
            var good := MemberSigned(utxos, psbt.unsigned, key, sigs);
            && after.unsigned == psbt.unsigned && |after.signatures| <= threshold
            && after.signatures.Keys ==
               psbt.signatures.Keys + if good && |psbt.signatures| < threshold then {key} else {}
  {
    assert psbt.signatures[key := sigs].Keys == psbt.signatures.Keys + {key};
  }

  lemma {:induction false} FullStays(psbt: Psbt, utxos: Utxos, subs: seq<(PubKey, seq<Signature>)>, threshold: nat)
    requires |psbt.signatures| == threshold
    ensures CollectedAll(psbt, utxos, subs, threshold) == psbt
    decreases |subs|
  {
    if subs != [] { FullStays(psbt, utxos, subs[1..], threshold); }
  }

  /** Whatever is submitted, in any order, the members collected are good signers or were there before, and
      their number is the number of those, up to the threshold. */
  lemma {:induction false} CollectsUpToThreshold(
      psbt: Psbt, utxos: Utxos, subs: seq<(PubKey, seq<Signature>)>, threshold: nat)
    requires |psbt.signatures| <= threshold
    ensures var all := psbt.signatures.Keys + GoodSigners(utxos, psbt.unsigned, subs);
            var after := CollectedAll(psbt, utxos, subs, threshold);
            && after.unsigned == psbt.unsigned
            && after.signatures.Keys <= all && |after.signatures.Keys| == Min(threshold, |all|)
    decreases |subs|
  {
    var have := psbt.signatures.Keys;
    var all := have + GoodSigners(utxos, psbt.unsigned, subs);
    if subs == [] {
      assert all == have;
    } else if |psbt.signatures| == threshold {
      FullStays(psbt, utxos, subs, threshold);
      SubsetSize(have, all);
    } else {
      CollectOne(psbt, utxos, subs[0].0, subs[0].1, threshold);
      var next, rest := Collected(psbt, utxos, subs[0].0, subs[0].1, threshold), subs[1..];
      CollectsUpToThreshold(next, utxos, rest, threshold);
      Regroup(have, FirstSigner(utxos, psbt.unsigned, subs), GoodSigners(utxos, psbt.unsigned, rest));
    }
  }

  /** As soon as enough members have submitted good signatures, in any order and among any others, the
      transaction can be finalized, and not before. */
  lemma CollectionCompletesIff(tx: Transaction, utxos: Utxos, subs: seq<(PubKey, seq<Signature>)>, fed: Federation)
    ensures Finalize(CollectedAll(Psbt(tx, map[]), utxos, subs, fed.threshold), fed).Ok? <==>
            |GoodSigners(utxos, tx, subs)| >= fed.threshold
  {
    var start := Psbt(tx, map[]);
    CollectsUpToThreshold(start, utxos, subs, fed.threshold);
    CollectedAllVerified(start, utxos, subs, fed.threshold);
    assert start.signatures.Keys + GoodSigners(utxos, tx, subs) == GoodSigners(utxos, tx, subs);
    var psbt := CollectedAll(start, utxos, subs, fed.threshold);
    if |psbt.signatures| == fed.threshold { FinalizeShape(psbt, fed); }
  }

  lemma {:induction false} CollectedAllVerified(
      psbt: Psbt, utxos: Utxos, subs: seq<(PubKey, seq<Signature>)>, threshold: nat)
    requires PsbtOk(psbt, threshold)
    ensures PsbtOk(CollectedAll(psbt, utxos, subs, threshold), threshold)
    decreases |subs|
  {
    if subs != [] {
      CollectingKeepsVerified(psbt, utxos, subs[0].0, subs[0].1, threshold);
      CollectedAllVerified(Collected(psbt, utxos, subs[0].0, subs[0].1, threshold), utxos, subs[1..], threshold);
    }
  }

  /** Every transaction is filed under its own id and holds only verified signatures. */
  ghost predicate Filed(transactions: map<Txid, Psbt>, threshold: nat) {
    forall t :: t in transactions ==> TxidOf(transactions[t].unsigned) == t && PsbtOk(transactions[t], threshold)
  }

  lemma FiledUpdate(transactions: map<Txid, Psbt>, psbt: Psbt, txid: Txid, threshold: nat)
    requires Filed(transactions, threshold) && PsbtOk(psbt, threshold) && TxidOf(psbt.unsigned) == txid
    ensures Filed(transactions[txid := psbt], threshold)
  {}

  class SignatureCollector {
    const federation: Federation
    var transactions: map<Txid, Psbt>

    ghost predicate Valid()
      reads this
    {
      Filed(transactions, federation.threshold)
    }

    constructor (federation: Federation)
      ensures this.federation == federation && transactions == map[] && Valid()
    {
      this.federation := federation;
      transactions := map[];
    }

    method CleanupSignaturesFor(txid: Txid)
      requires Valid()
      modifies this
      ensures Valid() && transactions == old(transactions) - {txid}
    {
      transactions := transactions - {txid};
    }

    static method CheckInputSignatures(utxos: Utxos, tx: Transaction, key: PubKey, sigs: seq<Signature>)
        returns (r: Result<(), SigError>)
      ensures r == CheckMember(utxos, tx, key, sigs)
      ensures r.Ok? <==> MemberSigned(utxos, tx, key, sigs)
    {
      for i := 0 to |tx.inputs|
        invariant Known(utxos, tx, i)
      {
        if tx.inputs[i].previousOutput !in utxos { return Err(UnknownInput); }
      }
      if |sigs| != |tx.inputs| { return Err(InvalidNumberOfSignatures); }
      for i := 0 to |sigs|
        invariant forall j :: 0 <= j < i ==> Verifies(sigs[j], MessageFor(tx, j), key)
      {
        if !Verifies(sigs[i], MessageFor(tx, i), key) { return Err(IncorrectSignature); }
      }
      return Ok(());
    }

    static method Collect(psbt: Psbt, utxos: Utxos, key: PubKey, sigs: seq<Signature>, threshold: nat)
        returns (r: Result<(), SigError>, after: Psbt)
      requires PsbtOk(psbt, threshold)
      ensures PsbtOk(after, threshold) && after == Collected(psbt, utxos, key, sigs, threshold)
      ensures r == AddResult(psbt, utxos, key, sigs, threshold)
    {
      CollectingKeepsVerified(psbt, utxos, key, sigs, threshold);
      if |psbt.signatures| >= threshold { return Ok(()), psbt; }
      r := CheckInputSignatures(utxos, psbt.unsigned, key, sigs);
      after := if r.Ok? then psbt.(signatures := psbt.signatures[key := sigs]) else psbt;
    }

    /** The entry is created even when the signatures are refused. */
    method AddSignature(wallet: UtxoManager, txid: Txid, key: PubKey, sigs: seq<Signature>)
        returns (r: Result<(), SigError>)
      requires Valid() && forall t :: t in wallet.txs ==> TxidOf(wallet.txs[t]) == t
      modifies this
      ensures Valid()
      ensures txid !in old(transactions) && txid !in wallet.txs ==>
                r == Err(DatabaseError) && transactions == old(transactions)
      ensures txid in old(transactions) || txid in wallet.txs ==>
                var psbt := if txid in old(transactions) then old(transactions)[txid]
                            else Psbt(wallet.txs[txid], map[]);
                var after := Collected(psbt, wallet.utxos, key, sigs, federation.threshold);
                && transactions == old(transactions)[txid := after]
                && r == AddResult(psbt, wallet.utxos, key, sigs, federation.threshold)
    {
      if txid !in transactions && txid !in wallet.txs { return Err(DatabaseError); }
      var psbt := if txid in transactions then transactions[txid] else Psbt(wallet.txs[txid], map[]);
      var after;
      r, after := Collect(psbt, wallet.utxos, key, sigs, federation.threshold);
      FiledUpdate(transactions, after, txid, federation.threshold);
      transactions := transactions[txid := after];
    }

    method GetFinalized(txid: Txid) returns (r: Result<Transaction, SigError>)
      requires Valid()
      ensures r == if txid !in transactions then Err(TxidNotFound) else Finalize(transactions[txid], federation)
      ensures r.Ok? ==> TxidOf(r.value) == txid
    {
      if txid !in transactions { return Err(TxidNotFound); }
      r := Finalize(transactions[txid], federation);
      if r.Ok? { FinalizeShape(transactions[txid], federation); }
    }
  }
}

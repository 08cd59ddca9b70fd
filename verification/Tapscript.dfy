/** The federation's k-of-n redeem script, run on the part of the Tapscript machine it uses ("Rules for
    signature opcodes" of BIP 342). */
module Tapscript {
  import opened Util
  import opened Bitcoin

  type PubKey = nat

  /** What is signed: one input of one transaction. The spent outputs are part of it, and a transaction
      id determines them. */
  datatype Message = Message(txid: Txid, input: nat)

  /** A signature verifies for the key and message it was made with. */
  datatype Signature = Signature(signer: PubKey, over: Message, nonce: nat)

  predicate Verifies(s: Signature, msg: Message, key: PubKey) {
    s.signer == key && s.over == msg
  }

  datatype Op = PushKey(key: PubKey) | CheckSig | CheckSigAdd | PushInt(n: nat) | GreaterThanOrEqual

  /** A stack or witness element. The empty byte string is the number zero and the value false. */
  datatype Item = Empty | Sig(sig: Signature) | Key(key: PubKey) | Num(n: nat) | Script(ops: seq<Op>) | Control

  function Number(n: nat): Item {
    if n == 0 then Empty else Num(n)
  }

  predicate IsNumber(i: Item) {
    i.Empty? || i.Num?
  }

  function Value(i: Item): nat
    requires IsNumber(i)
  {
    if i.Empty? then 0 else i.n
  }

  /** How many of a signature element and key count: an empty element counts zero, a valid signature one,
      and anything else fails the script. */
  function Checked(sig: Item, key: Item, msg: Message): Option<nat> {
    if key.Key? && sig.Empty? then Some(0)
    else if key.Key? && sig.Sig? && Verifies(sig.sig, msg, key.key) then Some(1)
    else None
  }

  /** One opcode; the top of the stack is the last element. */
  function Step(op: Op, stack: seq<Item>, msg: Message): Option<seq<Item>> {
    var n := |stack|;
    match op
    case PushKey(k) => Some(stack + [Key(k)])
    case PushInt(i) => Some(stack + [Number(i)])
    case CheckSig =>
      if n < 2 then None
      else
        var c := Checked(stack[n - 2], stack[n - 1], msg);
        if c.None? then None else Some(stack[..n - 2] + [Number(c.value)])
    case CheckSigAdd =>
      if n < 3 || !IsNumber(stack[n - 2]) then None
      else
        var c := Checked(stack[n - 3], stack[n - 1], msg);
        if c.None? then None else Some(stack[..n - 3] + [Number(Value(stack[n - 2]) + c.value)])
    case GreaterThanOrEqual =>
      if n < 2 || !IsNumber(stack[n - 2]) || !IsNumber(stack[n - 1]) then None
      else Some(stack[..n - 2] + [Number(if Value(stack[n - 2]) >= Value(stack[n - 1]) then 1 else 0)])
  }

  function Run(ops: seq<Op>, stack: seq<Item>, msg: Message): Option<seq<Item>>
    decreases |ops|
  {
    if ops == [] then Some(stack)
    else match Step(ops[0], stack, msg)
         case None => None
         case Some(stack') => Run(ops[1..], stack', msg)
  }

  /** A script succeeds when it ends with exactly one element, which is true. */
  predicate Succeeds(ops: seq<Op>, stack: seq<Item>, msg: Message) {
    var r := Run(ops, stack, msg);
    r.Some? && |r.value| == 1 && r.value[0] != Empty
  }

  /** The fold over the federation's keys. */
  function KeyChecks(keys: seq<PubKey>): seq<Op> {
    if keys == [] then []
    else
      var n := |keys|;
      KeyChecks(keys[..n - 1]) + [PushKey(keys[n - 1]), if n == 1 then CheckSig else CheckSigAdd]
  }

  function RedeemScript(keys: seq<PubKey>, threshold: nat): seq<Op> {
    KeyChecks(keys) + [PushInt(threshold), GreaterThanOrEqual]
  }

  // ---- What the script accepts

  /** The signatures are stacked in reverse: the one for the first key is on top. */
  function ItemFor(stack: seq<Item>, i: nat): Item
    requires i < |stack|
  {
    stack[|stack| - 1 - i]
  }

  predicate ValidFor(stack: seq<Item>, keys: seq<PubKey>, msg: Message)
    requires |keys| <= |stack|
  {
    forall i :: 0 <= i < |keys| ==> Checked(ItemFor(stack, i), Key(keys[i]), msg).Some?
  }

  /** The number of signatures among the first `n` elements from the top. */
  function Tally(stack: seq<Item>, n: nat): nat
    requires n <= |stack|
  {
    if n == 0 then 0 else Tally(stack, n - 1) + if ItemFor(stack, n - 1).Empty? then 0 else 1
  }

  lemma {:induction false} RunAppend(a: seq<Op>, b: seq<Op>, stack: seq<Item>, msg: Message)
    ensures Run(a + b, stack, msg) ==
            match Run(a, stack, msg) case None => None case Some(s) => Run(b, s, msg)
    decreases |a|
  {
    if a == [] {
      assert a + b == b;
    } else {
      assert (a + b)[1..] == a[1..] + b;
      var s := Step(a[0], stack, msg);
      if s.Some? { RunAppend(a[1..], b, s.value, msg); }
    }
  }

  lemma RunTwo(a: Op, b: Op, stack: seq<Item>, msg: Message)
    ensures Run([a, b], stack, msg) ==
            match Step(a, stack, msg) case None => None case Some(s) => Step(b, s, msg)
  {
    assert [a, b][1..] == [b];
    var s := Step(a, stack, msg);
    if s.Some? {
      assert Run([b], s.value, msg) == Step(b, s.value, msg) by {
        var t := Step(b, s.value, msg);
        if t.Some? { assert Run([b][1..], t.value, msg) == Some(t.value); }
      }
    }
  }

  lemma CheckSigRuns(stack: seq<Item>, key: PubKey, msg: Message)
    ensures var m := |stack|;
            Run([PushKey(key), CheckSig], stack, msg) ==
            if m == 0 || Checked(stack[m - 1], Key(key), msg).None? then None
            else Some(stack[..m - 1] + [Number(Checked(stack[m - 1], Key(key), msg).value)])
  {
    var m, s := |stack|, stack + [Key(key)];
    RunTwo(PushKey(key), CheckSig, stack, msg);
    if m > 0 { assert s[m - 1] == stack[m - 1] && s[..m - 1] == stack[..m - 1]; }
  }

  lemma CheckSigAddRuns(below: seq<Item>, count: nat, key: PubKey, msg: Message)
    ensures var m := |below|;
            Run([PushKey(key), CheckSigAdd], below + [Number(count)], msg) ==
            if m == 0 || Checked(below[m - 1], Key(key), msg).None? then None
            else Some(below[..m - 1] + [Number(count + Checked(below[m - 1], Key(key), msg).value)])
  {
    var m, s := |below|, below + [Number(count)] + [Key(key)];
    RunTwo(PushKey(key), CheckSigAdd, below + [Number(count)], msg);
    if m > 0 { assert s[m - 1] == below[m - 1] && s[..m - 1] == below[..m - 1]; }
  }

  /** The stack with one element per key replaced by their tally. */
  function Tallied(keys: seq<PubKey>, stack: seq<Item>, msg: Message): Option<seq<Item>> {
    if |stack| < |keys| || !ValidFor(stack, keys, msg) then None
    else Some(stack[..|stack| - |keys|] + [Number(Tally(stack, |keys|))])
  }

  lemma CountedItem(stack: seq<Item>, n: nat, key: PubKey, msg: Message)
    requires 0 < n <= |stack|
    ensures var c := Checked(ItemFor(stack, n - 1), Key(key), msg);
            c.Some? ==> Tally(stack, n) == Tally(stack, n - 1) + c.value
  {}

  lemma ValidForNext(stack: seq<Item>, keys: seq<PubKey>, msg: Message)
    requires 0 < |keys| <= |stack|
    ensures var n := |keys|;
            ValidFor(stack, keys, msg) <==>
            ValidFor(stack, keys[..n - 1], msg) && Checked(ItemFor(stack, n - 1), Key(keys[n - 1]), msg).Some?
  {
    var n := |keys|;
    assert keys == keys[..n - 1] + [keys[n - 1]];
    assert ValidFor(stack, keys, msg) ==> Checked(ItemFor(stack, n - 1), Key(keys[n - 1]), msg).Some?;
  }

  lemma FirstKeyTally(key: PubKey, stack: seq<Item>, msg: Message)
    ensures Run([PushKey(key), CheckSig], stack, msg) == Tallied([key], stack, msg)
  {
    CheckSigRuns(stack, key, msg);
    if stack != [] {
      ValidForNext(stack, [key], msg);
      CountedItem(stack, 1, key, msg);
    }
  }

  lemma NextKeyTally(keys: seq<PubKey>, stack: seq<Item>, msg: Message)
    requires |keys| > 1
    ensures var n := |keys|;
            var before := Tallied(keys[..n - 1], stack, msg);
            Tallied(keys, stack, msg) ==
            if before.None? then None else Run([PushKey(keys[n - 1]), CheckSigAdd], before.value, msg)
  {
    var n, m := |keys|, |stack|;
    if n - 1 <= m {
      var below := stack[..m - (n - 1)];
      CheckSigAddRuns(below, Tally(stack, n - 1), keys[n - 1], msg);
      if n <= m {
        ValidForNext(stack, keys, msg);
        CountedItem(stack, n, keys[n - 1], msg);
        assert below[..|below| - 1] == stack[..m - n];
      }
    }
  }

  /** After checking `keys`, the stack has lost one element per key and gained their tally. */
  lemma {:induction false} KeyChecksTally(keys: seq<PubKey>, stack: seq<Item>, msg: Message)
    requires keys != []
    ensures Run(KeyChecks(keys), stack, msg) == Tallied(keys, stack, msg)
    decreases |keys|
  {
    var n := |keys|;
    var front, key := keys[..n - 1], keys[n - 1];
    if n == 1 {
      assert KeyChecks(keys) == [] + [PushKey(key), CheckSig] == [PushKey(key), CheckSig] && keys == [key];
      FirstKeyTally(key, stack, msg);
    } else {
      KeyChecksTally(front, stack, msg);
      RunAppend(KeyChecks(front), [PushKey(key), CheckSigAdd], stack, msg);
      NextKeyTally(keys, stack, msg);
    }
  }

  /** The redeem script succeeds on a witness exactly when there is one element per key, every signature
      given is valid for its key, and at least the threshold are given. */
  lemma RedeemScriptAcceptsIff(keys: seq<PubKey>, threshold: nat, stack: seq<Item>, msg: Message)
    requires keys != []
    ensures Succeeds(RedeemScript(keys, threshold), stack, msg) <==>
            |stack| == |keys| && ValidFor(stack, keys, msg) && Tally(stack, |keys|) >= threshold
  {
    KeyChecksTally(keys, stack, msg);
    RunAppend(KeyChecks(keys), [PushInt(threshold), GreaterThanOrEqual], stack, msg);
    if |stack| >= |keys| && ValidFor(stack, keys, msg) {
      var s := stack[..|stack| - |keys|] + [Number(Tally(stack, |keys|))];
      RunTwo(PushInt(threshold), GreaterThanOrEqual, s, msg);
    }
  }
}

/** Crediting fees and peg-ins: what a block producer adds to the payload's withdrawals, and what every
    validator expects to find there. */
module Withdrawals {
  import opened Util
  import opened Bridge

  const WEI_PER_GWEI: nat := 1_000_000_000
  const MAX_WITHDRAWALS: nat := 16

  /** An account and an amount in Gwei. */
  datatype Withdrawal = Withdrawal(address: Address, amount: nat)

  datatype Error = PegInAlreadyIncluded | NotConfirmed | UnknownWithdrawal

  function FromWei(wei: nat): nat {
    wei / WEI_PER_GWEI
  }

  function FromSatoshi(sat: nat): nat {
    sat * 10
  }

  // ---- Fees

  function ForEach(addresses: seq<Address>, amount: nat): (ws: seq<Withdrawal>)
    ensures |ws| == |addresses| && forall i :: 0 <= i < |ws| ==> ws[i] == Withdrawal(addresses[i], amount)
  {
    if addresses == [] then [] else [Withdrawal(addresses[0], amount)] + ForEach(addresses[1..], amount)
  }

  function MinerFee(fees: nat): nat {
    fees * 80 / 100
  }

  /** Four fifths for the miner, the rest split evenly over the federation. */
  function SplitFees(fees: nat, miner: Address, federation: seq<Address>): seq<Withdrawal>
    requires federation != []
  {
    if fees == 0 then []
    else
      var share := (fees - MinerFee(fees)) / |federation|;
      [Withdrawal(miner, FromWei(MinerFee(fees)))] + ForEach(federation, FromWei(share))
  }

  function Total(ws: seq<Withdrawal>): nat {
    if ws == [] then 0 else ws[0].amount + Total(ws[1..])
  }

  lemma {:induction false} TotalForEach(addresses: seq<Address>, amount: nat)
    ensures Total(ForEach(addresses, amount)) == |addresses| * amount
  {
    if addresses != [] {
      TotalForEach(addresses[1..], amount);
      assert |addresses| * amount == amount + |addresses[1..]| * amount;
    }
  }

  lemma Quotient(a: nat, n: nat)
    requires n > 0
    ensures n * (a / n) <= a < n * (a / n) + n
  {}

  /** `n` shares of whole Gwei, compared with the amount they were cut from. */
  lemma SharesOf(rest: nat, n: nat)
    requires n > 0
    ensures var paid := (n * FromWei(rest / n)) * WEI_PER_GWEI;
            paid <= rest < paid + n * WEI_PER_GWEI + n
  {
    var share := rest / n;
    var gwei := share / WEI_PER_GWEI;
    Quotient(rest, n);
    Quotient(share, WEI_PER_GWEI);
    var whole := WEI_PER_GWEI * gwei;
    MulBetween(n, whole, share, whole + WEI_PER_GWEI);
    assert n * whole == (n * gwei) * WEI_PER_GWEI;
    assert n * (whole + WEI_PER_GWEI) == n * whole + n * WEI_PER_GWEI;
  }

  lemma MulBetween(n: nat, a: nat, b: nat, c: nat)
    requires a <= b <= c
    ensures n * a <= n * b <= n * c
  {}

  /** Fees are never paid out twice over: the payout is at most what came in, and short of it by less than
      one wei per member plus one Gwei per recipient. */
  lemma SplitFeesConserves(fees: nat, miner: Address, federation: seq<Address>)
    requires federation != []
    ensures var n, paid := |federation|, Total(SplitFees(fees, miner, federation)) * WEI_PER_GWEI;
            paid <= fees && (fees > 0 ==> fees < paid + n + (n + 1) * WEI_PER_GWEI)
  {
    if fees > 0 {
      var n, m := |federation|, MinerFee(fees);
      SharesOf(fees - m, n);
      SharesOf(m, 1);
      var share := FromWei((fees - m) / n);
      TotalForEach(federation, share);
      var ws := SplitFees(fees, miner, federation);
      assert ws[1..] == ForEach(federation, share);
      assert Total(ws) == FromWei(m) + n * share;
    }
  }

  lemma FloorOfFloor(a: nat, m: nat, n: nat)
    requires m > 0 && n > 0
    ensures m * (n * (a / m / n)) <= a < m * (n * (a / m / n) + n)
  {
    var q := a / m;
    Quotient(a, m);
    Quotient(q, n);
    MulBetween(m, n * (q / n), q, n * (q / n) + n);
    MulBetween(m, q + 1, q + 1, n * (q / n) + n);
    assert m * (q + 1) == m * q + m;
  }

  /** Who gets what: the miner four fifths of the fees in whole Gwei, rounded down; every member the same
      amount, an equal part of the rest, again in whole Gwei and rounded down. Nobody is listed when there
      are no fees. */
  lemma SplitAmounts(fees: nat, miner: Address, federation: seq<Address>, i: nat)
    requires i < |federation|
    ensures var ws, n := SplitFees(fees, miner, federation), |federation|;
            if fees == 0 then ws == []
            else
              && |ws| == n + 1 && ws[0].address == miner && ws[i + 1].address == federation[i]
              && 5 * (ws[0].amount * 1_000_000_000) <= 4 * fees < 5 * (ws[0].amount * 1_000_000_000 + 1_000_000_000)
              && n * (ws[i + 1].amount * 1_000_000_000) <= (fees + 4) / 5
              && (fees + 4) / 5 < n * (ws[i + 1].amount * 1_000_000_000 + 1_000_000_000)
  {
    if fees > 0 {
      var n, m := |federation|, MinerFee(fees);
      assert m == 4 * fees / 5 && fees - m == (fees + 4) / 5;
      FloorOfFloor(4 * fees, 5, 1_000_000_000);
      FloorOfFloor((fees + 4) / 5, n, 1_000_000_000);
    }
  }

  // ---- Peg-ins

  /** Satoshis per account. */
  type Credits = map<Address, nat>

  function Credited(credits: Credits, p: PegIn): Credits {
    credits[p.account := (if p.account in credits then credits[p.account] else 0) + p.amount]
  }

  /** A block credits at most sixteen accounts; one it already credits always fits. */
  predicate Fits(credits: Credits, p: PegIn) {
    |credits| < MAX_WITHDRAWALS || p.account in credits
  }

  datatype Filled = Filled(credits: Credits, processed: seq<PegIn>)

  function Fill(pegins: seq<PegIn>): Filled {
    if pegins == [] then Filled(map[], [])
    else FillNext(Fill(pegins[..|pegins| - 1]), pegins[|pegins| - 1])
  }

  function CreditsOf(pegins: seq<PegIn>): Credits {
    if pegins == [] then map[]
    else Credited(CreditsOf(pegins[..|pegins| - 1]), pegins[|pegins| - 1])
  }

  function Amounts(pegins: seq<PegIn>): nat {
    if pegins == [] then 0 else Amounts(pegins[..|pegins| - 1]) + pegins[|pegins| - 1].amount
  }

  function CreditList(credits: Credits, accounts: seq<Address>): seq<Withdrawal>
    requires forall a :: a in accounts ==> a in credits
  {
    if accounts == [] then []
    else [Withdrawal(accounts[0], FromSatoshi(credits[accounts[0]]))] + CreditList(credits, accounts[1..])
  }

  /** The withdrawals for the credited accounts, in address order. */
  function PegInWithdrawals(credits: Credits): seq<Withdrawal> {
    CreditList(credits, Ascending(credits.Keys))
  }

  /** At most sixteen accounts are credited, with exactly what was processed for each. */
  lemma {:induction false} FillIsBounded(pegins: seq<PegIn>)
    ensures var f := Fill(pegins);
            && |f.credits| <= 16
            && f.credits == CreditsOf(f.processed)
            && MapSum(f.credits) == Amounts(f.processed)
  {
    if pegins != [] {
      var front, p := pegins[..|pegins| - 1], pegins[|pegins| - 1];
      FillIsBounded(front);
      var f := Fill(front);
      if Fits(f.credits, p) {
        var processed := f.processed + [p];
        assert processed[..|processed| - 1] == f.processed;
        MapSumUpdate(f.credits, p.account, Credited(f.credits, p)[p.account]);
        assert Credited(f.credits, p).Keys == f.credits.Keys + {p.account};
      }
    }
  }

  function FillNext(f: Filled, p: PegIn): Filled {
    if Fits(f.credits, p) then Filled(Credited(f.credits, p), f.processed + [p]) else f
  }

  /** `p` is processed exactly when its account is credited, and left out only when the block is full. */
  predicate Settled(f: Filled, p: PegIn) {
    && (p in f.processed <==> p.account in f.credits)
    && (p !in f.processed ==> |f.credits| == MAX_WITHDRAWALS)
  }

  lemma NextKeepsSettled(f: Filled, last: PegIn, p: PegIn)
    requires |f.credits| <= MAX_WITHDRAWALS && Settled(f, p)
    ensures Settled(FillNext(f, last), p)
  {
    assert Credited(f.credits, last).Keys == f.credits.Keys + {last.account};
  }

  lemma NextSettlesLast(f: Filled, last: PegIn)
    requires |f.credits| <= MAX_WITHDRAWALS && last !in f.processed
    ensures Settled(FillNext(f, last), last)
  {}

  /** A peg-in is processed exactly when its account is credited: an account is never credited in part, and
      one is only left out when sixteen others come first. */
  lemma {:induction false} ProcessedIff(pegins: seq<PegIn>, p: PegIn)
    requires p in pegins
    ensures Settled(Fill(pegins), p)
  {
    var front, last := pegins[..|pegins| - 1], pegins[|pegins| - 1];
    FillIsBounded(front);
    assert pegins == front + [last];
    if p in front {
      ProcessedIff(front, p);
      NextKeepsSettled(Fill(front), last, p);
    } else {
      if p in Fill(front).processed { ProcessedWasQueued(front, p); }
      NextSettlesLast(Fill(front), p);
    }
  }

  lemma {:induction false} ProcessedWasQueued(pegins: seq<PegIn>, p: PegIn)
    requires p in Fill(pegins).processed
    ensures p in pegins
  {
    var front := pegins[..|pegins| - 1];
    if p in Fill(front).processed { ProcessedWasQueued(front, p); }
  }

  lemma {:induction false} CreditListTotal(credits: Credits, accounts: seq<Address>)
    requires Distinct(accounts) && forall a :: a in accounts <==> a in credits
    ensures Total(CreditList(credits, accounts)) == 10 * MapSum(credits)
    decreases |accounts|
  {
    if accounts == [] {
      assert credits == map[];
    } else {
      var a, rest := accounts[0], credits - {accounts[0]};
      MapSumSplit(credits, a);
      assert forall x :: x in accounts[1..] <==> x in rest by {
        assert accounts == [a] + accounts[1..];
      }
      CreditListTotal(rest, accounts[1..]);
      SameCreditList(credits, rest, accounts[1..]);
    }
  }

  lemma {:induction false} SameCreditList(c: Credits, d: Credits, accounts: seq<Address>)
    requires forall a :: a in accounts ==> a in c && a in d && c[a] == d[a]
    ensures CreditList(c, accounts) == CreditList(d, accounts)
  {
    if accounts != [] { SameCreditList(c, d, accounts[1..]); }
  }

  /** The peg-in withdrawals total ten Gwei per processed satoshi. */
  lemma PegInsConserved(pegins: seq<PegIn>)
    ensures Total(PegInWithdrawals(Fill(pegins).credits)) == 10 * Amounts(Fill(pegins).processed)
  {
    FillIsBounded(pegins);
    var credits := Fill(pegins).credits;
    CreditListTotal(credits, Ascending(credits.Keys));
  }

  lemma {:induction false} CreditListContains(credits: Credits, accounts: seq<Address>, w: Withdrawal)
    requires forall a :: a in accounts ==> a in credits
    ensures w in CreditList(credits, accounts) <==>
            w.address in accounts && w.amount == FromSatoshi(credits[w.address])
  {
    if accounts != [] { CreditListContains(credits, accounts[1..], w); }
  }

  // ---- What a validator expects

  /** A sorted map collected from a list: later entries replace earlier ones. */
  function Collect(ws: seq<Withdrawal>): map<Address, nat> {
    if ws == [] then map[]
    else Collect(ws[..|ws| - 1])[ws[|ws| - 1].address := ws[|ws| - 1].amount]
  }

  function WithPegin(expected: map<Address, nat>, p: PegIn): map<Address, nat> {
    expected[p.account := (if p.account in expected then expected[p.account] else 0) + FromSatoshi(p.amount)]
  }

  /** `bridge` holds the confirmed peg-ins, `wallet` the ones already included. */
  function Expect(base: map<Address, nat>, pegins: seq<TxKey>, wallet: set<TxKey>, bridge: map<TxKey, PegIn>):
      Result<map<Address, nat>, Error>
  {
    if pegins == [] then Ok(base)
    else
      var before, t := Expect(base, pegins[..|pegins| - 1], wallet, bridge), pegins[|pegins| - 1];
      if before.Err? then before
      else if t in wallet then Err(PegInAlreadyIncluded)
      else if t !in bridge then Err(NotConfirmed)
      else Ok(WithPegin(before.value, bridge[t]))
  }

  /** The expectations left after striking out every withdrawal that meets one. */
  function Unmatched(expected: map<Address, nat>, ws: seq<Withdrawal>): map<Address, nat> {
    if ws == [] then expected
    else
      var left, w := Unmatched(expected, ws[..|ws| - 1]), ws[|ws| - 1];
      if w.address in left && left[w.address] == w.amount then left - {w.address} else left
  }

  function CheckResult(
      fees: seq<Withdrawal>, pegins: seq<TxKey>, ws: seq<Withdrawal>, wallet: set<TxKey>, bridge: map<TxKey, PegIn>):
      Result<(), Error>
  {
    var expected := Expect(Collect(fees), pegins, wallet, bridge);
    if expected.Err? then Err(expected.error)
    else if Unmatched(expected.value, ws) == map[] then Ok(()) else Err(UnknownWithdrawal)
  }

  lemma {:induction false} UnmatchedAre(expected: map<Address, nat>, ws: seq<Withdrawal>, a: Address)
    ensures a in Unmatched(expected, ws) <==> a in expected && Withdrawal(a, expected[a]) !in ws
    ensures a in Unmatched(expected, ws) ==> Unmatched(expected, ws)[a] == expected[a]
  {
    if ws != [] {
      var front := ws[..|ws| - 1];
      assert ws == front + [ws[|ws| - 1]];
      UnmatchedAre(expected, front, a);
      UnmatchedAre(expected, front, ws[|ws| - 1].address);
    }
  }

  predicate Covers(ws: seq<Withdrawal>, expected: map<Address, nat>) {
    forall a :: a in expected ==> Withdrawal(a, expected[a]) in ws
  }

  /** Striking out leaves nothing exactly when every expected withdrawal is in the payload. */
  lemma AllMatchedIff(expected: map<Address, nat>, ws: seq<Withdrawal>)
    ensures Unmatched(expected, ws) == map[] <==> Covers(ws, expected)
  {
    forall a
      ensures a in Unmatched(expected, ws) <==> a in expected && Withdrawal(a, expected[a]) !in ws
    {
      UnmatchedAre(expected, ws, a);
    }
    if Unmatched(expected, ws) != map[] {
      var a :| a in Unmatched(expected, ws);
    }
  }

  lemma {:induction false} CollectFinds(ws: seq<Withdrawal>, a: Address)
    ensures a in Collect(ws) ==> Withdrawal(a, Collect(ws)[a]) in ws
    ensures (exists i :: 0 <= i < |ws| && ws[i].address == a) ==> a in Collect(ws)
  {
    if ws != [] {
      var front, last := ws[..|ws| - 1], ws[|ws| - 1];
      CollectFinds(front, a);
      assert ws == front + [last];
      if last.address != a && exists i :: 0 <= i < |ws| && ws[i].address == a {
        var i :| 0 <= i < |ws| && ws[i].address == a;
        assert front[i].address == a;
      }
    }
  }

  // ---- Exactly which payloads are accepted

  predicate PaidAFee(fees: seq<Withdrawal>, a: Address) {
    exists i :: 0 <= i < |fees| && fees[i].address == a
  }

  /** The last fee listed for an account. */
  function FeeFor(fees: seq<Withdrawal>, a: Address): nat {
    if fees == [] then 0
    else if fees[|fees| - 1].address == a then fees[|fees| - 1].amount
    else FeeFor(fees[..|fees| - 1], a)
  }

  /** No listed peg-in is in the wallet, and the bridge confirms each. */
  predicate AllNew(pegins: seq<TxKey>, wallet: set<TxKey>, bridge: map<TxKey, PegIn>) {
    forall i :: 0 <= i < |pegins| ==> pegins[i] !in wallet && pegins[i] in bridge
  }

  predicate PeggedIn(pegins: seq<TxKey>, bridge: map<TxKey, PegIn>, a: Address) {
    exists i :: 0 <= i < |pegins| && pegins[i] in bridge && bridge[pegins[i]].account == a
  }

  /** What the listed peg-ins are worth for an account, in satoshis. */
  function SatoshisFor(pegins: seq<TxKey>, bridge: map<TxKey, PegIn>, a: Address): nat {
    if pegins == [] then 0
    else
      var t := pegins[|pegins| - 1];
      SatoshisFor(pegins[..|pegins| - 1], bridge, a)
      + if t in bridge && bridge[t].account == a then bridge[t].amount else 0
  }

  lemma {:induction false} CollectIs(fees: seq<Withdrawal>, a: Address)
    ensures a in Collect(fees) <==> PaidAFee(fees, a)
    ensures a in Collect(fees) ==> Collect(fees)[a] == FeeFor(fees, a)
    ensures a !in Collect(fees) ==> FeeFor(fees, a) == 0
  {
    if fees != [] {
      var front, last := fees[..|fees| - 1], fees[|fees| - 1];
      CollectIs(front, a);
      assert fees == front + [last];
      assert PaidAFee(fees, a) <==> PaidAFee(front, a) || last.address == a by {
        if PaidAFee(front, a) { var i :| 0 <= i < |front| && front[i].address == a; assert fees[i].address == a; }
        if last.address == a { assert fees[|fees| - 1].address == a; }
      }
    }
  }

  lemma AllNewNext(pegins: seq<TxKey>, wallet: set<TxKey>, bridge: map<TxKey, PegIn>)
    requires pegins != []
    ensures var front, t := pegins[..|pegins| - 1], pegins[|pegins| - 1];
            AllNew(pegins, wallet, bridge) <==> AllNew(front, wallet, bridge) && t !in wallet && t in bridge
  {
    assert pegins == pegins[..|pegins| - 1] + [pegins[|pegins| - 1]];
  }

  lemma PeggedInNext(pegins: seq<TxKey>, bridge: map<TxKey, PegIn>, a: Address)
    requires pegins != []
    ensures var front, t := pegins[..|pegins| - 1], pegins[|pegins| - 1];
            PeggedIn(pegins, bridge, a) <==> PeggedIn(front, bridge, a) || (t in bridge && bridge[t].account == a)
  {
    var front, t := pegins[..|pegins| - 1], pegins[|pegins| - 1];
    assert pegins == front + [t];
    if PeggedIn(front, bridge, a) {
      var i :| 0 <= i < |front| && front[i] in bridge && bridge[front[i]].account == a;
      assert pegins[i] in bridge && bridge[pegins[i]].account == a;
    }
    if t in bridge && bridge[t].account == a { assert pegins[|pegins| - 1] in bridge; }
  }

  /** The validator's expectations: none if some peg-in is not new, else the last fee plus ten Gwei per
      satoshi for every account that is paid a fee or pegged in. */
  lemma {:induction false} ExpectIs(
      fees: seq<Withdrawal>, pegins: seq<TxKey>, wallet: set<TxKey>, bridge: map<TxKey, PegIn>, a: Address)
    ensures var e := Expect(Collect(fees), pegins, wallet, bridge);
            && (e.Ok? <==> AllNew(pegins, wallet, bridge))
            && (e.Ok? ==> (a in e.value <==> PaidAFee(fees, a) || PeggedIn(pegins, bridge, a)))
            && (e.Ok? && a in e.value ==> e.value[a] == FeeFor(fees, a) + 10 * SatoshisFor(pegins, bridge, a))
            && (e.Ok? && a !in e.value ==> FeeFor(fees, a) == 0 && SatoshisFor(pegins, bridge, a) == 0)
  {
    CollectIs(fees, a);
    if pegins != [] {
      ExpectIs(fees, pegins[..|pegins| - 1], wallet, bridge, a);
      AllNewNext(pegins, wallet, bridge);
      PeggedInNext(pegins, bridge, a);
    }
  }

  /** A payload is accepted exactly when every listed peg-in is new and confirmed, and for every account that
      is paid a fee or pegged in one withdrawal has the sum of both. */
  lemma PayloadAcceptedIff(
      fees: seq<Withdrawal>, pegins: seq<TxKey>, ws: seq<Withdrawal>, wallet: set<TxKey>, bridge: map<TxKey, PegIn>)
    ensures CheckResult(fees, pegins, ws, wallet, bridge).Ok? <==>
            && AllNew(pegins, wallet, bridge)
            && forall a :: PaidAFee(fees, a) || PeggedIn(pegins, bridge, a) ==>
                 Withdrawal(a, FeeFor(fees, a) + 10 * SatoshisFor(pegins, bridge, a)) in ws
  {
    var e := Expect(Collect(fees), pegins, wallet, bridge);
    ExpectIs(fees, pegins, wallet, bridge, 0);
    if e.Ok? {
      AllMatchedIff(e.value, ws);
      forall a
        ensures a in e.value <==> PaidAFee(fees, a) || PeggedIn(pegins, bridge, a)
        ensures a in e.value ==> e.value[a] == FeeFor(fees, a) + 10 * SatoshisFor(pegins, bridge, a)
      {
        ExpectIs(fees, pegins, wallet, bridge, a);
      }
    }
  }

  /** The first listed peg-in that is not new decides the error. */
  lemma FirstBadPeginDecides(
      fees: seq<Withdrawal>, pegins: seq<TxKey>, ws: seq<Withdrawal>, wallet: set<TxKey>, bridge: map<TxKey, PegIn>,
      i: nat)
    requires i < |pegins| && AllNew(pegins[..i], wallet, bridge) && (pegins[i] in wallet || pegins[i] !in bridge)
    ensures CheckResult(fees, pegins, ws, wallet, bridge) ==
            Err(if pegins[i] in wallet then PegInAlreadyIncluded else NotConfirmed)
  {
    ExpectIs(fees, pegins[..i], wallet, bridge, 0);
    assert pegins[..i + 1][..i] == pegins[..i];
    FirstErrorStays(Collect(fees), pegins, i + 1, |pegins|, wallet, bridge);
    assert pegins[..|pegins|] == pegins;
  }

  // ---- Producer and validator agree

  function Txids(pegins: seq<PegIn>): (ts: seq<TxKey>)
    ensures |ts| == |pegins| && forall i :: 0 <= i < |ts| ==> ts[i] == pegins[i].txid
  {
    if pegins == [] then [] else Txids(pegins[..|pegins| - 1]) + [pegins[|pegins| - 1].txid]
  }

  /** The bridge confirms each peg-in as it was queued, and none is in the wallet yet. */
  predicate Confirmed(pegins: seq<PegIn>, wallet: set<TxKey>, bridge: map<TxKey, PegIn>) {
    forall i :: 0 <= i < |pegins| ==>
      pegins[i].txid !in wallet && pegins[i].txid in bridge && bridge[pegins[i].txid] == pegins[i]
  }

  function Both(base: map<Address, nat>, credits: Credits): map<Address, nat> {
    map a | a in base.Keys + credits.Keys ::
      (if a in base then base[a] else 0) + (if a in credits then FromSatoshi(credits[a]) else 0)
  }

  lemma BothStep(base: map<Address, nat>, credits: Credits, p: PegIn)
    ensures WithPegin(Both(base, credits), p) == Both(base, Credited(credits, p))
  {}

  lemma ExpectStep(base: map<Address, nat>, pegins: seq<PegIn>, wallet: set<TxKey>, bridge: map<TxKey, PegIn>)
    requires pegins != [] && Confirmed(pegins, wallet, bridge)
    ensures var before := Expect(base, Txids(pegins[..|pegins| - 1]), wallet, bridge);
            before.Ok? ==>
              Expect(base, Txids(pegins), wallet, bridge) == Ok(WithPegin(before.value, pegins[|pegins| - 1]))
  {}

  /** What the validator expects is the fees plus the credits of the listed peg-ins. */
  lemma {:induction false} ExpectAddsCredits(
      base: map<Address, nat>, pegins: seq<PegIn>, wallet: set<TxKey>, bridge: map<TxKey, PegIn>)
    requires Confirmed(pegins, wallet, bridge)
    ensures Expect(base, Txids(pegins), wallet, bridge) == Ok(Both(base, CreditsOf(pegins)))
  {
    if pegins == [] {
      assert Both(base, map[]) == base;
    } else {
      var front, p := pegins[..|pegins| - 1], pegins[|pegins| - 1];
      ExpectAddsCredits(base, front, wallet, bridge);
      ExpectStep(base, pegins, wallet, bridge);
      BothStep(base, CreditsOf(front), p);
    }
  }

  /** What an honest producer lists. */
  function Listed(fees: seq<Withdrawal>, credits: Credits): seq<Withdrawal> {
    fees + PegInWithdrawals(credits)
  }

  lemma FeesAreListed(fees: seq<Withdrawal>, credits: Credits)
    ensures Covers(Listed(fees, credits), Collect(fees))
  {
    forall a | a in Collect(fees)
      ensures Withdrawal(a, Collect(fees)[a]) in fees
    {
      CollectFinds(fees, a);
    }
  }

  function InGwei(credits: Credits): map<Address, nat> {
    map a | a in credits :: FromSatoshi(credits[a])
  }

  lemma CreditsAreListed(fees: seq<Withdrawal>, credits: Credits)
    ensures Covers(Listed(fees, credits), InGwei(credits))
  {
    forall a | a in credits
      ensures Withdrawal(a, FromSatoshi(credits[a])) in Listed(fees, credits)
    {
      CreditListContains(credits, Ascending(credits.Keys), Withdrawal(a, FromSatoshi(credits[a])));
    }
  }

  /** For every account that receives both a fee and a peg-in, the sum is listed. */
  predicate SumsListed(ws: seq<Withdrawal>, base: map<Address, nat>, credits: Credits) {
    forall a :: a in base && a in credits ==> Withdrawal(a, base[a] + FromSatoshi(credits[a])) in ws
  }

  lemma CoversBothIff(ws: seq<Withdrawal>, base: map<Address, nat>, credits: Credits)
    requires Covers(ws, base) && Covers(ws, InGwei(credits))
    ensures Covers(ws, Both(base, credits)) <==> SumsListed(ws, base, credits)
  {
    var expected := Both(base, credits);
    if SumsListed(ws, base, credits) {
      forall a | a in expected
        ensures Withdrawal(a, expected[a]) in ws
      {
        if a in credits { assert a in InGwei(credits); }
      }
    }
    if Covers(ws, expected) {
      forall a | a in base && a in credits
        ensures Withdrawal(a, base[a] + FromSatoshi(credits[a])) in ws
      {
        assert a in expected;
      }
    }
  }

  /** An honest producer's block passes the check exactly when, for every account that receives both a fee
      and a peg-in, the sum happens to be listed. */
  lemma HonestBlockAcceptedIff(fees: seq<Withdrawal>, queue: seq<PegIn>, wallet: set<TxKey>, bridge: map<TxKey, PegIn>)
    requires Confirmed(Fill(queue).processed, wallet, bridge)
    ensures var f := Fill(queue);
            CheckResult(fees, Txids(f.processed), Listed(fees, f.credits), wallet, bridge) == Ok(()) <==>
            SumsListed(Listed(fees, f.credits), Collect(fees), f.credits)
  {
    FillIsBounded(queue);
    ExpectAddsCredits(Collect(fees), Fill(queue).processed, wallet, bridge);
    ListedAcceptedIff(fees, Fill(queue).credits, Txids(Fill(queue).processed), wallet, bridge);
  }

  lemma ListedAcceptedIff(
      fees: seq<Withdrawal>, credits: Credits, pegins: seq<TxKey>, wallet: set<TxKey>, bridge: map<TxKey, PegIn>)
    requires Expect(Collect(fees), pegins, wallet, bridge) == Ok(Both(Collect(fees), credits))
    ensures CheckResult(fees, pegins, Listed(fees, credits), wallet, bridge) == Ok(()) <==>
            SumsListed(Listed(fees, credits), Collect(fees), credits)
  {
    AllMatchedIff(Both(Collect(fees), credits), Listed(fees, credits));
    FeesAreListed(fees, credits);
    CreditsAreListed(fees, credits);
    CoversBothIff(Listed(fees, credits), Collect(fees), credits);
  }

  /** With fee recipients disjoint from peg-in accounts every honest block is accepted. */
  lemma HonestBlockAccepted(fees: seq<Withdrawal>, queue: seq<PegIn>, wallet: set<TxKey>, bridge: map<TxKey, PegIn>)
    requires Confirmed(Fill(queue).processed, wallet, bridge)
    requires forall i :: 0 <= i < |fees| ==> fees[i].address !in Fill(queue).credits
    ensures var f := Fill(queue);
            CheckResult(fees, Txids(f.processed), Listed(fees, f.credits), wallet, bridge) == Ok(())
  {
    HonestBlockAcceptedIff(fees, queue, wallet, bridge);
    forall a | a in Collect(fees)
      ensures a !in Fill(queue).credits
    {
      CollectFinds(fees, a);
    }
  }

  predicate DistinctRecipients(ws: seq<Withdrawal>) {
    forall i, j :: 0 <= i < j < |ws| ==> ws[i].address != ws[j].address
  }

  lemma {:induction false} CollectDistinct(fees: seq<Withdrawal>, w: Withdrawal)
    requires DistinctRecipients(fees)
    ensures w in fees <==> w.address in Collect(fees) && Collect(fees)[w.address] == w.amount
  {
    if fees != [] {
      var front, last := fees[..|fees| - 1], fees[|fees| - 1];
      assert fees == front + [last];
      CollectDistinct(front, w);
      if w in front {
        var i :| 0 <= i < |front| && front[i] == w;
        assert fees[i].address != last.address;
      }
    }
  }

  /** No account receives both a nonzero fee and a nonzero peg-in. */
  predicate NoneReceivesBoth(fees: seq<Withdrawal>, credits: Credits) {
    forall w :: w in fees && w.address in credits ==> w.amount == 0 || credits[w.address] == 0
  }

  /** With distinct fee recipients the condition is that no account receives both. */
  lemma DistinctRecipientsAcceptedIff(
      fees: seq<Withdrawal>, queue: seq<PegIn>, wallet: set<TxKey>, bridge: map<TxKey, PegIn>)
    requires Confirmed(Fill(queue).processed, wallet, bridge) && DistinctRecipients(fees)
    ensures var f := Fill(queue);
            CheckResult(fees, Txids(f.processed), Listed(fees, f.credits), wallet, bridge) == Ok(()) <==>
            NoneReceivesBoth(fees, f.credits)
  {
    HonestBlockAcceptedIff(fees, queue, wallet, bridge);
    SumsAreExact(fees, Fill(queue).credits);
    EntriesAreSame(fees);
    ZeroSumsIff(Listed(fees, Fill(queue).credits), fees, Collect(fees), Fill(queue).credits);
  }

  predicate SumExact(ws: seq<Withdrawal>, base: map<Address, nat>, credits: Credits, a: Address)
    requires a in base && a in credits
  {
    Withdrawal(a, base[a] + FromSatoshi(credits[a])) in ws <==> base[a] == 0 || credits[a] == 0
  }

  predicate SumsExact(ws: seq<Withdrawal>, base: map<Address, nat>, credits: Credits) {
    forall a :: a in base && a in credits ==> SumExact(ws, base, credits, a)
  }

  lemma SumIsListedIff(fees: seq<Withdrawal>, credits: Credits, a: Address)
    requires DistinctRecipients(fees) && a in Collect(fees) && a in credits
    ensures SumExact(Listed(fees, credits), Collect(fees), credits, a)
  {
    var sum := Withdrawal(a, Collect(fees)[a] + FromSatoshi(credits[a]));
    CreditListContains(credits, Ascending(credits.Keys), sum);
    CollectDistinct(fees, sum);
  }

  lemma SumsAreExact(fees: seq<Withdrawal>, credits: Credits)
    requires DistinctRecipients(fees)
    ensures SumsExact(Listed(fees, credits), Collect(fees), credits)
  {
    forall a | a in Collect(fees) && a in credits
      ensures SumExact(Listed(fees, credits), Collect(fees), credits, a)
    {
      SumIsListedIff(fees, credits, a);
    }
  }

  ghost predicate SameEntries(fees: seq<Withdrawal>, base: map<Address, nat>) {
    forall w :: w in fees <==> w.address in base && base[w.address] == w.amount
  }

  lemma EntriesAreSame(fees: seq<Withdrawal>)
    requires DistinctRecipients(fees)
    ensures SameEntries(fees, Collect(fees))
  {
    forall w
      ensures w in fees <==> w.address in Collect(fees) && Collect(fees)[w.address] == w.amount
    {
      CollectDistinct(fees, w);
    }
  }

  lemma ZeroSumsIff(ws: seq<Withdrawal>, fees: seq<Withdrawal>, base: map<Address, nat>, credits: Credits)
    requires SameEntries(fees, base) && SumsExact(ws, base, credits)
    ensures SumsListed(ws, base, credits) <==> NoneReceivesBoth(fees, credits)
  {
    if NoneReceivesBoth(fees, credits) {
      forall a | a in base && a in credits
        ensures base[a] == 0 || credits[a] == 0
      {
        assert Withdrawal(a, base[a]) in fees;
      }
    }
  }

  // ---- The producer's queue and the validator's check

  class Pegger {
    var queued: map<TxKey, PegIn>
    var wallet: set<TxKey>

    /** The queued peg-ins in txid order. */
    static function InOrder(queued: map<TxKey, PegIn>, keys: seq<TxKey>): (ps: seq<PegIn>)
      requires forall t :: t in keys ==> t in queued
      ensures |ps| == |keys| && forall i :: 0 <= i < |ps| ==> ps[i] == queued[keys[i]]
    {
      if keys == [] then [] else InOrder(queued, keys[..|keys| - 1]) + [queued[keys[|keys| - 1]]]
    }

    constructor (wallet: set<TxKey>)
      ensures queued == map[] && this.wallet == wallet
    {
      queued := map[];
      this.wallet := wallet;
    }

    static method CreditAll(pegins: seq<PegIn>) returns (credits: Credits, processed: seq<PegIn>)
      ensures Filled(credits, processed) == Fill(pegins)
    {
      credits, processed := map[], [];
      for i := 0 to |pegins|
        invariant Filled(credits, processed) == Fill(pegins[..i])
      {
        var p := pegins[i];
        assert pegins[..i + 1][..i] == pegins[..i];
        if |credits| < MAX_WITHDRAWALS || p.account in credits {
          credits := credits[p.account := (if p.account in credits then credits[p.account] else 0) + p.amount];
          processed := processed + [p];
        }
      }
      assert pegins[..|pegins|] == pegins;
    }

    /** Drops what is already in the wallet, then credits the rest in order. */
    method FillPegins(addBalances: seq<Withdrawal>) returns (balances: seq<Withdrawal>, processed: seq<PegIn>)
      modifies this`queued
      ensures queued == old(queued) - wallet
      ensures var f := Fill(InOrder(queued, Ascending(queued.Keys)));
              processed == f.processed && balances == Listed(addBalances, f.credits)
    {
      queued := queued - wallet;
      var credits;
      credits, processed := CreditAll(InOrder(queued, Ascending(queued.Keys)));
      balances := addBalances + PegInWithdrawals(credits);
    }

    method CheckWithdrawals(fees: seq<Withdrawal>, pegins: seq<TxKey>, ws: seq<Withdrawal>, bridge: map<TxKey, PegIn>)
        returns (r: Result<(), Error>)
      ensures r == CheckResult(fees, pegins, ws, wallet, bridge)
    {
      var expected := Collect(fees);
      for i := 0 to |pegins|
        invariant Expect(Collect(fees), pegins[..i], wallet, bridge) == Ok(expected)
      {
        var t := pegins[i];
        assert pegins[..i + 1][..i] == pegins[..i];
        if t in wallet || t !in bridge {
          FirstErrorStays(Collect(fees), pegins, i + 1, |pegins|, wallet, bridge);
          assert pegins[..|pegins|] == pegins;
          return Err(if t in wallet then PegInAlreadyIncluded else NotConfirmed);
        }
        expected := WithPegin(expected, bridge[t]);
      }
      assert pegins[..|pegins|] == pegins;
      ghost var all := expected;
      for i := 0 to |ws|
        invariant expected == Unmatched(all, ws[..i])
      {
        assert ws[..i + 1][..i] == ws[..i];
        if ws[i].address in expected && expected[ws[i].address] == ws[i].amount {
          expected := expected - {ws[i].address};
        }
      }
      assert ws[..|ws|] == ws;
      return if expected == map[] then Ok(()) else Err(UnknownWithdrawal);
    }
  }

  lemma {:induction false} FirstErrorStays(
      base: map<Address, nat>, pegins: seq<TxKey>, i: nat, n: nat, wallet: set<TxKey>, bridge: map<TxKey, PegIn>)
    requires i <= n <= |pegins| && Expect(base, pegins[..i], wallet, bridge).Err?
    ensures Expect(base, pegins[..n], wallet, bridge) == Expect(base, pegins[..i], wallet, bridge)
  {
    if i < n {
      FirstErrorStays(base, pegins, i, n - 1, wallet, bridge);
      assert pegins[..n][..n - 1] == pegins[..n - 1];
    }
  }
}

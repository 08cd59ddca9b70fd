/** Finding peg-ins on the Bitcoin chain across restarts. The queue lives in memory; the wallet and the
    height to rescan from are stored. */
module Pegins {
  import opened Util
  import opened Bridge
  import Withdrawals

  /** The confirmed peg-ins of each Bitcoin block. */
  type Bitcoin = nat -> seq<PegIn>

  ghost predicate Proper(btc: Bitcoin) {
    && (forall h, i :: 0 <= i < |btc(h)| ==> btc(h)[i].height == h)
    && (forall g, h, i, j :: 0 <= i < |btc(g)| && 0 <= j < |btc(h)| && btc(g)[i].txid == btc(h)[j].txid ==>
          btc(g)[i] == btc(h)[j])
  }

  /** `next` is the height the block stream is about to deliver; `credited` records every credit given. */
  datatype Node = Node(
    queued: map<TxKey, PegIn>, wallet: set<TxKey>, scan: Option<nat>, next: nat, synced: bool,
    credited: multiset<TxKey>)

  datatype Config = Config(startHeight: nat)

  function ScanHeight(s: Node, cfg: Config): nat {
    if s.scan.Some? then s.scan.value else cfg.startHeight
  }

  // ---- Steps

  function Enqueued(queued: map<TxKey, PegIn>, ps: seq<PegIn>): map<TxKey, PegIn> {
    if ps == [] then queued
    else Enqueued(queued, ps[..|ps| - 1])[ps[|ps| - 1].txid := ps[|ps| - 1]]
  }

  /** The height of the oldest queued peg-in, or the block after this one. */
  function RescanStart(queued: map<TxKey, PegIn>, height: nat): nat {
    var hs := Heights(queued);
    if hs == {} then height + 1 else Least(hs)
  }

  function Heights(queued: map<TxKey, PegIn>): set<nat> {
    set t | t in queued :: queued[t].height
  }

  /** One streamed block. A monitor that started before the node was synced ignores its peg-ins. */
  function Monitored(s: Node, ps: seq<PegIn>): Node {
    var queued := if s.synced then Enqueued(s.queued, ps) else s.queued;
    s.(queued := queued, scan := Some(RescanStart(queued, s.next)), next := s.next + 1)
  }

  /** A block that passed the check is imported: its peg-ins leave the queue, enter the wallet and are
      credited. */
  function Imported(s: Node, txids: seq<TxKey>): Node {
    s.(queued := s.queued - Elements(txids), wallet := s.wallet + Elements(txids),
       credited := s.credited + multiset(txids))
  }

  /** The producer forgets queued peg-ins that are already in the wallet. */
  function Cleaned(s: Node): Node {
    s.(queued := s.queued - s.wallet)
  }

  function Restarted(s: Node, cfg: Config, synced: bool): Node {
    s.(queued := map[], next := ScanHeight(s, cfg), synced := synced)
  }

  /** What the withdrawal check of a block sees: the fees it owes, the peg-ins it lists, the withdrawals of its
      payload, and what the bridge confirms. */
  datatype Payload = Payload(
    fees: seq<Withdrawals.Withdrawal>, pegins: seq<TxKey>, withdrawals: seq<Withdrawals.Withdrawal>,
    bridge: map<TxKey, PegIn>)

  datatype Step = Monitor | Import(payload: Payload) | Clean | Restart(synced: bool)

  function Apply(s: Node, btc: Bitcoin, cfg: Config, step: Step): Node {
    match step
    case Monitor => Monitored(s, btc(s.next))
    case Import(payload) => Imported(s, payload.pegins)
    case Clean => Cleaned(s)
    case Restart(synced) => Restarted(s, cfg, synced)
  }

  function Run(s: Node, btc: Bitcoin, cfg: Config, steps: seq<Step>): Node
    decreases |steps|
  {
    if steps == [] then s else Run(Apply(s, btc, cfg, steps[0]), btc, cfg, steps[1..])
  }

  /** The payload passes `check_withdrawals` against the wallet. */
  predicate PassesCheck(s: Node, payload: Payload) {
    Withdrawals.CheckResult(payload.fees, payload.pegins, payload.withdrawals, s.wallet, payload.bridge).Ok?
  }

  /** A payload that passes lists no peg-in the wallet already has. */
  lemma PassingIsNew(s: Node, payload: Payload)
    requires PassesCheck(s, payload)
    ensures Elements(payload.pegins) !! s.wallet
  {
    Withdrawals.PayloadAcceptedIff(payload.fees, payload.pegins, payload.withdrawals, s.wallet, payload.bridge);
  }

  predicate GoodStep(s: Node, step: Step) {
    && (step.Import? ==> PassesCheck(s, step.payload) && Distinct(step.payload.pegins))
    && (step.Restart? ==> step.synced)
  }

  predicate GoodRun(s: Node, btc: Bitcoin, cfg: Config, steps: seq<Step>)
    decreases |steps|
  {
    steps != [] ==> GoodStep(s, steps[0]) && GoodRun(Apply(s, btc, cfg, steps[0]), btc, cfg, steps[1..])
  }

  // ---- What every step keeps

  /** Every peg-in streamed so far is in the wallet or in the queue. */
  ghost predicate NoneLost(s: Node, btc: Bitcoin, cfg: Config) {
    forall h, i :: cfg.startHeight <= h < s.next && 0 <= i < |btc(h)| ==>
      btc(h)[i].txid in s.wallet || (btc(h)[i].txid in s.queued && s.queued[btc(h)[i].txid] == btc(h)[i])
  }

  /** Every peg-in below the stored scan height is in the wallet. */
  ghost predicate ScanIsSafe(s: Node, btc: Bitcoin, cfg: Config) {
    forall h, i :: cfg.startHeight <= h < ScanHeight(s, cfg) && 0 <= i < |btc(h)| ==> btc(h)[i].txid in s.wallet
  }

  /** Exactly the peg-ins in the wallet were credited, each once. */
  predicate CreditedOnce(s: Node) {
    s.credited == multiset(s.wallet)
  }

  predicate QueueIsStreamed(s: Node) {
    forall t :: t in s.queued ==> s.queued[t].height < s.next
  }

  ghost predicate CrashSafe(s: Node, btc: Bitcoin, cfg: Config) {
    && NoneLost(s, btc, cfg) && QueueIsStreamed(s)
    && ScanIsSafe(s, btc, cfg) && CreditedOnce(s)
  }

  lemma {:induction false} EnqueuedHolds(queued: map<TxKey, PegIn>, ps: seq<PegIn>, t: TxKey)
    ensures t in Enqueued(queued, ps) <==> t in queued || exists i :: 0 <= i < |ps| && ps[i].txid == t
    ensures (exists i :: 0 <= i < |ps| && ps[i].txid == t) ==>
              exists i :: 0 <= i < |ps| && ps[i] == Enqueued(queued, ps)[t] && ps[i].txid == t
    ensures t in queued && !(exists i :: 0 <= i < |ps| && ps[i].txid == t) ==> Enqueued(queued, ps)[t] == queued[t]
  {
    if ps != [] {
      var front, last := ps[..|ps| - 1], ps[|ps| - 1];
      EnqueuedHolds(queued, front, t);
      if last.txid == t {
        assert ps[|ps| - 1].txid == t;
      } else {
        assert forall i :: 0 <= i < |front| ==> front[i] == ps[i];
        if exists i :: 0 <= i < |ps| && ps[i].txid == t {
          var i :| 0 <= i < |ps| && ps[i].txid == t;
          assert front[i].txid == t;
        }
      }
    }
  }

  lemma EnqueuedIs(btc: Bitcoin, queued: map<TxKey, PegIn>, g: nat, h: nat, i: nat)
    requires Proper(btc) && i < |btc(h)|
    requires h == g || (btc(h)[i].txid in queued && queued[btc(h)[i].txid] == btc(h)[i])
    ensures var p := btc(h)[i];
            p.txid in Enqueued(queued, btc(g)) && Enqueued(queued, btc(g))[p.txid] == p
  {
    EnqueuedHolds(queued, btc(g), btc(h)[i].txid);
  }

  lemma MonitorEnqueues(s: Node, btc: Bitcoin, cfg: Config)
    requires Proper(btc) && NoneLost(s, btc, cfg) && s.synced
    ensures NoneLost(Monitored(s, btc(s.next)), btc, cfg)
  {
    var s' := Monitored(s, btc(s.next));
    forall h, i | cfg.startHeight <= h < s'.next && 0 <= i < |btc(h)|
      ensures btc(h)[i].txid in s'.wallet
           || (btc(h)[i].txid in s'.queued && s'.queued[btc(h)[i].txid] == btc(h)[i])
    {
      if btc(h)[i].txid !in s.wallet { EnqueuedIs(btc, s.queued, s.next, h, i); }
    }
  }

  lemma MonitorStreams(s: Node, btc: Bitcoin)
    requires Proper(btc) && QueueIsStreamed(s)
    ensures QueueIsStreamed(Monitored(s, btc(s.next)))
  {
    forall t | t in Monitored(s, btc(s.next)).queued
      ensures Monitored(s, btc(s.next)).queued[t].height < s.next + 1
    {
      EnqueuedHolds(s.queued, btc(s.next), t);
    }
  }

  lemma RescanBounds(queued: map<TxKey, PegIn>, height: nat)
    requires forall t :: t in queued ==> queued[t].height <= height
    ensures RescanStart(queued, height) <= height + 1
    ensures forall t :: t in queued ==> RescanStart(queued, height) <= queued[t].height
  {
    forall t | t in queued
      ensures queued[t].height in Heights(queued)
    {}
  }

  /** The stored height is safe because everything below it that is not in the wallet would be queued, and
      nothing queued is older. */
  lemma RescanIsSafe(s: Node, btc: Bitcoin, cfg: Config)
    requires Proper(btc) && NoneLost(s, btc, cfg) && QueueIsStreamed(s)
    requires s.next > 0 && s.scan == Some(RescanStart(s.queued, s.next - 1))
    ensures ScanIsSafe(s, btc, cfg)
  {
    RescanBounds(s.queued, s.next - 1);
    forall h, i | cfg.startHeight <= h < ScanHeight(s, cfg) && 0 <= i < |btc(h)|
      ensures btc(h)[i].txid in s.wallet
    {
      assert btc(h)[i].height == h;
    }
  }

  /** No more is scanned again than has to be: the stored height is the next one to stream, or the height of a
      peg-in that is still queued. */
  lemma RescanIsTight(s: Node, ps: seq<PegIn>)
    ensures var s' := Monitored(s, ps);
            && s'.scan.Some?
            && (s'.scan.value == s'.next || exists t :: t in s'.queued && s'.queued[t].height == s'.scan.value)
            && (s'.queued == map[] ==> s'.scan.value == s'.next)
  {
    var s' := Monitored(s, ps);
    if s'.queued != map[] {
      var t :| t in s'.queued;
      assert s'.queued[t].height in Heights(s'.queued);
    }
  }

  lemma MonitorIsSafe(s: Node, btc: Bitcoin, cfg: Config)
    requires Proper(btc) && CrashSafe(s, btc, cfg) && s.synced
    ensures CrashSafe(Monitored(s, btc(s.next)), btc, cfg)
  {
    MonitorEnqueues(s, btc, cfg);
    MonitorStreams(s, btc);
    RescanIsSafe(Monitored(s, btc(s.next)), btc, cfg);
  }

  lemma {:induction false} CountedOnceIff(txids: seq<TxKey>)
    ensures multiset(txids) == multiset(Elements(txids)) <==> Distinct(txids)
  {
    if txids != [] {
      var front, t := txids[..|txids| - 1], txids[|txids| - 1];
      assert txids == front + [t];
      CountedOnceIff(front);
      assert Elements(txids) == Elements(front) + {t};
      if t in front {
        var i :| 0 <= i < |front| && front[i] == t;
        assert txids[i] == txids[|txids| - 1];
        assert multiset(front)[t] >= 1 && multiset(txids)[t] >= 2;
      } else {
        assert multiset(Elements(txids)) == multiset(Elements(front)) + multiset{t};
        assert t !in multiset(front);
        if multiset(txids) == multiset(Elements(txids)) { SameWithout(multiset(front), multiset(Elements(front)), t); }
      }
    }
  }

  lemma SameWithout(a: multiset<TxKey>, b: multiset<TxKey>, t: TxKey)
    requires a + multiset{t} == b + multiset{t}
    ensures a == b
  {
    assert a == (a + multiset{t}) - multiset{t} && b == (b + multiset{t}) - multiset{t};
  }

  /** Given that the check passed, every peg-in is credited exactly once exactly when the block lists none
      twice. */
  lemma ImportCreditsOnceIff(s: Node, payload: Payload)
    requires CreditedOnce(s) && PassesCheck(s, payload)
    ensures CreditedOnce(Imported(s, payload.pegins)) <==> Distinct(payload.pegins)
  {
    var txids := payload.pegins;
    PassingIsNew(s, payload);
    CountedOnceIff(txids);
    assert multiset(s.wallet + Elements(txids)) == multiset(s.wallet) + multiset(Elements(txids));
    if CreditedOnce(Imported(s, txids)) { SameAfter(multiset(s.wallet), multiset(txids), multiset(Elements(txids))); }
  }

  lemma SameAfter(a: multiset<TxKey>, b: multiset<TxKey>, c: multiset<TxKey>)
    requires a + b == a + c
    ensures b == c
  {
    assert b == (a + b) - a && c == (a + c) - a;
  }

  lemma ImportIsSafe(s: Node, btc: Bitcoin, cfg: Config, payload: Payload)
    requires CrashSafe(s, btc, cfg) && PassesCheck(s, payload) && Distinct(payload.pegins)
    ensures var s' := Imported(s, payload.pegins);
            CrashSafe(s', btc, cfg) && forall t :: t in payload.pegins ==> t in s'.wallet && t !in s'.queued
  {
    ImportCreditsOnceIff(s, payload);
  }

  lemma RestartIsSafe(s: Node, btc: Bitcoin, cfg: Config, synced: bool)
    requires CrashSafe(s, btc, cfg)
    ensures CrashSafe(Restarted(s, cfg, synced), btc, cfg)
  {}

  /** In every run of a synced monitor, with restarts at any point, every streamed peg-in is in the wallet
      or queued, everything below the stored height is in the wallet, and nothing is credited twice. */
  lemma {:induction false} RunIsSafe(s: Node, btc: Bitcoin, cfg: Config, steps: seq<Step>)
    requires Proper(btc) && CrashSafe(s, btc, cfg) && s.synced && GoodRun(s, btc, cfg, steps)
    ensures CrashSafe(Run(s, btc, cfg, steps), btc, cfg)
    decreases |steps|
  {
    if steps != [] {
      match steps[0] {
        case Monitor => MonitorIsSafe(s, btc, cfg);
        case Import(payload) => ImportIsSafe(s, btc, cfg, payload);
        case Clean =>
        case Restart(synced) => RestartIsSafe(s, btc, cfg, synced);
      }
      RunIsSafe(Apply(s, btc, cfg, steps[0]), btc, cfg, steps[1..]);
    }
  }

  /** The number of blocks streamed. */
  function Streamed(steps: seq<Step>): nat {
    if steps == [] then 0 else (if steps[0].Monitor? then 1 else 0) + Streamed(steps[1..])
  }

  lemma {:induction false} StreamAdvances(s: Node, btc: Bitcoin, cfg: Config, steps: seq<Step>)
    requires forall i :: 0 <= i < |steps| ==> !steps[i].Restart?
    ensures Run(s, btc, cfg, steps).next == s.next + Streamed(steps)
    decreases |steps|
  {
    if steps != [] { StreamAdvances(Apply(s, btc, cfg, steps[0]), btc, cfg, steps[1..]); }
  }

  /** After a restart at any point every peg-in is found: once the stream has passed its block again, it is in
      the wallet or in the queue, even if the queue that held it was lost. */
  lemma FoundAfterRestart(s: Node, btc: Bitcoin, cfg: Config, h: nat, i: nat, steps: seq<Step>)
    requires Proper(btc) && CrashSafe(s, btc, cfg) && GoodRun(Restarted(s, cfg, true), btc, cfg, steps)
    requires forall j :: 0 <= j < |steps| ==> !steps[j].Restart?
    requires cfg.startHeight <= h < ScanHeight(s, cfg) + Streamed(steps) && i < |btc(h)|
    ensures var s' := Run(Restarted(s, cfg, true), btc, cfg, steps);
            btc(h)[i].txid in s'.wallet || (btc(h)[i].txid in s'.queued && s'.queued[btc(h)[i].txid] == btc(h)[i])
  {
    RunIsSafe(Restarted(s, cfg, true), btc, cfg, steps);
    StreamAdvances(Restarted(s, cfg, true), btc, cfg, steps);
  }

  /** A monitor that started unsynced keeps the guarantee exactly when the block brings nothing new. */
  lemma UnsyncedIsSafeIff(s: Node, btc: Bitcoin, cfg: Config)
    requires Proper(btc) && CrashSafe(s, btc, cfg) && !s.synced && cfg.startHeight <= s.next
    ensures CrashSafe(Monitored(s, btc(s.next)), btc, cfg) <==>
            forall i :: 0 <= i < |btc(s.next)| ==>
              btc(s.next)[i].txid in s.wallet
              || (btc(s.next)[i].txid in s.queued && s.queued[btc(s.next)[i].txid] == btc(s.next)[i])
  {
    var s' := Monitored(s, btc(s.next));
    assert QueueIsStreamed(s');
    if NoneLost(s', btc, cfg) { RescanIsSafe(s', btc, cfg); }
  }

  lemma ImportNone(s: Node)
    ensures Imported(s, []) == s
  {}

  lemma ImportOne(s: Node, txids: seq<TxKey>, t: TxKey)
    ensures var s' := Imported(s, txids);
            Imported(s, txids + [t]) ==
            s'.(queued := s'.queued - {t}, wallet := s'.wallet + {t}, credited := s'.credited + multiset{t})
  {
    assert Elements(txids + [t]) == Elements(txids) + {t};
    assert s.queued - Elements(txids + [t]) == s.queued - Elements(txids) - {t};
    assert s.wallet + Elements(txids + [t]) == s.wallet + Elements(txids) + {t};
    assert s.credited + multiset(txids + [t]) == s.credited + multiset(txids) + multiset{t};
  }

  // ---- The monitor object

  class PegInMonitor {
    const cfg: Config
    var queued: map<TxKey, PegIn>
    var wallet: set<TxKey>
    var scan: Option<nat>
    var next: nat
    var synced: bool
    ghost var credited: multiset<TxKey>

    ghost function View(): Node
      reads this
    {
      Node(queued, wallet, scan, next, synced, credited)
    }

    constructor (cfg: Config, synced: bool)
      ensures this.cfg == cfg
      ensures View() == Node(map[], {}, None, cfg.startHeight, synced, multiset{})
    {
      this.cfg := cfg;
      queued, wallet, scan, next, this.synced := map[], {}, None, cfg.startHeight, synced;
      credited := multiset{};
    }

    /** The callback of the block stream. */
    method OnBlock(pegins: seq<PegIn>)
      modifies this
      ensures View() == Monitored(old(View()), pegins)
    {
      ghost var before := queued;
      for i := 0 to |pegins|
        invariant queued == (if synced then Enqueued(before, pegins[..i]) else before)
        invariant View() == old(View()).(queued := queued)
      {
        if !synced { break; }
        assert pegins[..i + 1][..i] == pegins[..i];
        queued := queued[pegins[i].txid := pegins[i]];
      }
      assert pegins[..|pegins|] == pegins;
      scan := Some(RescanStart(queued, next));
      next := next + 1;
    }

    method ImportPegin(t: TxKey)
      modifies this
      ensures View() == old(View()).(queued := old(queued) - {t}, wallet := old(wallet) + {t},
                                     credited := old(credited) + multiset{t})
    {
      queued := queued - {t};
      wallet := wallet + {t};
      credited := credited + multiset{t};
    }

    method ImportPegins(txids: seq<TxKey>)
      modifies this
      ensures View() == Imported(old(View()), txids)
    {
      ImportNone(View());
      for i := 0 to |txids|
        invariant View() == Imported(old(View()), txids[..i])
      {
        assert txids[..i + 1] == txids[..i] + [txids[i]];
        ImportOne(old(View()), txids[..i], txids[i]);
        ImportPegin(txids[i]);
      }
      assert txids[..|txids|] == txids;
    }

    method Restart(synced: bool)
      modifies this
      ensures View() == Restarted(old(View()), cfg, synced)
    {
      queued := map[];
      next := if scan.Some? then scan.value else cfg.startHeight;
      this.synced := synced;
    }
  }
}

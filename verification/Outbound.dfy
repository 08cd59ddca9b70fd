/** What the self limiter lets go over time: never more than the rate of a key allows, and something whenever a
    queue's timers have fired often enough. */
module Outbound {
  import opened Util
  import opened RateLimiter
  import opened SelfLimiter

  // ---- What a step lets go

  /** The requests that are sent or marked ready in a step. */
  function LetGo(b: Books, rates: Rates, step: Step): seq<Request>
    requires Due(b, step)
  {
    match step
    case Allow(now, req) =>
      if req.key !in b.delayed && WaitFor(RateFor(rates, req.key), b.tats, now, req).None? then [req] else []
    case Poll(now, expired, _) =>
      if expired.None? then []
      else
        var key := b.timers[expired.value].key;
        if key !in b.delayed then [] else Serve(RateFor(rates, key), b.tats, now, b.delayed[key]).sent
  }

  lemma EmittingMovesOn(b: Books)
    ensures Emitted(b).emitted + multiset(Emitted(b).ready) == b.emitted + multiset(b.ready)
  {
    if b.ready != [] { assert b.ready == [b.ready[0]] + b.ready[1..]; }
  }

  /** Exactly those requests join the ones that were sent or ready before. */
  lemma LetGoIsWhatIsAdded(b: Books, rates: Rates, step: Step)
    requires Due(b, step)
    ensures var b' := Apply(b, rates, step);
            b'.emitted + multiset(b'.ready) == b.emitted + multiset(b.ready) + multiset(LetGo(b, rates, step))
  {
    match step
    case Allow(_, _) =>
    case Poll(now, expired, prune) =>
      var b1 := AfterExpiry(b, rates, now, expired);
      assert b1.emitted == b.emitted && multiset(b1.ready) == multiset(b.ready) + multiset(LetGo(b, rates, step)) by {
        assert b1.ready == b.ready + LetGo(b, rates, step);
      }
      EmittingMovesOn(if prune then b1.(tats := Pruned(b1.tats, now)) else b1);
  }

  // ---- Never too much

  /** The tokens of the requests for `key` that fit in a bucket at all; others are sent without being counted. */
  function TokensFor(r: Rate, reqs: seq<Request>, key: Key): nat {
    if reqs == [] then 0
    else (if reqs[0].key == key && Cost(r, reqs[0].tokens) <= r.tau then reqs[0].tokens else 0)
         + TokensFor(r, reqs[1..], key)
  }

  /** What one step lets go for a key, and the key's level after it. */
  datatype Mark = Mark(now: nat, tokens: nat, level: nat)

  function Marks(b: Books, rates: Rates, steps: seq<Step>, key: Key): seq<Mark>
    requires Timed(b, rates, steps)
    decreases |steps|
  {
    if steps == [] then []
    else
      var step, next := steps[0], Apply(b, rates, steps[0]);
      [Mark(step.now, TokensFor(RateFor(rates, key), LetGo(b, rates, step), key), Level(next.tats, key, step.now))]
      + Marks(next, rates, steps[1..], key)
  }

  /** The tokens let go between `from` and `to`. */
  function SentIn(marks: seq<Mark>, from: nat, to: nat): nat {
    if marks == [] then 0
    else (if from <= marks[0].now <= to then marks[0].tokens else 0) + SentIn(marks[1..], from, to)
  }

  predicate InOrder(steps: seq<Step>, now: nat) {
    steps != [] ==> now <= steps[0].now && InOrder(steps[1..], steps[0].now)
  }

  function Level(tats: Tats<Key>, key: Key, now: nat): nat {
    Max(now, Tat(tats, key, now))
  }

  predicate WithinFor(r: Rate, tats: Tats<Key>, key: Key, now: nat) {
    key in tats ==> tats[key] <= now + r.tau
  }

  /** `after` follows from `before` by letting `tokens` go at `now`. */
  predicate Rises(r: Rate, before: Tats<Key>, after: Tats<Key>, key: Key, now: nat, tokens: nat) {
    && Level(before, key, now) + Cost(r, tokens) <= Level(after, key, now)
    && (WithinFor(r, before, key, now) ==> WithinFor(r, after, key, now))
  }

  lemma ChargeRises(r: Rate, r': Rate, tats: Tats<Key>, now: nat, req: Request, key: Key)
    requires req.key == key ==> r' == r
    ensures var tokens := if WaitFor(r', tats, now, req).None? then TokensFor(r, [req], key) else 0;
            Rises(r, tats, Charged(r', tats, now, req), key, now, tokens)
  {
    assert [req][1..] == [];
    assert Cost(r, 0) == 0;
  }

  lemma {:induction false} ServeRises(r: Rate, r': Rate, tats: Tats<Key>, now: nat, queue: seq<Request>, key: Key)
    requires forall i :: 0 <= i < |queue| && queue[i].key == key ==> r' == r
    ensures var s := Serve(r', tats, now, queue);
            Rises(r, tats, s.tats, key, now, TokensFor(r, s.sent, key))
    decreases |queue|
  {
    assert Cost(r, 0) == 0;
    if queue != [] {
      var req, rest := queue[0], queue[1..];
      ChargeRises(r, r', tats, now, req, key);
      if WaitFor(r', tats, now, req).None? {
        var next := Charged(r', tats, now, req);
        ServeRises(r, r', next, now, rest, key);
        var sent := Serve(r', next, now, rest).sent;
        assert ([req] + sent)[1..] == sent && [req][1..] == [];
        Distribute(r, TokensFor(r, [req], key), TokensFor(r, sent, key));
      }
    }
  }

  lemma PruneKeepsLevel(r: Rate, tats: Tats<Key>, key: Key, now: nat)
    ensures Level(Pruned(tats, now), key, now) == Level(tats, key, now)
    ensures WithinFor(r, tats, key, now) ==> WithinFor(r, Pruned(tats, now), key, now)
  {}

  lemma ExpiryRises(b: Books, rates: Rates, now: nat, expired: Option<nat>, prune: bool, key: Key)
    requires QueuesOk(b.delayed) && Due(b, Poll(now, expired, prune))
    ensures var r := RateFor(rates, key);
            Rises(r, b.tats, AfterExpiry(b, rates, now, expired).tats, key, now,
                  TokensFor(r, LetGo(b, rates, Poll(now, expired, prune)), key))
  {
    var r := RateFor(rates, key);
    assert Cost(r, 0) == 0;
    if expired.Some? {
      var k := b.timers[expired.value].key;
      if k in b.delayed {
        assert ForKey(b.delayed[k], k);
        ServeRises(r, RateFor(rates, k), b.tats, now, b.delayed[k], key);
      }
    }
  }

  lemma StepRises(b: Books, rates: Rates, step: Step, key: Key)
    requires QueuesOk(b.delayed) && Due(b, step)
    ensures var r := RateFor(rates, key);
            Rises(r, b.tats, Apply(b, rates, step).tats, key, step.now, TokensFor(r, LetGo(b, rates, step), key))
  {
    var r := RateFor(rates, key);
    match step
    case Allow(now, req) =>
      assert Cost(r, 0) == 0;
      if req.key !in b.delayed { ChargeRises(r, RateFor(rates, req.key), b.tats, now, req, key); }
    case Poll(now, expired, prune) =>
      ExpiryRises(b, rates, now, expired, prune, key);
      PruneKeepsLevel(r, AfterExpiry(b, rates, now, expired).tats, key, now);
  }

  lemma FiredKeepsQueues(b: Books, r: Rate, now: nat, key: Key)
    requires QueuesOk(b.delayed)
    ensures QueuesOk(AfterFired(b, r, now, key).delayed)
  {
    if key in b.delayed {
      var s := Serve(r, b.tats, now, b.delayed[key]);
      ServeConserves(r, b.tats, now, b.delayed[key]);
      LeftForKey(r, b.tats, now, key, b.delayed[key]);
      if s.wait.Some? { QueuesOkUpdate(b.delayed, key, s.left); }
    }
  }

  lemma StepKeepsQueues(b: Books, rates: Rates, step: Step)
    requires QueuesOk(b.delayed) && Due(b, step)
    ensures QueuesOk(Apply(b, rates, step).delayed)
  {
    match step
    case Allow(now, req) =>
      var queue := if req.key in b.delayed then b.delayed[req.key] + [req] else [req];
      assert ForKey(queue, req.key);
      QueuesOkUpdate(b.delayed, req.key, queue);
    case Poll(now, expired, prune) =>
      if expired.Some? {
        var key := b.timers[expired.value].key;
        FiredKeepsQueues(b.(timers := Without(b.timers, expired.value)), RateFor(rates, key), now, key);
      }
  }

  lemma StepUp(b: Books, rates: Rates, step: Step, key: Key, now: nat)
    requires QueuesOk(b.delayed) && Due(b, step) && now <= step.now && WithinFor(RateFor(rates, key), b.tats, key, now)
    ensures var r, next := RateFor(rates, key), Apply(b, rates, step);
            && QueuesOk(next.delayed) && WithinFor(r, next.tats, key, step.now)
            && Max(Level(b.tats, key, now), step.now) + Cost(r, TokensFor(r, LetGo(b, rates, step), key))
               <= Level(next.tats, key, step.now) <= step.now + r.tau
  {
    StepKeepsQueues(b, rates, step);
    StepRises(b, rates, step, key);
  }

  /** Times do not go back, the level rises by what is let go, and is never more than a bucket ahead. */
  predicate Rising(r: Rate, level: nat, now: nat, marks: seq<Mark>)
    decreases |marks|
  {
    marks != [] ==>
      && now <= marks[0].now
      && Max(level, marks[0].now) + Cost(r, marks[0].tokens) <= marks[0].level <= marks[0].now + r.tau
      && Rising(r, marks[0].level, marks[0].now, marks[1..])
  }

  lemma {:induction false} MarksRise(b: Books, rates: Rates, steps: seq<Step>, key: Key, now: nat)
    requires QueuesOk(b.delayed) && Timed(b, rates, steps) && InOrder(steps, now)
    requires WithinFor(RateFor(rates, key), b.tats, key, now)
    ensures Rising(RateFor(rates, key), Level(b.tats, key, now), now, Marks(b, rates, steps, key))
    decreases |steps|
  {
    if steps != [] {
      StepUp(b, rates, steps[0], key, now);
      MarksRise(Apply(b, rates, steps[0]), rates, steps[1..], key, steps[0].now);
      var marks := Marks(b, rates, steps, key);
      assert marks[1..] == Marks(Apply(b, rates, steps[0]), rates, steps[1..], key);
    }
  }

  lemma {:induction false} NothingSentLater(r: Rate, level: nat, now: nat, marks: seq<Mark>, from: nat, to: nat)
    requires Rising(r, level, now, marks) && to < now
    ensures SentIn(marks, from, to) == 0
    decreases |marks|
  {
    if marks != [] { NothingSentLater(r, marks[0].level, marks[0].now, marks[1..], from, to); }
  }

  lemma Stacks(r: Rate, before: nat, after: nat, tokens: nat, counted: nat, later: nat, top: nat)
    requires before + Cost(r, tokens) <= after && after + Cost(r, later) <= top && counted <= tokens
    ensures before + Cost(r, counted + later) <= top
  {
    CostMonotone(r, counted, tokens);
    Distribute(r, counted, later);
  }

  lemma {:induction false} SentFitsAbove(r: Rate, level: nat, now: nat, marks: seq<Mark>, from: nat, to: nat)
    requires Rising(r, level, now, marks) && now <= to && level <= now + r.tau
    ensures level + Cost(r, SentIn(marks, from, to)) <= to + r.tau
    decreases |marks|
  {
    assert Cost(r, 0) == 0;
    if marks != [] {
      var m, rest := marks[0], marks[1..];
      if to < m.now {
        NothingSentLater(r, m.level, m.now, rest, from, to);
      } else {
        SentFitsAbove(r, m.level, m.now, rest, from, to);
        Stacks(r, level, m.level, m.tokens, if from <= m.now <= to then m.tokens else 0, SentIn(rest, from, to),
               to + r.tau);
      }
    }
  }

  lemma {:induction false} WindowOfMarks(r: Rate, level: nat, now: nat, marks: seq<Mark>, from: nat, to: nat)
    requires Rising(r, level, now, marks) && from <= to
    ensures Cost(r, SentIn(marks, from, to)) <= r.tau + (to - from)
    decreases |marks|
  {
    assert Cost(r, 0) == 0;
    if marks != [] {
      var m, rest := marks[0], marks[1..];
      if m.now < from {
        WindowOfMarks(r, m.level, m.now, rest, from, to);
      } else if m.now <= to {
        SentFitsAbove(r, m.level, m.now, rest, from, to);
        Stacks(r, from, m.level, m.tokens, m.tokens, SentIn(rest, from, to), to + r.tau);
      } else {
        NothingSentLater(r, m.level, m.now, rest, from, to);
      }
    }
  }

  /** In any window of time the requests let go for a peer and protocol, queued before or not, cost at most one
      bucket plus the length of the window. */
  lemma OutboundIsBounded(b: Books, rates: Rates, steps: seq<Step>, key: Key, now: nat, from: nat, to: nat)
    requires QueuesOk(b.delayed) && Timed(b, rates, steps) && InOrder(steps, now) && from <= to
    requires WithinFor(RateFor(rates, key), b.tats, key, now)
    ensures var r := RateFor(rates, key);
            Cost(r, SentIn(Marks(b, rates, steps, key), from, to)) <= r.tau + (to - from)
  {
    MarksRise(b, rates, steps, key, now);
    WindowOfMarks(RateFor(rates, key), Level(b.tats, key, now), now, Marks(b, rates, steps, key), from, to);
  }

  // ---- Timers run out exactly when they should

  /** `t` is the first moment from `now` on at which the request can go. */
  ghost predicate FirstChance(r: Rate, tats: Tats<Key>, now: nat, req: Request, t: nat) {
    forall later :: now <= later ==> (WaitFor(r, tats, later, req).None? <==> t <= later)
  }

  /** The timer started for a delayed request runs out exactly when the request can go. */
  lemma NewTimerIsExact(b: Books, r: Rate, now: nat, req: Request)
    requires Asked(b, r, now, req) == RateLimited
    ensures var b' := AfterAllows(b, r, now, req);
            && |b'.timers| == |b.timers| + 1 && b'.timers[..|b.timers|] == b.timers
            && b'.timers[|b.timers|].key == req.key
            && FirstChance(r, b'.tats, now, req, b'.timers[|b.timers|].deadline)
  {
    WaitingIsExact(r, b.tats, now, req, WaitFor(r, b.tats, now, req).value);
  }

  lemma {:induction false} ServeStopsAt(r: Rate, tats: Tats<Key>, now: nat, queue: seq<Request>)
    requires Serve(r, tats, now, queue).wait.Some?
    ensures var s := Serve(r, tats, now, queue);
            s.left != [] && WaitFor(r, s.tats, now, s.left[|s.left| - 1]) == s.wait
    decreases |queue|
  {
    if WaitFor(r, tats, now, queue[0]).Some? {
      WaitingIsExact(r, tats, now, queue[0], WaitFor(r, tats, now, queue[0]).value);
    } else {
      ServeStopsAt(r, Charged(r, tats, now, queue[0]), now, queue[1..]);
    }
  }

  /** So does the one started for the request that stopped a queue, which is now at its end. */
  lemma NextTimerIsExact(b: Books, r: Rate, now: nat, key: Key)
    requires key in b.delayed && key in AfterFired(b, r, now, key).delayed
    ensures var b' := AfterFired(b, r, now, key);
            var queue := b'.delayed[key];
            && |b'.timers| == |b.timers| + 1 && b'.timers[|b.timers|].key == key && queue != []
            && FirstChance(r, b'.tats, now, queue[|queue| - 1], b'.timers[|b.timers|].deadline)
  {
    var s := Serve(r, b.tats, now, b.delayed[key]);
    ServeStopsAt(r, b.tats, now, b.delayed[key]);
    WaitingIsExact(r, s.tats, now, s.left[|s.left| - 1], s.wait.value);
  }

  // ---- Something after a while

  /** What is sent when the timer of one queue fires again and again, at the given times. */
  function FiredAt(r: Rate, tats: Tats<Key>, queue: seq<Request>, times: seq<nat>): seq<Request>
    decreases |times|
  {
    if times == [] then []
    else
      var s := Serve(r, tats, times[0], queue);
      s.sent + FiredAt(r, s.tats, s.left, times[1..])
  }

  /** No timer fires before its deadline. */
  predicate Timely(r: Rate, tats: Tats<Key>, queue: seq<Request>, deadline: nat, times: seq<nat>)
    decreases |times|
  {
    times != [] ==>
      var s := Serve(r, tats, times[0], queue);
      && deadline <= times[0]
      && (s.wait.Some? ==> Timely(r, s.tats, s.left, times[0] + s.wait.value, times[1..]))
  }

  /** The requests of a queue that cost more than `cost`. */
  function Costlier(r: Rate, queue: seq<Request>, cost: nat): nat {
    if queue == [] then 0 else (if Cost(r, queue[0].tokens) > cost then 1 else 0) + Costlier(r, queue[1..], cost)
  }

  lemma {:induction false} CostlierAppend(r: Rate, a: seq<Request>, b: seq<Request>, cost: nat)
    ensures Costlier(r, a + b, cost) == Costlier(r, a, cost) + Costlier(r, b, cost)
  {
    if a == [] {
      assert a + b == b;
    } else {
      assert (a + b)[1..] == a[1..] + b;
      CostlierAppend(r, a[1..], b, cost);
    }
  }

  lemma {:induction false} CostlierFalls(r: Rate, queue: seq<Request>, cost: nat, higher: nat)
    requires cost <= higher
    ensures Costlier(r, queue, higher) <= Costlier(r, queue, cost)
  {
    if queue != [] { CostlierFalls(r, queue[1..], cost, higher); }
  }

  /** When a timer fires and nothing goes, the request at the front costs more than the one the timer was for. */
  lemma RefusedAgainCostsMore(r: Rate, tats: Tats<Key>, x: Request, y: Request, now: nat, later: nat)
    requires x.key == y.key && WaitFor(r, tats, now, x).Some? && now + WaitFor(r, tats, now, x).value <= later
    requires WaitFor(r, tats, later, y).Some?
    ensures Cost(r, y.tokens) > Cost(r, x.tokens) && Charged(r, tats, later, y) == tats
  {}

  /** A queue whose timer was started for `x` sends something after at most one firing more than it has
      requests that cost more than `x`. */
  lemma {:induction false} QueueProgresses(
      r: Rate, tats: Tats<Key>, key: Key, queue: seq<Request>, x: Request, now: nat, times: seq<nat>)
    requires ForKey(queue, key) && x.key == key && queue != [] && WaitFor(r, tats, now, x).Some?
    requires Timely(r, tats, queue, now + WaitFor(r, tats, now, x).value, times)
    requires |times| > Costlier(r, queue, Cost(r, x.tokens))
    ensures FiredAt(r, tats, queue, times) != []
    decreases |times|
  {
    var t, y := times[0], queue[0];
    if WaitFor(r, tats, t, y).Some? {
      RefusedAgainCostsMore(r, tats, x, y, now, t);
      var turned := queue[1..] + [y];
      CostlierAppend(r, queue[1..], [y], Cost(r, y.tokens));
      assert [y][1..] == [];
      CostlierFalls(r, queue[1..], Cost(r, x.tokens), Cost(r, y.tokens));
      QueueProgresses(r, tats, key, turned, y, t, times[1..]);
    }
  }
}

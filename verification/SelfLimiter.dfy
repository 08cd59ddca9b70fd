/** Rate limiting of the node's own requests: what is over the limit waits in a queue per peer and
    protocol, with one timer per queue. */
module SelfLimiter {
  import opened Util
  import opened RateLimiter

  datatype Protocol = Ping | Status | MetaData | Goodbye | BlocksByRange

  datatype Key = Key(peer: nat, protocol: Protocol)

  datatype Rates = Rates(ping: Rate, status: Rate, metadata: Rate, goodbye: Rate, bbrange: Rate)

  function RateFor(rates: Rates, key: Key): Rate {
    match key.protocol
    case Ping => rates.ping
    case Status => rates.status
    case MetaData => rates.metadata
    case Goodbye => rates.goodbye
    case BlocksByRange => rates.bbrange
  }

  datatype Request = Request(key: Key, id: nat, tokens: nat)

  datatype Outcome = Sent(req: Request) | PendingRequests | RateLimited

  // ---- Serving one queue

  /** How long a request has to wait, if it may not go now. */
  function WaitFor(r: Rate, tats: Tats<Key>, now: nat, req: Request): Option<nat> {
    match Decide(r, tats, now, req.key, req.tokens)
    case TooSoon(wait) => Some(wait)
    case _ => None
  }

  /** From `now` on the request has to wait exactly until `now + wait`. */
  ghost predicate ExactWait(r: Rate, tats: Tats<Key>, now: nat, req: Request, wait: nat) {
    forall later :: now <= later ==>
      WaitFor(r, tats, later, req) == if later < now + wait then Some(now + wait - later) else None
  }

  /** A refused request waits exactly as long as it is told to, and asking costs nothing. */
  lemma WaitingIsExact(r: Rate, tats: Tats<Key>, now: nat, req: Request, wait: nat)
    requires WaitFor(r, tats, now, req) == Some(wait)
    ensures Charged(r, tats, now, req) == tats && ExactWait(r, tats, now, req, wait)
  {
    forall later | now <= later
      ensures WaitFor(r, tats, later, req) == if later < now + wait then Some(now + wait - later) else None
    {
      WaitIsExact(r, tats, now, req.key, req.tokens, later);
    }
  }

  datatype Served = Served(sent: seq<Request>, left: seq<Request>, tats: Tats<Key>, wait: Option<nat>)

  function Charged(r: Rate, tats: Tats<Key>, now: nat, req: Request): Tats<Key> {
    Updated(r, tats, now, req.key, req.tokens)
  }

  /** Requests are taken from the front and sent until one is too soon, which goes to the back. One that
      can never fit is sent anyway. */
  function Serve(r: Rate, tats: Tats<Key>, now: nat, queue: seq<Request>): Served
    decreases |queue|
  {
    if queue == [] then Served([], [], tats, None)
    else
      var req, wait := queue[0], WaitFor(r, tats, now, queue[0]);
      if wait.Some? then Served([], queue[1..] + [req], Charged(r, tats, now, req), wait)
      else
        Prefixed([req], Serve(r, Charged(r, tats, now, req), now, queue[1..]))
  }

  function Prefixed(sent: seq<Request>, s: Served): Served {
    s.(sent := sent + s.sent)
  }

  lemma PrefixedTwice(a: seq<Request>, b: seq<Request>, s: Served)
    ensures Prefixed(a, Prefixed(b, s)) == Prefixed(a + b, s)
  {
    assert a + (b + s.sent) == a + b + s.sent;
  }

  /** Serving loses and duplicates nothing, and leaves a queue exactly when it asks for a new timer. */
  lemma {:induction false} ServeConserves(r: Rate, tats: Tats<Key>, now: nat, queue: seq<Request>)
    ensures var s := Serve(r, tats, now, queue);
            && multiset(s.sent) + multiset(s.left) == multiset(queue)
            && (s.wait.Some? <==> s.left != [])
    decreases |queue|
  {
    if queue != [] {
      assert queue == [queue[0]] + queue[1..];
      ServeConserves(r, Charged(r, tats, now, queue[0]), now, queue[1..]);
    }
  }

  /** What is sent is the longest stretch from the front that the limiter lets through; the request after it,
      if there is one, moves to the end. */
  lemma {:induction false} ServeShape(r: Rate, tats: Tats<Key>, now: nat, queue: seq<Request>)
    ensures var s := Serve(r, tats, now, queue);
            var k := |s.sent|;
            && k <= |queue| && s.sent == queue[..k]
            && (s.wait.None? <==> k == |queue|)
            && s.left == if k == |queue| then [] else queue[k + 1..] + [queue[k]]
    decreases |queue|
  {
    if queue != [] {
      ServeShape(r, Charged(r, tats, now, queue[0]), now, queue[1..]);
      assert queue == [queue[0]] + queue[1..];
    }
  }

  // ---- All queues together

  ghost function Queued(delayed: map<Key, seq<Request>>): multiset<Request>
    decreases |delayed|
  {
    if delayed == map[] then multiset{}
    else
      var k :| k in delayed;
      multiset(delayed[k]) + Queued(delayed - {k})
  }

  lemma {:induction false} QueuedSplit(delayed: map<Key, seq<Request>>, k: Key)
    requires k in delayed
    ensures Queued(delayed) == multiset(delayed[k]) + Queued(delayed - {k})
    decreases |delayed|
  {
    var j :| j in delayed && Queued(delayed) == multiset(delayed[j]) + Queued(delayed - {j});
    if j != k {
      QueuedSplit(delayed - {j}, k);
      QueuedSplit(delayed - {k}, j);
      assert delayed - {j} - {k} == delayed - {k} - {j};
    }
  }

  lemma QueuedUpdate(delayed: map<Key, seq<Request>>, k: Key, queue: seq<Request>)
    ensures Queued(delayed[k := queue]) == multiset(queue) + Queued(delayed - {k})
  {
    QueuedSplit(delayed[k := queue], k);
    assert delayed[k := queue] - {k} == delayed - {k};
  }

  // ---- Timers

  /** A pending timer. Nothing keeps the delay queue from holding several for one key. */
  datatype Timer = Timer(key: Key, deadline: nat)

  function KeysOf(timers: seq<Timer>): (keys: seq<Key>)
    ensures |keys| == |timers| && forall i :: 0 <= i < |timers| ==> keys[i] == timers[i].key
  {
    seq(|timers|, i requires 0 <= i < |timers| => timers[i].key)
  }

  function Without(timers: seq<Timer>, i: nat): seq<Timer>
    requires i < |timers|
  {
    timers[..i] + timers[i + 1..]
  }

  /** The keys in `keys` have exactly one timer each, and no other key has any. */
  ghost predicate OneTimerEach(timers: seq<Timer>, keys: set<Key>) {
    multiset(KeysOf(timers)) == multiset(keys)
  }

  lemma TimerStarted(timers: seq<Timer>, keys: set<Key>, t: Timer)
    requires OneTimerEach(timers, keys) && t.key !in keys
    ensures OneTimerEach(timers + [t], keys + {t.key})
  {
    assert KeysOf(timers + [t]) == KeysOf(timers) + [t.key];
  }

  lemma TakenOut(keys: seq<Key>, i: nat)
    requires i < |keys|
    ensures multiset(keys) == multiset(keys[..i] + keys[i + 1..]) + multiset{keys[i]}
  {
    assert keys == keys[..i] + [keys[i]] + keys[i + 1..];
  }

  lemma Cancel(a: multiset<Key>, b: multiset<Key>, k: Key)
    requires a + multiset{k} == b + multiset{k}
    ensures a == b
  {
    assert a == (a + multiset{k}) - multiset{k} && b == (b + multiset{k}) - multiset{k};
  }

  lemma TimerFired(timers: seq<Timer>, keys: set<Key>, i: nat)
    requires OneTimerEach(timers, keys) && i < |timers|
    ensures timers[i].key in keys && OneTimerEach(Without(timers, i), keys - {timers[i].key})
  {
    var all := KeysOf(timers);
    assert all[i] in multiset(all);
    TakenOut(all, i);
    assert multiset(keys) == multiset(keys - {all[i]}) + multiset{all[i]};
    Cancel(multiset(all[..i] + all[i + 1..]), multiset(keys - {all[i]}), all[i]);
    assert KeysOf(Without(timers, i)) == all[..i] + all[i + 1..];
  }

  // ---- What every step keeps

  /** The queues, the pending timers, and the requests handed in and out so far. */
  datatype Books = Books(
    delayed: map<Key, seq<Request>>, timers: seq<Timer>, tats: Tats<Key>, ready: seq<Request>,
    submitted: multiset<Request>, emitted: multiset<Request>)

  ghost predicate QueuesOk(delayed: map<Key, seq<Request>>) {
    forall k :: k in delayed ==> delayed[k] != [] && ForKey(delayed[k], k)
  }

  ghost predicate ForKey(queue: seq<Request>, k: Key) {
    forall i :: 0 <= i < |queue| ==> queue[i].key == k
  }

  /** Every request submitted so far was handed out once, is ready, or waits in a queue. */
  ghost predicate Accounted(
      submitted: multiset<Request>, emitted: multiset<Request>, ready: seq<Request>, delayed: map<Key, seq<Request>>)
  {
    submitted == emitted + multiset(ready) + Queued(delayed)
  }

  /** Every queue is non-empty, holds requests for its key and has exactly one timer, no other timer is
      pending, and no request is lost or duplicated. */
  ghost predicate Balanced(b: Books) {
    && QueuesOk(b.delayed) && OneTimerEach(b.timers, b.delayed.Keys)
    && Accounted(b.submitted, b.emitted, b.ready, b.delayed)
  }

  /** The same, except that the timer of one queue has just fired. */
  ghost predicate Firing(b: Books, key: Key) {
    && key in b.delayed
    && QueuesOk(b.delayed) && OneTimerEach(b.timers, b.delayed.Keys - {key})
    && Accounted(b.submitted, b.emitted, b.ready, b.delayed)
  }

  lemma EnqueueAccounts(b: Books, req: Request)
    requires Balanced(b) && req.key in b.delayed
    ensures Accounted(b.submitted + multiset{req}, b.emitted, b.ready,
                      b.delayed[req.key := b.delayed[req.key] + [req]])
  {
    QueuedSplit(b.delayed, req.key);
    QueuedUpdate(b.delayed, req.key, b.delayed[req.key] + [req]);
  }

  lemma NewQueueAccounts(b: Books, req: Request)
    requires Balanced(b) && req.key !in b.delayed
    ensures Accounted(b.submitted + multiset{req}, b.emitted, b.ready, b.delayed[req.key := [req]])
  {
    QueuedUpdate(b.delayed, req.key, [req]);
    assert b.delayed - {req.key} == b.delayed;
  }

  lemma {:induction false} LeftForKey(r: Rate, tats: Tats<Key>, now: nat, key: Key, queue: seq<Request>)
    requires ForKey(queue, key)
    ensures ForKey(Serve(r, tats, now, queue).left, key)
    decreases |queue|
  {
    if queue != [] { LeftForKey(r, Charged(r, tats, now, queue[0]), now, key, queue[1..]); }
  }

  lemma ServedAccounts(b: Books, key: Key, sent: seq<Request>, left: seq<Request>)
    requires Firing(b, key) && multiset(sent) + multiset(left) == multiset(b.delayed[key])
    ensures Accounted(b.submitted, b.emitted, b.ready + sent, b.delayed[key := left])
    ensures left == [] ==> Accounted(b.submitted, b.emitted, b.ready + sent, b.delayed - {key})
  {
    QueuedSplit(b.delayed, key);
    QueuedUpdate(b.delayed, key, left);
    assert multiset(b.ready + sent) == multiset(b.ready) + multiset(sent);
  }

  lemma EmitAccounts(b: Books)
    requires Balanced(b) && b.ready != []
    ensures Accounted(b.submitted, b.emitted + multiset{b.ready[0]}, b.ready[1..], b.delayed)
  {
    assert b.ready == [b.ready[0]] + b.ready[1..];
  }

  // ---- Steps

  function Asked(b: Books, r: Rate, now: nat, req: Request): Outcome {
    if req.key in b.delayed then PendingRequests
    else if WaitFor(r, b.tats, now, req).Some? then RateLimited
    else Sent(req)
  }

  /** A request is sent, starts a queue with a timer, or joins the queue that is there. */
  function AfterAllows(b: Books, r: Rate, now: nat, req: Request): Books {
    var submitted := b.submitted + multiset{req};
    if req.key in b.delayed
    then b.(submitted := submitted, delayed := b.delayed[req.key := b.delayed[req.key] + [req]])
    else
      var wait, tats := WaitFor(r, b.tats, now, req), Charged(r, b.tats, now, req);
      if wait.Some?
      then b.(submitted := submitted, tats := tats, delayed := b.delayed[req.key := [req]],
              timers := b.timers + [Timer(req.key, now + wait.value)])
      else b.(submitted := submitted, tats := tats, emitted := b.emitted + multiset{req})
  }

  /** The timer of `key` has fired: its queue is served, and then either gets a new timer or is gone. */
  function AfterFired(b: Books, r: Rate, now: nat, key: Key): Books {
    if key !in b.delayed then b
    else
      var s := Serve(r, b.tats, now, b.delayed[key]);
      var b' := b.(tats := s.tats, ready := b.ready + s.sent);
      if s.wait.None? then b'.(delayed := b.delayed - {key})
      else b'.(delayed := b.delayed[key := s.left], timers := b.timers + [Timer(key, now + s.wait.value)])
  }

  function AfterExpiry(b: Books, rates: Rates, now: nat, expired: Option<nat>): Books
    requires expired.Some? ==> expired.value < |b.timers|
  {
    match expired
    case None => b
    case Some(i) =>
      var key := b.timers[i].key;
      AfterFired(b.(timers := Without(b.timers, i)), RateFor(rates, key), now, key)
  }

  function FirstOf(ready: seq<Request>): Option<Request> {
    if ready == [] then None else Some(ready[0])
  }

  function Emitted(b: Books): Books {
    if b.ready == [] then b
    else b.(ready := b.ready[1..], emitted := b.emitted + multiset{b.ready[0]})
  }

  /** One poll. `expired` is the position of a timer that has run out, if there is one. */
  function AfterPoll(b: Books, rates: Rates, now: nat, expired: Option<nat>, prune: bool): Books
    requires expired.Some? ==> expired.value < |b.timers|
  {
    var b1 := AfterExpiry(b, rates, now, expired);
    Emitted(if prune then b1.(tats := Pruned(b1.tats, now)) else b1)
  }

  lemma QueuesOkUpdate(delayed: map<Key, seq<Request>>, k: Key, queue: seq<Request>)
    requires QueuesOk(delayed) && queue != [] && ForKey(queue, k)
    ensures QueuesOk(delayed[k := queue])
  {}

  lemma JoiningKeepsBalance(b: Books, req: Request)
    requires Balanced(b) && req.key in b.delayed
    ensures Balanced(b.(submitted := b.submitted + multiset{req},
                        delayed := b.delayed[req.key := b.delayed[req.key] + [req]]))
  {
    var queue := b.delayed[req.key] + [req];
    assert ForKey(queue, req.key);
    QueuesOkUpdate(b.delayed, req.key, queue);
    EnqueueAccounts(b, req);
    assert b.delayed[req.key := queue].Keys == b.delayed.Keys;
  }

  lemma DelayingKeepsBalance(b: Books, req: Request, tats: Tats<Key>, deadline: nat)
    requires Balanced(b) && req.key !in b.delayed
    ensures Balanced(b.(submitted := b.submitted + multiset{req}, tats := tats,
                        delayed := b.delayed[req.key := [req]], timers := b.timers + [Timer(req.key, deadline)]))
  {
    QueuesOkUpdate(b.delayed, req.key, [req]);
    NewQueueAccounts(b, req);
    TimerStarted(b.timers, b.delayed.Keys, Timer(req.key, deadline));
    assert b.delayed[req.key := [req]].Keys == b.delayed.Keys + {req.key};
  }

  lemma SendingKeepsBalance(b: Books, req: Request, tats: Tats<Key>)
    requires Balanced(b)
    ensures Balanced(b.(submitted := b.submitted + multiset{req}, tats := tats, emitted := b.emitted + multiset{req}))
  {}

  lemma AllowsKeepsBalance(b: Books, r: Rate, now: nat, req: Request)
    requires Balanced(b)
    ensures Balanced(AfterAllows(b, r, now, req))
  {
    var wait, tats := WaitFor(r, b.tats, now, req), Charged(r, b.tats, now, req);
    if req.key in b.delayed {
      JoiningKeepsBalance(b, req);
    } else if wait.Some? {
      DelayingKeepsBalance(b, req, tats, now + wait.value);
    } else {
      SendingKeepsBalance(b, req, tats);
    }
  }

  lemma RequeueKeepsBalance(b: Books, key: Key, sent: seq<Request>, left: seq<Request>, tats: Tats<Key>, deadline: nat)
    requires Firing(b, key) && ForKey(left, key) && left != []
    requires multiset(sent) + multiset(left) == multiset(b.delayed[key])
    ensures Balanced(b.(tats := tats, ready := b.ready + sent, delayed := b.delayed[key := left],
                        timers := b.timers + [Timer(key, deadline)]))
  {
    ServedAccounts(b, key, sent, left);
    QueuesOkUpdate(b.delayed, key, left);
    TimerStarted(b.timers, b.delayed.Keys - {key}, Timer(key, deadline));
    assert b.delayed[key := left].Keys == b.delayed.Keys - {key} + {key};
  }

  lemma EmptiedKeepsBalance(b: Books, key: Key, sent: seq<Request>, tats: Tats<Key>)
    requires Firing(b, key) && multiset(sent) == multiset(b.delayed[key])
    ensures Balanced(b.(tats := tats, ready := b.ready + sent, delayed := b.delayed - {key}))
  {
    ServedAccounts(b, key, sent, []);
    assert (b.delayed - {key}).Keys == b.delayed.Keys - {key};
  }

  lemma FiredKeepsBalance(b: Books, r: Rate, now: nat, key: Key)
    requires Firing(b, key)
    ensures Balanced(AfterFired(b, r, now, key))
  {
    var s := Serve(r, b.tats, now, b.delayed[key]);
    assert && multiset(s.sent) + multiset(s.left) == multiset(b.delayed[key]) && (s.wait.Some? <==> s.left != [])
           && ForKey(s.left, key) by {
      ServeConserves(r, b.tats, now, b.delayed[key]);
      LeftForKey(r, b.tats, now, key, b.delayed[key]);
    }
    if s.wait.Some? {
      RequeueKeepsBalance(b, key, s.sent, s.left, s.tats, now + s.wait.value);
    } else {
      EmptiedKeepsBalance(b, key, s.sent, s.tats);
    }
  }

  lemma ExpiryKeepsBalance(b: Books, rates: Rates, now: nat, i: nat)
    requires Balanced(b) && i < |b.timers|
    ensures var key := b.timers[i].key;
            Balanced(AfterFired(b.(timers := Without(b.timers, i)), RateFor(rates, key), now, key))
  {
    var key := b.timers[i].key;
    TimerFired(b.timers, b.delayed.Keys, i);
    FiredKeepsBalance(b.(timers := Without(b.timers, i)), RateFor(rates, key), now, key);
  }

  lemma EmitKeepsBalance(b: Books)
    requires Balanced(b)
    ensures Balanced(Emitted(b))
  {
    if b.ready != [] { EmitAccounts(b); }
  }

  lemma PollKeepsBalance(b: Books, rates: Rates, now: nat, expired: Option<nat>, prune: bool)
    requires Balanced(b) && (expired.Some? ==> expired.value < |b.timers|)
    ensures Balanced(AfterPoll(b, rates, now, expired, prune))
  {
    if expired.Some? { ExpiryKeepsBalance(b, rates, now, expired.value); }
    var b1 := AfterExpiry(b, rates, now, expired);
    var b2 := if prune then b1.(tats := Pruned(b1.tats, now)) else b1;
    assert Balanced(b2);
    EmitKeepsBalance(b2);
  }

  // ---- Runs

  datatype Step = Allow(now: nat, req: Request) | Poll(now: nat, expired: Option<nat>, prune: bool)

  /** Only timers that are pending and due can fire. */
  predicate Due(b: Books, step: Step) {
    step.Poll? && step.expired.Some? ==>
      step.expired.value < |b.timers| && b.timers[step.expired.value].deadline <= step.now
  }

  function Apply(b: Books, rates: Rates, step: Step): Books
    requires Due(b, step)
  {
    match step
    case Allow(now, req) => AfterAllows(b, RateFor(rates, req.key), now, req)
    case Poll(now, expired, prune) => AfterPoll(b, rates, now, expired, prune)
  }

  predicate Timed(b: Books, rates: Rates, steps: seq<Step>)
    decreases |steps|
  {
    steps != [] ==> Due(b, steps[0]) && Timed(Apply(b, rates, steps[0]), rates, steps[1..])
  }

  function Run(b: Books, rates: Rates, steps: seq<Step>): Books
    requires Timed(b, rates, steps)
    decreases |steps|
  {
    if steps == [] then b else Run(Apply(b, rates, steps[0]), rates, steps[1..])
  }

  /** After every run each waiting queue is non-empty and has exactly one pending timer, and every request
      submitted was sent once, is ready, or waits: none is lost or sent twice. */
  lemma {:induction false} RunKeepsBalance(b: Books, rates: Rates, steps: seq<Step>)
    requires Balanced(b) && Timed(b, rates, steps)
    ensures Balanced(Run(b, rates, steps))
    decreases |steps|
  {
    if steps != [] {
      match steps[0] {
        case Allow(now, req) => AllowsKeepsBalance(b, RateFor(rates, req.key), now, req);
        case Poll(now, expired, prune) => PollKeepsBalance(b, rates, now, expired, prune);
      }
      RunKeepsBalance(Apply(b, rates, steps[0]), rates, steps[1..]);
    }
  }

  /** A request that starts a queue is sent first when its timer fires, whatever joined the queue behind it. */
  lemma TimerServesFront(b: Books, r: Rate, now: nat, req: Request, later: nat, joined: seq<Request>)
    requires WaitFor(r, b.tats, now, req).Some? && now + WaitFor(r, b.tats, now, req).value <= later
    ensures var s := Serve(r, b.tats, later, [req] + joined);
            s.sent != [] && s.sent[0] == req
  {}

  // ---- The limiter

  class SelfRateLimiter {
    const rates: Rates
    var delayed: map<Key, seq<Request>>
    var timers: seq<Timer>
    var tats: Tats<Key>
    var ready: seq<Request>
    ghost var submitted: multiset<Request>
    ghost var emitted: multiset<Request>

    ghost function View(): Books
      reads this
    {
      Books(delayed, timers, tats, ready, submitted, emitted)
    }

    constructor (rates: Rates)
      ensures Balanced(View()) && View() == Books(map[], [], map[], [], multiset{}, multiset{})
    {
      this.rates := rates;
      delayed, timers, tats, ready := map[], [], map[], [];
      submitted, emitted := multiset{}, multiset{};
    }

    /** How long the request has to wait, or nothing if it goes out, as one that can never fit also does. */
    method TrySendRequest(now: nat, req: Request) returns (wait: Option<nat>)
      modifies this`tats
      ensures wait == WaitFor(RateFor(rates, req.key), old(tats), now, req)
      ensures tats == Charged(RateFor(rates, req.key), old(tats), now, req)
    {
      var decision;
      decision, tats := Admit(RateFor(rates, req.key), tats, now, req.key, req.tokens);
      match decision {
        case Granted => return None;
        case TooLarge => return None;
        case TooSoon(time) => return Some(time);
      }
    }

    method StartTimer(key: Key, deadline: nat)
      modifies this`timers
      ensures timers == old(timers) + [Timer(key, deadline)]
    {
      timers := timers + [Timer(key, deadline)];
    }

    method Allows(now: nat, req: Request) returns (r: Outcome)
      modifies this
      ensures r == Asked(old(View()), RateFor(rates, req.key), now, req)
      ensures View() == AfterAllows(old(View()), RateFor(rates, req.key), now, req)
    {
      submitted := submitted + multiset{req};
      if req.key in delayed {
        delayed := delayed[req.key := delayed[req.key] + [req]];
        return PendingRequests;
      }
      var wait := TrySendRequest(now, req);
      if wait.Some? {
        StartTimer(req.key, now + wait.value);
        delayed := delayed[req.key := [req]];
        return RateLimited;
      }
      emitted := emitted + multiset{req};
      return Sent(req);
    }

    /** Pops requests off the front and marks them ready until the limiter refuses one. */
    method DrainQueue(now: nat, key: Key, queued: seq<Request>) returns (queue: seq<Request>, wait: Option<nat>)
      requires ForKey(queued, key)
      modifies this`tats, this`ready
      ensures var s := Serve(RateFor(rates, key), old(tats), now, queued);
              ready == old(ready) + s.sent && tats == s.tats && queue == s.left && wait == s.wait
    {
      queue := queued;
      ghost var s := Serve(RateFor(rates, key), tats, now, queued);
      ghost var sent := [];
      while queue != []
        invariant ready == old(ready) + sent
        invariant ForKey(queue, key)
        invariant s == Prefixed(sent, Serve(RateFor(rates, key), tats, now, queue))
      {
        PrefixedTwice(sent, [queue[0]], Serve(RateFor(rates, key), Charged(RateFor(rates, key), tats, now, queue[0]),
                                              now, queue[1..]));
        var req := queue[0];
        queue := queue[1..];
        wait := TrySendRequest(now, req);
        if wait.Some? {
          queue := queue + [req];
          return;
        }
        ready := ready + [req];
        sent := sent + [req];
      }
      wait := None;
    }

    method NextPeerRequestReady(now: nat, key: Key)
      requires QueuesOk(delayed)
      modifies this
      ensures View() == AfterFired(old(View()), RateFor(rates, key), now, key)
    {
      if key !in delayed { return; }
      var queue, wait := DrainQueue(now, key, delayed[key]);
      if wait.Some? {
        StartTimer(key, now + wait.value);
        delayed := delayed[key := queue];
      } else {
        delayed := delayed - {key};
      }
    }

    method PollReady(now: nat, expired: Option<nat>, prune: bool) returns (next: Option<Request>)
      requires QueuesOk(delayed)
      requires expired.Some? ==> expired.value < |timers| && timers[expired.value].deadline <= now
      modifies this
      ensures View() == AfterPoll(old(View()), rates, now, expired, prune)
      ensures next == FirstOf(AfterExpiry(old(View()), rates, now, expired).ready)
    {
      Expire(now, expired);
      PruneLimiter(now, prune);
      next := EmitOne();
    }

    method PruneLimiter(now: nat, prune: bool)
      modifies this`tats
      ensures View() == if prune then old(View()).(tats := Pruned(old(tats), now)) else old(View())
    {
      if prune { tats := Pruned(tats, now); }
    }

    method Expire(now: nat, expired: Option<nat>)
      requires QueuesOk(delayed) && (expired.Some? ==> expired.value < |timers|)
      modifies this
      ensures View() == AfterExpiry(old(View()), rates, now, expired)
    {
      if expired.Some? {
        var key := timers[expired.value].key;
        timers := Without(timers, expired.value);
        NextPeerRequestReady(now, key);
      }
    }

    method EmitOne() returns (next: Option<Request>)
      modifies this
      ensures View() == Emitted(old(View()))
      ensures next == FirstOf(old(ready))
    {
      if ready == [] { return None; }
      next := Some(ready[0]);
      ready := ready[1..];
      emitted := emitted + multiset{next.value};
    }
  }
}

/** The GCRA rate limiter: per key, the theoretical arrival time (TAT) at which its bucket is full again. */
module RateLimiter {
  import opened Util

  datatype Quota = Quota(replenishAllEvery: nat, maxTokens: nat)

  datatype Decision = Granted | TooLarge | TooSoon(wait: nat)

  /** `tau` is the time to refill the whole bucket and `t` the time per token, both in nanoseconds. */
  datatype Rate = Rate(tau: nat, t: nat)

  type Tats<Key(==)> = map<Key, nat>

  const U64_MAX: nat := 0xffff_ffff_ffff_ffff

  function FromQuota(q: Quota): Option<Rate> {
    if q.maxTokens == 0 || q.replenishAllEvery == 0 || q.replenishAllEvery > U64_MAX then None
    else Some(Rate(q.replenishAllEvery, q.replenishAllEvery / q.maxTokens))
  }

  function Cost(r: Rate, tokens: nat): nat {
    r.t * tokens
  }

  /** A key that is not in the map has a full bucket. */
  function Tat<Key>(tats: Tats<Key>, key: Key, now: nat): nat {
    if key in tats then tats[key] else now
  }

  function Decide<Key>(r: Rate, tats: Tats<Key>, now: nat, key: Key, tokens: nat): Decision {
    var cost := Cost(r, tokens);
    if cost > r.tau then TooLarge
    else
      var due := Tat(tats, key, now) + cost;
      if now + r.tau < due then TooSoon(due - r.tau - now) else Granted
  }

  function Updated<Key>(r: Rate, tats: Tats<Key>, now: nat, key: Key, tokens: nat): Tats<Key> {
    match Decide(r, tats, now, key, tokens)
    case TooLarge => tats
    case TooSoon(_) => tats
    case Granted => tats[key := Max(now, Tat(tats, key, now)) + Cost(r, tokens)]
  }

  function Pruned<Key>(tats: Tats<Key>, limit: nat): Tats<Key> {
    map k | k in tats && tats[k] >= limit :: tats[k]
  }

  /** `Limiter::allows` on the map of a limiter. */
  method Admit<Key(==)>(rate: Rate, tats: Tats<Key>, now: nat, key: Key, tokens: nat)
      returns (d: Decision, after: Tats<Key>)
    ensures d == Decide(rate, tats, now, key, tokens)
    ensures after == Updated(rate, tats, now, key, tokens)
  {
    after := tats;
    var additionalTime := rate.t * tokens;
    if additionalTime > rate.tau { return TooLarge, after; }
    if key !in after { after := after[key := now]; }
    var tat := after[key];
    var earliest := if tat + additionalTime < rate.tau then 0 else tat + additionalTime - rate.tau;
    if now < earliest {
      return TooSoon(earliest - now), after;
    } else {
      return Granted, after[key := Max(now, tat) + additionalTime];
    }
  }

  class Limiter<Key(==)> {
    const rate: Rate
    var tatPerKey: Tats<Key>

    constructor (rate: Rate)
      ensures this.rate == rate && tatPerKey == map[]
    {
      this.rate := rate;
      tatPerKey := map[];
    }

    method Allows(now: nat, key: Key, tokens: nat) returns (d: Decision)
      modifies this
      ensures d == Decide(rate, old(tatPerKey), now, key, tokens)
      ensures tatPerKey == Updated(rate, old(tatPerKey), now, key, tokens)
    {
      d, tatPerKey := Admit(rate, tatPerKey, now, key, tokens);
    }

    method Prune(limit: nat)
      modifies this
      ensures tatPerKey == Pruned(old(tatPerKey), limit)
    {
      tatPerKey := map k | k in tatPerKey && tatPerKey[k] >= limit :: tatPerKey[k];
    }
  }

  // ---- Runs

  datatype Event<Key> = Request(now: nat, key: Key, tokens: nat) | Prune(now: nat)

  predicate Ordered<Key>(events: seq<Event<Key>>) {
    forall i, j :: 0 <= i < j < |events| ==> events[i].now <= events[j].now
  }

  function After<Key>(r: Rate, tats: Tats<Key>, e: Event<Key>): Tats<Key> {
    match e
    case Request(now, key, tokens) => Updated(r, tats, now, key, tokens)
    case Prune(now) => Pruned(tats, now)
  }

  /** The decisions of a run, one per request. */
  function Decisions<Key>(r: Rate, tats: Tats<Key>, events: seq<Event<Key>>): seq<Decision>
    decreases |events|
  {
    if events == [] then []
    else
      (match events[0]
       case Request(now, key, tokens) => [Decide(r, tats, now, key, tokens)]
       case Prune(_) => [])
      + Decisions(r, After(r, tats, events[0]), events[1..])
  }

  function WithoutPrunes<Key>(events: seq<Event<Key>>): seq<Event<Key>> {
    if events == [] then []
    else (if events[0].Prune? then [] else [events[0]]) + WithoutPrunes(events[1..])
  }

  /** The tokens granted to `key` by requests made between `from` and `to`. */
  function GrantedIn<Key>(r: Rate, tats: Tats<Key>, events: seq<Event<Key>>, key: Key, from: nat, to: nat): nat
    decreases |events|
  {
    if events == [] then 0
    else GrantedBy(r, tats, events[0], key, from, to)
         + GrantedIn(r, After(r, tats, events[0]), events[1..], key, from, to)
  }

  function GrantedBy<Key>(r: Rate, tats: Tats<Key>, e: Event<Key>, key: Key, from: nat, to: nat): nat {
    match e
    case Prune(_) => 0
    case Request(now, k, tokens) =>
      if k == key && from <= now <= to && Decide(r, tats, now, k, tokens) == Granted then tokens else 0
  }

  // ---- Bounded rate

  /** No key's TAT is further ahead of `now` than the bucket holds. */
  predicate WithinBucket<Key>(r: Rate, tats: Tats<Key>, now: nat) {
    forall k :: k in tats ==> tats[k] <= now + r.tau
  }

  lemma EventKeepsBucket<Key>(r: Rate, tats: Tats<Key>, e: Event<Key>, now: nat)
    requires WithinBucket(r, tats, now) && now <= e.now
    ensures WithinBucket(r, After(r, tats, e), e.now)
  {}

  /** Each granted token pushes the key's fill level up by its cost, and nothing lowers the level. */
  lemma LevelRises<Key>(r: Rate, tats: Tats<Key>, e: Event<Key>, key: Key, now: nat, from: nat, to: nat)
    requires now <= e.now
    ensures Max(now, Tat(tats, key, now)) + Cost(r, GrantedBy(r, tats, e, key, from, to))
         <= Max(e.now, Tat(After(r, tats, e), key, e.now))
  {}

  lemma {:induction false} NothingGrantedLater<Key>(
      r: Rate, tats: Tats<Key>, events: seq<Event<Key>>, key: Key, from: nat, to: nat)
    requires forall i :: 0 <= i < |events| ==> to < events[i].now
    ensures GrantedIn(r, tats, events, key, from, to) == 0
    decreases |events|
  {
    if events != [] { NothingGrantedLater(r, After(r, tats, events[0]), events[1..], key, from, to); }
  }

  lemma Distribute(r: Rate, a: nat, b: nat)
    ensures Cost(r, a + b) == Cost(r, a) + Cost(r, b)
  {}

  lemma {:induction false} GrantedFitsAbove<Key>(
      r: Rate, tats: Tats<Key>, events: seq<Event<Key>>, key: Key, now: nat, from: nat, to: nat)
    requires Ordered(events) && (events != [] ==> now <= events[0].now)
    requires WithinBucket(r, tats, now) && now <= to
    ensures Max(now, Tat(tats, key, now)) + Cost(r, GrantedIn(r, tats, events, key, from, to)) <= to + r.tau
    decreases |events|
  {
    if events != [] {
      var e, rest := events[0], events[1..];
      if to < e.now {
        NothingGrantedLater(r, tats, events, key, from, to);
      } else {
        EventKeepsBucket(r, tats, e, now);
        LevelRises(r, tats, e, key, now, from, to);
        GrantedFitsAbove(r, After(r, tats, e), rest, key, e.now, from, to);
        Distribute(r, GrantedBy(r, tats, e, key, from, to), GrantedIn(r, After(r, tats, e), rest, key, from, to));
      }
    }
  }

  /** In any window of time the granted tokens cost at most one full bucket plus the length of the window,
      whatever was requested before, in between, or for other keys, and wherever the map was pruned. */
  lemma {:induction false} WindowIsBounded<Key>(
      r: Rate, tats: Tats<Key>, events: seq<Event<Key>>, key: Key, now: nat, from: nat, to: nat)
    requires Ordered(events) && (events != [] ==> now <= events[0].now)
    requires WithinBucket(r, tats, now) && from <= to
    ensures Cost(r, GrantedIn(r, tats, events, key, from, to)) <= r.tau + (to - from)
    decreases |events|
  {
    if events != [] {
      var e, rest := events[0], events[1..];
      if e.now < from {
        EventKeepsBucket(r, tats, e, now);
        WindowIsBounded(r, After(r, tats, e), rest, key, e.now, from, to);
      } else if now <= from {
        GrantedFitsAbove(r, tats, events, key, from, from, to);
      } else if now <= to {
        GrantedFitsAbove(r, tats, events, key, now, from, to);
      } else {
        NothingGrantedLater(r, tats, events, key, from, to);
      }
    }
  }

  // ---- Pruning is invisible

  /** `pruned` lacks only keys whose bucket is full at `now`. */
  predicate SameUntil<Key>(full: Tats<Key>, pruned: Tats<Key>, now: nat) {
    && (forall k :: k in pruned ==> k in full && full[k] == pruned[k])
    && (forall k :: k in full && k !in pruned ==> full[k] <= now)
  }

  lemma RequestKeepsSame<Key>(r: Rate, full: Tats<Key>, pruned: Tats<Key>, now: nat, key: Key, tokens: nat)
    requires SameUntil(full, pruned, now)
    ensures Decide(r, full, now, key, tokens) == Decide(r, pruned, now, key, tokens)
    ensures SameUntil(Updated(r, full, now, key, tokens), Updated(r, pruned, now, key, tokens), now)
  {}

  /** Pruning drops exactly the keys whose bucket was full before the limit, and changes no other. */
  lemma PruneDropsIff<Key>(tats: Tats<Key>, limit: nat, k: Key)
    requires k in tats
    ensures k in Pruned(tats, limit) <==> tats[k] >= limit
    ensures k in Pruned(tats, limit) ==> Pruned(tats, limit)[k] == tats[k]
  {}

  /** Inserting prunes anywhere in a run never changes a decision. */
  lemma {:induction false} PruningIsInvisible<Key>(
      r: Rate, full: Tats<Key>, pruned: Tats<Key>, events: seq<Event<Key>>, now: nat)
    requires Ordered(events) && (events != [] ==> now <= events[0].now)
    requires SameUntil(full, pruned, now)
    ensures Decisions(r, pruned, events) == Decisions(r, full, WithoutPrunes(events))
    decreases |events|
  {
    if events != [] {
      var e, rest := events[0], events[1..];
      match e
      case Prune(limit) =>
        assert SameUntil(full, Pruned(pruned, limit), limit);
        PruningIsInvisible(r, full, Pruned(pruned, limit), rest, limit);
        assert WithoutPrunes(events) == WithoutPrunes(rest);
      case Request(t, key, tokens) =>
        RequestKeepsSame(r, full, pruned, t, key, tokens);
        PruningIsInvisible(r, Updated(r, full, t, key, tokens), Updated(r, pruned, t, key, tokens), rest, t);
        assert WithoutPrunes(events) == [e] + WithoutPrunes(rest);
        assert WithoutPrunes(events)[1..] == WithoutPrunes(rest);
    }
  }

  // ---- The other side: what must be granted

  lemma GrantedIff<Key>(r: Rate, tats: Tats<Key>, now: nat, key: Key, tokens: nat)
    ensures Decide(r, tats, now, key, tokens) == Granted <==>
            Max(now, Tat(tats, key, now)) + Cost(r, tokens) <= now + r.tau
  {}

  /** Spending is additive: `a + b` tokens are granted at once exactly when `a` are and then `b` are, and the
      bucket is left the same. */
  lemma SpendingIsAdditive<Key>(r: Rate, tats: Tats<Key>, now: nat, key: Key, a: nat, b: nat)
    ensures var after := Updated(r, tats, now, key, a);
            && (Decide(r, tats, now, key, a + b) == Granted <==>
                Decide(r, tats, now, key, a) == Granted && Decide(r, after, now, key, b) == Granted)
            && (Decide(r, tats, now, key, a + b) == Granted ==>
                Updated(r, tats, now, key, a + b) == Updated(r, after, now, key, b))
  {
    Distribute(r, a, b);
    GrantedIff(r, tats, now, key, a + b);
    GrantedIff(r, tats, now, key, a);
    GrantedIff(r, Updated(r, tats, now, key, a), now, key, b);
  }

  /** A request as one key sees it. */
  datatype Ask = Ask(now: nat, tokens: nat)

  /** The requests of one key, in order. */
  function AsksOf<Key(==)>(events: seq<Event<Key>>, key: Key): seq<Ask> {
    if events == [] then []
    else (if events[0].Request? && events[0].key == key then [Ask(events[0].now, events[0].tokens)] else [])
         + AsksOf(events[1..], key)
  }

  /** Every request of the key is granted. */
  predicate AllGranted<Key(==)>(r: Rate, tats: Tats<Key>, events: seq<Event<Key>>, key: Key)
    decreases |events|
  {
    events != [] ==>
      && (events[0].Request? && events[0].key == key ==>
            Decide(r, tats, events[0].now, key, events[0].tokens) == Granted)
      && AllGranted(r, After(r, tats, events[0]), events[1..], key)
  }

  /** The same for a bucket that is full again at `level`. */
  predicate LevelGrants(r: Rate, level: nat, asks: seq<Ask>)
    decreases |asks|
  {
    asks != [] ==>
      var top := Max(asks[0].now, level) + Cost(r, asks[0].tokens);
      top <= asks[0].now + r.tau && LevelGrants(r, top, asks[1..])
  }

  /** From `now` on the key's bucket behaves as one that is full again at `level`. */
  predicate HasLevel<Key(==)>(tats: Tats<Key>, key: Key, now: nat, level: nat) {
    if key in tats then tats[key] == level || (tats[key] <= now && level <= now) else level <= now
  }

  lemma LevelAfter<Key>(r: Rate, tats: Tats<Key>, e: Event<Key>, key: Key, now: nat, level: nat)
    requires HasLevel(tats, key, now, level) && now <= e.now
    ensures var mine := e.Request? && e.key == key;
            && (mine ==> (Decide(r, tats, e.now, key, e.tokens) == Granted <==>
                          Max(e.now, level) + Cost(r, e.tokens) <= e.now + r.tau))
            && (mine && Decide(r, tats, e.now, key, e.tokens) == Granted ==>
                HasLevel(After(r, tats, e), key, e.now, Max(e.now, level) + Cost(r, e.tokens)))
            && (!mine ==> HasLevel(After(r, tats, e), key, e.now, level))
  {
    if e.Request? && e.key == key { GrantedIff(r, tats, e.now, key, e.tokens); }
  }

  lemma AsksNext<Key>(events: seq<Event<Key>>, key: Key)
    requires events != []
    ensures var asks, rest := AsksOf(events, key), AsksOf(events[1..], key);
            if events[0].Request? && events[0].key == key
            then asks != [] && asks[0] == Ask(events[0].now, events[0].tokens) && asks[1..] == rest
            else asks == rest
  {}

  lemma {:induction false} RunFollowsLevel<Key>(
      r: Rate, tats: Tats<Key>, events: seq<Event<Key>>, key: Key, now: nat, level: nat)
    requires Ordered(events) && (events != [] ==> now <= events[0].now) && HasLevel(tats, key, now, level)
    ensures AllGranted(r, tats, events, key) <==> LevelGrants(r, level, AsksOf(events, key))
    decreases |events|
  {
    if events != [] {
      var e, rest := events[0], events[1..];
      LevelAfter(r, tats, e, key, now, level);
      AsksNext(events, key);
      if e.Request? && e.key == key {
        if Decide(r, tats, e.now, key, e.tokens) == Granted {
          RunFollowsLevel(r, After(r, tats, e), rest, key, e.now, Max(e.now, level) + Cost(r, e.tokens));
        }
      } else {
        RunFollowsLevel(r, After(r, tats, e), rest, key, e.now, level);
      }
    }
  }

  function TokensOf(asks: seq<Ask>): nat {
    if asks == [] then 0 else asks[0].tokens + TokensOf(asks[1..])
  }

  /** Everything up to request `j` fits above `level`. */
  predicate FitsAbove(r: Rate, level: nat, asks: seq<Ask>, j: nat)
    requires j < |asks|
  {
    level + Cost(r, TokensOf(asks[..j + 1])) <= asks[j].now + r.tau
  }

  /** The requests from `i` to `j` cost at most one bucket plus the time between the two. */
  predicate WindowFits(r: Rate, asks: seq<Ask>, i: nat, j: nat)
    requires i <= j < |asks|
  {
    Cost(r, TokensOf(asks[i..j + 1])) <= r.tau + (asks[j].now - asks[i].now)
  }

  predicate AllFitAbove(r: Rate, level: nat, asks: seq<Ask>) {
    forall j :: 0 <= j < |asks| ==> FitsAbove(r, level, asks, j)
  }

  predicate WindowsFit(r: Rate, asks: seq<Ask>) {
    forall i, j :: 0 <= i <= j < |asks| ==> WindowFits(r, asks, i, j)
  }

  lemma FitsNext(r: Rate, level: nat, asks: seq<Ask>, j: nat)
    requires 0 < j < |asks|
    ensures FitsAbove(r, level, asks, j) <==> FitsAbove(r, level + Cost(r, asks[0].tokens), asks[1..], j - 1)
  {
    var upTo, rest := asks[..j + 1], asks[1..][..j];
    assert upTo[1..] == rest;
    Distribute(r, asks[0].tokens, TokensOf(rest));
  }

  lemma AllFitNext(r: Rate, level: nat, asks: seq<Ask>)
    requires asks != []
    ensures AllFitAbove(r, level, asks) <==>
            && level + Cost(r, asks[0].tokens) <= asks[0].now + r.tau
            && AllFitAbove(r, level + Cost(r, asks[0].tokens), asks[1..])
  {
    var top, rest := level + Cost(r, asks[0].tokens), asks[1..];
    assert asks[..1][1..] == [] && TokensOf(asks[..1]) == asks[0].tokens;
    assert FitsAbove(r, level, asks, 0) <==> top <= asks[0].now + r.tau;
    forall j | 0 < j < |asks|
      ensures FitsAbove(r, level, asks, j) <==> FitsAbove(r, top, rest, j - 1)
    {
      FitsNext(r, level, asks, j);
    }
    if AllFitAbove(r, level, asks) {
      forall k | 0 <= k < |rest|
        ensures FitsAbove(r, top, rest, k)
      {
        assert FitsAbove(r, level, asks, k + 1);
      }
    }
  }

  lemma FitAboveMax(r: Rate, a: nat, b: nat, asks: seq<Ask>)
    ensures AllFitAbove(r, Max(a, b), asks) <==> AllFitAbove(r, a, asks) && AllFitAbove(r, b, asks)
  {
    forall j | 0 <= j < |asks|
      ensures FitsAbove(r, Max(a, b), asks, j) <==> FitsAbove(r, a, asks, j) && FitsAbove(r, b, asks, j)
    {}
  }

  lemma SliceOfRest(asks: seq<Ask>, i: nat, k: nat)
    requires 0 < i <= k <= |asks|
    ensures asks[i..k] == asks[1..][i - 1..k - 1]
  {
    assert forall x :: 0 <= x < k - i ==> asks[i..k][x] == asks[1..][i - 1..k - 1][x];
  }

  /** The windows of a list are those that begin with its first request and those of the rest. */
  lemma WindowsNext(r: Rate, asks: seq<Ask>)
    requires asks != []
    ensures WindowsFit(r, asks) <==> AllFitAbove(r, asks[0].now, asks) && WindowsFit(r, asks[1..])
  {
    var rest := asks[1..];
    forall j | 0 <= j < |asks|
      ensures WindowFits(r, asks, 0, j) <==> FitsAbove(r, asks[0].now, asks, j)
    {}
    forall i, j | 0 < i <= j < |asks|
      ensures WindowFits(r, asks, i, j) <==> WindowFits(r, rest, i - 1, j - 1)
    {
      SliceOfRest(asks, i, j + 1);
    }
    if WindowsFit(r, asks) {
      forall i, j | 0 <= i <= j < |rest|
        ensures WindowFits(r, rest, i, j)
      {
        assert WindowFits(r, asks, i + 1, j + 1);
      }
    }
  }

  lemma {:induction false} LevelGrantsIff(r: Rate, level: nat, asks: seq<Ask>)
    ensures LevelGrants(r, level, asks) <==> AllFitAbove(r, level, asks) && WindowsFit(r, asks)
    decreases |asks|
  {
    if asks != [] {
      var first := asks[0];
      AllFitNext(r, Max(first.now, level), asks);
      FitAboveMax(r, first.now, level, asks);
      WindowsNext(r, asks);
      LevelGrantsIff(r, Max(first.now, level) + Cost(r, first.tokens), asks[1..]);
    }
  }

  /** The converse of the window bound: a key whose bucket is full gets everything it asks for, in any run with
      any requests of other keys and any prunes in between, exactly when its requests between any two of them
      cost at most one bucket plus the time between those two. */
  lemma GrantedInFullIff<Key>(r: Rate, tats: Tats<Key>, events: seq<Event<Key>>, key: Key, now: nat)
    requires Ordered(events) && (events != [] ==> now <= events[0].now)
    requires Tat(tats, key, now) <= now
    ensures AllGranted(r, tats, events, key) <==> WindowsFit(r, AsksOf(events, key))
  {
    var asks := AsksOf(events, key);
    RunFollowsLevel(r, tats, events, key, now, 0);
    LevelGrantsIff(r, 0, asks);
    if asks != [] {
      WindowsNext(r, asks);
      FitAboveMax(r, asks[0].now, 0, asks);
    }
  }

  // ---- Waiting

  /** The reported wait is exactly the shortest one: asking again any earlier is refused with the time
      that is left, and asking again then or later is granted. */
  lemma WaitIsExact<Key>(r: Rate, tats: Tats<Key>, now: nat, key: Key, tokens: nat, later: nat)
    requires Decide(r, tats, now, key, tokens).TooSoon? && now <= later
    ensures var wait := Decide(r, tats, now, key, tokens).wait;
            var tats' := Updated(r, tats, now, key, tokens);
            Decide(r, tats', later, key, tokens) ==
            if later < now + wait then TooSoon(now + wait - later) else Granted
  {}

  /** A quota of `n` tokens lets a fresh key spend `n` tokens at once. It caps the burst at `n` exactly when
      the rounding of the time per token leaves less than that time over. */
  lemma BurstIsMaxTokensIff<Key>(q: Quota, key: Key, now: nat, tokens: nat)
    requires FromQuota(q).Some?
    ensures var r := FromQuota(q).value;
            && (tokens <= q.maxTokens ==> Decide(r, map[], now, key, tokens) == Granted)
            && (q.replenishAllEvery % q.maxTokens < r.t && tokens > q.maxTokens ==>
                  Decide(r, map[], now, key, tokens) == TooLarge)
            && (q.replenishAllEvery % q.maxTokens >= r.t ==>
                  Decide(r, map[], now, key, q.maxTokens + 1) == Granted)
  {
    var r, n := FromQuota(q).value, q.maxTokens;
    DivMod(q.replenishAllEvery, n);
    Distribute(r, n, 1);
    if tokens <= n { CostMonotone(r, tokens, n); } else { CostMonotone(r, n + 1, tokens); }
  }

  lemma DivMod(a: nat, n: nat)
    requires n > 0
    ensures a == (a / n) * n + a % n
  {}

  lemma CostMonotone(r: Rate, a: nat, b: nat)
    requires a <= b
    ensures Cost(r, a) <= Cost(r, b)
  {}
}

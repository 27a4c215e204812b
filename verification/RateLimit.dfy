/**
 The per-client token bucket of backend/internal/api/ratelimit.go. Times and durations
 are integer nanoseconds of a monotonic clock.
 */
module RateLimit {
  datatype Bucket = Bucket(tokens: int, lastFill: int, lastAccess: int)
  type Clients = map<string, Bucket>
  datatype Config = Config(rate: int, interval: int, burst: int, cleanup: int)

  // The divisor and the ticker period must be positive; a bucket holds something.
  predicate Sane(c: Config) { c.interval >= 1 && c.cleanup >= 1 && c.burst >= 1 }

  // Go's integer division truncates toward zero.
  function Quot(a: int, b: int): int
    requires b >= 1
  {
    if a >= 0 then a / b else -(-a / b)
  }

  function Min(a: int, b: int): int { if b < a then b else a }

  function Refill(c: Config, b: Bucket, now: int): Bucket
    requires c.interval >= 1
  {
    var refill := Quot(now - b.lastFill, c.interval) * c.rate;
    if refill > 0 then Bucket(Min(b.tokens + refill, c.burst), now, now) else b.(lastAccess := now)
  }

  function Admit(c: Config, m: Clients, key: string, now: int): (Clients, bool)
    requires c.interval >= 1
  {
    if key !in m then (m[key := Bucket(c.burst - 1, now, now)], true)
    else
      var b := Refill(c, m[key], now);
      if b.tokens > 0 then (m[key := b.(tokens := b.tokens - 1)], true) else (m[key := b], false)
  }

  predicate Stale(c: Config, b: Bucket, now: int) { now - b.lastAccess > c.cleanup }

  function Evict(c: Config, m: Clients, now: int): Clients {
    map k | k in m && !Stale(c, m[k], now) :: m[k]
  }

  class RateLimiter {
    var clients: Clients
    const c: Config

    constructor (rate: int, interval: int, burst: int, cleanup: int)
      requires interval >= 1 && cleanup >= 1
      ensures clients == map[] && c == Config(rate, interval, burst, cleanup)
    {
      clients := map[];
      c := Config(rate, interval, burst, cleanup);
    }

    method Allow(key: string, now: int) returns (ok: bool)
      requires c.interval >= 1
      modifies this
      ensures (clients, ok) == Admit(c, old(clients), key, now)
    {
      if key !in clients {
        clients := clients[key := Bucket(c.burst - 1, now, now)];
        return true;
      }
      var b := clients[key].(lastAccess := now);
      var elapsed := now - b.lastFill;
      var refill := Quot(elapsed, c.interval) * c.rate;
      if refill > 0 {
        b := b.(tokens := b.tokens + refill);
        if b.tokens > c.burst {
          b := b.(tokens := c.burst);
        }
        b := b.(lastFill := now);
      }
      if b.tokens > 0 {
        clients := clients[key := b.(tokens := b.tokens - 1)];
        return true;
      }
      clients := clients[key := b];
      return false;
    }

    // One round of the clean-up loop.
    method Cleanup(now: int)
      modifies this
      ensures clients == Evict(c, old(clients), now)
    {
      var keys := clients.Keys;
      var left := keys;
      while left != {}
        invariant left <= keys
        invariant clients == map k | k in old(clients) && (k in left || !Stale(c, old(clients)[k], now))
                               :: old(clients)[k]
        decreases left
      {
        var key :| key in left;
        if now - clients[key].lastAccess > c.cleanup {
          clients := clients - {key};
        }
        left := left - {key};
      }
    }
  }

  // ---------------------------------------------------------------- one request, one round

  // A new client has the burst less one. Another's whole intervals since the last refill are
  // paid out up to the burst; it is admitted if a token is there, and that token is spent.
  lemma AdmitInColumns(c: Config, m: Clients, key: string, now: int)
    requires c.interval >= 1 && (key in m ==> m[key].lastFill <= now)
    ensures var (n, ok) := Admit(c, m, key, now);
            && n == m[key := n[key]] && n[key].lastAccess == now
            && (key !in m ==> ok && n[key].tokens == c.burst - 1 && n[key].lastFill == now)
            && (key in m ==>
                  var paid := (now - m[key].lastFill) / c.interval * c.rate;
                  var have := if paid <= 0 then m[key].tokens
                              else if m[key].tokens + paid <= c.burst then m[key].tokens + paid else c.burst;
                  && (ok <==> have > 0)
                  && n[key].tokens == (if have > 0 then have - 1 else have)
                  && n[key].lastFill == (if paid > 0 then now else m[key].lastFill))
  {}

  // A round forgets exactly the clients idle for more than the clean-up period.
  lemma EvictInColumns(c: Config, m: Clients, now: int, k: string)
    ensures k in Evict(c, m, now) <==> k in m && now - m[k].lastAccess <= c.cleanup
    ensures k in Evict(c, m, now) ==> Evict(c, m, now)[k] == m[k]
  {}

  // ---------------------------------------------------------------- runs

  datatype Event = Request(key: string, now: int) | Tick(now: int)

  ghost predicate Ordered(es: seq<Event>) { forall i, j :: 0 <= i < j < |es| ==> es[i].now <= es[j].now }

  function Step(c: Config, m: Clients, e: Event, evicting: bool): Clients
    requires c.interval >= 1
  {
    match e
    case Request(key, now) => Admit(c, m, key, now).0
    case Tick(now) => if evicting then Evict(c, m, now) else m
  }

  function Answer(c: Config, m: Clients, e: Event): bool
    requires c.interval >= 1
  {
    e.Request? && Admit(c, m, e.key, e.now).1
  }

  // What each event of a run was answered; a tick is never an admission.
  function Answers(c: Config, m: Clients, es: seq<Event>, evicting: bool): (r: seq<bool>)
    requires c.interval >= 1
    ensures |r| == |es|
    decreases es
  {
    if es == [] then [] else [Answer(c, m, es[0])] + Answers(c, Step(c, m, es[0], evicting), es[1..], evicting)
  }

  function Run(c: Config, m: Clients, es: seq<Event>, evicting: bool): Clients
    requires c.interval >= 1
    decreases es
  {
    if es == [] then m else Run(c, Step(c, m, es[0], evicting), es[1..], evicting)
  }

  // ---------------------------------------------------------------- arithmetic

  lemma Times(a: int, b: int, r: int)
    requires a <= b && 0 <= r
    ensures a * r <= b * r
  {}

  lemma Quotient(a: int, i: int)
    requires i >= 1
    ensures a / i * i <= a < a / i * i + i
  {
    assert a == a / i * i + a % i;
  }

  lemma QuotientIsLargest(a: int, q: int, i: int)
    requires i >= 1 && q * i <= a
    ensures q <= a / i
  {
    Quotient(a, i);
    if a / i + 1 <= q { Times(a / i + 1, q, i); }
  }

  lemma QuotientsGrow(a: int, b: int, i: int)
    requires i >= 1 && a <= b
    ensures a / i <= b / i
  {
    Quotient(a, i);
    QuotientIsLargest(b, a / i, i);
  }

  lemma QuotientsAdd(a: int, b: int, i: int)
    requires i >= 1
    ensures a / i + b / i <= (a + b) / i
  {
    Quotient(a, i);
    Quotient(b, i);
    QuotientIsLargest(a + b, a / i + b / i, i);
  }

  lemma QuotientSteps(a: int, i: int)
    requires i >= 1
    ensures (a + i) / i == a / i + 1
  {
    Quotient(a, i);
    Quotient(a + i, i);
    QuotientIsLargest(a + i, a / i + 1, i);
    QuotientIsLargest(a, (a + i) / i - 1, i);
  }

  // ---------------------------------------------------------------- eviction is unobservable

  // A bucket left alone long enough to be evicted is full again.
  predicate Adequate(c: Config)
    requires c.interval >= 1
  {
    Quot(c.cleanup + 1, c.interval) * c.rate >= c.burst
  }

  ghost predicate BucketOk(c: Config, b: Bucket, now: int) {
    0 <= b.tokens <= c.burst && b.lastFill <= b.lastAccess <= now
  }

  ghost predicate BucketsOk(c: Config, m: Clients, now: int) { forall k :: k in m ==> BucketOk(c, m[k], now) }

  ghost predicate Alike(c: Config, m: Clients, full: Clients, now: int, k: string) {
    && (k in m ==> k in full && m[k] == full[k])
    && (k in full && k !in m ==> Stale(c, full[k], now))
  }

  // The evicting limiter has lost nothing but stale buckets.
  ghost predicate Similar(c: Config, m: Clients, full: Clients, now: int) { forall k :: Alike(c, m, full, now, k) }

  lemma RefillKeeps(c: Config, b: Bucket, was: int, now: int)
    requires Sane(c) && BucketOk(c, b, was) && was <= now
    ensures BucketOk(c, Refill(c, b, now), now)
  {}

  lemma StepKeepsBuckets(c: Config, m: Clients, was: int, e: Event, evicting: bool)
    requires Sane(c) && BucketsOk(c, m, was) && was <= e.now
    ensures BucketsOk(c, Step(c, m, e, evicting), e.now)
  {
    if e.Request? && e.key in m { RefillKeeps(c, m[e.key], was, e.now); }
  }

  lemma StaleRefillsFully(c: Config, b: Bucket, was: int, now: int)
    requires Sane(c) && Adequate(c) && BucketOk(c, b, was) && Stale(c, b, was) && was <= now
    ensures Refill(c, b, now) == Bucket(c.burst, now, now)
  {
    QuotientsGrow(c.cleanup + 1, now - b.lastFill, c.interval);
    var least := (c.cleanup + 1) / c.interval;
    if c.rate <= 0 && least > 0 { Times(c.rate, 0, least); }
    Times(least, (now - b.lastFill) / c.interval, c.rate);
  }

  lemma StepKeepsSimilar(c: Config, m: Clients, full: Clients, was: int, e: Event)
    requires Sane(c) && Adequate(c) && BucketsOk(c, full, was) && Similar(c, m, full, was) && was <= e.now
    ensures Similar(c, Step(c, m, e, true), Step(c, full, e, false), e.now)
    ensures Answer(c, m, e) == Answer(c, full, e)
  {
    if e.Request? {
      assert Alike(c, m, full, was, e.key);
      if e.key in full && e.key !in m { StaleRefillsFully(c, full[e.key], was, e.now); }
    }
    forall k ensures Alike(c, Step(c, m, e, true), Step(c, full, e, false), e.now, k) {
      assert Alike(c, m, full, was, k);
    }
  }

  lemma {:induction false} SimilarAnswersAlike(c: Config, m: Clients, full: Clients, was: int, es: seq<Event>)
    requires Sane(c) && Adequate(c) && BucketsOk(c, full, was) && Similar(c, m, full, was)
    requires Ordered(es) && (es != [] ==> was <= es[0].now)
    ensures Answers(c, m, es, true) == Answers(c, full, es, false)
    decreases es
  {
    if es != [] {
      StepKeepsSimilar(c, m, full, was, es[0]);
      StepKeepsBuckets(c, full, was, es[0], false);
      SimilarAnswersAlike(c, Step(c, m, es[0], true), Step(c, full, es[0], false), es[0].now, es[1..]);
    }
  }

  // ---------------------------------------------------------------- and otherwise it shows

  function Burst(key: string, now: int, n: nat): (es: seq<Event>)
    ensures |es| == n && forall i :: 0 <= i < n ==> es[i] == Request(key, now)
  {
    if n == 0 then [] else [Request(key, now)] + Burst(key, now, n - 1)
  }

  // A burst at one instant is answered yes while tokens last.
  lemma {:induction false} BurstDrains(c: Config, m: Clients, key: string, now: int, n: nat, evicting: bool)
    requires Sane(c) && key in m && m[key].lastFill == now && 0 <= m[key].tokens
    ensures var es := Burst(key, now, n);
            forall i :: 0 <= i < n ==> Answers(c, m, es, evicting)[i] == (i < m[key].tokens)
    ensures var after := Run(c, m, Burst(key, now, n), evicting);
            && key in after && after[key].lastFill == now && (n > 0 ==> after[key].lastAccess == now)
            && after[key].tokens == if n < m[key].tokens then m[key].tokens - n else 0
    decreases n
  {
    if n > 0 {
      var next := Step(c, m, Request(key, now), evicting);
      assert Burst(key, now, n)[1..] == Burst(key, now, n - 1);
      BurstDrains(c, next, key, now, n - 1, evicting);
    }
  }

  lemma {:induction false} AnswersSplit(c: Config, m: Clients, a: seq<Event>, b: seq<Event>, evicting: bool)
    requires c.interval >= 1
    ensures Answers(c, m, a + b, evicting)
        == Answers(c, m, a, evicting) + Answers(c, Run(c, m, a, evicting), b, evicting)
    ensures Run(c, m, a + b, evicting) == Run(c, Run(c, m, a, evicting), b, evicting)
    decreases a
  {
    if a == [] {
      assert a + b == b;
    } else {
      assert (a + b)[1..] == a[1..] + b;
      AnswersSplit(c, Step(c, m, a[0], evicting), a[1..], b, evicting);
    }
  }

  // A key not seen before gets its whole burst and is then empty.
  lemma NewKeyGetsItsBurst(c: Config, m: Clients, key: string, now: int, evicting: bool)
    requires Sane(c) && key !in m
    ensures var es := Burst(key, now, c.burst);
            && (forall i :: 0 <= i < c.burst ==> Answers(c, m, es, evicting)[i])
            && var after := Run(c, m, es, evicting);
            key in after && after[key] == Bucket(0, now, now)
  {
    var es := Burst(key, now, c.burst);
    assert es[0] == Request(key, now) && es[1..] == Burst(key, now, c.burst - 1);
    var next := Step(c, m, es[0], evicting);
    BurstDrains(c, next, key, now, c.burst - 1, evicting);
    if c.burst == 1 { assert es[1..] == []; }
  }

  // A bucket emptied at `was` and not refilled in full turns part of a burst away.
  lemma ShortRefillTurnsAway(c: Config, m: Clients, key: string, was: int, now: int) returns (i: int)
    requires Sane(c) && key in m && m[key] == Bucket(0, was, was) && was <= now
    requires (now - was) / c.interval * c.rate < c.burst
    ensures 0 <= i < c.burst && !Answers(c, m, Burst(key, now, c.burst), false)[i]
  {
    var es := Burst(key, now, c.burst);
    assert es[0] == Request(key, now) && es[1..] == Burst(key, now, c.burst - 1);
    i := 0;
    if Answer(c, m, es[0]) {
      var next := Step(c, m, es[0], false);
      BurstDrains(c, next, key, now, c.burst - 1, false);
      i := next[key].tokens + 1;
    }
  }

  // Drain a bucket, let one clean-up pass that finds it stale, and burst again.
  function Probe(c: Config, key: string): seq<Event>
    requires Sane(c)
  {
    (Burst(key, 0, c.burst) + [Tick(c.cleanup + 1)]) + Burst(key, c.cleanup + 1, c.burst)
  }

  // The answers to the second burst of the probe, as part of the whole run.
  lemma SecondBurst(c: Config, key: string, evicting: bool) returns (m: Clients)
    requires Sane(c)
    ensures key in m && m[key] == Bucket(0, 0, 0)
    ensures Answers(c, map[], Probe(c, key), evicting)[c.burst + 1..]
         == Answers(c, Step(c, m, Tick(c.cleanup + 1), evicting), Burst(key, c.cleanup + 1, c.burst), evicting)
  {
    var (first, tick) := (Burst(key, 0, c.burst), Tick(c.cleanup + 1));
    NewKeyGetsItsBurst(c, map[], key, 0, evicting);
    m := Run(c, map[], first, evicting);
    AnswersSplit(c, map[], first, [tick], evicting);
    assert Run(c, m, [tick], evicting) == Step(c, m, tick, evicting);
    AnswersSplit(c, map[], first + [tick], Burst(key, c.cleanup + 1, c.burst), evicting);
  }

  lemma ProbeIsOrdered(c: Config, key: string)
    requires Sane(c)
    ensures Ordered(Probe(c, key))
  {}

  lemma ProbeShowsEviction(c: Config, key: string)
    requires Sane(c) && !Adequate(c)
    ensures Answers(c, map[], Probe(c, key), true) != Answers(c, map[], Probe(c, key), false)
  {
    var e := SecondBurst(c, key, true);
    var f := SecondBurst(c, key, false);
    NewKeyGetsItsBurst(c, Evict(c, e, c.cleanup + 1), key, c.cleanup + 1, true);
    var i := ShortRefillTurnsAway(c, f, key, 0, c.cleanup + 1);
    assert Answers(c, map[], Probe(c, key), true)[c.burst + 1..][i];
    assert !Answers(c, map[], Probe(c, key), false)[c.burst + 1..][i];
  }

  // The clean-up loop changes no answer exactly when a stale bucket would be full again.
  lemma EvictionIsUnobservable(c: Config)
    requires Sane(c)
    ensures (forall es: seq<Event> ::
               Ordered(es) ==> Answers(c, map[], es, true) == Answers(c, map[], es, false))
            <==> Adequate(c)
  {
    if Adequate(c) {
      forall es: seq<Event> | Ordered(es) ensures Answers(c, map[], es, true) == Answers(c, map[], es, false) {
        SimilarAnswersAlike(c, map[], map[], if es == [] then 0 else es[0].now, es);
      }
    } else {
      ProbeIsOrdered(c, "");
      ProbeShowsEviction(c, "");
    }
  }

  // ---------------------------------------------------------------- admissions in a window

  // How many of a run's requests for `key` were answered yes.
  function Tally(es: seq<Event>, answers: seq<bool>, key: string): nat
    requires |answers| == |es|
  {
    if es == [] then 0
    else (if es[0].Request? && es[0].key == key && answers[0] then 1 else 0) + Tally(es[1..], answers[1..], key)
  }

  // Tokens a bucket last filled at `b.lastFill` can still give out by time `t`.
  function Credit(c: Config, b: Bucket, t: int): int
    requires c.interval >= 1
  {
    b.tokens + (t - b.lastFill) / c.interval * c.rate
  }

  lemma RefillSpendsCredit(c: Config, b: Bucket, was: int, now: int, t: int)
    requires Sane(c) && c.rate >= 0 && BucketOk(c, b, was) && was <= now <= t
    ensures Credit(c, Refill(c, b, now), t) <= Credit(c, b, t)
  {
    QuotientsAdd(now - b.lastFill, t - now, c.interval);
    var (x, y, z) := ((now - b.lastFill) / c.interval, (t - now) / c.interval, (t - b.lastFill) / c.interval);
    Times(x + y, z, c.rate);
    assert (x + y) * c.rate == x * c.rate + y * c.rate;
  }

  // However long a bucket was idle, its next refill leaves it little credit.
  lemma RefillCapsCredit(c: Config, b: Bucket, was: int, s: int, now: int, t: int)
    requires Sane(c) && c.rate >= 0 && BucketOk(c, b, was) && was <= now && s <= now <= t
    ensures Credit(c, Refill(c, b, now), t) <= c.burst + ((t - s) / c.interval + 1) * c.rate
  {
    var r := Refill(c, b, now);
    QuotientsGrow(t - now, t - s, c.interval);
    QuotientSteps(t - s, c.interval);
    if r.lastFill == now {
      Times((t - now) / c.interval, (t - s) / c.interval + 1, c.rate);
    } else if c.rate > 0 {
      var x := (now - b.lastFill) / c.interval;
      if x > 0 { Times(1, x, c.rate); }
      if c.interval <= now - b.lastFill { QuotientIsLargest(now - b.lastFill, 1, c.interval); }
      QuotientsGrow(t - b.lastFill, t - s + c.interval, c.interval);
      Times((t - b.lastFill) / c.interval, (t - s) / c.interval + 1, c.rate);
    }
  }

  ghost predicate Within(es: seq<Event>, s: int, t: int) { forall i :: 0 <= i < |es| ==> s <= es[i].now <= t }

  lemma {:induction false} CreditBoundsTally(c: Config, m: Clients, was: int, es: seq<Event>, key: string, t: int)
    requires Sane(c) && c.rate >= 0 && BucketsOk(c, m, was) && key in m && Ordered(es) && Within(es, was, t) && was <= t
    ensures Tally(es, Answers(c, m, es, false), key) <= Credit(c, m[key], t)
    decreases es
  {
    if es == [] {
      QuotientIsLargest(t - m[key].lastFill, 0, c.interval);
      Times(0, (t - m[key].lastFill) / c.interval, c.rate);
    } else {
      var e := es[0];
      StepKeepsBuckets(c, m, was, e, false);
      if e.Request? && e.key == key { RefillSpendsCredit(c, m[key], was, e.now, t); }
      CreditBoundsTally(c, Step(c, m, e, false), e.now, es[1..], key, t);
    }
  }

  lemma {:induction false} WindowBoundWithoutEviction(
        c: Config, m: Clients, was: int, es: seq<Event>, key: string, s: int, t: int)
    requires Sane(c) && c.rate >= 0 && BucketsOk(c, m, was) && Ordered(es) && Within(es, s, t) && s <= t
    requires es != [] ==> was <= es[0].now
    ensures Tally(es, Answers(c, m, es, false), key) <= c.burst + ((t - s) / c.interval + 1) * c.rate
    decreases es
  {
    if es == [] {
      QuotientIsLargest(t - s, 0, c.interval);
      Times(0, (t - s) / c.interval + 1, c.rate);
    } else {
      var e := es[0];
      var n := Step(c, m, e, false);
      StepKeepsBuckets(c, m, was, e, false);
      if e.Request? && e.key == key {
        var b := if key in m then Refill(c, m[key], e.now) else Bucket(c.burst, e.now, e.now);
        if key in m {
          RefillCapsCredit(c, m[key], was, s, e.now, t);
        } else {
          QuotientsGrow(t - e.now, t - s, c.interval);
          Times((t - e.now) / c.interval, (t - s) / c.interval + 1, c.rate);
        }
        CreditBoundsTally(c, n, e.now, es[1..], key, t);
      } else {
        WindowBoundWithoutEviction(c, n, e.now, es[1..], key, s, t);
      }
    }
  }

  lemma {:induction false} RunKeepsBuckets(c: Config, m: Clients, was: int, es: seq<Event>, now: int)
    requires Sane(c) && BucketsOk(c, m, was) && Ordered(es) && Within(es, was, now) && was <= now
    ensures BucketsOk(c, Run(c, m, es, false), now)
    decreases es
  {
    if es != [] {
      StepKeepsBuckets(c, m, was, es[0], false);
      RunKeepsBuckets(c, Step(c, m, es[0], false), es[0].now, es[1..], now);
    }
  }

  // After any past the evicting limiter goes on like the one that never evicts.
  lemma EvictionStaysUnobservable(c: Config, past: seq<Event>, es: seq<Event>)
    requires Sane(c) && Adequate(c) && Ordered(past + es)
    ensures Answers(c, Run(c, map[], past, true), es, true) == Answers(c, Run(c, map[], past, false), es, false)
  {
    EvictionIsUnobservable(c);
    AnswersSplit(c, map[], past, es, true);
    AnswersSplit(c, map[], past, es, false);
    var (all, n) := (past + es, |past|);
    assert Answers(c, map[], all, true)[n..] == Answers(c, Run(c, map[], past, true), es, true);
    assert Answers(c, map[], all, false)[n..] == Answers(c, Run(c, map[], past, false), es, false);
  }

  lemma PlainWindowBound(c: Config, past: seq<Event>, es: seq<Event>, key: string, s: int, t: int)
    requires Sane(c) && c.rate >= 0 && Ordered(past + es) && Within(es, s, t) && s <= t
    ensures Tally(es, Answers(c, Run(c, map[], past, false), es, false), key)
            <= c.burst + ((t - s) / c.interval + 1) * c.rate
  {
    assert forall i :: 0 <= i < |past| ==> past[i] == (past + es)[i];
    assert forall i :: 0 <= i < |es| ==> es[i] == (past + es)[|past| + i];
    if past == [] {
      WindowBoundWithoutEviction(c, map[], s, es, key, s, t);
    } else {
      var last := past[|past| - 1].now;
      RunKeepsBuckets(c, map[], past[0].now, past, last);
      WindowBoundWithoutEviction(c, Run(c, map[], past, false), last, es, key, s, t);
    }
  }

  // Over any run with clean-up rounds, a window [s, t] admits no more than this for one key.
  lemma WindowBound(c: Config, past: seq<Event>, es: seq<Event>, key: string, s: int, t: int)
    requires Sane(c) && Adequate(c) && Ordered(past + es) && Within(es, s, t) && s <= t
    ensures Tally(es, Answers(c, Run(c, map[], past, true), es, true), key)
            <= c.burst + ((t - s) / c.interval + 1) * c.rate
  {
    AdequateNeedsARate(c);
    EvictionStaysUnobservable(c, past, es);
    PlainWindowBound(c, past, es, key, s, t);
  }

  lemma AdequateNeedsARate(c: Config)
    requires Sane(c) && Adequate(c)
    ensures c.rate > 0
  {
    if c.rate <= 0 { Times(c.rate, 0, (c.cleanup + 1) / c.interval); }
  }

  // ---------------------------------------------------------------- patient clients

  // Since `last`, the latest request of this key, its bucket has lost nothing: it holds a
  // token, or was refilled no later than that request.
  ghost predicate Patient(c: Config, m: Clients, key: string, last: int) {
    key in m ==> m[key].tokens >= 1 || m[key].lastFill <= last
  }

  // Requests for the key come at least an interval apart, the first that long after `last`.
  predicate Spaced(c: Config, es: seq<Event>, key: string, last: int)
    decreases es
  {
    if es == [] then true
    else if es[0].Request? && es[0].key == key
    then last + c.interval <= es[0].now && Spaced(c, es[1..], key, es[0].now)
    else Spaced(c, es[1..], key, last)
  }

  lemma IntervalPays(c: Config, b: Bucket, now: int)
    requires Sane(c) && c.rate >= 1 && b.lastFill + c.interval <= now && b.tokens >= 0
    ensures Refill(c, b, now).tokens >= 1
  {
    QuotientIsLargest(now - b.lastFill, 1, c.interval);
    Times(1, (now - b.lastFill) / c.interval, c.rate);
  }

  lemma PatientStep(c: Config, m: Clients, e: Event, evicting: bool, was: int, key: string, last: int)
    requires Sane(c) && c.rate >= 1 && BucketsOk(c, m, was) && was <= e.now && Patient(c, m, key, last)
    requires e.Request? && e.key == key ==> last + c.interval <= e.now
    ensures e.Request? && e.key == key ==> Answer(c, m, e) && Patient(c, Step(c, m, e, evicting), key, e.now)
    ensures !(e.Request? && e.key == key) ==> Patient(c, Step(c, m, e, evicting), key, last)
  {
    if e.Request? && e.key == key && key in m {
      assert BucketOk(c, m[key], was);
      if m[key].tokens == 0 { IntervalPays(c, m[key], e.now); }
      KeptTokens(c, m[key], was, e.now);
    }
  }

  lemma KeptTokens(c: Config, b: Bucket, was: int, now: int)
    requires Sane(c) && BucketOk(c, b, was) && was <= now
    ensures Refill(c, b, now).tokens >= b.tokens && Refill(c, b, now).lastFill <= now
  {}

  // With a rate of at least one, a client that leaves an interval between its requests is
  // never turned away, with or without clean-up rounds.
  lemma {:induction false} PatientClientsAreAdmitted(
      c: Config, m: Clients, es: seq<Event>, evicting: bool, was: int, key: string, last: int, i: nat)
    requires Sane(c) && c.rate >= 1 && BucketsOk(c, m, was) && Patient(c, m, key, last)
    requires Ordered(es) && (es != [] ==> was <= es[0].now) && Spaced(c, es, key, last)
    requires i < |es| && es[i].Request? && es[i].key == key
    ensures Answers(c, m, es, evicting)[i]
    decreases es
  {
    var e := es[0];
    PatientStep(c, m, e, evicting, was, key, last);
    if i > 0 {
      StepKeepsBuckets(c, m, was, e, evicting);
      var later := if e.Request? && e.key == key then e.now else last;
      PatientClientsAreAdmitted(c, Step(c, m, e, evicting), es[1..], evicting, e.now, key, later, i - 1);
    }
  }
}

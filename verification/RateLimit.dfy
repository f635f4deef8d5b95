/**
  The Redis token bucket. Time is whole milliseconds, token counts are exact reals.
 */
module RateLimit {
  import opened Common

  type Key = string

  datatype Rule = Rule(capacity: int, refillRate: real)

  /** The hash a bucket key holds. */
  datatype Bucket = Bucket(tokens: real, ts: int)

  /** What the script returns: whole tokens left, and the wait in milliseconds (-1: never). */
  datatype Reply = Reply(allowed: bool, remaining: int, retry: int)

  function Min(a: real, b: real): real {
    if a <= b then a else b
  }

  function Ceil(x: real): (n: int)
    ensures (n - 1) as real < x <= n as real
  {
    -((-x).Floor)
  }

  /** Tokens refilled over so many milliseconds. */
  function Gain(rule: Rule, ms: int): real {
    ms as real / 1000.0 * rule.refillRate
  }

  /** A capacity, and how much comes back over a stretch of time. */
  datatype Policy = Policy(capacity: real, gain: int -> real) {
    predicate AddsUp(a: int, b: int) {
      gain(a + b) == gain(a) + gain(b)
    }

    ghost predicate Additive() {
      forall a, b :: AddsUp(a, b)
    }
  }

  function PolicyOf(rule: Rule): Policy {
    Policy(rule.capacity as real, (ms: int) => Gain(rule, ms))
  }

  lemma GainAdds(rule: Rule, a: int, b: int)
    ensures Gain(rule, a + b) == Gain(rule, a) + Gain(rule, b)
  {
    var x, y := a as real / 1000.0, b as real / 1000.0;
    assert (a + b) as real / 1000.0 == x + y;
    assert (x + y) * rule.refillRate == x * rule.refillRate + y * rule.refillRate;
  }

  lemma PolicyIsAdditive(rule: Rule)
    ensures PolicyOf(rule).Additive()
  {
    forall a, b
      ensures PolicyOf(rule).AddsUp(a, b)
    {
      GainAdds(rule, a, b);
    }
  }

  // ----- the script -----

  /** Tokens available at `now`: a missing key is a full bucket. */
  function Available(p: Policy, b: Option<Bucket>, now: int): real {
    if b.None? then p.capacity
    else Min(p.capacity, b.value.tokens + p.gain(if now > b.value.ts then now - b.value.ts else 0))
  }

  /** What a request takes: its cost when there is enough, else nothing. */
  function Taken(p: Policy, b: Option<Bucket>, now: int, cost: int): int {
    if Available(p, b, now) >= cost as real then cost else 0
  }

  /** The hash written back. */
  function Next(p: Policy, b: Option<Bucket>, now: int, cost: int): Bucket {
    Bucket(Available(p, b, now) - Taken(p, b, now, cost) as real, now)
  }

  /** Milliseconds until `need` more tokens are there, rounded up; -1 when they never come. */
  function Wait(rule: Rule, need: real): int {
    if rule.refillRate > 0.0 then Ceil(need / rule.refillRate * 1000.0) else -1
  }

  /** The answer given. */
  function Answer(rule: Rule, b: Option<Bucket>, now: int, cost: int): Reply {
    var tokens := Available(PolicyOf(rule), b, now);
    if tokens >= cost as real then Reply(true, (tokens - cost as real).Floor, 0)
    else
      Reply(false, tokens.Floor, Wait(rule, cost as real - tokens))
  }

  /** The Go reference of the bucket arithmetic: allowed, tokens left, and the wait in milliseconds (-1: never). */
  function ComputeBucket(tokens: real, last: int, now: int, rule: Rule, cost: int): (bool, real, int) {
    var left := Min(rule.capacity as real, tokens + Gain(rule, if now - last > 0 then now - last else 0));
    if left >= cost as real then (true, left - cost as real, 0) else (false, left, Wait(rule, cost as real - left))
  }

  /** The script and the reference agree: same verdict, same tokens written back, same wait. */
  lemma ScriptMatchesReference(rule: Rule, b: Bucket, now: int, cost: int)
    ensures var (allowed, left, wait) := ComputeBucket(b.tokens, b.ts, now, rule, cost);
            && Answer(rule, Some(b), now, cost) == Reply(allowed, left.Floor, wait)
            && Next(PolicyOf(rule), Some(b), now, cost) == Bucket(left, now)
  {
    var elapsed := if now > b.ts then now - b.ts else 0;
    assert PolicyOf(rule).gain(elapsed) == Gain(rule, elapsed);
  }

  // ----- one key over a history of requests -----

  datatype Request = Request(now: int, cost: int)

  /** The bucket after the first `n` requests, under a Redis that keeps every key for ever. */
  function After(p: Policy, reqs: seq<Request>, n: nat): Option<Bucket>
    requires n <= |reqs|
  {
    if n == 0 then None else Some(Next(p, After(p, reqs, n - 1), reqs[n - 1].now, reqs[n - 1].cost))
  }

  /** What request `n` takes. */
  function TakenBy(p: Policy, reqs: seq<Request>, n: nat): int
    requires n < |reqs|
  {
    Taken(p, After(p, reqs, n), reqs[n].now, reqs[n].cost)
  }

  /** The total cost the first `n` requests were admitted for. */
  function Admitted(p: Policy, reqs: seq<Request>, n: nat): int
    requires n <= |reqs|
  {
    if n == 0 then 0 else Admitted(p, reqs, n - 1) + TakenBy(p, reqs, n - 1)
  }

  ghost predicate Ordered(reqs: seq<Request>) {
    forall i, j :: 0 <= i < j < |reqs| ==> reqs[i].now <= reqs[j].now
  }

  /** What is left at `t` of the capacity and the refill since request `i`, after all admitted from it on. */
  function Slack(p: Policy, reqs: seq<Request>, n: nat, t: int, i: nat): real
    requires i < n <= |reqs|
  {
    p.capacity + p.gain(t - reqs[i].now) - (Admitted(p, reqs, n) - Admitted(p, reqs, i)) as real
  }

  /** One more request, and a later moment: every slack moves by the same refill and the same taking. */
  lemma SlackMoves(p: Policy, reqs: seq<Request>, n: nat, t: int, i: nat)
    requires p.Additive() && i < n < |reqs|
    ensures Slack(p, reqs, n + 1, t, i) ==
      Slack(p, reqs, n, reqs[n].now, i) + p.gain(t - reqs[n].now) - TakenBy(p, reqs, n) as real
  {
    assert p.AddsUp(t - reqs[n].now, reqs[n].now - reqs[i].now);
    assert (t - reqs[n].now) + (reqs[n].now - reqs[i].now) == t - reqs[i].now;
  }

  lemma AvailableAfter(p: Policy, reqs: seq<Request>, n: nat, t: int)
    requires n < |reqs| && reqs[n].now <= t
    ensures Available(p, After(p, reqs, n + 1), t) ==
      Min(p.capacity,
          Available(p, After(p, reqs, n), reqs[n].now) - TakenBy(p, reqs, n) as real + p.gain(t - reqs[n].now))
  {
    var b := After(p, reqs, n + 1).value;
    var elapsed := if t > b.ts then t - b.ts else 0;
    assert elapsed == t - reqs[n].now;
    assert b.tokens == Available(p, After(p, reqs, n), reqs[n].now) - TakenBy(p, reqs, n) as real;
    assert Available(p, Some(b), t) == Min(p.capacity, b.tokens + p.gain(elapsed));
  }

  /** `x` is the smallest of the capacity and the slacks of the first `n` requests. */
  ghost predicate SmallestSlack(p: Policy, reqs: seq<Request>, n: nat, t: int, x: real)
    requires n <= |reqs|
  {
    && x <= p.capacity
    && (forall i: nat :: i < n ==> x <= Slack(p, reqs, n, t, i))
    && (x == p.capacity || exists i: nat :: i < n && x == Slack(p, reqs, n, t, i))
  }

  lemma SmallestMoves(p: Policy, reqs: seq<Request>, n: nat, t: int, x: real)
    requires p.Additive() && n < |reqs|
    requires SmallestSlack(p, reqs, n, reqs[n].now, x)
    ensures SmallestSlack(p, reqs, n + 1, t,
              Min(p.capacity, x - TakenBy(p, reqs, n) as real + p.gain(t - reqs[n].now)))
  {
    var m, d := n + 1, p.gain(t - reqs[n].now) - TakenBy(p, reqs, n) as real;
    assert Slack(p, reqs, m, t, n) == p.capacity + d;
    forall i: nat | i < m
      ensures x + d <= Slack(p, reqs, m, t, i)
    {
      if i < n {
        assert x <= Slack(p, reqs, n, reqs[n].now, i);
        SlackMoves(p, reqs, n, t, i);
      }
    }
    if x + d < p.capacity {
      if x == p.capacity {
        assert x + d == Slack(p, reqs, m, t, n);
      } else {
        var i: nat :| i < n && x == Slack(p, reqs, n, reqs[n].now, i);
        SlackMoves(p, reqs, n, t, i);
        assert x + d == Slack(p, reqs, m, t, i);
      }
    }
  }

  /**
    The bucket holds exactly the smallest of its capacity and the slacks of all earlier requests:
    the tokens in Redis summarise the whole admission history.
   */
  lemma {:induction false} TokensAreSmallestSlack(p: Policy, reqs: seq<Request>, n: nat, t: int)
    requires p.Additive() && Ordered(reqs) && n <= |reqs| && (n > 0 ==> reqs[n - 1].now <= t)
    ensures SmallestSlack(p, reqs, n, t, Available(p, After(p, reqs, n), t))
  {
    if n > 0 {
      TokensAreSmallestSlack(p, reqs, n - 1, reqs[n - 1].now);
      SmallestMoves(p, reqs, n - 1, t, Available(p, After(p, reqs, n - 1), reqs[n - 1].now));
      AvailableAfter(p, reqs, n - 1, t);
    }
  }

  /** What request `n` is answered. */
  function AnswerTo(rule: Rule, reqs: seq<Request>, n: nat): Reply
    requires n < |reqs|
  {
    Answer(rule, After(PolicyOf(rule), reqs, n), reqs[n].now, reqs[n].cost)
  }

  /** From request `i` on, what was admitted plus the cost of request `n` fits the capacity and the refill since. */
  ghost predicate Fits(rule: Rule, reqs: seq<Request>, n: nat, i: nat)
    requires i <= n < |reqs|
  {
    (Admitted(PolicyOf(rule), reqs, n) - Admitted(PolicyOf(rule), reqs, i) + reqs[n].cost) as real
      <= rule.capacity as real + Gain(rule, reqs[n].now - reqs[i].now)
  }

  lemma FitsIsSlack(rule: Rule, reqs: seq<Request>, n: nat, i: nat)
    requires i < n < |reqs|
    ensures Fits(rule, reqs, n, i) <==> reqs[n].cost as real <= Slack(PolicyOf(rule), reqs, n, reqs[n].now, i)
  {
    assert PolicyOf(rule).gain(reqs[n].now - reqs[i].now) == Gain(rule, reqs[n].now - reqs[i].now);
  }

  /**
    An independent reading of the limiter: a request is admitted exactly when, counted from
    every request up to itself, the admitted cost with its own stays within the capacity plus
    the refill since.
   */
  lemma AdmittedIff(rule: Rule, reqs: seq<Request>, n: nat)
    requires Ordered(reqs) && n < |reqs|
    ensures AnswerTo(rule, reqs, n).allowed <==> forall i: nat :: i <= n ==> Fits(rule, reqs, n, i)
  {
    var p := PolicyOf(rule);
    PolicyIsAdditive(rule);
    TokensAreSmallestSlack(p, reqs, n, reqs[n].now);
    forall i: nat | i < n
      ensures Fits(rule, reqs, n, i) <==> reqs[n].cost as real <= Slack(p, reqs, n, reqs[n].now, i)
    {
      FitsIsSlack(rule, reqs, n, i);
    }
    assert Fits(rule, reqs, n, n) <==> reqs[n].cost <= rule.capacity by {
      assert Gain(rule, 0) == 0.0;
    }
  }

  lemma {:induction false} NeverNegative(rule: Rule, reqs: seq<Request>, n: nat, t: int)
    requires 0 <= rule.capacity && 0.0 <= rule.refillRate && n <= |reqs|
    ensures 0.0 <= Available(PolicyOf(rule), After(PolicyOf(rule), reqs, n), t)
    ensures n > 0 ==> 0.0 <= After(PolicyOf(rule), reqs, n).value.tokens
  {
    if n > 0 { NeverNegative(rule, reqs, n - 1, reqs[n - 1].now); }
  }

  lemma WindowOf(p: Policy, reqs: seq<Request>, i: nat, k: nat)
    requires p.Additive() && Ordered(reqs) && i <= k < |reqs|
    requires 0.0 <= Available(p, After(p, reqs, k + 1), reqs[k].now)
    ensures (Admitted(p, reqs, k + 1) - Admitted(p, reqs, i)) as real <= p.capacity + p.gain(reqs[k].now - reqs[i].now)
  {
    TokensAreSmallestSlack(p, reqs, k + 1, reqs[k].now);
    assert Available(p, After(p, reqs, k + 1), reqs[k].now) <= Slack(p, reqs, k + 1, reqs[k].now, i);
  }

  /** Over any history, the cost admitted in a window is at most the capacity plus the refill of its length. */
  lemma WindowIsBounded(rule: Rule, reqs: seq<Request>, i: nat, k: nat)
    requires 0 <= rule.capacity && 0.0 <= rule.refillRate && Ordered(reqs)
    requires i <= k < |reqs|
    ensures (Admitted(PolicyOf(rule), reqs, k + 1) - Admitted(PolicyOf(rule), reqs, i)) as real
              <= rule.capacity as real + Gain(rule, reqs[k].now - reqs[i].now)
  {
    PolicyIsAdditive(rule);
    NeverNegative(rule, reqs, k + 1, reqs[k].now);
    WindowOf(PolicyOf(rule), reqs, i, k);
  }

  // ----- RetryAfter -----

  lemma SameSign(x: real, rate: real)
    requires rate > 0.0
    ensures x * rate >= 0.0 <==> x >= 0.0
  {
    if x >= 0.0 { assert x * rate >= 0.0; } else { assert (-x) * rate > 0.0; }
  }

  lemma Scaled(a: real, b: real, rate: real)
    requires rate > 0.0
    ensures a / rate <= b <==> a <= b * rate
  {
    var q := a / rate;
    assert q * rate == a;
    assert (b - q) * rate == b * rate - a;
    SameSign(b - q, rate);
  }

  /** `d` whole milliseconds refill at least `need` tokens exactly when `d` reaches the rounded-up wait. */
  lemma WaitIsExact(rule: Rule, need: real, d: int)
    requires rule.refillRate > 0.0
    ensures need <= Gain(rule, d) <==> Ceil(need / rule.refillRate * 1000.0) <= d
  {
    Scaled(need, d as real / 1000.0, rule.refillRate);
    var x := need / rule.refillRate;
    assert x <= d as real / 1000.0 <==> x * 1000.0 <= d as real;
  }

  /**
    After a denial, with no traffic in between, the same request is admitted `d` milliseconds
    later if and only if its cost is within the capacity and `d` has reached the announced wait.
    Nothing ever admits a cost above the capacity, although a finite wait is announced for it.
   */
  lemma RetryAfterIsExact(rule: Rule, b: Option<Bucket>, now: int, cost: int, d: nat)
    requires rule.refillRate > 0.0
    requires !Answer(rule, b, now, cost).allowed
    ensures var denied := Answer(rule, b, now, cost);
            && 0 < denied.retry
            && (Answer(rule, Some(Next(PolicyOf(rule), b, now, cost)), now + d, cost).allowed
                <==> cost <= rule.capacity && denied.retry <= d)
  {
    var p := PolicyOf(rule);
    var tokens := Available(p, b, now);
    WaitIsExact(rule, cost as real - tokens, d);
    WaitIsExact(rule, cost as real - tokens, 0);
    var left := Next(p, b, now, cost);
    assert left == Bucket(tokens, now);
    var elapsed := if now + d > left.ts then now + d - left.ts else 0;
    assert elapsed == d;
    assert Available(p, Some(left), now + d) == Min(p.capacity, tokens + p.gain(d));
    assert p.gain(d) == Gain(rule, d);
  }

  /** Without refill a denial is for good: the answer is "never", and it stays a denial. */
  lemma NoRefillNeverRecovers(rule: Rule, b: Option<Bucket>, now: int, cost: int, d: nat)
    requires rule.refillRate <= 0.0
    requires !Answer(rule, b, now, cost).allowed
    ensures Answer(rule, b, now, cost).retry == -1
    ensures !Answer(rule, Some(Next(PolicyOf(rule), b, now, cost)), now + d, cost).allowed
  {
    var p := PolicyOf(rule);
    var left := Next(p, b, now, cost);
    var elapsed := if now + d > left.ts then now + d - left.ts else 0;
    assert Available(p, Some(left), now + d) == Min(p.capacity, left.tokens + p.gain(elapsed));
    assert p.gain(elapsed) == elapsed as real / 1000.0 * rule.refillRate;
    assert elapsed as real / 1000.0 * (-rule.refillRate) >= 0.0;
  }

  // ----- expiry -----

  /** The key's time to live in whole seconds: a full refill in truncated nanoseconds, plus a minute. */
  function TtlSeconds(rule: Rule): int
    requires 0 <= rule.capacity
  {
    if rule.refillRate <= 0.0 then 60
    else
      var nanos := (rule.capacity as real / rule.refillRate * 1_000_000_000.0).Floor;
      (nanos + 60_000_000_000) / 1_000_000_000
  }

  /** At least a minute, and with refill a minute more than a full refill, to the second below. */
  lemma TtlIsAMinuteMore(rule: Rule)
    requires 0 <= rule.capacity
    ensures TtlSeconds(rule) >= 60
    ensures rule.refillRate <= 0.0 ==> TtlSeconds(rule) == 60
    ensures rule.refillRate > 0.0 ==>
      var full := rule.capacity as real / rule.refillRate;
      full + 59.0 - 0.000000001 < TtlSeconds(rule) as real <= full + 60.0
  {
    if rule.refillRate > 0.0 {
      var full := rule.capacity as real / rule.refillRate;
      Scaled(0.0, full, rule.refillRate);
      var nanos := (full * 1_000_000_000.0).Floor;
      assert nanos as real <= full * 1_000_000_000.0 < (nanos + 1) as real;
      assert full >= 0.0;
    }
  }

  lemma TtlCoversRefill(rule: Rule, ms: int)
    requires 0 <= rule.capacity && 0.0 < rule.refillRate
    requires TtlSeconds(rule) * 1000 <= ms
    ensures rule.capacity as real <= Gain(rule, ms)
  {
    var refill := rule.capacity as real / rule.refillRate;
    var nanos := (refill * 1_000_000_000.0).Floor;
    assert refill * 1_000_000_000.0 < (nanos + 1) as real;
    assert nanos + 1 <= TtlSeconds(rule) * 1_000_000_000;
    assert refill <= TtlSeconds(rule) as real <= ms as real / 1000.0;
    Scaled(rule.capacity as real, ms as real / 1000.0, rule.refillRate);
  }

  /** The bucket a request finds where Redis may drop a key that has been idle for its time to live. */
  function Seen(rule: Rule, b: Option<Bucket>, drop: bool, now: int): Option<Bucket>
    requires 0 <= rule.capacity
  {
    if b.Some? && drop && TtlSeconds(rule) * 1000 <= now - b.value.ts then None else b
  }

  /** The bucket after the first `n` requests there; `drop(i)` says whether the key may go before request `i`. */
  function AfterExpiring(rule: Rule, reqs: seq<Request>, drop: nat -> bool, n: nat): Option<Bucket>
    requires 0 <= rule.capacity && n <= |reqs|
  {
    if n == 0 then None
    else
      var r := reqs[n - 1];
      Some(Next(PolicyOf(rule), Seen(rule, AfterExpiring(rule, reqs, drop, n - 1), drop(n - 1), r.now), r.now, r.cost))
  }

  /** An idle bucket ends up full: it refills, or there is nothing to refill. */
  predicate Refills(rule: Rule) {
    rule.refillRate > 0.0 || (rule.refillRate == 0.0 && rule.capacity == 0)
  }

  lemma IdleKeyIsFull(rule: Rule, b: Option<Bucket>, drop: bool, now: int)
    requires 0 <= rule.capacity && Refills(rule)
    requires b.Some? ==> 0.0 <= b.value.tokens
    ensures Available(PolicyOf(rule), Seen(rule, b, drop, now), now) == Available(PolicyOf(rule), b, now)
  {
    if Seen(rule, b, drop, now) != b {
      var elapsed := if now > b.value.ts then now - b.value.ts else 0;
      assert PolicyOf(rule).gain(elapsed) == Gain(rule, elapsed);
      if rule.refillRate > 0.0 {
        TtlCoversRefill(rule, now - b.value.ts);
        assert elapsed == now - b.value.ts;
      } else {
        assert Gain(rule, elapsed) == 0.0;
      }
    }
  }

  lemma {:induction false} ExpiryChangesNoBucket(rule: Rule, reqs: seq<Request>, drop: nat -> bool, n: nat)
    requires 0 <= rule.capacity && Refills(rule) && n <= |reqs|
    ensures AfterExpiring(rule, reqs, drop, n) == After(PolicyOf(rule), reqs, n)
  {
    if n > 0 {
      var r := reqs[n - 1];
      ExpiryChangesNoBucket(rule, reqs, drop, n - 1);
      NeverNegative(rule, reqs, n - 1, r.now);
      IdleKeyIsFull(rule, After(PolicyOf(rule), reqs, n - 1), drop(n - 1), r.now);
    }
  }

  /** What request `n` is answered there. */
  function ExpiringAnswerTo(rule: Rule, reqs: seq<Request>, drop: nat -> bool, n: nat): Reply
    requires 0 <= rule.capacity && n < |reqs|
  {
    var r := reqs[n];
    Answer(rule, Seen(rule, AfterExpiring(rule, reqs, drop, n), drop(n), r.now), r.now, r.cost)
  }

  /** Where idle buckets end up full, dropping their keys changes no answer. */
  lemma ExpiryIsInvisible(rule: Rule, reqs: seq<Request>, drop: nat -> bool, n: nat)
    requires 0 <= rule.capacity && Refills(rule) && n < |reqs|
    ensures ExpiringAnswerTo(rule, reqs, drop, n) == AnswerTo(rule, reqs, n)
  {
    ExpiryChangesNoBucket(rule, reqs, drop, n);
    NeverNegative(rule, reqs, n, reqs[n].now);
    IdleKeyIsFull(rule, After(PolicyOf(rule), reqs, n), drop(n), reqs[n].now);
  }

  /** Two requests for the whole capacity, a minute apart. */
  function TwoFull(rule: Rule): seq<Request> {
    [Request(0, rule.capacity), Request(60_000, rule.capacity)]
  }

  /** Without refill the second of them is denied, unless the key was dropped and the bucket is new. */
  lemma ExpiryShows(rule: Rule, drop: nat -> bool)
    requires 0 <= rule.capacity && rule.refillRate <= 0.0 && !Refills(rule)
    requires drop(0) && drop(1)
    ensures !AnswerTo(rule, TwoFull(rule), 1).allowed
    ensures ExpiringAnswerTo(rule, TwoFull(rule), drop, 1).allowed
  {
    var p, reqs := PolicyOf(rule), TwoFull(rule);
    assert After(p, reqs, 0) == AfterExpiring(rule, reqs, drop, 0) == None;
    assert After(p, reqs, 1) == Some(Bucket(0.0, 0)) == AfterExpiring(rule, reqs, drop, 1);
    assert p.gain(60_000) == Gain(rule, 60_000) == 60.0 * rule.refillRate;
  }

  /**
    Over all histories and whichever idle keys Redis drops, nobody can tell from the answers,
    exactly when the bucket refills or has no capacity to lose.
   */
  lemma ExpiryIsInvisibleIff(rule: Rule)
    requires 0 <= rule.capacity
    ensures (forall reqs: seq<Request>, drop: nat -> bool, n: nat :: n < |reqs| && Ordered(reqs) ==>
               ExpiringAnswerTo(rule, reqs, drop, n) == AnswerTo(rule, reqs, n))
            <==> rule.refillRate > 0.0 || (rule.refillRate == 0.0 && rule.capacity == 0)
  {
    if Refills(rule) {
      forall reqs: seq<Request>, drop: nat -> bool, n: nat | n < |reqs| && Ordered(reqs)
        ensures ExpiringAnswerTo(rule, reqs, drop, n) == AnswerTo(rule, reqs, n)
      {
        ExpiryIsInvisible(rule, reqs, drop, n);
      }
    } else {
      var drop := (n: nat) => true;
      ExpiryShows(rule, drop);
      assert Ordered(TwoFull(rule));
      assert ExpiringAnswerTo(rule, TwoFull(rule), drop, 1) != AnswerTo(rule, TwoFull(rule), 1);
    }
  }

  // ----- the limiter -----

  datatype Decision = Decision(allowed: bool, remaining: int, retryAfter: int)

  datatype Error = Evaluating | UnexpectedLength

  /** How the script call turns out; a failing one may have run. */
  datatype RedisFault = Healthy | ScriptFails(applied: bool) | BadReply

  /** A key's hash and the moment Redis drops it. */
  datatype Stored = Stored(bucket: Bucket, expires: int)

  type Store = map<Key, Stored>

  function Lookup(keys: Store, key: Key, now: int): Option<Bucket> {
    if key in keys && now < keys[key].expires then Some(keys[key].bucket) else None
  }

  /** What the caller is told: a wait of "never" is not passed on. */
  function Decide(a: Reply): Decision {
    Decision(a.allowed, a.remaining, if !a.allowed && a.retry >= 0 then a.retry else 0)
  }

  datatype Call = Call(key: Key, rule: Rule, now: int, cost: int)

  /** One run of the script: the keys it leaves and the decision. */
  function Called(keys: Store, c: Call): (Store, Decision)
    requires 0 <= c.rule.capacity
  {
    var found := Lookup(keys, c.key, c.now);
    var written := Stored(Next(PolicyOf(c.rule), found, c.now, c.cost), c.now + TtlSeconds(c.rule) * 1000);
    (keys[c.key := written], Decide(Answer(c.rule, found, c.now, c.cost)))
  }

  class Limiter {
    var keys: map<Key, Stored>

    constructor ()
      ensures keys == map[]
    {
      keys := map[];
    }

    /** Runs the script on one key; every other key stays as it is. */
    method Allow(key: Key, rule: Rule, now: int, cost: int, fault: RedisFault) returns (r: Result<Decision, Error>)
      requires 0 <= rule.capacity
      modifies this
      ensures var (after, decision) := Called(old(keys), Call(key, rule, now, cost));
              && keys == (if fault == ScriptFails(false) then old(keys) else after)
              && r == match fault
                      case Healthy => Ok(decision)
                      case ScriptFails(_) => Err(Evaluating)
                      case BadReply => Err(UnexpectedLength)
    {
      if fault == ScriptFails(false) { return Err(Evaluating); }
      var capacity := rule.capacity as real;
      var tokens, ts := capacity, now;
      var found := Lookup(keys, key, now);
      if found.Some? { tokens, ts := found.value.tokens, found.value.ts; }
      var elapsed := if now - ts > 0 then now - ts else 0;
      ghost var p := PolicyOf(rule);
      assert p.gain(elapsed) == Gain(rule, elapsed);
      if found.Some? {
        tokens := tokens + Gain(rule, elapsed);
        if tokens > capacity { tokens := capacity; }
      }
      assert tokens == Available(p, found, now);
      var allowed, retry := false, 0;
      if tokens >= cost as real {
        allowed, tokens := true, tokens - cost as real;
      } else {
        retry := Wait(rule, cost as real - tokens);
      }
      keys := keys[key := Stored(Bucket(tokens, now), now + TtlSeconds(rule) * 1000)];
      if fault.ScriptFails? { return Err(Evaluating); }
      if fault.BadReply? { return Err(UnexpectedLength); }
      return Ok(Decision(allowed, tokens.Floor, if !allowed && retry >= 0 then retry else 0));
    }
  }

  // ----- calls on many keys, from an empty store -----

  /** The keys after the first `n` calls. */
  function Keys(calls: seq<Call>, n: nat): Store
    requires n <= |calls| && forall c :: c in calls ==> 0 <= c.rule.capacity
  {
    if n == 0 then map[] else Called(Keys(calls, n - 1), calls[n - 1]).0
  }

  /** The requests among the first `n` calls that are on this key. */
  function History(calls: seq<Call>, n: nat, key: Key): seq<Request>
    requires n <= |calls|
  {
    if n == 0 then []
    else
      var before := History(calls, n - 1, key);
      if calls[n - 1].key == key then before + [Request(calls[n - 1].now, calls[n - 1].cost)] else before
  }

  /** The clock does not go back, and a key is always called with the same rule. */
  ghost predicate Orderly(calls: seq<Call>) {
    && (forall c :: c in calls ==> 0 <= c.rule.capacity)
    && (forall i, j :: 0 <= i < j < |calls| ==> calls[i].now <= calls[j].now)
    && (forall c, d :: c in calls && d in calls && c.key == d.key ==> c.rule == d.rule)
  }

  ghost function Always(): nat -> bool {
    (n: nat) => true
  }

  lemma {:induction false} PrefixDecides(rule: Rule, reqs: seq<Request>, more: seq<Request>, n: nat)
    requires 0 <= rule.capacity && n <= |reqs|
    ensures AfterExpiring(rule, reqs + more, Always(), n) == AfterExpiring(rule, reqs, Always(), n)
  {
    if n > 0 {
      PrefixDecides(rule, reqs, more, n - 1);
      assert (reqs + more)[n - 1] == reqs[n - 1];
    }
  }

  /** What the store holds under a key: the bucket of its own requests, until its time to live is over. */
  ghost predicate HoldsHistory(keys: Store, key: Key, rule: Rule, h: seq<Request>)
    requires 0 <= rule.capacity
  {
    && (key in keys <==> h != [])
    && (h != [] ==>
          var b := AfterExpiring(rule, h, Always(), |h|);
          && b.Some? && b.value.ts == h[|h| - 1].now
          && keys[key] == Stored(b.value, b.value.ts + TtlSeconds(rule) * 1000))
  }

  lemma LookupIsSeen(keys: Store, key: Key, rule: Rule, h: seq<Request>, now: int)
    requires 0 <= rule.capacity && HoldsHistory(keys, key, rule, h)
    ensures Lookup(keys, key, now) == Seen(rule, AfterExpiring(rule, h, Always(), |h|), true, now)
  {
  }

  lemma CallExtendsHistory(keys: Store, c: Call, h: seq<Request>)
    requires 0 <= c.rule.capacity && HoldsHistory(keys, c.key, c.rule, h)
    ensures HoldsHistory(Called(keys, c).0, c.key, c.rule, h + [Request(c.now, c.cost)])
  {
    var longer := h + [Request(c.now, c.cost)];
    LookupIsSeen(keys, c.key, c.rule, h, c.now);
    PrefixDecides(c.rule, h, [Request(c.now, c.cost)], |h|);
    assert longer[|h|] == Request(c.now, c.cost) && Always()(|h|);
  }

  lemma {:induction false} StoreHoldsHistories(calls: seq<Call>, n: nat, key: Key, rule: Rule)
    requires Orderly(calls) && n <= |calls| && 0 <= rule.capacity
    requires forall c :: c in calls && c.key == key ==> c.rule == rule
    ensures HoldsHistory(Keys(calls, n), key, rule, History(calls, n, key))
  {
    if n > 0 {
      StoreHoldsHistories(calls, n - 1, key, rule);
      if calls[n - 1].key == key {
        CallExtendsHistory(Keys(calls, n - 1), calls[n - 1], History(calls, n - 1, key));
      }
    }
  }

  lemma {:induction false} HistoryIsOrdered(calls: seq<Call>, n: nat, key: Key, last: int)
    requires Orderly(calls) && n <= |calls|
    requires forall i :: 0 <= i < n ==> calls[i].now <= last
    ensures forall i :: 0 <= i < |History(calls, n, key)| ==> History(calls, n, key)[i].now <= last
    ensures Ordered(History(calls, n, key))
  {
    if n > 0 {
      HistoryIsOrdered(calls, n - 1, key, calls[n - 1].now);
    }
  }

  /** The requests on the key of call `n` up to and including it. */
  function UpTo(calls: seq<Call>, n: nat): (h: seq<Request>)
    requires n < |calls|
    ensures |h| == |History(calls, n, calls[n].key)| + 1
  {
    History(calls, n, calls[n].key) + [Request(calls[n].now, calls[n].cost)]
  }

  /** Whatever is called on other keys in between, a call is answered from its own key's requests alone. */
  lemma CallIsAnswered(calls: seq<Call>, n: nat)
    requires Orderly(calls) && n < |calls|
    ensures var h := UpTo(calls, n);
            Called(Keys(calls, n), calls[n]).1 == Decide(ExpiringAnswerTo(calls[n].rule, h, Always(), |h| - 1))
  {
    var c := calls[n];
    var h := History(calls, n, c.key);
    StoreHoldsHistories(calls, n, c.key, c.rule);
    LookupIsSeen(Keys(calls, n), c.key, c.rule, h, c.now);
    PrefixDecides(c.rule, h, [Request(c.now, c.cost)], |h|);
    assert Always()(|h|);
  }

  /**
    The limiter as its callers see it: where the rule refills, a call is let through exactly when,
    counted from every earlier call on its key, what was admitted since and its own cost fit the
    capacity and the refill, and it is answered as if no key were ever dropped.
   */
  lemma CallIsAllowedIff(calls: seq<Call>, n: nat)
    requires Orderly(calls) && n < |calls| && Refills(calls[n].rule)
    ensures var h, r := UpTo(calls, n), calls[n].rule;
            var last := |h| - 1;
            var decision := Called(Keys(calls, n), calls[n]).1;
            && decision == Decide(AnswerTo(r, h, last))
            && (decision.allowed <==> forall i: nat :: i <= last ==> Fits(r, h, last, i))
  {
    var h, rule := UpTo(calls, n), calls[n].rule;
    CallIsAnswered(calls, n);
    ExpiryIsInvisible(rule, h, Always(), |h| - 1);
    HistoryIsOrdered(calls, n, calls[n].key, calls[n].now);
    AdmittedIff(rule, h, |h| - 1);
  }

  lemma {:induction false} AfterDependsOnThePast(p: Policy, reqs: seq<Request>, more: seq<Request>, n: nat)
    requires n <= |reqs|
    ensures After(p, reqs + more, n) == After(p, reqs, n)
  {
    if n > 0 {
      AfterDependsOnThePast(p, reqs, more, n - 1);
      assert (reqs + more)[n - 1] == reqs[n - 1];
    }
  }

  lemma {:induction false} OtherKeysAreNoHistory(calls: seq<Call>, n: nat, m: nat)
    requires n < m < |calls| && calls[m].key == calls[n].key
    requires forall i :: n < i < m ==> calls[i].key != calls[n].key
    ensures History(calls, m, calls[m].key) == UpTo(calls, n)
  {
    OtherKeysSince(calls, n + 1, m, calls[n].key);
  }

  lemma {:induction false} OtherKeysSince(calls: seq<Call>, n: nat, m: nat, key: Key)
    requires n <= m <= |calls| && forall i :: n <= i < m ==> calls[i].key != key
    ensures History(calls, m, key) == History(calls, n, key)
  {
    if n < m { OtherKeysSince(calls, n, m - 1, key); }
  }

  /** The bucket that call `n` meets, under a Redis that keeps every key for ever. */
  function BucketBefore(calls: seq<Call>, n: nat): Option<Bucket>
    requires n < |calls|
  {
    var h := History(calls, n, calls[n].key);
    After(PolicyOf(calls[n].rule), h, |h|)
  }

  lemma CallMeetsBucket(calls: seq<Call>, n: nat)
    requires Orderly(calls) && n < |calls| && Refills(calls[n].rule)
    ensures Called(Keys(calls, n), calls[n]).1
              == Decide(Answer(calls[n].rule, BucketBefore(calls, n), calls[n].now, calls[n].cost))
  {
    var c := calls[n];
    var h := History(calls, n, c.key);
    CallIsAllowedIff(calls, n);
    AfterDependsOnThePast(PolicyOf(c.rule), h, [Request(c.now, c.cost)], |h|);
  }

  lemma BucketMoves(calls: seq<Call>, n: nat)
    requires n < |calls|
    ensures var p, c, h := PolicyOf(calls[n].rule), calls[n], UpTo(calls, n);
            After(p, h, |h|) == Some(Next(p, BucketBefore(calls, n), c.now, c.cost))
  {
    var c, h := calls[n], History(calls, n, calls[n].key);
    AfterDependsOnThePast(PolicyOf(c.rule), h, [Request(c.now, c.cost)], |h|);
  }

  /**
    The wait a denied caller is told: the same call again, with only other keys called in
    between, is let through exactly when its cost is within the capacity and the wait is over.
   */
  lemma DeniedCallIsLetThroughIff(calls: seq<Call>, n: nat, m: nat)
    requires Orderly(calls) && n < m < |calls| && 0.0 < calls[n].rule.refillRate
    requires calls[m] == calls[n].(now := calls[m].now)
    requires forall i :: n < i < m ==> calls[i].key != calls[n].key
    requires !Called(Keys(calls, n), calls[n]).1.allowed
    ensures var wait := Called(Keys(calls, n), calls[n]).1.retryAfter;
            && 0 < wait
            && (Called(Keys(calls, m), calls[m]).1.allowed
                <==> calls[n].cost <= calls[n].rule.capacity && wait <= calls[m].now - calls[n].now)
  {
    var c, again := calls[n], calls[m];
    var b := BucketBefore(calls, n);
    CallMeetsBucket(calls, n);
    CallMeetsBucket(calls, m);
    OtherKeysAreNoHistory(calls, n, m);
    BucketMoves(calls, n);
    RetryAfterIsExact(c.rule, b, c.now, c.cost, again.now - c.now);
  }

  /** A caller is told to wait exactly when it is denied and something refills. */
  lemma WaitIsToldIff(keys: Store, c: Call)
    requires 0 <= c.rule.capacity
    ensures 0 < Called(keys, c).1.retryAfter <==> !Called(keys, c).1.allowed && 0.0 < c.rule.refillRate
    ensures 0 <= Called(keys, c).1.retryAfter
  {
    var found := Lookup(keys, c.key, c.now);
    if !Answer(c.rule, found, c.now, c.cost).allowed {
      if 0.0 < c.rule.refillRate {
        RetryAfterIsExact(c.rule, found, c.now, c.cost, 0);
      } else {
        NoRefillNeverRecovers(c.rule, found, c.now, c.cost, 0);
      }
    }
  }
}

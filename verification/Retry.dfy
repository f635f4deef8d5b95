/** The publish pipeline's retry loop and its int64 backoff. */
module Retry {
  import opened Common

  // ----- backoff: time.Duration is an int64 count of nanoseconds -----

  const SECOND: int := 1_000_000_000
  const MAX_BACKOFF: int := 30 * SECOND
  const TWO_63: int := 0x8000_0000_0000_0000
  const TWO_64: int := 0x1_0000_0000_0000_0000

  function Pow2(n: nat): (p: int)
    ensures 1 <= p
  {
    if n == 0 then 1 else 2 * Pow2(n - 1)
  }

  /** The value an int64 holds after wrapping around. */
  function Wrap64(n: int): (r: int)
    ensures -TWO_63 <= r < TWO_63
    ensures (r - n) % TWO_64 == 0
    ensures -TWO_63 <= n < TWO_63 ==> r == n
  {
    var m := n % TWO_64;
    if m < TWO_63 then m else m - TWO_64
  }

  /** The wait before the next attempt: the platform's hint when positive, else doubling, capped. */
  function Backoff(attempt: int, retryAfter: int): int
    requires 1 <= attempt
  {
    if retryAfter > 0 then
      if retryAfter > MAX_BACKOFF then MAX_BACKOFF else retryAfter
    else
      var d := Wrap64(SECOND * Pow2(attempt - 1));
      if d > MAX_BACKOFF then MAX_BACKOFF else d
  }

  /** The documented rule: the hint or 1s, 2s, 4s, ..., never more than 30s. */
  function Intended(attempt: int, retryAfter: int): int
    requires 1 <= attempt
  {
    var d := if retryAfter > 0 then retryAfter else SECOND * Pow2(attempt - 1);
    if d > MAX_BACKOFF then MAX_BACKOFF else d
  }

  lemma {:induction false} Pow2Grows(m: nat, n: nat)
    requires m <= n
    ensures Pow2(m) <= Pow2(n)
  {
    if m < n { Pow2Grows(m, n - 1); }
  }

  lemma Pow2At34()
    ensures Pow2(33) == 0x2_0000_0000 && Pow2(34) == 0x4_0000_0000
  {
    assert Pow2(8) == 256;
    assert Pow2(16) == 65536;
    assert Pow2(24) == 16777216;
    assert Pow2(32) == 4294967296;
  }

  /** Up to attempt 34 the shift fits and the wait is the documented one. */
  lemma BackoffAsDocumented(attempt: int, retryAfter: int)
    requires 1 <= attempt
    requires retryAfter > 0 || attempt <= 34
    ensures Backoff(attempt, retryAfter) == Intended(attempt, retryAfter)
    ensures 0 < Backoff(attempt, retryAfter) <= MAX_BACKOFF
  {
    if retryAfter <= 0 {
      Pow2At34();
      Pow2Grows(attempt - 1, 33);
      assert SECOND * Pow2(attempt - 1) <= SECOND * 0x2_0000_0000;
    }
  }

  /** Attempt 35 is the first whose shift overflows; its wait comes out negative. */
  lemma BackoffOverflows()
    ensures Backoff(35, 0) < 0
  {
    Pow2At34();
  }

  // ----- the loop -----

  type Token = string

  datatype Class = Terminal | Retryable | AuthExpired | Unknown

  /** What one adapter call comes back with: a value, a classed error, or any other error. */
  datatype Outcome<+T> =
    | Success(value: T)
    | Classed(kind: Class, retryAfter: int)
    | Unclassified

  datatype Failure =
    | Adapter(kind: Class)
    | Other
    | RefreshFailed(cause: Option<Class>)
    | SleepInterrupted
  {
    /** The failure chain holds a terminal adapter error. */
    predicate IsTerminal() {
      this == Adapter(Terminal) || this == RefreshFailed(Some(Terminal))
    }
  }

  /** The world around one run: how the platform answers, the refresh, and the sleeper. */
  datatype World<T> = World(
    call: (nat, Token) -> Outcome<T>,
    refresh: Result<Token, Option<Class>>,
    sleep: nat -> bool)

  datatype Call<+T> = Call(token: Token, outcome: Outcome<T>)

  function Retries<T>(log: seq<Call<T>>): nat {
    if log == [] then 0
    else Retries(log[..|log| - 1]) +
         if log[|log| - 1].outcome.Classed? && log[|log| - 1].outcome.kind == Retryable then 1 else 0
  }

  function Refreshes<T>(log: seq<Call<T>>): nat {
    if log == [] then 0
    else Refreshes(log[..|log| - 1]) +
         if log[|log| - 1].outcome.Classed? && log[|log| - 1].outcome.kind == AuthExpired then 1 else 0
  }

  /** The waits asked for after the calls of `log`: one after each retryable error that has attempts left. */
  function Waits<T>(maxAttempts: int, log: seq<Call<T>>): seq<int> {
    if log == [] then []
    else
      var before, o := log[..|log| - 1], log[|log| - 1].outcome;
      Waits(maxAttempts, before) +
      if o.Classed? && o.kind == Retryable && Retries(before) < maxAttempts - 1
      then [Backoff(Retries(before) + 1, o.retryAfter)] else []
  }

  /** The token in use after the calls of `log`. */
  function CurrentToken<T>(w: World<T>, token: Token, log: seq<Call<T>>): Token {
    if Refreshes(log) > 0 && w.refresh.Ok? then w.refresh.value else token
  }

  /** After these calls the loop calls again. */
  predicate GoesOn<T>(w: World<T>, maxAttempts: int, log: seq<Call<T>>)
    requires log != []
  {
    var before := log[..|log| - 1];
    var o := log[|log| - 1].outcome;
    && o.Classed?
    && ((o.kind == AuthExpired && Refreshes(before) == 0 && w.refresh.Ok?)
        || (o.kind == Retryable && Retries(before) < maxAttempts - 1 && w.sleep(Retries(before))))
  }

  /** The call made after those of `log`, with the token then current. */
  function NextCall<T>(w: World<T>, token: Token, log: seq<Call<T>>): Call<T> {
    var current := CurrentToken(w, token, log);
    Call(current, w.call(|log|, current))
  }

  /** `log` is the start of a run: each call is the next one, and none follows a stop. */
  ghost predicate Started<T>(w: World<T>, maxAttempts: int, token: Token, log: seq<Call<T>>) {
    log != [] ==>
      var before := log[..|log| - 1];
      && Started(w, maxAttempts, token, before)
      && (before != [] ==> GoesOn(w, maxAttempts, before))
      && log[|log| - 1] == NextCall(w, token, before)
  }

  /** What a run that stops after `log` returns. */
  function Verdict<T>(w: World<T>, maxAttempts: int, log: seq<Call<T>>): Result<T, Failure>
    requires log != [] && !GoesOn(w, maxAttempts, log)
  {
    var before := log[..|log| - 1];
    match log[|log| - 1].outcome
    case Success(v) => Ok(v)
    case Unclassified => Err(Other)
    case Classed(kind, _) =>
      if kind == AuthExpired && Refreshes(before) == 0 then Err(RefreshFailed(w.refresh.error))
      else if kind == Retryable && Retries(before) < maxAttempts - 1 then Err(SleepInterrupted)
      else Err(Adapter(kind))
  }

  /** A whole run of the loop. */
  ghost predicate Ran<T>(w: World<T>, maxAttempts: int, token: Token, log: seq<Call<T>>) {
    log != [] && Started(w, maxAttempts, token, log) && !GoesOn(w, maxAttempts, log)
  }

  /** What one more call adds to the counts. */
  lemma Extend<T>(w: World<T>, maxAttempts: int, token: Token, before: seq<Call<T>>, c: Call<T>)
    requires Started(w, maxAttempts, token, before) && (before != [] ==> GoesOn(w, maxAttempts, before))
    requires c == NextCall(w, token, before)
    ensures var log := before + [c];
            var o := c.outcome;
            && Started(w, maxAttempts, token, log)
            && Retries(log) == Retries(before) + (if o.Classed? && o.kind == Retryable then 1 else 0)
            && Refreshes(log) == Refreshes(before) + (if o.Classed? && o.kind == AuthExpired then 1 else 0)
            && Waits(maxAttempts, log) == Waits(maxAttempts, before) +
                 (if o.Classed? && o.kind == Retryable && Retries(before) < maxAttempts - 1
                  then [Backoff(Retries(before) + 1, o.retryAfter)] else [])
  {
    assert (before + [c])[..|before|] == before;
  }

  lemma ExtendedGoesOn<T>(w: World<T>, maxAttempts: int, before: seq<Call<T>>, c: Call<T>)
    ensures var o := c.outcome;
            GoesOn(w, maxAttempts, before + [c]) <==>
              && o.Classed?
              && ((o.kind == AuthExpired && Refreshes(before) == 0 && w.refresh.Ok?)
                  || (o.kind == Retryable && Retries(before) < maxAttempts - 1 && w.sleep(Retries(before))))
  {
    assert (before + [c])[..|before|] == before;
  }

  lemma ExtendedVerdict<T>(w: World<T>, maxAttempts: int, before: seq<Call<T>>, c: Call<T>)
    requires !GoesOn(w, maxAttempts, before + [c])
    ensures Verdict(w, maxAttempts, before + [c]) ==
      match c.outcome
      case Success(v) => Ok(v)
      case Unclassified => Err(Other)
      case Classed(kind, _) =>
        if kind == AuthExpired && Refreshes(before) == 0 && w.refresh.Err? then Err(RefreshFailed(w.refresh.error))
        else if kind == Retryable && Retries(before) < maxAttempts - 1 then Err(SleepInterrupted)
        else Err(Adapter(kind))
  {
    assert (before + [c])[..|before|] == before;
  }

  method WithRetry<T>(w: World<T>, maxAttempts: int, startToken: Token)
    returns (r: Result<T, Failure>, log: seq<Call<T>>, waits: seq<int>)
    requires 1 <= maxAttempts
    ensures Ran(w, maxAttempts, startToken, log)
    ensures r == Verdict(w, maxAttempts, log)
    ensures waits == Waits(maxAttempts, log)
  {
    var token := startToken;
    var refreshed := false;
    log, waits := [], [];
    var attempt := 1;
    while true
      invariant 1 <= attempt <= maxAttempts
      invariant refreshed <==> Refreshes(log) > 0
      invariant Refreshes(log) <= 1
      invariant token == CurrentToken(w, startToken, log)
      invariant refreshed ==> w.refresh.Ok?
      invariant attempt == Retries(log) + 1
      invariant Started(w, maxAttempts, startToken, log)
      invariant log != [] ==> GoesOn(w, maxAttempts, log)
      invariant waits == Waits(maxAttempts, log)
      decreases maxAttempts - attempt, if refreshed then 0 else 1
    {
      var o := w.call(|log|, token);
      ghost var before, c := log, Call(token, o);
      log := log + [Call(token, o)];
      Extend(w, maxAttempts, startToken, before, c);
      ExtendedGoesOn(w, maxAttempts, before, c);
      if !GoesOn(w, maxAttempts, log) { ExtendedVerdict(w, maxAttempts, before, c); }
      match o
      case Success(v) =>
        return Ok(v), log, waits;
      case Unclassified =>
        return Err(Other), log, waits;
      case Classed(kind, retryAfter) =>
        match kind {
          case AuthExpired =>
            if refreshed { return Err(Adapter(kind)), log, waits; }
            if w.refresh.Err? { return Err(RefreshFailed(w.refresh.error)), log, waits; }
            token := w.refresh.value;
            refreshed := true;
            attempt := attempt - 1;
          case Retryable =>
            if attempt >= maxAttempts { return Err(Adapter(kind)), log, waits; }
            waits := waits + [Backoff(attempt, retryAfter)];
            if !w.sleep(attempt - 1) { return Err(SleepInterrupted), log, waits; }
          case _ =>
            return Err(Adapter(kind)), log, waits;
        }
      attempt := attempt + 1;
    }
  }

  // ----- what every run keeps -----

  lemma {:induction false} CountsOfStart<T>(w: World<T>, maxAttempts: int, token: Token, log: seq<Call<T>>)
    requires 1 <= maxAttempts && Started(w, maxAttempts, token, log)
    requires log != [] ==> GoesOn(w, maxAttempts, log)
    ensures Refreshes(log) <= 1 && Retries(log) <= maxAttempts - 1
    ensures |log| == Refreshes(log) + Retries(log)
    ensures Refreshes(log) > 0 ==> w.refresh.Ok?
  {
    if log != [] { CountsOfStart(w, maxAttempts, token, log[..|log| - 1]); }
  }

  lemma {:induction false} CallAt<T>(w: World<T>, maxAttempts: int, token: Token, log: seq<Call<T>>, i: nat)
    requires Started(w, maxAttempts, token, log) && i < |log|
    ensures log[i] == NextCall(w, token, log[..i])
    ensures Started(w, maxAttempts, token, log[..i]) && (i > 0 ==> GoesOn(w, maxAttempts, log[..i]))
  {
    if i < |log| - 1 {
      CallAt(w, maxAttempts, token, log[..|log| - 1], i);
      assert log[..|log| - 1][..i] == log[..i];
    }
  }

  /** The last call says the token expired, and the run goes on with a refreshed one. */
  predicate RefreshesAt<T>(w: World<T>, maxAttempts: int, log: seq<Call<T>>, i: nat)
    requires 0 < i <= |log|
  {
    log[i - 1].outcome.Classed? && log[i - 1].outcome.kind == AuthExpired && GoesOn(w, maxAttempts, log[..i])
  }

  lemma {:induction false} RefreshesGrow<T>(log: seq<Call<T>>, i: nat, k: nat)
    requires i <= k <= |log|
    ensures Refreshes(log[..i]) <= Refreshes(log[..k])
    decreases k
  {
    if i < k {
      RefreshesGrow(log, i, k - 1);
      assert log[..k][..k - 1] == log[..k - 1];
    }
  }

  /** A run refreshes once at most. */
  lemma OneRefresh<T>(w: World<T>, maxAttempts: int, log: seq<Call<T>>, i: nat, k: nat)
    requires 0 < i <= |log| && 0 < k <= |log|
    requires RefreshesAt(w, maxAttempts, log, i) && RefreshesAt(w, maxAttempts, log, k)
    ensures i == k
  {
    assert log[..i][..i - 1] == log[..i - 1] && log[..k][..k - 1] == log[..k - 1];
    if i < k {
      RefreshesGrow(log, i, k - 1);
    } else if k < i {
      RefreshesGrow(log, k, i - 1);
    }
  }

  /**
    However the adapter behaves, a run makes at most maxAttempts + 1 calls, and only a refresh
    earns the extra one. It refreshes at most once. Calls before the first expired-token answer
    carry the original token, every call after it the refreshed one.
   */
  lemma RunIsBounded<T>(w: World<T>, maxAttempts: int, token: Token, log: seq<Call<T>>)
    requires 1 <= maxAttempts && Ran(w, maxAttempts, token, log)
    ensures 1 <= |log| <= maxAttempts + 1
    ensures |log| == maxAttempts + 1 ==> Refreshes(log[..maxAttempts]) == 1
    ensures forall i: nat, k: nat | 0 < i <= |log| && 0 < k <= |log| ::
      RefreshesAt(w, maxAttempts, log, i) && RefreshesAt(w, maxAttempts, log, k) ==> i == k
    ensures forall i: nat :: i < |log| ==>
      if Refreshes(log[..i]) == 0 then log[i].token == token else Ok(log[i].token) == w.refresh
  {
    CountsOfStart(w, maxAttempts, token, log[..|log| - 1]);
    forall i: nat, k: nat | 0 < i <= |log| && 0 < k <= |log|
      && RefreshesAt(w, maxAttempts, log, i) && RefreshesAt(w, maxAttempts, log, k)
      ensures i == k
    {
      OneRefresh(w, maxAttempts, log, i, k);
    }
    forall i: nat | i < |log|
      ensures if Refreshes(log[..i]) == 0 then log[i].token == token else Ok(log[i].token) == w.refresh
    {
      CallAt(w, maxAttempts, token, log, i);
      CountsOfStart(w, maxAttempts, token, log[..i]);
    }
  }

  // ----- why a run ends -----

  predicate IsClassed<T>(c: Call<T>, kind: Class) {
    c.outcome.Classed? && c.outcome.kind == kind
  }

  /** Whether an earlier call was already told that its token expired. */
  predicate ExpiredBefore<T>(log: seq<Call<T>>)
    requires log != []
  {
    exists i :: 0 <= i < |log| - 1 && IsClassed(log[i], AuthExpired)
  }

  lemma {:induction false} RefreshesCountExpired<T>(log: seq<Call<T>>)
    ensures Refreshes(log) > 0 <==> exists i :: 0 <= i < |log| && IsClassed(log[i], AuthExpired)
  {
    if log != [] {
      var before := log[..|log| - 1];
      RefreshesCountExpired(before);
      if Refreshes(before) > 0 {
        var i :| 0 <= i < |before| && IsClassed(before[i], AuthExpired);
        assert IsClassed(log[i], AuthExpired);
      }
      if i :| 0 <= i < |log| && IsClassed(log[i], AuthExpired) {
        if i < |before| { assert IsClassed(before[i], AuthExpired); }
      }
    }
  }

  /**
    The platform's last word is final: it classed the error as terminal, or the token expired
    for the first time and refreshing it failed with a terminal error.
   */
  predicate EndsTerminally<T>(w: World<T>, log: seq<Call<T>>)
    requires log != []
  {
    var last := log[|log| - 1];
    || IsClassed(last, Terminal)
    || (IsClassed(last, AuthExpired) && !ExpiredBefore(log) && w.refresh == Err(Some(Terminal)))
  }

  /** The result of a run is its last success, and its failure is terminal exactly when it ends so. */
  lemma VerdictIs<T>(w: World<T>, maxAttempts: int, token: Token, log: seq<Call<T>>)
    requires Ran(w, maxAttempts, token, log)
    ensures var r := Verdict(w, maxAttempts, log);
            var o := log[|log| - 1].outcome;
            && (r.Ok? <==> o.Success?) && (r.Ok? ==> r.value == o.value)
            && (r.Err? ==> (r.error.IsTerminal() <==> EndsTerminally(w, log)))
  {
    RefreshesCountExpired(log[..|log| - 1]);
    if ExpiredBefore(log) {
      var i :| 0 <= i < |log| - 1 && IsClassed(log[i], AuthExpired);
      assert IsClassed(log[..|log| - 1][i], AuthExpired);
    }
  }

  /**
    A run never stops early: before its last call come only retryable errors, each slept for, and an
    expired token; it ends with a retryable error only when the attempts are used up or the sleep
    is interrupted, and with an expired token only the second time or when the refresh fails.
   */
  lemma RunStopsOnlyFor<T>(w: World<T>, maxAttempts: int, token: Token, log: seq<Call<T>>)
    requires 1 <= maxAttempts && Ran(w, maxAttempts, token, log)
    ensures forall i: nat :: i < |log| - 1 ==> IsClassed(log[i], Retryable) || IsClassed(log[i], AuthExpired)
    ensures forall i: nat :: i < |log| - 1 && IsClassed(log[i], Retryable) ==> w.sleep(Retries(log[..i]))
    ensures IsClassed(log[|log| - 1], Retryable) ==> Retries(log) == maxAttempts || !w.sleep(Retries(log) - 1)
    ensures IsClassed(log[|log| - 1], AuthExpired) ==> ExpiredBefore(log) || w.refresh.Err?
  {
    forall i: nat | i < |log| - 1
      ensures IsClassed(log[i], Retryable) || IsClassed(log[i], AuthExpired)
      ensures IsClassed(log[i], Retryable) ==> w.sleep(Retries(log[..i]))
    {
      GoesOnlyFor(w, maxAttempts, token, log, i);
    }
    LastStopsFor(w, maxAttempts, token, log);
  }

  lemma GoesOnlyFor<T>(w: World<T>, maxAttempts: int, token: Token, log: seq<Call<T>>, i: nat)
    requires Ran(w, maxAttempts, token, log) && i < |log| - 1
    ensures IsClassed(log[i], Retryable) || IsClassed(log[i], AuthExpired)
    ensures IsClassed(log[i], Retryable) ==> w.sleep(Retries(log[..i]))
  {
    CallAt(w, maxAttempts, token, log, i + 1);
    assert log[..i + 1][..i] == log[..i];
  }

  lemma LastStopsFor<T>(w: World<T>, maxAttempts: int, token: Token, log: seq<Call<T>>)
    requires 1 <= maxAttempts && Ran(w, maxAttempts, token, log)
    ensures IsClassed(log[|log| - 1], Retryable) ==> Retries(log) == maxAttempts || !w.sleep(Retries(log) - 1)
    ensures IsClassed(log[|log| - 1], AuthExpired) ==> ExpiredBefore(log) || w.refresh.Err?
  {
    var before := log[..|log| - 1];
    CountsOfStart(w, maxAttempts, token, before);
    RefreshesCountExpired(before);
    if Refreshes(before) > 0 {
      var i :| 0 <= i < |before| && IsClassed(before[i], AuthExpired);
      assert IsClassed(log[i], AuthExpired);
    }
  }

  /** Without hints from the platform the waits are the documented 1s, 2s, 4s, ..., capped at 30s. */
  lemma {:induction false} WaitsDouble<T>(maxAttempts: int, log: seq<Call<T>>, k: nat)
    requires 1 <= maxAttempts <= 35 && k < |Waits(maxAttempts, log)|
    requires forall i :: 0 <= i < |log| && log[i].outcome.Classed? ==> log[i].outcome.retryAfter <= 0
    ensures var doubled := 1_000_000_000 * Pow2(k);
            Waits(maxAttempts, log)[k] == if doubled < 30_000_000_000 then doubled else 30_000_000_000
  {
    var before := log[..|log| - 1];
    WaitCount(maxAttempts, before);
    if k < |Waits(maxAttempts, before)| {
      WaitsDouble(maxAttempts, before, k);
    } else {
      BackoffAsDocumented(k + 1, log[|log| - 1].outcome.retryAfter);
    }
  }

  /** The world decides the run: two runs under the same answers are the same run. */
  lemma RunIsDetermined<T>(w: World<T>, maxAttempts: int, token: Token, a: seq<Call<T>>, b: seq<Call<T>>)
    requires Ran(w, maxAttempts, token, a) && Ran(w, maxAttempts, token, b)
    ensures a == b
  {
    if |a| <= |b| {
      SameStart(w, maxAttempts, token, a, b);
      assert b[..|b|] == b;
    } else {
      SameStart(w, maxAttempts, token, b, a);
    }
  }

  lemma {:induction false} SameStart<T>(w: World<T>, maxAttempts: int, token: Token, a: seq<Call<T>>, b: seq<Call<T>>)
    requires |a| <= |b|
    requires Started(w, maxAttempts, token, a) && Started(w, maxAttempts, token, b)
    ensures b[..|a|] == a
    ensures 0 < |a| < |b| ==> GoesOn(w, maxAttempts, a)
    decreases |b|
  {
    if b != [] {
      var before := b[..|b| - 1];
      if |a| < |b| {
        SameStart(w, maxAttempts, token, a, before);
        assert b[..|a|] == before[..|a|];
        if |a| == |before| { assert before[..|a|] == before; }
      } else {
        SameStart(w, maxAttempts, token, a[..|a| - 1], before);
        assert before[..|a| - 1] == before;
        assert b[..|a|] == b;
      }
    }
  }

  function Sum(waits: seq<int>): int {
    if waits == [] then 0 else Sum(waits[..|waits| - 1]) + waits[|waits| - 1]
  }

  lemma {:induction false} SumOfWaits(waits: seq<int>)
    requires forall i :: 0 <= i < |waits| ==> 0 < waits[i] <= MAX_BACKOFF
    ensures 0 <= Sum(waits) <= MAX_BACKOFF * |waits|
  {
    if waits != [] { SumOfWaits(waits[..|waits| - 1]); }
  }

  /** A run waits once per retryable error that has attempts left. */
  lemma {:induction false} WaitCount<T>(maxAttempts: int, log: seq<Call<T>>)
    requires 1 <= maxAttempts
    ensures |Waits(maxAttempts, log)| == if Retries(log) < maxAttempts then Retries(log) else maxAttempts - 1
  {
    if log != [] { WaitCount(maxAttempts, log[..|log| - 1]); }
  }

  lemma {:induction false} EachWaitIsPositive<T>(maxAttempts: int, log: seq<Call<T>>)
    requires 1 <= maxAttempts <= 35
    ensures forall i :: 0 <= i < |Waits(maxAttempts, log)| ==> 0 < Waits(maxAttempts, log)[i] <= MAX_BACKOFF
  {
    if log != [] {
      var before, o := log[..|log| - 1], log[|log| - 1].outcome;
      EachWaitIsPositive(maxAttempts, before);
      if o.Classed? && o.kind == Retryable && Retries(before) < maxAttempts - 1 {
        BackoffAsDocumented(Retries(before) + 1, o.retryAfter);
      }
    }
  }

  /** With a cap of at most 35 a run sleeps fewer times than the cap, and at most 30s each time. */
  lemma TotalWaitIsBounded<T>(maxAttempts: int, log: seq<Call<T>>)
    requires 1 <= maxAttempts <= 35
    ensures |Waits(maxAttempts, log)| <= maxAttempts - 1
    ensures 0 <= Sum(Waits(maxAttempts, log)) <= MAX_BACKOFF * (maxAttempts - 1)
  {
    WaitCount(maxAttempts, log);
    EachWaitIsPositive(maxAttempts, log);
    SumOfWaits(Waits(maxAttempts, log));
    MoreWaits(|Waits(maxAttempts, log)|, maxAttempts - 1);
  }

  lemma MoreWaits(a: int, b: int)
    requires a <= b
    ensures MAX_BACKOFF * a <= MAX_BACKOFF * b
  {
  }

  // ----- the largest cap whose waits are all positive -----

  /** A platform that answers every call with a retryable error and no hint. */
  const STUBBORN: World<int> := World((i: nat, t: Token) => Classed(Retryable, 0), Err(None), (i: nat) => true)

  ghost function StubbornLog(n: nat): seq<Call<int>> {
    seq(n, i => Call("", Classed(Retryable, 0)))
  }

  lemma {:induction false} StubbornCounts(n: nat)
    ensures Retries(StubbornLog(n)) == n && Refreshes(StubbornLog(n)) == 0
  {
    if n > 0 {
      StubbornCounts(n - 1);
      assert StubbornLog(n)[..n - 1] == StubbornLog(n - 1);
    }
  }

  lemma {:induction false} StubbornRun(maxAttempts: int, n: nat)
    requires n <= maxAttempts
    ensures Started(STUBBORN, maxAttempts, "", StubbornLog(n))
    ensures 0 < n ==> (GoesOn(STUBBORN, maxAttempts, StubbornLog(n)) <==> n < maxAttempts)
  {
    if n > 0 {
      StubbornRun(maxAttempts, n - 1);
      StubbornCounts(n - 1);
      assert StubbornLog(n)[..n - 1] == StubbornLog(n - 1);
    }
  }

  lemma {:induction false} WaitsGrow<T>(maxAttempts: int, log: seq<Call<T>>, m: nat)
    requires m <= |log|
    ensures Waits(maxAttempts, log[..m]) <= Waits(maxAttempts, log)
  {
    if m < |log| {
      WaitsGrow(maxAttempts, log[..|log| - 1], m);
      assert log[..|log| - 1][..m] == log[..m];
    } else {
      assert log[..m] == log;
    }
  }

  lemma StubbornWait(maxAttempts: int)
    requires 36 <= maxAttempts
    ensures |Waits(maxAttempts, StubbornLog(maxAttempts))| > 34
    ensures Waits(maxAttempts, StubbornLog(maxAttempts))[34] == Backoff(35, 0)
  {
    StubbornCounts(34);
    WaitCount(maxAttempts, StubbornLog(34));
    assert StubbornLog(35)[..34] == StubbornLog(34);
    assert StubbornLog(35)[34] == Call("", Classed(Retryable, 0));
    assert Waits(maxAttempts, StubbornLog(35)) == Waits(maxAttempts, StubbornLog(34)) + [Backoff(35, 0)];
    assert StubbornLog(maxAttempts)[..35] == StubbornLog(35);
    WaitsGrow(maxAttempts, StubbornLog(maxAttempts), 35);
  }

  ghost predicate AllWaitsPositive(maxAttempts: int) {
    forall w: World<int>, token: Token, log: seq<Call<int>>, k: nat
      :: Ran(w, maxAttempts, token, log) && k < |Waits(maxAttempts, log)| ==> 0 < Waits(maxAttempts, log)[k]
  }

  /** Every wait of every run is positive exactly when the cap is at most 35. */
  lemma WaitsArePositiveIff(maxAttempts: int)
    requires 1 <= maxAttempts
    ensures AllWaitsPositive(maxAttempts) <==> maxAttempts <= 35
  {
    if maxAttempts <= 35 {
      forall w: World<int>, token: Token, log: seq<Call<int>>, k: nat
        | Ran(w, maxAttempts, token, log) && k < |Waits(maxAttempts, log)|
        ensures 0 < Waits(maxAttempts, log)[k]
      {
        EachWaitIsPositive(maxAttempts, log);
      }
    } else {
      var log := StubbornLog(maxAttempts);
      StubbornRun(maxAttempts, maxAttempts);
      StubbornWait(maxAttempts);
      BackoffOverflows();
      assert Ran(STUBBORN, maxAttempts, "", log);
      assert Waits(maxAttempts, log)[34] < 0;
    }
  }
}

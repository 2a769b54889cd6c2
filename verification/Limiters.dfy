/**
 The two rate limiters: the token bucket of a WebSocket connection and the sliding window of the
 HTTP proxy. Clocks are monotone.
 */
module Limiters {
  // ---- the token bucket, with time in seconds

  datatype RateConfig = RateConfig(perSec: nat, burst: nat)

  /** Conversion of a float64 to int truncates toward zero. */
  function Truncate(x: real): int {
    if x >= 0.0 then x.Floor else -((-x).Floor)
  }

  datatype Bucket = Bucket(tokens: int, lastTick: real)

  /** Tokens earned in a time span, with fractions. */
  function Earnings(rate: RateConfig, elapsed: real): real {
    elapsed * rate.perSec as real
  }

  /** The whole tokens earned in a time span. */
  function Earned(rate: RateConfig, elapsed: real): int {
    Truncate(Earnings(rate, elapsed))
  }

  function Refill(rate: RateConfig, b: Bucket, now: real): int {
    var tokens := b.tokens + Earned(rate, now - b.lastTick);
    if tokens > rate.burst then rate.burst else tokens
  }

  predicate Allows(rate: RateConfig, b: Bucket, now: real) {
    Refill(rate, b, now) > 0
  }

  function AfterCall(rate: RateConfig, b: Bucket, now: real): Bucket {
    Bucket(Refill(rate, b, now) - (if Allows(rate, b, now) then 1 else 0), now)
  }

  /** How many of the calls at the given times are allowed. */
  function Grants(rate: RateConfig, b: Bucket, times: seq<real>): nat
    decreases |times|
  {
    if times == [] then 0
    else (if Allows(rate, b, times[0]) then 1 else 0) + Grants(rate, AfterCall(rate, b, times[0]), times[1..])
  }

  ghost predicate Ascending(times: seq<real>) {
    forall i, j :: 0 <= i < j < |times| ==> times[i] <= times[j]
  }

  lemma {:induction false} GrantsWithin(rate: RateConfig, b: Bucket, times: seq<real>, end: real)
    requires 0 <= b.tokens <= rate.burst && Ascending(times) && b.lastTick <= end
    requires times != [] ==> b.lastTick <= times[0] && times[|times| - 1] <= end
    ensures Grants(rate, b, times) as real <= b.tokens as real + Earnings(rate, end - b.lastTick)
    decreases |times|
  {
    EarningsAdd(rate, 0.0, end - b.lastTick);
    if times != [] {
      var now := times[0];
      EarnedIsNatural(rate, now - b.lastTick);
      EarningsAdd(rate, now - b.lastTick, end - now);
      AscendingTail(times);
      assert times[0] <= times[|times| - 1];
      GrantsWithin(rate, AfterCall(rate, b, now), times[1..], end);
    }
  }

  lemma EarningsAdd(rate: RateConfig, x: real, y: real)
    requires x >= 0.0 && y >= 0.0
    ensures Earnings(rate, x + y) == Earnings(rate, x) + Earnings(rate, y)
    ensures Earnings(rate, x) >= 0.0 && Earnings(rate, y) >= 0.0
  {
  }

  /** Never over-grants: a stretch of calls spanning time T lets through at most burst + perSec * T. */
  lemma BucketNeverOverGrants(rate: RateConfig, b: Bucket, times: seq<real>)
    requires 0 <= b.tokens <= rate.burst && times != [] && Ascending(times) && b.lastTick <= times[0]
    ensures Grants(rate, b, times) as real <= rate.burst as real + Earnings(rate, times[|times| - 1] - times[0])
  {
    var first, end := times[0], times[|times| - 1];
    AscendingTail(times);
    assert first <= end;
    FirstCall(rate, b, first);
    var b' := AfterCall(rate, b, first);
    GrantsWithin(rate, b', times[1..], end);
    assert b'.lastTick == first;
  }

  lemma FirstCall(rate: RateConfig, b: Bucket, now: real)
    requires 0 <= b.tokens <= rate.burst && b.lastTick <= now
    ensures 0 <= AfterCall(rate, b, now).tokens
    ensures AfterCall(rate, b, now).tokens + (if Allows(rate, b, now) then 1 else 0) <= rate.burst
  {
    EarnedIsNatural(rate, now - b.lastTick);
  }

  lemma EarnedIsNatural(rate: RateConfig, elapsed: real)
    requires elapsed >= 0.0
    ensures 0 <= Earned(rate, elapsed) && Earned(rate, elapsed) as real <= Earnings(rate, elapsed)
  {
    assert Earnings(rate, elapsed) >= 0.0;
  }

  lemma AscendingTail(times: seq<real>)
    requires times != [] && Ascending(times)
    ensures Ascending(times[1..])
    ensures |times| > 1 ==> times[0] <= times[1..][0] && times[1..][|times| - 2] == times[|times| - 1]
  {
    forall i, j | 0 <= i < j < |times[1..]| ensures times[1..][i] <= times[1..][j] {
      assert times[i + 1] <= times[j + 1];
    }
    if |times| > 1 { assert times[0] <= times[1]; }
  }

  /** Calls at least 1/perSec apart are never refused. */
  lemma {:induction false} SpacedCallsAreAllowed(rate: RateConfig, b: Bucket, times: seq<real>)
    requires rate.burst >= 1 && 0 <= b.tokens <= rate.burst
    requires times != [] ==> Earnings(rate, times[0] - b.lastTick) >= 1.0
    requires forall i :: 0 < i < |times| ==> Earnings(rate, times[i] - times[i - 1]) >= 1.0
    ensures Grants(rate, b, times) == |times|
    decreases |times|
  {
    if times != [] {
      assert Earned(rate, times[0] - b.lastTick) >= 1;
      forall i | 0 < i < |times[1..]| ensures Earnings(rate, times[1..][i] - times[1..][i - 1]) >= 1.0 {
        assert times[1..][i] == times[i + 1] && times[1..][i - 1] == times[i];
      }
      assert |times| > 1 ==> times[1..][0] == times[1];
      SpacedCallsAreAllowed(rate, AfterCall(rate, b, times[0]), times[1..]);
    }
  }

  /**
   Calls less than 1/perSec apart never refill the bucket, because every call resets the clock:
   exactly the tokens there were are granted, however long the calls go on.
   */
  lemma {:induction false} RapidCallsNeverRefill(rate: RateConfig, b: Bucket, times: seq<real>)
    requires 0 <= b.tokens <= rate.burst && Ascending(times)
    requires times != [] ==> b.lastTick <= times[0] && Earnings(rate, times[0] - b.lastTick) < 1.0
    requires forall i :: 0 < i < |times| ==> Earnings(rate, times[i] - times[i - 1]) < 1.0
    ensures Grants(rate, b, times) == if |times| <= b.tokens then |times| else b.tokens
    decreases |times|
  {
    if times != [] {
      EarnedIsNatural(rate, times[0] - b.lastTick);
      assert Earned(rate, times[0] - b.lastTick) == 0;
      AscendingTail(times);
      forall i | 0 < i < |times[1..]| ensures Earnings(rate, times[1..][i] - times[1..][i - 1]) < 1.0 {
        assert times[1..][i] == times[i + 1] && times[1..][i - 1] == times[i];
      }
      RapidCallsNeverRefill(rate, AfterCall(rate, b, times[0]), times[1..]);
    }
  }

  // ---- exactly when a call is refused

  /** The bucket before the n-th call. */
  function Before(rate: RateConfig, b: Bucket, times: seq<real>, n: nat): Bucket
    requires n <= |times|
  {
    if n == 0 then b else AfterCall(rate, Before(rate, b, times, n - 1), times[n - 1])
  }

  predicate AllowedAt(rate: RateConfig, b: Bucket, times: seq<real>, n: nat)
    requires n < |times|
  {
    Allows(rate, Before(rate, b, times, n), times[n])
  }

  /** The whole tokens earned in the gap before the n-th call. */
  function EarnedAt(rate: RateConfig, b: Bucket, times: seq<real>, n: nat): int
    requires n < |times|
  {
    Earned(rate, times[n] - if n == 0 then b.lastTick else times[n - 1])
  }

  /** The sum over the gaps before the calls `from` to `n`, each truncated by itself. */
  function EarnedUpTo(rate: RateConfig, b: Bucket, times: seq<real>, from: nat, n: nat): int
    requires n < |times|
    decreases n
  {
    if from > n then 0
    else EarnedAt(rate, b, times, n) + if n == 0 then 0 else EarnedUpTo(rate, b, times, from, n - 1)
  }

  /** How many of the calls `from` to `n` - 1 are allowed. */
  function GrantedUpTo(rate: RateConfig, b: Bucket, times: seq<real>, from: nat, n: nat): nat
    requires n <= |times|
    decreases n
  {
    if from >= n then 0
    else GrantedUpTo(rate, b, times, from, n - 1) + if AllowedAt(rate, b, times, n - 1) then 1 else 0
  }

  /** What the n-th call finds in the bucket. */
  function Available(rate: RateConfig, b: Bucket, times: seq<real>, n: nat): int
    requires n < |times|
  {
    Refill(rate, Before(rate, b, times, n), times[n])
  }

  /** What would be available if the bucket had been full at call `k` and never overflowed since. */
  function SinceFull(rate: RateConfig, b: Bucket, times: seq<real>, k: nat, n: nat): int
    requires n < |times|
  {
    rate.burst + EarnedUpTo(rate, b, times, k + 1, n) - GrantedUpTo(rate, b, times, k, n)
  }

  /** What would be available if the bucket had never overflowed. */
  function SinceStart(rate: RateConfig, b: Bucket, times: seq<real>, n: nat): int
    requires n < |times|
  {
    b.tokens + EarnedUpTo(rate, b, times, 0, n) - GrantedUpTo(rate, b, times, 0, n)
  }

  ghost predicate CallsOk(rate: RateConfig, b: Bucket, times: seq<real>) {
    0 <= b.tokens <= rate.burst && Ascending(times) && (times != [] ==> b.lastTick <= times[0])
  }

  lemma {:induction false} BeforeOk(rate: RateConfig, b: Bucket, times: seq<real>, n: nat)
    requires CallsOk(rate, b, times) && n < |times|
    ensures Before(rate, b, times, n).lastTick == if n == 0 then b.lastTick else times[n - 1]
    ensures 0 <= Before(rate, b, times, n).tokens <= rate.burst && 0 <= Available(rate, b, times, n) <= rate.burst
    ensures 0 <= EarnedAt(rate, b, times, n)
    decreases n
  {
    if n > 0 { BeforeOk(rate, b, times, n - 1); }
    EarnedIsNatural(rate, times[n] - if n == 0 then b.lastTick else times[n - 1]);
  }

  /** One more call: what was available, less the grant, plus the gap, up to the burst. */
  lemma AvailableNext(rate: RateConfig, b: Bucket, times: seq<real>, n: nat)
    requires CallsOk(rate, b, times) && n + 1 < |times|
    ensures var left := Available(rate, b, times, n) - (if AllowedAt(rate, b, times, n) then 1 else 0);
      var more := left + EarnedAt(rate, b, times, n + 1);
      Available(rate, b, times, n + 1) == if more > rate.burst then rate.burst else more
  {
    BeforeOk(rate, b, times, n + 1);
  }

  lemma SinceNext(rate: RateConfig, b: Bucket, times: seq<real>, k: nat, n: nat)
    requires k <= n && n + 1 < |times|
    ensures var change := EarnedAt(rate, b, times, n + 1) - if AllowedAt(rate, b, times, n) then 1 else 0;
      && SinceFull(rate, b, times, k, n + 1) == SinceFull(rate, b, times, k, n) + change
      && SinceStart(rate, b, times, n + 1) == SinceStart(rate, b, times, n) + change
  {
  }

  /** The amounts that would be available since the start, and since each call so far. */
  function Candidates(rate: RateConfig, b: Bucket, times: seq<real>, n: nat): (all: seq<int>)
    requires n < |times|
    ensures |all| == n + 2 && all[0] == SinceStart(rate, b, times, n)
    ensures forall k :: 0 <= k <= n ==> all[k + 1] == SinceFull(rate, b, times, k, n)
  {
    seq(n + 2, i requires 0 <= i < n + 2 =>
      if i == 0 then SinceStart(rate, b, times, n) else SinceFull(rate, b, times, i - 1, n))
  }

  ghost predicate Least(a: int, all: seq<int>) {
    a in all && forall i :: 0 <= i < |all| ==> a <= all[i]
  }

  function AtMost(a: int, cap: int): int {
    if a > cap then cap else a
  }

  lemma LeastShifts(a: int, all: seq<int>, change: int, cap: int, next: seq<int>)
    requires Least(a, all) && |next| == |all| + 1 && next[|all|] == cap
    requires forall i :: 0 <= i < |all| ==> next[i] == all[i] + change
    ensures Least(AtMost(a + change, cap), next)
  {
    var i :| 0 <= i < |all| && all[i] == a;
    assert next[i] == a + change;
  }

  function ChangeAt(rate: RateConfig, b: Bucket, times: seq<real>, n: nat): int
    requires 0 < n < |times|
  {
    EarnedAt(rate, b, times, n) - if AllowedAt(rate, b, times, n - 1) then 1 else 0
  }

  lemma CandidatesNext(rate: RateConfig, b: Bucket, times: seq<real>, n: nat)
    requires 0 < n < |times|
    ensures var all, next := Candidates(rate, b, times, n - 1), Candidates(rate, b, times, n);
      && next[n + 1] == rate.burst
      && forall i :: 0 <= i < n + 1 ==> next[i] == all[i] + ChangeAt(rate, b, times, n)
  {
    var all, next := Candidates(rate, b, times, n - 1), Candidates(rate, b, times, n);
    SinceNext(rate, b, times, 0, n - 1);
    forall i | 0 <= i < n + 1 ensures next[i] == all[i] + ChangeAt(rate, b, times, n) {
      if i > 0 {
        SinceNext(rate, b, times, i - 1, n - 1);
        assert all[i - 1 + 1] == SinceFull(rate, b, times, i - 1, n - 1);
        assert next[i - 1 + 1] == SinceFull(rate, b, times, i - 1, n);
      }
    }
    assert next[n + 1] == SinceFull(rate, b, times, n, n);
  }

  lemma FirstIsLeast(rate: RateConfig, b: Bucket, times: seq<real>)
    requires times != []
    ensures Least(Available(rate, b, times, 0), Candidates(rate, b, times, 0))
  {
    var all := Candidates(rate, b, times, 0);
    assert all[0 + 1] == SinceFull(rate, b, times, 0, 0) == rate.burst;
    assert all[0] == SinceStart(rate, b, times, 0) == b.tokens + EarnedAt(rate, b, times, 0);
    assert Available(rate, b, times, 0) == AtMost(all[0], rate.burst);
  }

  /** The bucket holds the least of all these amounts. */
  lemma {:induction false} AvailableIsLeast(rate: RateConfig, b: Bucket, times: seq<real>, n: nat)
    requires CallsOk(rate, b, times) && n < |times|
    ensures Least(Available(rate, b, times, n), Candidates(rate, b, times, n))
    decreases n
  {
    if n == 0 {
      FirstIsLeast(rate, b, times);
    } else {
      AvailableIsLeast(rate, b, times, n - 1);
      AvailableNext(rate, b, times, n - 1);
      CandidatesNext(rate, b, times, n);
      LeastShifts(Available(rate, b, times, n - 1), Candidates(rate, b, times, n - 1), ChangeAt(rate, b, times, n),
                  rate.burst, Candidates(rate, b, times, n));
    }
  }

  lemma LeastIsZeroIff(a: int, all: seq<int>)
    requires Least(a, all) && a >= 0
    ensures a == 0 <==> exists i :: 0 <= i < |all| && all[i] == 0
  {
    var i :| 0 <= i < |all| && all[i] == a;
  }

  /** As many calls were granted as tokens were there at the start and were earned since. */
  predicate UsedUpSinceStart(rate: RateConfig, b: Bucket, times: seq<real>, n: nat)
    requires n < |times|
  {
    GrantedUpTo(rate, b, times, 0, n) == b.tokens + EarnedUpTo(rate, b, times, 0, n)
  }

  /** As many calls were granted since call `k` as a full bucket had then and earned since. */
  predicate UsedUpSince(rate: RateConfig, b: Bucket, times: seq<real>, k: nat, n: nat)
    requires n < |times|
  {
    GrantedUpTo(rate, b, times, k, n) == rate.burst + EarnedUpTo(rate, b, times, k + 1, n)
  }

  /**
   Exactly when a call is refused, for calls at any times: when, since the start or since some
   call at which the bucket is taken as full, as many calls were granted as tokens were there and
   whole tokens were earned in the gaps, each gap truncated by itself.
   */
  lemma RefusedIff(rate: RateConfig, b: Bucket, times: seq<real>, n: nat)
    requires CallsOk(rate, b, times) && n < |times|
    ensures !AllowedAt(rate, b, times, n) <==>
      UsedUpSinceStart(rate, b, times, n) || exists k :: 0 <= k <= n && UsedUpSince(rate, b, times, k, n)
  {
    BeforeOk(rate, b, times, n);
    AvailableIsLeast(rate, b, times, n);
    LeastIsZeroIff(Available(rate, b, times, n), Candidates(rate, b, times, n));
    ZeroCandidateIff(rate, b, times, n);
  }

  lemma ZeroCandidateIff(rate: RateConfig, b: Bucket, times: seq<real>, n: nat)
    requires n < |times|
    ensures (exists i :: 0 <= i < n + 2 && Candidates(rate, b, times, n)[i] == 0) <==>
      UsedUpSinceStart(rate, b, times, n) || exists k :: 0 <= k <= n && UsedUpSince(rate, b, times, k, n)
  {
    var all := Candidates(rate, b, times, n);
    if i :| 0 <= i < n + 2 && all[i] == 0 {
      if i > 0 {
        assert all[i - 1 + 1] == SinceFull(rate, b, times, i - 1, n);
        assert UsedUpSince(rate, b, times, i - 1, n);
      }
    }
    if k :| 0 <= k <= n && UsedUpSince(rate, b, times, k, n) { assert all[k + 1] == 0; }
    if UsedUpSinceStart(rate, b, times, n) { assert all[0] == 0; }
  }

  /** An empty bucket lets a call through exactly when a whole token was earned since the call before. */
  lemma EmptyBucketIff(rate: RateConfig, b: Bucket, now: real)
    requires b.tokens == 0 && rate.burst >= 1 && b.lastTick <= now
    ensures Allows(rate, b, now) <==> Earnings(rate, now - b.lastTick) >= 1.0
  {
    EarnedIsNatural(rate, now - b.lastTick);
  }

  class Client {
    const rate: RateConfig
    var tokens: int
    var lastTick: real

    constructor (rate: RateConfig, now: real)
      ensures this.rate == rate && tokens == rate.burst && lastTick == now
    {
      this.rate, tokens, lastTick := rate, rate.burst, now;
    }

    method RateAllow(now: real) returns (allowed: bool)
      modifies this
      ensures allowed == Allows(rate, old(Bucket(tokens, lastTick)), now)
      ensures Bucket(tokens, lastTick) == AfterCall(rate, old(Bucket(tokens, lastTick)), now)
      ensures 0 <= old(tokens) <= rate.burst && old(lastTick) <= now ==> 0 <= tokens <= rate.burst
    {
      var elapsed := now - lastTick;
      if old(lastTick) <= now { EarnedIsNatural(rate, elapsed); }
      lastTick := now;
      tokens := tokens + Earned(rate, elapsed);
      if tokens > rate.burst {
        tokens := rate.burst;
      }
      if tokens <= 0 {
        return false;
      }
      tokens := tokens - 1;
      allowed := true;
    }
  }

  // ---- the sliding window, with time in nanoseconds

  const LIMIT := 10
  const WINDOW := 60_000_000_000

  /** The timestamps still inside the window that ends now. */
  function Live(times: seq<int>, now: int): (live: seq<int>)
    ensures |live| <= |times|
    ensures forall t :: t in live <==> t in times && t > now - WINDOW
  {
    if times == [] then []
    else
      var last := times[|times| - 1];
      var rest := Live(times[..|times| - 1], now);
      assert times == times[..|times| - 1] + [last];
      if last > now - WINDOW then rest + [last] else rest
  }

  predicate Admits(times: seq<int>, now: int) {
    |Live(times, now)| < LIMIT
  }

  function AfterRequest(times: seq<int>, now: int): seq<int> {
    if Admits(times, now) then Live(times, now) + [now] else Live(times, now)
  }

  /** The times of the admitted requests. */
  function Admitted(times: seq<int>, requests: seq<int>): seq<int>
    decreases |requests|
  {
    if requests == [] then []
    else (if Admits(times, requests[0]) then [requests[0]] else []) + Admitted(AfterRequest(times, requests[0]), requests[1..])
  }

  /** How many of the timestamps are in the half-open window (from, to]. */
  function InWindow(times: seq<int>, from: int, to: int): nat {
    if times == [] then 0
    else InWindow(times[..|times| - 1], from, to) + if from < times[|times| - 1] <= to then 1 else 0
  }

  /** How many are in the 60 seconds after `from`. */
  function InMinute(times: seq<int>, from: int): nat {
    InWindow(times, from, from + WINDOW)
  }

  ghost predicate AscendingInts(times: seq<int>) {
    forall i, j :: 0 <= i < j < |times| ==> times[i] <= times[j]
  }

  lemma {:induction false} InWindowAppends(a: seq<int>, b: seq<int>, from: int, to: int)
    ensures InWindow(a + b, from, to) == InWindow(a, from, to) + InWindow(b, from, to)
  {
    if b == [] {
      assert a + b == a;
    } else {
      assert (a + b)[..|a + b| - 1] == a + b[..|b| - 1];
      InWindowAppends(a, b[..|b| - 1], from, to);
    }
  }

  /** No timestamp is later than `now`. */
  predicate UpTo(times: seq<int>, now: int) {
    forall i :: 0 <= i < |times| ==> times[i] <= now
  }

  lemma {:induction false} LiveCounts(times: seq<int>, now: int)
    requires UpTo(times, now)
    ensures |Live(times, now)| == InWindow(times, now - WINDOW, now)
    ensures UpTo(Live(times, now), now)
  {
    if times != [] {
      LiveCounts(times[..|times| - 1], now);
    }
  }

  /** Forgetting dead timestamps does not change what a later window sees. */
  lemma {:induction false} LiveIsEnough(times: seq<int>, now: int, from: int, to: int)
    requires now - WINDOW <= from
    ensures InWindow(Live(times, now), from, to) == InWindow(times, from, to)
  {
    if times != [] {
      var init, last := times[..|times| - 1], times[|times| - 1];
      LiveIsEnough(init, now, from, to);
      if last > now - WINDOW {
        InWindowAppends(Live(init, now), [last], from, to);
        assert [last][..0] == [];
      }
    }
  }

  lemma {:induction false} InWindowAtMost(times: seq<int>, from: int, to: int, from': int, now: int)
    requires from' <= from && UpTo(times, now)
    ensures InWindow(times, from, to) <= InWindow(times, from', now)
  {
    if times != [] {
      InWindowAtMost(times[..|times| - 1], from, to, from', now);
    }
  }

  /** The bucket and the whole record agree on every window that a later request can look at. */
  ghost predicate SameWindows(all: seq<int>, times: seq<int>, now: int) {
    forall from, to :: from >= now - WINDOW ==> InWindow(times, from, to) == InWindow(all, from, to)
  }

  /** No window holds more than LIMIT admitted requests. */
  ghost predicate WindowsLimited(all: seq<int>) {
    forall from :: InMinute(all, from) <= LIMIT
  }

  /** `all` are the admitted requests so far, `times` what the bucket still remembers. */
  ghost predicate Agrees(all: seq<int>, times: seq<int>, now: int) {
    UpTo(all, now) && UpTo(times, now) && SameWindows(all, times, now) && WindowsLimited(all)
  }

  /** A request is refused exactly when LIMIT admitted ones lie in the last 60 seconds. */
  lemma RefusesOnlyWhenFull(all: seq<int>, times: seq<int>, before: int, now: int)
    requires Agrees(all, times, before) && before <= now
    ensures Admits(times, now) <==> InWindow(all, now - WINDOW, now) < LIMIT
  {
    LiveCounts(times, now);
  }

  lemma LiveKeepsWindows(all: seq<int>, times: seq<int>, before: int, now: int)
    requires SameWindows(all, times, before) && before <= now
    ensures SameWindows(all, Live(times, now), now)
  {
    forall from, to | from >= now - WINDOW ensures InWindow(Live(times, now), from, to) == InWindow(all, from, to) {
      LiveIsEnough(times, now, from, to);
    }
  }

  lemma AdmissionKeepsWindows(all: seq<int>, times: seq<int>, now: int)
    requires SameWindows(all, times, now)
    ensures SameWindows(all + [now], times + [now], now)
  {
    forall from, to | from >= now - WINDOW ensures InWindow(times + [now], from, to) == InWindow(all + [now], from, to) {
      InWindowAppends(times, [now], from, to);
      InWindowAppends(all, [now], from, to);
    }
  }

  lemma AdmissionKeepsLimit(all: seq<int>, now: int)
    requires UpTo(all, now) && WindowsLimited(all) && InWindow(all, now - WINDOW, now) < LIMIT
    ensures WindowsLimited(all + [now])
  {
    forall from ensures InMinute(all + [now], from) <= LIMIT {
      assert InMinute(all, from) <= LIMIT;
      InWindowAppends(all, [now], from, from + WINDOW);
      assert [now][..0] == [];
      if from < now <= from + WINDOW {
        InWindowAtMost(all, from, from + WINDOW, now - WINDOW, now);
      }
    }
  }

  lemma AdmissionKeepsAgreement(all: seq<int>, times: seq<int>, now: int)
    requires Agrees(all, times, now) && InWindow(all, now - WINDOW, now) < LIMIT
    ensures Agrees(all + [now], times + [now], now)
  {
    AdmissionKeepsWindows(all, times, now);
    AdmissionKeepsLimit(all, now);
  }

  lemma RequestKeepsAgreement(all: seq<int>, times: seq<int>, before: int, now: int)
    requires Agrees(all, times, before) && before <= now
    ensures Agrees(if Admits(times, now) then all + [now] else all, AfterRequest(times, now), now)
  {
    LiveCounts(times, now);
    LiveKeepsWindows(all, times, before, now);
    assert Agrees(all, Live(times, now), now);
    if Admits(times, now) {
      RefusesOnlyWhenFull(all, times, before, now);
      AdmissionKeepsAgreement(all, Live(times, now), now);
    }
  }

  lemma {:induction false} WindowHolds(all: seq<int>, times: seq<int>, before: int, requests: seq<int>)
    requires Agrees(all, times, before) && AscendingInts(requests)
    requires requests != [] ==> before <= requests[0]
    ensures WindowsLimited(all + Admitted(times, requests))
    decreases |requests|
  {
    if requests == [] {
      assert all + [] == all;
    } else {
      var now := requests[0];
      RequestKeepsAgreement(all, times, before, now);
      AscendingIntsTail(requests);
      var granted := if Admits(times, now) then [now] else [];
      assert all + [] == all;
      WindowHolds(all + granted, AfterRequest(times, now), now, requests[1..]);
      Associative(all, granted, Admitted(AfterRequest(times, now), requests[1..]));
    }
  }

  lemma Associative(a: seq<int>, b: seq<int>, c: seq<int>)
    ensures a + (b + c) == (a + b) + c
  {
  }

  lemma AscendingIntsTail(times: seq<int>)
    requires times != [] && AscendingInts(times)
    ensures AscendingInts(times[1..]) && (|times| > 1 ==> times[0] <= times[1..][0])
  {
    forall i, j | 0 <= i < j < |times[1..]| ensures times[1..][i] <= times[1..][j] {
      assert times[i + 1] <= times[j + 1];
    }
    if |times| > 1 { assert times[0] <= times[1]; }
  }

  /** Never over-grants: no window of 60 seconds holds more than LIMIT admitted requests. */
  lemma WindowNeverOverGrants(requests: seq<int>, from: int)
    requires AscendingInts(requests)
    ensures InMinute(Admitted([], requests), from) <= LIMIT
  {
    if requests == [] {
    } else {
      assert UpTo([], requests[0]) && SameWindows([], [], requests[0]) && WindowsLimited([]);
      WindowHolds([], [], requests[0], requests);
      assert [] + Admitted([], requests) == Admitted([], requests);
    }
  }

  /** Per-user bucket: the slice is filtered in place, reading ahead of where it writes. */
  class RateBucket {
    var times: array<int>
    var len: nat

    ghost predicate Valid()
      reads this
    {
      times.Length == LIMIT && len <= LIMIT
    }

    function Model(): seq<int>
      requires Valid()
      reads this, times
    {
      times[..len]
    }

    constructor ()
      ensures Valid() && fresh(times) && Model() == []
    {
      times := new int[LIMIT];
      len := 0;
    }

    method Filter(now: int)
      requires Valid()
      modifies this`len, times
      ensures Valid() && times == old(times) && Model() == Live(old(Model()), now)
    {
      var n := 0;
      for i := 0 to len
        invariant n <= i && len == old(len) && times == old(times)
        invariant times[..n] == Live(old(times[..i]), now)
        invariant forall j :: i <= j < len ==> times[j] == old(times[j])
      {
        assert old(times[..i + 1])[..i] == old(times[..i]);
        if times[i] > now - WINDOW {
          times[n] := times[i];
          n := n + 1;
        }
      }
      len := n;
    }

    /** Refuses exactly when LIMIT remembered requests lie in the last 60 seconds. */
    method Allow(now: int) returns (allowed: bool)
      requires Valid()
      modifies this`len, times
      ensures Valid() && times == old(times)
      ensures allowed == Admits(old(Model()), now)
      ensures Model() == AfterRequest(old(Model()), now)
    {
      Filter(now);
      if len >= LIMIT {
        return false;
      }
      times[len] := now;
      len := len + 1;
      allowed := true;
    }
  }
}

/** The agent's reconnect loop: capped exponential backoff with jitter, in 64-bit nanoseconds. */
module Backoff {

  const INT64_LIMIT: int := 0x8000_0000_0000_0000
  const HALF_LIMIT: int := 0x4000_0000_0000_0000
  const SECOND: int := 1_000_000_000

  /** A duration: a 64-bit signed number of nanoseconds. */
  type Duration = x: int | -INT64_LIMIT <= x < INT64_LIMIT

  /** What 64-bit arithmetic makes of a result. */
  function Wrap(x: int): (r: Duration)
    ensures -INT64_LIMIT <= x < INT64_LIMIT ==> r == x
    ensures INT64_LIMIT <= x < 2 * INT64_LIMIT ==> r == x - 2 * INT64_LIMIT
  {
    (x + INT64_LIMIT) % (2 * INT64_LIMIT) - INT64_LIMIT
  }

  datatype Config = Config(heartbeatInterval: Duration, backoffInitial: Duration, backoffMax: Duration)

  /** The defaults: 30 s between heartbeats, backoff from 1 s to 60 s. */
  function New(cfg: Config): Config {
    Config(if cfg.heartbeatInterval == 0 then 30 * SECOND else cfg.heartbeatInterval,
           if cfg.backoffInitial == 0 then SECOND else cfg.backoffInitial,
           if cfg.backoffMax == 0 then 60 * SECOND else cfg.backoffMax)
  }

  /** One connection attempt: how the stream ended, and the random number drawn for the wait after it. */
  datatype Round = Round(failed: bool, random: nat)

  function NextBackoff(cur: Duration, max: Duration): Duration {
    var next := Wrap(cur * 2);
    if next > max then max else next
  }

  /** Division that truncates toward zero. */
  function Quarter(d: Duration): Duration {
    var n: int := d;
    if n >= 0 then n / 4 else -((-n) / 4)
  }

  /** A uniform draw below 2 * quarter is any number reduced to that range. */
  function WithJitter(d: Duration, random: nat): Duration {
    var quarter := Quarter(d);
    if quarter <= 0 then d else Wrap(d + (random % (quarter * 2) - quarter))
  }

  /** The backoff in force in round n: an error doubles it, a clean end resets it. */
  function BackoffAt(cfg: Config, rounds: seq<Round>, n: nat): Duration
    requires n <= |rounds|
  {
    if n == 0 || !rounds[n - 1].failed then cfg.backoffInitial
    else NextBackoff(BackoffAt(cfg, rounds, n - 1), cfg.backoffMax)
  }

  /** The wait after round n. */
  function WaitAt(cfg: Config, rounds: seq<Round>, n: nat): Duration
    requires n < |rounds|
  {
    WithJitter(BackoffAt(cfg, rounds, n), rounds[n].random)
  }

  /** The loop over the rounds until the context is cancelled. */
  method Run(cfg: Config, rounds: seq<Round>) returns (delays: seq<Duration>)
    ensures |delays| == |rounds|
    ensures forall n :: 0 <= n < |rounds| ==> delays[n] == WaitAt(cfg, rounds, n)
  {
    var backoff := cfg.backoffInitial;
    delays := [];
    var i := 0;
    while i < |rounds|
      invariant 0 <= i <= |rounds|
      invariant backoff == BackoffAt(cfg, rounds, i)
      invariant |delays| == i
      invariant forall n :: 0 <= n < i ==> delays[n] == WaitAt(cfg, rounds, n)
    {
      var delay := WithJitter(backoff, rounds[i].random);
      delays := delays + [delay];
      backoff := NextBackoff(backoff, cfg.backoffMax);
      if !rounds[i].failed {
        backoff := cfg.backoffInitial;
      }
      i := i + 1;
    }
  }

  /* ---- The closed form ---- */

  function Pow2(k: nat): (r: nat)
    ensures r >= 1
  {
    if k == 0 then 1 else 2 * Pow2(k - 1)
  }

  /** The consecutive errors just before round n. */
  function Streak(rounds: seq<Round>, n: nat): (k: nat)
    requires n <= |rounds|
    ensures k <= n
    ensures forall i :: n - k <= i < n ==> rounds[i].failed
    ensures k < n ==> !rounds[n - k - 1].failed
  {
    if n == 0 || !rounds[n - 1].failed then 0 else Streak(rounds, n - 1) + 1
  }

  function Capped(cfg: Config, k: nat): int {
    if k == 0 || cfg.backoffInitial * Pow2(k) <= cfg.backoffMax then cfg.backoffInitial * Pow2(k) else cfg.backoffMax
  }

  predicate Positive(cfg: Config) {
    cfg.backoffInitial > 0 && cfg.backoffMax > 0
  }

  /** No doubling of a backoff can leave 64 bits. */
  predicate NoOverflow(cfg: Config) {
    cfg.backoffInitial < HALF_LIMIT && cfg.backoffMax < HALF_LIMIT
  }

  ghost predicate FollowsClosedForm(cfg: Config) {
    forall rounds: seq<Round>, n: nat :: n <= |rounds| ==> BackoffAt(cfg, rounds, n) == Capped(cfg, Streak(rounds, n))
  }

  lemma Doubling(x: int, p: nat)
    ensures x * (2 * p) == 2 * (x * p)
  {
  }

  lemma Times(x: int, p: nat)
    requires x > 0 && p >= 1
    ensures x * p >= x && x * p >= p
  {
    var q := p - 1;
    assert x * p == x + x * q;
  }

  lemma CappedStep(cfg: Config, k: nat)
    requires Positive(cfg) && NoOverflow(cfg)
    ensures 0 < Capped(cfg, k) < HALF_LIMIT
    ensures NextBackoff(Capped(cfg, k), cfg.backoffMax) == Capped(cfg, k + 1)
  {
    Times(cfg.backoffInitial, Pow2(k));
    Doubling(cfg.backoffInitial, Pow2(k));
  }

  lemma {:induction false} ClosedForm(cfg: Config, rounds: seq<Round>, n: nat)
    requires Positive(cfg) && NoOverflow(cfg) && n <= |rounds|
    ensures BackoffAt(cfg, rounds, n) == Capped(cfg, Streak(rounds, n))
  {
    if n > 0 && rounds[n - 1].failed {
      ClosedForm(cfg, rounds, n - 1);
      CappedStep(cfg, Streak(rounds, n - 1));
    }
  }

  function Errors(n: nat): seq<Round> {
    seq(n, i => Round(true, 0))
  }

  lemma {:induction false} ErrorStreak(n: nat, k: nat)
    requires k <= n
    ensures Streak(Errors(n), k) == k
  {
    if k > 0 {
      ErrorStreak(n, k - 1);
    }
  }

  /** A duration that grows past half the limit is still in range when it does. */
  lemma {:induction false} Crossing(x: Duration, k: nat) returns (m: nat)
    requires 0 < x && x * Pow2(k) < HALF_LIMIT
    ensures HALF_LIMIT <= x * Pow2(m) < INT64_LIMIT
    decreases HALF_LIMIT - x * Pow2(k)
  {
    Doubling(x, Pow2(k));
    Times(x, Pow2(k));
    if x * Pow2(k + 1) < HALF_LIMIT {
      m := Crossing(x, k + 1);
    } else {
      m := k + 1;
    }
  }

  /** One long streak of errors shows the overflow. */
  lemma OverflowShows(cfg: Config)
    requires Positive(cfg) && !NoOverflow(cfg)
    ensures !FollowsClosedForm(cfg)
  {
    var k := 0;
    if cfg.backoffInitial < HALF_LIMIT {
      k := Crossing(cfg.backoffInitial, 0);
    }
    assert Capped(cfg, k) >= HALF_LIMIT;
    var rounds := Errors(k + 1);
    ErrorStreak(k + 1, k);
    ErrorStreak(k + 1, k + 1);
    Times(cfg.backoffInitial, Pow2(k + 1));
    assert BackoffAt(cfg, rounds, k) == Capped(cfg, k) ==> BackoffAt(cfg, rounds, k + 1) < 0 < Capped(cfg, k + 1);
  }

  /** In every round of every run the backoff is the initial one doubled once for each consecutive error just before,
      capped, exactly if both bounds are below half the 64-bit limit. */
  lemma ClosedFormIff(cfg: Config)
    requires Positive(cfg)
    ensures FollowsClosedForm(cfg) <==> NoOverflow(cfg)
  {
    if NoOverflow(cfg) {
      forall rounds: seq<Round>, n: nat | n <= |rounds|
        ensures BackoffAt(cfg, rounds, n) == Capped(cfg, Streak(rounds, n))
      {
        ClosedForm(cfg, rounds, n);
      }
    } else {
      OverflowShows(cfg);
    }
  }

  /** The default configuration follows the closed form. */
  lemma DefaultsFollowClosedForm(heartbeat: Duration)
    ensures FollowsClosedForm(New(Config(heartbeat, 0, 0)))
  {
    ClosedFormIff(New(Config(heartbeat, 0, 0)));
  }

  /* ---- The jitter ---- */

  /** Within a quarter of d. */
  predicate Near(d: Duration, wait: int) {
    d - d / 4 <= wait < d + d / 4
  }

  lemma SmallRemainder(r: nat, m: nat)
    requires r < m
    ensures r % m == r
  {
  }

  lemma JitterOfSmall(d: Duration, r: nat)
    requires d >= 4 && r < 2 * (d / 4)
    ensures WithJitter(d, r) == Wrap(d + (r - d / 4))
  {
    SmallRemainder(r, d / 4 * 2);
  }

  lemma RemainderInRange(r: nat, m: nat)
    requires m > 0
    ensures 0 <= r % m < m
  {
  }

  /** Every wait is within a quarter of the backoff, and every such wait can occur, exactly if the longest fits
      in 64 bits. */
  lemma JitterIff(d: Duration)
    requires d >= 4
    ensures (forall random: nat :: Near(d, WithJitter(d, random))) <==> d + d / 4 <= INT64_LIMIT
    ensures d + d / 4 <= INT64_LIMIT ==>
      forall v: int :: Near(d, v) ==> exists random: nat :: WithJitter(d, random) == v
  {
    var q := d / 4;
    if d + q <= INT64_LIMIT {
      forall random: nat ensures Near(d, WithJitter(d, random)) {
        RemainderInRange(random, q * 2);
        JitterOfSmall(d, random % (q * 2));
        SmallRemainder(random % (q * 2), q * 2);
      }
      forall v: int | Near(d, v) ensures exists random: nat :: WithJitter(d, random) == v {
        JitterOfSmall(d, v - (d - q));
        assert WithJitter(d, v - (d - q)) == v;
      }
    } else {
      JitterOfSmall(d, 2 * q - 1);
      assert !Near(d, WithJitter(d, 2 * q - 1));
    }
  }

  /** Every wait of a run lies within a quarter of the capped backoff. */
  lemma EveryWaitIsNearTheBackoff(cfg: Config, rounds: seq<Round>, n: nat)
    requires Positive(cfg) && NoOverflow(cfg) && n < |rounds|
    ensures var d := Capped(cfg, Streak(rounds, n));
      var wait := WaitAt(cfg, rounds, n);
      if d < 4 then wait == d else Near(d, wait)
  {
    ClosedForm(cfg, rounds, n);
    CappedStep(cfg, Streak(rounds, n));
    if Capped(cfg, Streak(rounds, n)) >= 4 {
      JitterIff(BackoffAt(cfg, rounds, n));
    }
  }

  /** Below 4 ns, zero and negative durations included, there is no jitter. */
  lemma ShortWaitsAreExact(d: Duration, random: nat)
    requires d < 4
    ensures WithJitter(d, random) == d
  {
  }

  /** New fills in 30 s, 1 s and 60 s for what is 0, and nothing else. */
  lemma NewIs(heartbeat: Duration, initial: Duration, max: Duration)
    ensures var cfg := New(Config(heartbeat, initial, max));
      && cfg.heartbeatInterval == (if heartbeat == 0 then 30_000_000_000 else heartbeat)
      && cfg.backoffInitial == (if initial == 0 then 1_000_000_000 else initial)
      && cfg.backoffMax == (if max == 0 then 60_000_000_000 else max)
  {
  }
}

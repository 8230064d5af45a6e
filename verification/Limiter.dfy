/**
 * The provider's token bucket. Clock readings are whole nanoseconds; tokens, rates and delays before
 * they are cut to nanoseconds are exact reals.
 */
module Limiter {

  const SECOND: real := 1000000000.0

  /** Requests per second, and how many may come at once. */
  datatype Config = Config(rate: real, burst: nat)

  /** What the configuration check lets through for an enabled limiter. */
  predicate ValidConfig(cfg: Config) {
    cfg.rate > 0.0 && cfg.burst > 0
  }

  datatype Bucket = Bucket(tokens: real, last: int)

  function Full(cfg: Config, now: int): Bucket {
    Bucket(cfg.burst as real, now)
  }

  /** Tokens that come in over `ns` nanoseconds. */
  function Income(cfg: Config, ns: int): real {
    ns as real / SECOND * cfg.rate
  }

  function Refill(cfg: Config, b: Bucket, now: int): Bucket {
    if now > b.last then
      var tokens := b.tokens + Income(cfg, now - b.last);
      Bucket(if cfg.burst as real < tokens then cfg.burst as real else tokens, now)
    else b
  }

  /** The delay the bucket asks for, before it is cut to whole nanoseconds. */
  function ExactDelay(cfg: Config, tokens: real): real
    requires ValidConfig(cfg)
  {
    (1.0 - tokens) / cfg.rate * SECOND
  }

  /** A wait of zero lets the call through; `spent` says whether it paid a token. */
  datatype Take = Take(bucket: Bucket, wait: int, spent: bool)

  function TakeToken(cfg: Config, b: Bucket, now: int): Take
    requires ValidConfig(cfg)
  {
    var r := Refill(cfg, b, now);
    if r.tokens >= 1.0 then Take(r.(tokens := r.tokens - 1.0), 0, true)
    else Take(r, ExactDelay(cfg, r.tokens).Floor, false)
  }

  class RateLimiter {
    const cfg: Config
    var tokens: real
    var last: int

    function Value(): Bucket
      reads this
    {
      Bucket(tokens, last)
    }

    constructor (cfg: Config, now: int)
      ensures this.cfg == cfg && Value() == Full(cfg, now)
    {
      this.cfg := cfg;
      tokens := cfg.burst as real;
      last := now;
    }

    method TakeOne(now: int) returns (wait: int)
      requires ValidConfig(cfg)
      modifies this
      ensures var t := TakeToken(cfg, old(Value()), now); Value() == t.bucket && wait == t.wait
    {
      var elapsed := (now - last) as real / SECOND;
      if elapsed > 0.0 {
        tokens := if cfg.burst as real < tokens + elapsed * cfg.rate then cfg.burst as real else tokens + elapsed * cfg.rate;
        last := now;
      }
      if tokens >= 1.0 {
        tokens := tokens - 1.0;
        return 0;
      }
      var missing := 1.0 - tokens;
      return (missing / cfg.rate * SECOND).Floor;
    }
  }

  // ---------------------------------------------------------------- sequences of calls

  /** The bucket after calls at the given times. */
  function After(cfg: Config, b: Bucket, times: seq<int>): Bucket
    requires ValidConfig(cfg)
    decreases |times|
  {
    if times == [] then b else After(cfg, TakeToken(cfg, b, times[0]).bucket, times[1..])
  }

  /** How many of the calls paid a token. */
  function Spent(cfg: Config, b: Bucket, times: seq<int>): nat
    requires ValidConfig(cfg)
    decreases |times|
  {
    if times == [] then 0
    else var t := TakeToken(cfg, b, times[0]);
      (if t.spent then 1 else 0) + Spent(cfg, t.bucket, times[1..])
  }

  /** How many of the calls were let through. */
  function Admitted(cfg: Config, b: Bucket, times: seq<int>): nat
    requires ValidConfig(cfg)
    decreases |times|
  {
    if times == [] then 0
    else var t := TakeToken(cfg, b, times[0]);
      (if t.wait <= 0 then 1 else 0) + Admitted(cfg, t.bucket, times[1..])
  }

  ghost predicate InOrder(times: seq<int>) {
    forall i, j :: 0 <= i <= j < |times| ==> times[i] <= times[j]
  }

  ghost predicate InRange(cfg: Config, b: Bucket) {
    0.0 <= b.tokens <= cfg.burst as real
  }

  lemma IncomeSplits(cfg: Config, a: int, b: int)
    ensures Income(cfg, a + b) == Income(cfg, a) + Income(cfg, b)
  {
    var x, y := a as real / SECOND, b as real / SECOND;
    assert (a + b) as real / SECOND == x + y;
    assert (x + y) * cfg.rate == x * cfg.rate + y * cfg.rate;
  }

  lemma IncomeGrows(cfg: Config, ns: int)
    requires ValidConfig(cfg) && ns >= 0
    ensures Income(cfg, ns) >= 0.0
  {
  }

  /** Whatever the times, the tokens stay between zero and the burst. */
  lemma {:induction false} TokensStayInRange(cfg: Config, b: Bucket, times: seq<int>)
    requires ValidConfig(cfg) && InRange(cfg, b)
    ensures InRange(cfg, After(cfg, b, times))
    decreases |times|
  {
    if times != [] {
      if times[0] > b.last { IncomeGrows(cfg, times[0] - b.last); }
      TokensStayInRange(cfg, TakeToken(cfg, b, times[0]).bucket, times[1..]);
    }
  }

  /** A later refill brings at most the income of the time between. */
  lemma RefillBounded(cfg: Config, b: Bucket, from: int, now: int)
    requires ValidConfig(cfg) && from <= now && from <= b.last
    ensures Refill(cfg, b, now).tokens <= b.tokens + Income(cfg, now - from)
  {
    IncomeGrows(cfg, now - from);
    if now > b.last {
      IncomeSplits(cfg, now - b.last, b.last - from);
      IncomeGrows(cfg, b.last - from);
    }
  }

  lemma {:induction false} SpentFromTokens(cfg: Config, b: Bucket, times: seq<int>)
    requires ValidConfig(cfg) && InRange(cfg, b) && InOrder(times) && times != []
    ensures Spent(cfg, b, times) as real
         <= Refill(cfg, b, times[0]).tokens + Income(cfg, times[|times| - 1] - times[0])
    decreases |times|
  {
    var t := TakeToken(cfg, b, times[0]);
    var rest := times[1..];
    TokensStayInRange(cfg, b, [times[0]]);
    assert After(cfg, b, [times[0]]) == t.bucket;
    if rest == [] {
      IncomeGrows(cfg, 0);
    } else {
      SpentFromTokens(cfg, t.bucket, rest);
      RefillBounded(cfg, t.bucket, times[0], rest[0]);
      IncomeSplits(cfg, rest[0] - times[0], rest[|rest| - 1] - rest[0]);
    }
  }

  /**
   * Between any two calls of a sequence, at times s and t, at most `burst + rate * (t - s)` calls pay.
   */
  lemma PaidCallsAreBounded(cfg: Config, b: Bucket, times: seq<int>, i: nat, j: nat)
    requires ValidConfig(cfg) && InRange(cfg, b) && InOrder(times) && i <= j < |times|
    ensures Spent(cfg, After(cfg, b, times[..i]), times[i..j + 1]) as real
         <= cfg.burst as real + Income(cfg, times[j] - times[i])
  {
    TokensStayInRange(cfg, b, times[..i]);
    var window := times[i..j + 1];
    SpentFromTokens(cfg, After(cfg, b, times[..i]), window);
    var c := After(cfg, b, times[..i]);
    if window[0] > c.last { IncomeGrows(cfg, window[0] - c.last); }
  }

  /** No income is lost below the burst: the tokens are those at the start, and the income, less one for each paid call. */
  lemma {:induction false} IncomeIsConserved(cfg: Config, b: Bucket, times: seq<int>)
    requires ValidConfig(cfg) && InOrder(times) && times != [] && b.last <= times[0]
    requires b.tokens + Income(cfg, times[|times| - 1] - b.last) <= cfg.burst as real
    ensures After(cfg, b, times) ==
            Bucket(b.tokens + Income(cfg, times[|times| - 1] - b.last) - Spent(cfg, b, times) as real, times[|times| - 1])
    decreases |times|
  {
    var now, last, t, rest := times[0], times[|times| - 1], TakeToken(cfg, b, times[0]), times[1..];
    IncomeSplits(cfg, now - b.last, last - now);
    IncomeGrows(cfg, last - now);
    IncomeGrows(cfg, now - b.last);
    TakenFrom(cfg, b, now);
    if rest == [] {
      assert After(cfg, t.bucket, rest) == t.bucket;
    } else {
      IncomeIsConserved(cfg, t.bucket, rest);
    }
  }

  lemma TakenFrom(cfg: Config, b: Bucket, now: int)
    requires ValidConfig(cfg) && b.last <= now && b.tokens + Income(cfg, now - b.last) <= cfg.burst as real
    ensures var t := TakeToken(cfg, b, now);
            t.bucket == Bucket(b.tokens + Income(cfg, now - b.last) - (if t.spent then 1.0 else 0.0), now)
  {
    if b.last == now { assert Income(cfg, 0) == 0.0; }
  }

  /** A bucket left alone for as long as its burst takes to come in is full again, and lets a whole burst through at once. */
  lemma IdleFillsUp(cfg: Config, b: Bucket, now: int)
    requires ValidConfig(cfg) && InRange(cfg, b)
    requires now > b.last && (now - b.last) as real * cfg.rate >= cfg.burst as real * SECOND
    ensures var times := seq(cfg.burst, _ => now);
            Spent(cfg, b, times) == cfg.burst && Admitted(cfg, b, times) == cfg.burst
  {
    var ns, times := (now - b.last) as real, seq(cfg.burst, _ => now);
    assert Income(cfg, now - b.last) >= cfg.burst as real by { IncomeCovers(ns, cfg.rate, cfg.burst as real); }
    assert Refill(cfg, b, now) == Full(cfg, now);
    BurstPays(cfg, cfg.burst, now);
    assert TakeToken(cfg, b, now) == TakeToken(cfg, Full(cfg, now), now);
  }

  lemma IncomeCovers(ns: real, rate: real, amount: real)
    requires ns * rate >= amount * SECOND
    ensures ns / SECOND * rate >= amount
  {
    assert ns / SECOND * rate == ns * rate / SECOND;
  }

  lemma {:induction false} BurstPays(cfg: Config, k: nat, now: int)
    requires ValidConfig(cfg)
    ensures var times := seq(k, _ => now);
            Spent(cfg, Bucket(k as real, now), times) == k && Admitted(cfg, Bucket(k as real, now), times) == k
  {
    if k > 0 {
      assert seq(k, _ => now)[1..] == seq(k - 1, _ => now);
      BurstPays(cfg, k - 1, now);
    }
  }

  // ---------------------------------------------------------------- one caller

  /** A call is let through exactly when less than one nanosecond's income is missing; it pays when nothing is. */
  lemma ZeroWaitExactly(cfg: Config, b: Bucket, now: int)
    requires ValidConfig(cfg)
    ensures var t, tokens := TakeToken(cfg, b, now), Refill(cfg, b, now).tokens;
            && (t.wait <= 0 <==> 1.0 - tokens < Income(cfg, 1))
            && (t.spent <==> tokens >= 1.0)
            && t.wait >= 0
  {
    var tokens := Refill(cfg, b, now).tokens;
    IncomeGrows(cfg, 1);
    if tokens < 1.0 { DelayInIncome(cfg, tokens); }
  }

  /** One over the rate: how a missing amount turns into a delay and back. */
  lemma DelayInIncome(cfg: Config, tokens: real)
    requires ValidConfig(cfg) && tokens < 1.0
    ensures ExactDelay(cfg, tokens) > 0.0
    ensures ExactDelay(cfg, tokens) < 1.0 <==> 1.0 - tokens < Income(cfg, 1)
    ensures 1.0 - tokens == ExactDelay(cfg, tokens) / SECOND * cfg.rate
  {
    var m, r := 1.0 - tokens, cfg.rate;
    var q := m / r;
    assert q * r == m;
    assert q > 0.0;
    var d := q * SECOND;
    assert d / SECOND == q;
    if d < 1.0 {
      assert q < 1.0 / SECOND;
      assert q * r < 1.0 / SECOND * r;
    } else {
      assert q >= 1.0 / SECOND;
      assert q * r >= 1.0 / SECOND * r;
    }
  }

  lemma IncomeOf(cfg: Config, ns: int, delay: real)
    requires ValidConfig(cfg) && ns as real >= delay
    ensures Income(cfg, ns) >= delay / SECOND * cfg.rate
  {
    assert ns as real / SECOND >= delay / SECOND;
  }

  /** A lone caller that sleeps the exact delay, or longer, pays and goes through on its next try. */
  lemma LoneCallerPays(cfg: Config, b: Bucket, now: int, later: int)
    requires ValidConfig(cfg) && b.last <= now <= later
    requires var first := TakeToken(cfg, b, now);
             first.wait > 0 && (later - now) as real >= ExactDelay(cfg, first.bucket.tokens)
    ensures TakeToken(cfg, TakeToken(cfg, b, now).bucket, later).spent
  {
    var tokens := Refill(cfg, b, now).tokens;
    DelayInIncome(cfg, tokens);
    IncomeOf(cfg, later - now, ExactDelay(cfg, tokens));
  }

  /** One that sleeps the delay cut to nanoseconds goes through as well, though perhaps without paying. */
  lemma LoneCallerGoesThrough(cfg: Config, b: Bucket, now: int, later: int)
    requires ValidConfig(cfg) && b.last <= now
    requires var first := TakeToken(cfg, b, now); 0 < first.wait <= later - now
    ensures TakeToken(cfg, TakeToken(cfg, b, now).bucket, later).wait == 0
  {
    var tokens := Refill(cfg, b, now).tokens;
    var first := TakeToken(cfg, b, now);
    DelayInIncome(cfg, tokens);
    IncomeMore(cfg, later - now + 1, ExactDelay(cfg, tokens));
    IncomeSplits(cfg, later - now, 1);
    ZeroWaitExactly(cfg, first.bucket, later);
  }

  lemma IncomeMore(cfg: Config, ns: int, delay: real)
    requires ValidConfig(cfg) && ns as real > delay
    ensures Income(cfg, ns) > delay / SECOND * cfg.rate
  {
    assert ns as real / SECOND > delay / SECOND;
  }

  lemma IncomeLess(cfg: Config, ns: int, delay: real)
    requires ValidConfig(cfg) && ns as real <= delay
    ensures Income(cfg, ns) <= delay / SECOND * cfg.rate
  {
    assert ns as real / SECOND <= delay / SECOND;
  }

  // ---------------------------------------------------------------- calls that pass without paying

  /** `q` nanoseconds bring in exactly one token. */
  ghost predicate OneTokenIn(cfg: Config, q: int) {
    Income(cfg, q) == 1.0
  }

  /** The tokens are a whole number of nanoseconds' income. */
  ghost predicate OnGrid(b: Bucket, q: int, m: int) {
    b.tokens * q as real == m as real
  }

  lemma IncomeOnGrid(cfg: Config, q: int, ns: int)
    requires OneTokenIn(cfg, q)
    ensures Income(cfg, ns) * q as real == ns as real
  {
    var x := cfg.rate / SECOND;
    assert Income(cfg, q) == q as real * x;
    assert Income(cfg, ns) == ns as real * x;
    assert ns as real * x * q as real == ns as real * (q as real * x);
  }

  /** On the grid, a bucket that has no whole token left lacks at least a nanosecond's income. */
  lemma OnGridPays(cfg: Config, b: Bucket, q: int, m: int, now: int) returns (m': int)
    requires ValidConfig(cfg) && OneTokenIn(cfg, q) && OnGrid(b, q, m)
    ensures var t := TakeToken(cfg, b, now); (t.wait <= 0 <==> t.spent) && OnGrid(t.bucket, q, m')
  {
    var r, t := Refill(cfg, b, now), TakeToken(cfg, b, now);
    var k := RefillOnGrid(cfg, b, q, m, now);
    assert t.spent <==> r.tokens >= 1.0 by { ZeroWaitExactly(cfg, b, now); }
    if r.tokens < 1.0 {
      IncomeOnGrid(cfg, q, 1);
      GridGap(r.tokens, Income(cfg, 1), q, k);
      assert t.wait > 0 by { ZeroWaitExactly(cfg, b, now); }
      m' := k;
    } else {
      OneLess(r.tokens, q, k);
      m' := k - q;
    }
  }

  lemma OneLess(tokens: real, q: int, k: int)
    requires tokens * q as real == k as real
    ensures (tokens - 1.0) * q as real == (k - q) as real
  {
  }

  lemma RefillOnGrid(cfg: Config, b: Bucket, q: int, m: int, now: int) returns (k: int)
    requires ValidConfig(cfg) && OneTokenIn(cfg, q) && OnGrid(b, q, m)
    ensures OnGrid(Refill(cfg, b, now), q, k)
  {
    k := m;
    if now > b.last {
      var income := Income(cfg, now - b.last);
      IncomeOnGrid(cfg, q, now - b.last);
      Distribute(b.tokens, income, q as real);
      k := if cfg.burst as real < b.tokens + income then cfg.burst * q else m + now - b.last;
    }
  }

  lemma Distribute(a: real, b: real, c: real)
    ensures (a + b) * c == a * c + b * c
  {
  }

  lemma GridGap(tokens: real, grain: real, q: int, k: int)
    requires tokens * q as real == k as real && grain * q as real == 1.0 && grain >= 0.0 && tokens < 1.0
    ensures 1.0 - tokens >= grain
  {
    assert q > 0 by {
      if q <= 0 { NotPositive(grain, q as real); }
    }
    var gap := 1.0 - tokens;
    assert gap * q as real == (q - k) as real;
    assert gap * q as real > 0.0;
    assert q - k >= 1;
    if gap < grain { assert gap * q as real < grain * q as real; }
  }

  lemma NotPositive(x: real, y: real)
    requires x >= 0.0 && y <= 0.0
    ensures x * y <= 0.0
  {
  }

  lemma {:induction false} GridRun(cfg: Config, b: Bucket, q: int, m: int, times: seq<int>)
    requires ValidConfig(cfg) && OneTokenIn(cfg, q) && OnGrid(b, q, m)
    ensures Admitted(cfg, b, times) == Spent(cfg, b, times)
    decreases |times|
  {
    if times != [] {
      var m' := OnGridPays(cfg, b, q, m, times[0]);
      GridRun(cfg, TakeToken(cfg, b, times[0]).bucket, q, m', times[1..]);
    }
  }

  /** A burst at one moment pays the bucket empty. */
  lemma {:induction false} PayBurst(cfg: Config, k: nat, rest: seq<int>)
    requires ValidConfig(cfg)
    ensures var times := seq(k, _ => 0) + rest;
            && Spent(cfg, Bucket(k as real, 0), times) == k + Spent(cfg, Bucket(0.0, 0), rest)
            && Admitted(cfg, Bucket(k as real, 0), times) == k + Admitted(cfg, Bucket(0.0, 0), rest)
  {
    var times := seq(k, _ => 0) + rest;
    if k == 0 {
      assert times == rest;
    } else {
      assert times[1..] == seq(k - 1, _ => 0) + rest;
      PayBurst(cfg, k - 1, rest);
    }
  }

  /** Just short of a token, any number of calls goes through for free. */
  lemma {:induction false} PassForFree(cfg: Config, b: Bucket, now: int, n: nat)
    requires ValidConfig(cfg)
    requires 0.0 < 1.0 - Refill(cfg, b, now).tokens < Income(cfg, 1)
    ensures Spent(cfg, b, seq(n, _ => now)) == 0 && Admitted(cfg, b, seq(n, _ => now)) == n
    decreases n
  {
    if n > 0 {
      ZeroWaitExactly(cfg, b, now);
      assert seq(n, _ => now)[1..] == seq(n - 1, _ => now);
      PassForFree(cfg, TakeToken(cfg, b, now).bucket, now, n - 1);
    }
  }

  /** The last whole nanosecond before an empty bucket has its next token. */
  lemma JustShort(cfg: Config) returns (now: int)
    requires ValidConfig(cfg) && forall q :: !OneTokenIn(cfg, q)
    ensures now >= 0 && 0.0 < 1.0 - Refill(cfg, Bucket(0.0, 0), now).tokens < Income(cfg, 1)
  {
    var delay := ExactDelay(cfg, 0.0);
    DelayInIncome(cfg, 0.0);
    now := delay.Floor;
    assert !OneTokenIn(cfg, now);
    IncomeMore(cfg, now + 1, delay);
    IncomeSplits(cfg, now, 1);
    IncomeLess(cfg, now, delay);
  }

  /**
   * Whether every call that is let through has paid is decided by the rate alone: it holds for all
   * sequences of calls if and only if some whole number of nanoseconds brings in exactly one token.
   */
  lemma EveryAdmissionPaysExactly(cfg: Config)
    requires ValidConfig(cfg)
    ensures (exists q :: OneTokenIn(cfg, q))
       <==> forall times: seq<int> :: InOrder(times) ==>
              Admitted(cfg, Full(cfg, 0), times) == Spent(cfg, Full(cfg, 0), times)
  {
    if q :| OneTokenIn(cfg, q) {
      forall times: seq<int> | InOrder(times)
        ensures Admitted(cfg, Full(cfg, 0), times) == Spent(cfg, Full(cfg, 0), times)
      {
        assert OnGrid(Full(cfg, 0), q, cfg.burst * q);
        GridRun(cfg, Full(cfg, 0), q, cfg.burst * q, times);
      }
    } else {
      var times := UnpaidCalls(cfg, 1);
    }
  }

  /** Otherwise any number of calls can pass at one moment without paying. */
  lemma UnpaidCalls(cfg: Config, n: nat) returns (times: seq<int>)
    requires ValidConfig(cfg) && forall q :: !OneTokenIn(cfg, q)
    ensures InOrder(times)
    ensures Spent(cfg, Full(cfg, 0), times) == cfg.burst
    ensures Admitted(cfg, Full(cfg, 0), times) == cfg.burst + n
  {
    var now := JustShort(cfg);
    var rest := seq(n, _ => now);
    times := seq(cfg.burst, _ => 0) + rest;
    PayBurst(cfg, cfg.burst, rest);
    PassForFree(cfg, Bucket(0.0, 0), now, n);
  }
}

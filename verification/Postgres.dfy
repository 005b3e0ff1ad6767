/** Opening the connection pool: options, the clamp of the pool size, and the retry loop with its
    exponential backoff. The network is an arbitrary pattern of outcomes. */
module Postgres {
  import opened Results
  import opened GoInt

  /** time.Duration: nanoseconds in an int64. */
  type Duration = int64

  newtype int32 = x: int | -0x8000_0000 <= x < 0x8000_0000

  const SECOND: Duration := 1_000_000_000

  // ----- settings

  datatype Settings = Settings(
    maxConns: int32, minConns: int32, connAttempts: int64, connTimeout: Duration, retryBackoff: Duration,
    maxConnLifetime: Duration, maxConnIdleTime: Duration)

  const DEFAULTS := Settings(25, 5, 5, 5 * SECOND, SECOND, 3600 * SECOND, 1800 * SECOND)

  datatype PoolOption =
    | MaxConns(n: int32) | MinConns(n: int32) | ConnAttempts(attempts: int64)
    | ConnTimeout(d: Duration) | RetryBackoff(d: Duration)
    | MaxConnLifetime(d: Duration) | MaxConnIdleTime(d: Duration)

  function Apply(s: Settings, o: PoolOption): Settings {
    match o
    case MaxConns(n) => s.(maxConns := n)
    case MinConns(n) => s.(minConns := n)
    case ConnAttempts(attempts) => s.(connAttempts := attempts)
    case ConnTimeout(d) => s.(connTimeout := d)
    case RetryBackoff(d) => s.(retryBackoff := d)
    case MaxConnLifetime(d) => s.(maxConnLifetime := d)
    case MaxConnIdleTime(d) => s.(maxConnIdleTime := d)
  }

  function Configured(opts: seq<PoolOption>): Settings {
    if opts == [] then DEFAULTS else Apply(Configured(opts[..|opts| - 1]), opts[|opts| - 1])
  }

  /** Two options for the same setting. */
  predicate SameSetting(o: PoolOption, p: PoolOption) {
    match o
    case MaxConns(_) => p.MaxConns?
    case MinConns(_) => p.MinConns?
    case ConnAttempts(_) => p.ConnAttempts?
    case ConnTimeout(_) => p.ConnTimeout?
    case RetryBackoff(_) => p.RetryBackoff?
    case MaxConnLifetime(_) => p.MaxConnLifetime?
    case MaxConnIdleTime(_) => p.MaxConnIdleTime?
  }

  /** No later option overrides this one. */
  predicate IsLast(opts: seq<PoolOption>, i: nat) {
    i < |opts| && forall j | i < j < |opts| :: !SameSetting(opts[i], opts[j])
  }

  /** The last option for a setting decides. */
  lemma {:induction false} LastOptionWins(opts: seq<PoolOption>, i: nat)
    requires IsLast(opts, i)
    ensures var s := Configured(opts);
            match opts[i]
            case MaxConns(n) => s.maxConns == n
            case MinConns(n) => s.minConns == n
            case ConnAttempts(attempts) => s.connAttempts == attempts
            case ConnTimeout(d) => s.connTimeout == d
            case RetryBackoff(d) => s.retryBackoff == d
            case MaxConnLifetime(d) => s.maxConnLifetime == d
            case MaxConnIdleTime(d) => s.maxConnIdleTime == d
    decreases |opts|
  {
    var front, last := opts[..|opts| - 1], opts[|opts| - 1];
    if i < |front| {
      assert !SameSetting(opts[i], last);
      forall j | i < j < |front| ensures !SameSetting(front[i], front[j]) {
        assert front[j] == opts[j];
      }
      LastOptionWins(front, i);
    }
  }

  predicate IsUnset(opts: seq<PoolOption>, o: PoolOption) {
    forall j | 0 <= j < |opts| :: !SameSetting(o, opts[j])
  }

  /** A setting without an option keeps its default: 25 connections, 5 of them kept idle, 5 attempts,
      5 seconds for a ping, 1 second of backoff, 1 hour of life and 30 minutes of idleness. */
  lemma {:induction false} DefaultsStay(opts: seq<PoolOption>, o: PoolOption)
    requires IsUnset(opts, o)
    ensures var s := Configured(opts);
            match o
            case MaxConns(_) => s.maxConns == 25
            case MinConns(_) => s.minConns == 5
            case ConnAttempts(_) => s.connAttempts == 5
            case ConnTimeout(_) => s.connTimeout == 5_000_000_000
            case RetryBackoff(_) => s.retryBackoff == 1_000_000_000
            case MaxConnLifetime(_) => s.maxConnLifetime == 3_600_000_000_000
            case MaxConnIdleTime(_) => s.maxConnIdleTime == 1_800_000_000_000
  {
    if opts != [] {
      assert !SameSetting(o, opts[|opts| - 1]);
      DefaultsStay(opts[..|opts| - 1], o);
    }
  }

  /** What connectDB passes: the limit alone. */
  lemma OnlyTheLimit(n: int32)
    ensures Configured([MaxConns(n)])
            == Settings(n, 5, 5, 5_000_000_000, 1_000_000_000, 3_600_000_000_000, 1_800_000_000_000)
  {
    assert [MaxConns(n)][..0] == [];
  }

  // ----- the pattern of failures

  /** One attempt: the pool cannot be built, or it is built but the ping fails, or it works. */
  datatype Attempt = NewFails | PingFails | Connects

  /** What happens to attempt 1, 2, 3, ..., and whether the wait after an attempt runs to its end
      (otherwise the context is cancelled during it). */
  datatype Weather = Weather(attempt: int -> Attempt, elapses: int -> bool)

  /** The attempt after which the loop ends: a success, the last allowed one, or the one whose wait
      is cut short. */
  function Final(w: Weather, n: int, i: int): int
    requires 1 <= i <= n
    decreases n - i
  {
    if w.attempt(i).Connects? || i == n || !w.elapses(i) then i else Final(w, n, i + 1)
  }

  /** `Final` is the first attempt that succeeds, exhausts the limit, or is followed by a
      cancellation. */
  lemma FinalIsFirst(w: Weather, n: int, i: int)
    requires 1 <= i <= n
    ensures var k := Final(w, n, i);
            && i <= k <= n
            && (w.attempt(k).Connects? || k == n || !w.elapses(k))
            && forall j | i <= j < k :: !w.attempt(j).Connects? && w.elapses(j)
    decreases n - i
  {
    if !(w.attempt(i).Connects? || i == n || !w.elapses(i)) { FinalIsFirst(w, n, i + 1); }
  }

  function Pow2(k: nat): (p: nat)
    ensures p > 0
  {
    if k == 0 then 1 else 2 * Pow2(k - 1)
  }

  /** The wait after attempt j + 1, doubled j times in int64. */
  function Backoff(r: Duration, j: nat): Duration { Wrap(r as int * Pow2(j)) }

  lemma BackoffDoubles(r: Duration, j: nat)
    ensures Wrap(Backoff(r, j) as int * 2) == Backoff(r, j + 1)
  {
    WrapDoubles(r as int * Pow2(j));
    assert r as int * Pow2(j + 1) == r as int * Pow2(j) * 2;
  }

  // ----- pools

  datatype PoolConfig = PoolConfig(maxConns: int32, minConns: int32, lifetime: Duration, idleTime: Duration)

  class Pool {
    const cfg: PoolConfig
    var open: bool

    constructor (cfg: PoolConfig)
      ensures open && this.cfg == cfg
    {
      this.cfg := cfg;
      open := true;
    }

    method Close()
      modifies this
      ensures !open
    {
      open := false;
    }
  }

  /** One line of the log: logger.Warn after a failed attempt. */
  datatype Warning = Warning(attempt: int, maxAttempts: int64, nextBackoff: Duration)

  datatype ConnectError = Cancelled | Exhausted | BadConfig

  class Postgres {
    var settings: Settings
    var pool: Pool?
    var warnings: seq<Warning>
    var waits: seq<Duration>     // the waits that ran to their end
    ghost var built: set<Pool>  // every pool that was ever built

    constructor ()
      ensures settings == DEFAULTS && pool == null && warnings == [] && waits == [] && built == {}
    {
      settings := DEFAULTS;
      pool, warnings, waits, built := null, [], [], {};
    }

    /** Of all pools ever built, exactly `survivor` is still open, or none if it is null. */
    ghost predicate OnlyOpen(survivor: Pool?)
      reads this, built
    {
      && (forall p | p in built :: p.open <==> p == survivor)
      && (survivor != null ==> survivor in built)
    }

    /** tryConnect: a pool whose ping fails is closed again before the error is returned. */
    method TryConnect(cfg: PoolConfig, outcome: Attempt) returns (p: Pool?)
      requires OnlyOpen(null)
      modifies this`built
      ensures OnlyOpen(p)
      ensures p != null <==> outcome.Connects?
      ensures p != null ==> p.cfg == cfg && fresh(p)
      ensures fresh(built - old(built)) && old(built) <= built
    {
      if outcome.NewFails? { return null; }
      var candidate := new Pool(cfg);
      built := built + {candidate};
      if outcome.PingFails? {
        candidate.Close();
        return null;
      }
      return candidate;
    }

    /** connectWithRetry. With `k` the final attempt: the pool is returned exactly if that attempt
        succeeded; there is one warning per failed attempt, announcing its backoff, and one completed
        wait between two attempts; and no pool but the returned one is left open. */
    method ConnectWithRetry(cfg: PoolConfig, w: Weather) returns (p: Pool?, err: Option<ConnectError>)
      requires OnlyOpen(null) && warnings == [] && waits == []
      modifies this`built, this`warnings, this`waits
      ensures OnlyOpen(p) && (p != null <==> err == None) && (p != null ==> p.cfg == cfg)
      ensures settings.connAttempts <= 0 ==> err == Some(Exhausted) && warnings == [] && waits == []
      ensures settings.connAttempts >= 1 ==>
                var n := settings.connAttempts as int;
                var k := Final(w, n, 1);
                && (p != null <==> w.attempt(k).Connects?)
                && (err == Some(Cancelled) <==> !w.attempt(k).Connects? && k < n)
                && (err == Some(Exhausted) <==> !w.attempt(k).Connects? && k == n)
                && |warnings| == (if p != null then k - 1 else k)
                && (forall j | 0 <= j < |warnings| ::
                      warnings[j] == Warning(j + 1, settings.connAttempts, Backoff(settings.retryBackoff, j)))
                && |waits| == k - 1
                && (forall j | 0 <= j < |waits| :: waits[j] == Backoff(settings.retryBackoff, j))
    {
      var backoff := settings.retryBackoff;
      var n := settings.connAttempts as int;
      assert backoff == Backoff(settings.retryBackoff, 0);
      var attempt := 1;
      while attempt <= n
        invariant 1 <= attempt && (attempt <= n || attempt == 1)
        invariant OnlyOpen(null) && fresh(built - old(built))
        invariant n >= 1 ==> Final(w, n, 1) == Final(w, n, attempt)
        invariant backoff == Backoff(settings.retryBackoff, attempt - 1)
        invariant |warnings| == |waits| == attempt - 1
        invariant forall j | 0 <= j < attempt - 1 ::
                    && warnings[j] == Warning(j + 1, settings.connAttempts, Backoff(settings.retryBackoff, j))
                    && waits[j] == Backoff(settings.retryBackoff, j)
        decreases n - attempt
      {
        p := TryConnect(cfg, w.attempt(attempt));
        if p != null { return p, None; }
        warnings := warnings + [Warning(attempt, settings.connAttempts, backoff)];
        if attempt == n { break; }
        if !w.elapses(attempt) { return null, Some(Cancelled); }
        waits := waits + [backoff];
        BackoffDoubles(settings.retryBackoff, attempt - 1);
        backoff := Wrap(backoff as int * 2);
        attempt := attempt + 1;
      }
      return null, Some(Exhausted);
    }

    /** The loop of New over its options. */
    method ApplyOptions(opts: seq<PoolOption>)
      requires settings == DEFAULTS
      modifies this`settings
      ensures settings == Configured(opts)
    {
      for i := 0 to |opts|
        invariant settings == Configured(opts[..i])
      {
        assert opts[..i + 1][..i] == opts[..i];
        settings := Apply(settings, opts[i]);
      }
      assert opts[..|opts|] == opts;
    }
  }

  /** New: whatever the options, the pool is never configured with more idle connections than
      connections. `trial` is the object that the options were applied to; it is returned if it has
      a pool, and otherwise no pool that was built for it is still open. */
  method New(urlIsValid: bool, opts: seq<PoolOption>, w: Weather)
    returns (pg: Postgres?, err: Option<ConnectError>, ghost trial: Postgres)
    ensures fresh(trial) && trial.OnlyOpen(trial.pool)
    ensures pg == if err == None then trial else null
    ensures trial.pool != null <==> err == None
    ensures !urlIsValid ==> err == Some(BadConfig) && trial.warnings == []
    ensures urlIsValid ==>
              var s := Configured(opts);
              && trial.settings == s.(minConns := if s.minConns > s.maxConns then s.maxConns else s.minConns)
              && trial.settings.minConns <= trial.settings.maxConns
              && (trial.pool != null ==>
                    trial.pool.cfg
                    == PoolConfig(s.maxConns, trial.settings.minConns, s.maxConnLifetime, s.maxConnIdleTime))
              && (s.connAttempts >= 1 ==>
                    (err == None <==> w.attempt(Final(w, s.connAttempts as int, 1)).Connects?))
              && (s.connAttempts <= 0 ==> err == Some(Exhausted))
    ensures trial.pool != null ==> forall i: nat | IsLast(opts, i) ::
              var limits := trial.pool.cfg;
              match opts[i]
              case MaxConns(n) => limits.maxConns == n
              case MinConns(n) => limits.minConns == if n > limits.maxConns then limits.maxConns else n
              case MaxConnLifetime(d) => limits.lifetime == d
              case MaxConnIdleTime(d) => limits.idleTime == d
              case _ => true
    ensures trial.pool != null ==>
              var limits := trial.pool.cfg;
              && (IsUnset(opts, MaxConns(0)) ==> limits.maxConns == 25)
              && (IsUnset(opts, MinConns(0)) ==>
                    limits.minConns == if 5 > limits.maxConns then limits.maxConns else 5)
              && (IsUnset(opts, MaxConnLifetime(0)) ==> limits.lifetime == 3_600_000_000_000)
              && (IsUnset(opts, MaxConnIdleTime(0)) ==> limits.idleTime == 1_800_000_000_000)
  {
    var self := new Postgres();
    trial := self;
    self.ApplyOptions(opts);
    forall i: nat | IsLast(opts, i) { LastOptionWins(opts, i); }
    forall o | IsUnset(opts, o) { DefaultsStay(opts, o); }
    hide IsLast, IsUnset, Configured;
    if !urlIsValid { return null, Some(BadConfig), trial; }
    if self.settings.minConns > self.settings.maxConns {
      self.settings := self.settings.(minConns := self.settings.maxConns);
    }
    var s := self.settings;
    var pool: Pool?;
    pool, err := self.ConnectWithRetry(PoolConfig(s.maxConns, s.minConns, s.maxConnLifetime, s.maxConnIdleTime), w);
    self.pool := pool;
    pg := if pool == null then null else self;
  }

  // ----- arithmetic of the backoff

  lemma Pow2Grows(j: nat, k: nat)
    requires j <= k
    ensures Pow2(j) <= Pow2(k)
  {
  }

  /** The first `k` waits are exactly r, 2r, 4r, ... if and only if the last of them fits in a
      Duration. */
  lemma WaitsAreExact(r: Duration, k: nat)
    requires k >= 1
    ensures (forall j: nat | j < k :: Backoff(r, j) as int == r as int * Pow2(j))
            <==> MIN_INT64 as int <= r as int * Pow2(k - 1) <= MAX_INT64 as int
  {
    WrapIsExact(r as int * Pow2(k - 1));
    if MIN_INT64 as int <= r as int * Pow2(k - 1) <= MAX_INT64 as int {
      forall j: nat | j < k ensures Backoff(r, j) as int == r as int * Pow2(j) {
        Pow2Grows(j, k - 1);
        SmallerFactor(r as int, Pow2(j), Pow2(k - 1));
        WrapIsExact(r as int * Pow2(j));
      }
    }
  }

  lemma SmallerFactor(r: int, p: nat, q: nat)
    requires p <= q
    ensures r >= 0 ==> 0 <= r * p <= r * q
    ensures r <= 0 ==> r * q <= r * p <= 0
  {
    assert r * q == r * p + r * (q - p);
  }

  function SumOf(waits: seq<Duration>): int {
    if waits == [] then 0 else SumOf(waits[..|waits| - 1]) + waits[|waits| - 1] as int
  }

  /** As long as they are exact, `k` waits take r(2^k - 1) together. */
  lemma {:induction false} WaitsAddUp(r: Duration, waits: seq<Duration>)
    requires forall j | 0 <= j < |waits| :: waits[j] as int == r as int * Pow2(j)
    ensures SumOf(waits) == r as int * (Pow2(|waits|) - 1)
  {
    if waits != [] {
      var k := |waits| - 1;
      WaitsAddUp(r, waits[..k]);
      assert r as int * (Pow2(k + 1) - 1) == r as int * (Pow2(k) - 1) + r as int * Pow2(k);
    }
  }

  /** Under the default settings, the waits that ConnectWithRetry leaves behind are the first of 1, 2, 4
      and 8 seconds, and take 15 seconds at most. */
  lemma DefaultBackoff(w: Weather, waits: seq<Duration>)
    requires |waits| == Final(w, DEFAULTS.connAttempts as int, 1) - 1
    requires forall j | 0 <= j < |waits| :: waits[j] == Backoff(DEFAULTS.retryBackoff, j)
    ensures waits <= [SECOND, 2 * SECOND, 4 * SECOND, 8 * SECOND]
    ensures SumOf(waits) == SECOND as int * (Pow2(|waits|) - 1) <= 15 * SECOND as int
  {
    assert Pow2(1) == 2 && Pow2(2) == 4 && Pow2(3) == 8 && Pow2(4) == 16;
    FinalIsFirst(w, DEFAULTS.connAttempts as int, 1);
    WaitsAreExact(SECOND, 4);
    WaitsAddUp(SECOND, waits);
    Pow2Grows(|waits|, 4);
  }
}

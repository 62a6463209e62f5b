/** internal/config: the validated configuration. Durations and integers are unbounded here;
    validation only compares them with constants. */
module Configuration {
  import opened Wrappers
  import opened Text

  // ---------- values ----------

  datatype ServerConfig = ServerConfig(host: string, port: int, readTimeout: int, writeTimeout: int,
    idleTimeout: int, gracefulShutdownTimeout: int, readHeaderTimeout: int, maxHeaderBytes: int,
    requestTimeout: int)
  datatype ReloadConfig = ReloadConfig(sources: seq<string>, debounceMs: int)
  datatype WorkerPoolConfig = WorkerPoolConfig(size: int, queueSize: int)
  datatype RateLimiterConfig = RateLimiterConfig(enabled: bool, requestsPerSecond: int, burst: int)
  datatype CircuitBreakerConfig = CircuitBreakerConfig(enabled: bool, maxRequests: int, interval: int, timeout: int)
  datatype MetricsConfig = MetricsConfig(enabled: bool, path: string)
  datatype LogConfig = LogConfig(level: string, format: string)

  /** A configuration by value. */
  datatype ConfigData = ConfigData(server: ServerConfig, workerPool: WorkerPoolConfig,
    rateLimiter: RateLimiterConfig, circuitBreaker: CircuitBreakerConfig, metrics: MetricsConfig,
    reload: ReloadConfig, log: LogConfig)

  // ---------- what validity means ----------

  /** One rule for each way Validate can fail, in the order it looks. */
  datatype Rule =
    | Host | Port | ReadTimeout | WriteTimeout | IdleTimeout | GracefulShutdownTimeout
    | ReadHeaderTimeout | MaxHeaderBytes | RequestTimeout | DebounceMs | Sources
    | PoolSize | PoolQueue | LimiterRate | LimiterBurst
    | BreakerRequests | BreakerInterval | BreakerTimeout | LogLevel | LogFormat | MetricsPath

  function Rank(r: Rule): nat {
    match r
    case Host => 0 case Port => 1 case ReadTimeout => 2 case WriteTimeout => 3 case IdleTimeout => 4
    case GracefulShutdownTimeout => 5 case ReadHeaderTimeout => 6 case MaxHeaderBytes => 7
    case RequestTimeout => 8 case DebounceMs => 9 case Sources => 10 case PoolSize => 11
    case PoolQueue => 12 case LimiterRate => 13 case LimiterBurst => 14 case BreakerRequests => 15
    case BreakerInterval => 16 case BreakerTimeout => 17 case LogLevel => 18 case LogFormat => 19
    case MetricsPath => 20
  }

  const LEVELS: set<string> := {"debug", "info", "warn", "error"}
  const FORMATS: set<string> := {"json", "console"}

  /** The rule itself, as the documentation of Validate lists it. */
  ghost predicate Holds(r: Rule, c: ConfigData) {
    match r
    case Host => !Blank(c.server.host)
    case Port => 1 <= c.server.port <= 65535
    case ReadTimeout => c.server.readTimeout > 0
    case WriteTimeout => c.server.writeTimeout > 0
    case IdleTimeout => c.server.idleTimeout > 0
    case GracefulShutdownTimeout => c.server.gracefulShutdownTimeout > 0
    case ReadHeaderTimeout => c.server.readHeaderTimeout > 0
    case MaxHeaderBytes => c.server.maxHeaderBytes > 0
    case RequestTimeout => c.server.requestTimeout > 0
    case DebounceMs => c.reload.debounceMs >= 0
    case Sources => CleanSources(c.reload.sources)
    case PoolSize => c.workerPool.size > 0
    case PoolQueue => c.workerPool.queueSize >= 0
    case LimiterRate => c.rateLimiter.enabled ==> c.rateLimiter.requestsPerSecond > 0
    case LimiterBurst => c.rateLimiter.enabled ==> c.rateLimiter.burst > 0
    case BreakerRequests => c.circuitBreaker.enabled ==> c.circuitBreaker.maxRequests > 0
    case BreakerInterval => c.circuitBreaker.enabled ==> c.circuitBreaker.interval > 0
    case BreakerTimeout => c.circuitBreaker.enabled ==> c.circuitBreaker.timeout > 0
    case LogLevel => Normalise(c.log.level) in LEVELS
    case LogFormat => Normalise(c.log.format) in FORMATS
    case MetricsPath => c.metrics.enabled ==> c.metrics.path != [] && c.metrics.path[0] == '/'
  }

  /** No element blank, no two elements equal. */
  ghost predicate CleanSources(s: seq<string>) {
    (forall i :: 0 <= i < |s| ==> !Blank(s[i])) && Distinct(s)
  }

  ghost predicate Acceptable(c: ConfigData) {
    forall r: Rule :: Holds(r, c)
  }

  /** r is the first rule broken. */
  ghost predicate FirstBroken(r: Rule, c: ConfigData) {
    !Holds(r, c) && forall q: Rule :: Rank(q) < Rank(r) ==> Holds(q, c)
  }

  /** The first k rules hold. */
  ghost predicate UpTo(k: nat, c: ConfigData) {
    forall q: Rule :: Rank(q) < k ==> Holds(q, c)
  }

  lemma Passed(r: Rule, c: ConfigData)
    requires UpTo(Rank(r), c) && Holds(r, c)
    ensures UpTo(Rank(r) + 1, c)
  {
    hide Holds;
    forall q: Rule | Rank(q) == Rank(r) ensures q == r {}
  }

  lemma NothingYet(c: ConfigData)
    ensures UpTo(0, c)
  {}

  lemma Refused(r: Rule, c: ConfigData)
    requires UpTo(Rank(r), c) && !Holds(r, c)
    ensures FirstBroken(r, c) && !Acceptable(c)
  {}

  lemma AllPassed(c: ConfigData)
    requires UpTo(21, c)
    ensures Acceptable(c)
  {
    hide Holds;
  }

  function Normalised(c: ConfigData): ConfigData {
    c.(log := LogConfig(Normalise(c.log.level), Normalise(c.log.format)))
  }

  /** Normalising changes no rule's verdict, so Validate called again on what it stored gives
      the same answer and stores the same thing. */
  lemma NormalisingKeepsVerdict(c: ConfigData)
    ensures Normalised(Normalised(c)) == Normalised(c)
    ensures forall r: Rule :: Holds(r, Normalised(c)) <==> Holds(r, c)
    ensures Acceptable(Normalised(c)) <==> Acceptable(c)
    ensures forall r: Rule :: FirstBroken(r, Normalised(c)) <==> FirstBroken(r, c)
  {
    hide Normalise, Blank, CleanSources;
    NormaliseIdempotent(c.log.level);
    NormaliseIdempotent(c.log.format);
  }

  /** Some configuration with this debounce_ms is acceptable. */
  lemma AnAcceptable(debounceMs: int) returns (c: ConfigData)
    requires debounceMs >= 0
    ensures Acceptable(c) && c.reload.debounceMs == debounceMs
  {
    hide Acceptable, Normalise, Blank, CleanSources;
    var one: int :| 0 < one < 65536;
    var host, level, format := "a", "info", "json";
    NotBlank(host);
    PlainWord(level);
    PlainWord(format);
    NoSources();
    var server := ServerConfig(host, one, one, one, one, one, one, one, one);
    c := ConfigData(server, WorkerPoolConfig(one, one), RateLimiterConfig(false, one, one),
                    CircuitBreakerConfig(false, one, one, one), MetricsConfig(false, host),
                    ReloadConfig([], debounceMs), LogConfig(level, format));
    PlainIsAcceptable(c);
  }

  lemma PlainIsAcceptable(c: ConfigData)
    requires forall r: Rule :: Rank(r) < 9 ==> Holds(r, c)
    requires c.reload.debounceMs >= 0 && CleanSources(c.reload.sources)
    requires c.workerPool.size > 0 && c.workerPool.queueSize >= 0
    requires !c.rateLimiter.enabled && !c.circuitBreaker.enabled && !c.metrics.enabled
    requires Normalise(c.log.level) in LEVELS && Normalise(c.log.format) in FORMATS
    ensures Acceptable(c)
  {
    hide Normalise, Blank, CleanSources;
  }

  lemma NotBlank(host: string)
    requires host != [] && 'a' <= host[0] <= 'z'
    ensures !Blank(host)
  {}

  lemma NoSources()
    ensures CleanSources([])
  {}

  lemma PlainWord(w: string)
    requires forall i :: 0 <= i < |w| ==> 'a' <= w[i] <= 'z'
    ensures Normalise(w) == w
  {
    assert TrimLeft(w) == w && TrimRight(w) == w;
    assert ToLower(w) == w;
  }

  // ---------- validateReload ----------

  datatype ReloadError = NegativeDebounce | BlankSource(index: nat) | DuplicateSource(index: nat)

  lemma CleanPrefix(s: seq<string>, i: nat)
    requires i < |s|
    ensures CleanSources(s) ==> CleanSources(s[..i + 1])
    ensures CleanSources(s[..i + 1]) <==> CleanSources(s[..i]) && !Blank(s[i]) && s[i] !in s[..i]
    ensures Elems(s[..i + 1]) == Elems(s[..i]) + {s[i]}
  {
    hide Blank;
    assert s[..i + 1] == s[..i] + [s[i]];
    forall j | 0 <= j < i ensures s[..i + 1][j] == s[..i][j] {}
  }

  /** The loop over sources with its map of elements seen: it accepts exactly the clean lists,
      and otherwise reports the first element that is blank or repeats an earlier one. */
  method ValidateReload(rc: ReloadConfig) returns (err: Option<ReloadError>)
    ensures err.None? <==> rc.debounceMs >= 0 && CleanSources(rc.sources)
    ensures err == Some(NegativeDebounce) <==> rc.debounceMs < 0
    ensures err.Some? && !err.value.NegativeDebounce? ==>
      var i := err.value.index;
      i < |rc.sources| && CleanSources(rc.sources[..i])
      && (err.value.BlankSource? <==> Blank(rc.sources[i]))
      && (err.value.DuplicateSource? ==> rc.sources[i] in rc.sources[..i])
  {
    hide TrimSpace, Blank;
    if rc.debounceMs < 0 {
      return Some(NegativeDebounce);
    }
    var seen: set<string> := {};
    for i := 0 to |rc.sources|
      invariant CleanSources(rc.sources[..i])
      invariant seen == Elems(rc.sources[..i])
    {
      var s := rc.sources[i];
      BlankIffTrimsToNothing(s);
      CleanPrefix(rc.sources, i);
      if TrimSpace(s) == "" {
        return Some(BlankSource(i));
      }
      if s in seen {
        return Some(DuplicateSource(i));
      }
      seen := seen + {s};
    }
    assert rc.sources[..|rc.sources|] == rc.sources;
    err := None;
  }

  // ---------- Validate ----------

  predicate IsValidLogLevel(level: string) {
    level == "debug" || level == "info" || level == "warn" || level == "error"
  }

  predicate IsValidLogFormat(format: string) {
    format == "json" || format == "console"
  }

  /** The two switch predicates say what the log rules say. */
  lemma LogRules(c: ConfigData)
    ensures Holds(LogLevel, c) <==> IsValidLogLevel(Normalise(c.log.level))
    ensures Holds(LogFormat, c) <==> IsValidLogFormat(Normalise(c.log.format))
  {
    hide Normalise;
  }

  /** The log rules hold exactly for the words themselves, in any case and with any white space
      around them; and what is stored then is the word. */
  lemma LogWordsInAnySpelling(c: ConfigData)
    ensures Holds(LogLevel, c) <==> exists w :: w in LEVELS && IsSpelling(c.log.level, w)
    ensures Holds(LogFormat, c) <==> exists w :: w in FORMATS && IsSpelling(c.log.format, w)
    ensures forall w :: w in LEVELS && IsSpelling(c.log.level, w) ==> Normalised(c).log.level == w
    ensures forall w :: w in FORMATS && IsSpelling(c.log.format, w) ==> Normalised(c).log.format == w
  {
    hide Normalise, IsSpelling;
    forall w | w in LEVELS ensures Normalise(c.log.level) == w <==> IsSpelling(c.log.level, w) {
      NormalisesTo(c.log.level, w);
    }
    forall w | w in FORMATS ensures Normalise(c.log.format) == w <==> IsSpelling(c.log.format, w) {
      NormalisesTo(c.log.format, w);
    }
  }

  class Config {
    var server: ServerConfig
    var workerPool: WorkerPoolConfig
    var rateLimiter: RateLimiterConfig
    var circuitBreaker: CircuitBreakerConfig
    var metrics: MetricsConfig
    var reload: ReloadConfig
    var log: LogConfig

    function Data(): ConfigData
      reads this
    {
      ConfigData(server, workerPool, rateLimiter, circuitBreaker, metrics, reload, log)
    }

    constructor (d: ConfigData)
      ensures Data() == d
    {
      server, workerPool, rateLimiter := d.server, d.workerPool, d.rateLimiter;
      circuitBreaker, metrics, reload, log := d.circuitBreaker, d.metrics, d.reload, d.log;
    }

    /** The checks of Validate up to the request timeout. */
    method CheckServer() returns (err: Option<Rule>)
      ensures err.None? ==> UpTo(9, Data())
      ensures err.Some? ==> FirstBroken(err.value, Data()) && !Acceptable(Data()) && !err.value.MetricsPath?
    {
      hide UpTo, FirstBroken, Acceptable, CleanSources, TrimSpace, Normalise, Blank;
      ghost var c := Data();
      NothingYet(c);
      BlankIffTrimsToNothing(server.host);
      if TrimSpace(server.host) == "" { Refused(Host, c); return Some(Host); }
      Passed(Host, c);
      if server.port < 1 || server.port > 65535 { Refused(Port, c); return Some(Port); }
      Passed(Port, c);
      if server.readTimeout <= 0 { Refused(ReadTimeout, c); return Some(ReadTimeout); }
      Passed(ReadTimeout, c);
      if server.writeTimeout <= 0 { Refused(WriteTimeout, c); return Some(WriteTimeout); }
      Passed(WriteTimeout, c);
      if server.idleTimeout <= 0 { Refused(IdleTimeout, c); return Some(IdleTimeout); }
      Passed(IdleTimeout, c);
      if server.gracefulShutdownTimeout <= 0 { Refused(GracefulShutdownTimeout, c); return Some(GracefulShutdownTimeout); }
      Passed(GracefulShutdownTimeout, c);
      if server.readHeaderTimeout <= 0 { Refused(ReadHeaderTimeout, c); return Some(ReadHeaderTimeout); }
      Passed(ReadHeaderTimeout, c);
      if server.maxHeaderBytes <= 0 { Refused(MaxHeaderBytes, c); return Some(MaxHeaderBytes); }
      Passed(MaxHeaderBytes, c);
      if server.requestTimeout <= 0 { Refused(RequestTimeout, c); return Some(RequestTimeout); }
      Passed(RequestTimeout, c);
      return None;
    }

    /** The checks of Validate on the pool, limiter and breaker. */
    method CheckPools() returns (err: Option<Rule>)
      requires UpTo(11, Data())
      ensures err.None? ==> UpTo(18, Data())
      ensures err.Some? ==> FirstBroken(err.value, Data()) && !Acceptable(Data()) && !err.value.MetricsPath?
    {
      hide UpTo, FirstBroken, Acceptable, CleanSources, TrimSpace, Normalise, Blank;
      ghost var c := Data();
      if workerPool.size <= 0 { Refused(PoolSize, c); return Some(PoolSize); }
      Passed(PoolSize, c);
      if workerPool.queueSize < 0 { Refused(PoolQueue, c); return Some(PoolQueue); }
      Passed(PoolQueue, c);
      if rateLimiter.enabled {
        if rateLimiter.requestsPerSecond <= 0 { Refused(LimiterRate, c); return Some(LimiterRate); }
        Passed(LimiterRate, c);
        if rateLimiter.burst <= 0 { Refused(LimiterBurst, c); return Some(LimiterBurst); }
      } else {
        Passed(LimiterRate, c);
      }
      Passed(LimiterBurst, c);
      if circuitBreaker.enabled {
        if circuitBreaker.maxRequests <= 0 { Refused(BreakerRequests, c); return Some(BreakerRequests); }
        Passed(BreakerRequests, c);
        if circuitBreaker.interval <= 0 { Refused(BreakerInterval, c); return Some(BreakerInterval); }
        Passed(BreakerInterval, c);
        if circuitBreaker.timeout <= 0 { Refused(BreakerTimeout, c); return Some(BreakerTimeout); }
      } else {
        Passed(BreakerRequests, c);
        Passed(BreakerInterval, c);
      }
      Passed(BreakerTimeout, c);
      return None;
    }

    /** Validate succeeds exactly on the acceptable configurations and otherwise names the
        first broken rule. It stores the normalised log fields before its last check, so they
        are written on success and when only metrics.path is wrong; nothing else ever changes. */
    method Validate() returns (err: Option<Rule>)
      modifies this`log
      ensures err.None? <==> Acceptable(old(Data()))
      ensures err.Some? ==> FirstBroken(err.value, old(Data()))
      ensures Data() == if err.None? || err.value.MetricsPath? then Normalised(old(Data())) else old(Data())
    {
      hide UpTo, FirstBroken, Acceptable, CleanSources, TrimSpace, Normalise, Blank, IsValidLogLevel, IsValidLogFormat;
      LogRules(Data());
      ghost var c := Data();
      err := CheckServer();
      if err.Some? { return; }
      var reloadErr := ValidateReload(reload);
      if reload.debounceMs < 0 { Refused(DebounceMs, c); } else { Passed(DebounceMs, c); }
      if reloadErr.Some? {
        if reload.debounceMs >= 0 { Refused(Sources, c); }
        return Some(if reloadErr.value.NegativeDebounce? then DebounceMs else Sources);
      }
      Passed(Sources, c);
      err := CheckPools();
      if err.Some? { return; }
      var normLevel := Normalise(log.level);
      if !IsValidLogLevel(normLevel) { Refused(LogLevel, c); return Some(LogLevel); }
      Passed(LogLevel, c);
      var normFormat := Normalise(log.format);
      if !IsValidLogFormat(normFormat) { Refused(LogFormat, c); return Some(LogFormat); }
      Passed(LogFormat, c);
      log := LogConfig(normLevel, normFormat);
      if metrics.enabled && !("/" <= metrics.path) { Refused(MetricsPath, c); return Some(MetricsPath); }
      Passed(MetricsPath, c);
      AllPassed(c);
      return None;
    }
  }
}

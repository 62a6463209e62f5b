/** The three subscribers main registers, and the live values they write: the global log level,
    the request timeout, and the server's shutdown timeout. */
module Subscribers {
  import opened Wrappers
  import opened Configuration
  import ServerState

  datatype Level = Debug | Info | Warn | Error

  /** parseLevel: strict matching, so it relies on what Validate stored. */
  function ParseLevel(s: string): Option<Level> {
    if s == "debug" then Some(Debug)
    else if s == "info" then Some(Info)
    else if s == "warn" then Some(Warn)
    else if s == "error" then Some(Error)
    else None
  }

  /** The word for each level. */
  function Word(l: Level): string {
    match l
    case Debug => "debug"
    case Info => "info"
    case Warn => "warn"
    case Error => "error"
  }

  /** Parsing is the inverse of naming: each of the four words gives its own level, and nothing
      else gives any. */
  lemma ParseLevelInverse(s: string, l: Level)
    ensures ParseLevel(s) == Some(l) <==> s == Word(l)
    ensures ParseLevel(s).Some? <==> s in LEVELS
  {}

  /** zerolog's process-wide level, written by LevelSubscriber. */
  class GlobalLevel {
    var level: Level

    constructor (l: Level)
      ensures level == l
    {
      level := l;
    }

    method Apply(cfg: ConfigData) returns (ok: bool)
      modifies this
      ensures ok <==> cfg.log.level in LEVELS
      ensures ok ==> cfg.log.level == Word(level)
      ensures !ok ==> level == old(level)
    {
      var parsed := ParseLevel(cfg.log.level);
      if parsed.None? { return false; }
      level := parsed.value;
      return true;
    }
  }

  class RequestTimeoutConfig {
    var timeoutNanos: int

    constructor (d: int)
      ensures timeoutNanos == d
    {
      timeoutNanos := d;
    }

    /** NewRequestTimeoutConfig refuses a timeout that is not positive. */
    static method New(d: int) returns (c: RequestTimeoutConfig?)
      ensures c != null <==> d > 0
      ensures c != null ==> fresh(c) && c.timeoutNanos == d
    {
      if d <= 0 { return null; }
      c := new RequestTimeoutConfig(d);
    }

    method Apply(cfg: ConfigData) returns (ok: bool)
      modifies this
      ensures ok <==> cfg.server.requestTimeout > 0
      ensures timeoutNanos == if ok then cfg.server.requestTimeout else old(timeoutNanos)
    {
      var d := cfg.server.requestTimeout;
      if d <= 0 { return false; }
      timeoutNanos := d;
      return true;
    }
  }

  /** ServerSubscriber.Apply. */
  method ApplyShutdownTimeout(srv: ServerState.Server, cfg: ConfigData) returns (ok: bool)
    modifies srv`shutdownTimeoutNanos
    ensures ok <==> cfg.server.gracefulShutdownTimeout > 0
    ensures srv.shutdownTimeoutNanos ==
      if ok then cfg.server.gracefulShutdownTimeout else old(srv.shutdownTimeoutNanos)
  {
    ok := srv.UpdateShutdownTimeout(cfg.server.gracefulShutdownTimeout);
  }

  // ---------- by value ----------

  /** A registered subscriber: one of main's three, or any other by its name. */
  datatype Subscriber = LevelSub | RequestTimeoutSub | ShutdownTimeoutSub | Foreign(name: string)

  function Name(s: Subscriber): string {
    match s
    case LevelSub => "log_level"
    case RequestTimeoutSub => "request_timeout"
    case ShutdownTimeoutSub => "graceful_shutdown_timeout"
    case Foreign(name) => name
  }

  function Names(subs: seq<Subscriber>): (r: seq<string>)
    ensures |r| == |subs| && forall i :: 0 <= i < |subs| ==> r[i] == Name(subs[i])
  {
    seq(|subs|, i requires 0 <= i < |subs| => Name(subs[i]))
  }

  /** What main's subscribers need of a configuration. */
  predicate Takes(s: Subscriber, cfg: ConfigData)
    requires !s.Foreign?
  {
    match s
    case LevelSub => cfg.log.level in LEVELS
    case RequestTimeoutSub => cfg.server.requestTimeout > 0
    case ShutdownTimeoutSub => cfg.server.gracefulShutdownTimeout > 0
  }

  /** How an Apply ends. A foreign subscriber says what it likes, each time anew. */
  predicate Accepts(s: Subscriber, cfg: ConfigData, says: bool) {
    if s.Foreign? then says else Takes(s, cfg)
  }

  datatype Live = Live(level: Level, requestTimeout: int, shutdownTimeout: int)

  /** The live values a configuration asks for. */
  function Wanted(cfg: ConfigData): (live: Live)
    ensures cfg.log.level in LEVELS ==> cfg.log.level == Word(live.level)
  {
    var parsed := ParseLevel(cfg.log.level);
    Live(if parsed.Some? then parsed.value else Info, cfg.server.requestTimeout, cfg.server.gracefulShutdownTimeout)
  }

  /** Validation is what every Apply of main's subscribers needs: an acceptable configuration,
      as Validate stores it, is accepted by all three. */
  lemma ValidatedIsAccepted(cfg: ConfigData)
    requires Acceptable(cfg)
    ensures Takes(LevelSub, Normalised(cfg)) && Takes(RequestTimeoutSub, Normalised(cfg))
    ensures Takes(ShutdownTimeoutSub, Normalised(cfg))
    ensures Wanted(Normalised(cfg)).requestTimeout > 0 && Wanted(Normalised(cfg)).shutdownTimeout > 0
  {
    assert Holds(LogLevel, cfg) && Holds(RequestTimeout, cfg) && Holds(GracefulShutdownTimeout, cfg);
  }
}

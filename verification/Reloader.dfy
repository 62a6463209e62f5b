/** The sequential part of internal/reload: construction, registration, the source snapshot,
    the restart-required comparison, and doReload with its dispatch loop. */
module ReloaderObject {
  import opened Wrappers
  import opened Text
  import opened Configuration
  import opened Subscribers
  import Protocol = ReloadProtocol
  import ServerState

  // ---------- sources ----------

  /** equalSources: copies sorted and compared element by element, which decides equality as
      multisets. */
  method EqualSources(a: seq<string>, b: seq<string>) returns (equal: bool)
    ensures equal <==> multiset(a) == multiset(b)
  {
    assert |a| == |multiset(a)| && |b| == |multiset(b)|;
    if |a| != |b| { return false; }
    var ac, bc := SortStrings(a), SortStrings(b);
    assert |ac| == |multiset(ac)| && |bc| == |multiset(bc)|;
    SortStringsSorts(a);
    SortStringsSorts(b);
    for i := 0 to |ac|
      invariant ac[..i] == bc[..i]
    {
      if ac[i] != bc[i] {
        if multiset(a) == multiset(b) { SortedUnique(ac, bc); }
        return false;
      }
    }
    assert ac == ac[..|ac|] == bc[..|bc|] == bc;
    return true;
  }

  /** On lists without repetition, which Validate guarantees, that is equality as sets. */
  lemma EqualSourcesAsSets(a: seq<string>, b: seq<string>)
    requires CleanSources(a) && CleanSources(b)
    ensures multiset(a) == multiset(b) <==> Elems(a) == Elems(b)
  {
    DistinctMultiset(a);
    DistinctMultiset(b);
    if multiset(a) == multiset(b) { SameElems(a, b); }
  }

  // ---------- restart-required fields ----------

  datatype Field =
    | HostField | PortField | ReadTimeoutField | WriteTimeoutField | IdleTimeoutField
    | ReadHeaderTimeoutField | MaxHeaderBytesField | LogFormatField | SourcesField | DebounceField

  const FIELDS: seq<Field> := [
    HostField, PortField, ReadTimeoutField, WriteTimeoutField, IdleTimeoutField,
    ReadHeaderTimeoutField, MaxHeaderBytesField, LogFormatField, SourcesField, DebounceField]

  ghost predicate Differs(f: Field, b: ConfigData, n: ConfigData) {
    match f
    case HostField => b.server.host != n.server.host
    case PortField => b.server.port != n.server.port
    case ReadTimeoutField => b.server.readTimeout != n.server.readTimeout
    case WriteTimeoutField => b.server.writeTimeout != n.server.writeTimeout
    case IdleTimeoutField => b.server.idleTimeout != n.server.idleTimeout
    case ReadHeaderTimeoutField => b.server.readHeaderTimeout != n.server.readHeaderTimeout
    case MaxHeaderBytesField => b.server.maxHeaderBytes != n.server.maxHeaderBytes
    case LogFormatField => b.log.format != n.log.format
    case SourcesField => multiset(b.reload.sources) != multiset(n.reload.sources)
    case DebounceField => b.reload.debounceMs != n.reload.debounceMs
  }

  /** The fields among the first k that differ, in their order. */
  ghost function Changed(k: nat, b: ConfigData, n: ConfigData): seq<Field>
    requires k <= |FIELDS|
  {
    if k == 0 then []
    else Changed(k - 1, b, n) + (if Differs(FIELDS[k - 1], b, n) then [FIELDS[k - 1]] else [])
  }

  lemma NoField(b: ConfigData, n: ConfigData)
    ensures Changed(0, b, n) == []
  {}

  /** f is the k-th field compared. */
  predicate FieldAt(k: nat, f: Field) {
    0 < k <= |FIELDS| && FIELDS[k - 1] == f
  }

  lemma FieldOrder()
    ensures |FIELDS| == 10
    ensures FieldAt(1, HostField) && FieldAt(2, PortField) && FieldAt(3, ReadTimeoutField)
    ensures FieldAt(4, WriteTimeoutField) && FieldAt(5, IdleTimeoutField) && FieldAt(6, ReadHeaderTimeoutField)
    ensures FieldAt(7, MaxHeaderBytesField) && FieldAt(8, LogFormatField) && FieldAt(9, SourcesField)
    ensures FieldAt(10, DebounceField)
  {}

  lemma FieldStep(k: nat, f: Field, b: ConfigData, n: ConfigData)
    requires FieldAt(k, f)
    ensures Changed(k, b, n) == Changed(k - 1, b, n) + (if Differs(f, b, n) then [f] else [])
  {}

  lemma {:induction false} ChangedMembers(k: nat, b: ConfigData, n: ConfigData)
    requires k <= |FIELDS|
    ensures forall f :: f in Changed(k, b, n) <==> f in FIELDS[..k] && Differs(f, b, n)
  {
    hide Differs;
    if k > 0 {
      ChangedMembers(k - 1, b, n);
      assert FIELDS[..k] == FIELDS[..k - 1] + [FIELDS[k - 1]];
    }
  }

  lemma EveryField(f: Field)
    ensures f in FIELDS
  {
    var i := match f
      case HostField => 0 case PortField => 1 case ReadTimeoutField => 2 case WriteTimeoutField => 3
      case IdleTimeoutField => 4 case ReadHeaderTimeoutField => 5 case MaxHeaderBytesField => 6
      case LogFormatField => 7 case SourcesField => 8 case DebounceField => 9;
    assert FIELDS[i] == f;
  }

  /** The warning lists exactly the restart-required fields that differ; there is none exactly
      if all ten agree, sources up to order. */
  lemma WarningIsExact(b: ConfigData, n: ConfigData)
    ensures forall f :: f in Changed(10, b, n) <==> Differs(f, b, n)
    ensures Changed(10, b, n) == [] <==> forall f :: !Differs(f, b, n)
  {
    hide Differs;
    ChangedMembers(10, b, n);
    assert FIELDS[..10] == FIELDS;
    forall f ensures f in FIELDS { EveryField(f); }
    if Changed(10, b, n) != [] { assert Changed(10, b, n)[0] in Changed(10, b, n); }
  }

  /** n with the settings of b wherever a restart is needed to change them, sources aside. */
  function Restored(b: ConfigData, n: ConfigData): ConfigData {
    n.(server := b.server.(requestTimeout := n.server.requestTimeout,
                           gracefulShutdownTimeout := n.server.gracefulShutdownTimeout),
       log := b.log.(level := n.log.level),
       reload := b.reload.(sources := n.reload.sources))
  }

  /** There is no warning exactly where nothing changed but the log level, the two live timeouts,
      the pool, limiter, breaker and metrics settings, and the order of the sources. */
  lemma SilentChanges(b: ConfigData, n: ConfigData)
    ensures Changed(10, b, n) == [] <==>
      n == Restored(b, n) && multiset(n.reload.sources) == multiset(b.reload.sources)
  {
    hide Changed;
    WarningIsExact(b, n);
    if forall f :: !Differs(f, b, n) {
      assert !Differs(HostField, b, n) && !Differs(PortField, b, n) && !Differs(ReadTimeoutField, b, n);
      assert !Differs(WriteTimeoutField, b, n) && !Differs(IdleTimeoutField, b, n);
      assert !Differs(ReadHeaderTimeoutField, b, n) && !Differs(MaxHeaderBytesField, b, n);
      assert !Differs(LogFormatField, b, n) && !Differs(DebounceField, b, n) && !Differs(SourcesField, b, n);
    }
  }

  // ---------- dispatch, by value ----------

  datatype Call = Call(name: string, cfg: ConfigData)

  /** What subscriber i says in a dispatch, if it is foreign. */
  predicate Said(answers: seq<bool>, i: nat) {
    i < |answers| && answers[i]
  }

  /** The names of the subscribers that accept (or do not accept) cfg, in order. */
  ghost function Answering(subs: seq<Subscriber>, cfg: ConfigData, answers: seq<bool>, yes: bool): seq<string> {
    if subs == [] then []
    else
      var k := |subs| - 1;
      Answering(subs[..k], cfg, answers, yes) + Listed(subs[k], cfg, Said(answers, k), yes)
  }

  ghost function Listed(sub: Subscriber, cfg: ConfigData, says: bool, yes: bool): seq<string> {
    if Accepts(sub, cfg, says) == yes then [Name(sub)] else []
  }

  /** The live values after every subscriber was offered cfg: a value changes exactly if the
      subscriber that writes it is registered and accepts. */
  ghost function Settled(subs: seq<Subscriber>, cfg: ConfigData, live: Live): Live {
    var w := Wanted(cfg);
    Live(if LevelSub in subs && Takes(LevelSub, cfg) then w.level else live.level,
         if RequestTimeoutSub in subs && Takes(RequestTimeoutSub, cfg) then w.requestTimeout else live.requestTimeout,
         if ShutdownTimeoutSub in subs && Takes(ShutdownTimeoutSub, cfg) then w.shutdownTimeout else live.shutdownTimeout)
  }

  lemma AnsweringStep(subs: seq<Subscriber>, sub: Subscriber, cfg: ConfigData, answers: seq<bool>)
    ensures forall yes: bool ::
      Answering(subs + [sub], cfg, answers, yes)
      == Answering(subs, cfg, answers, yes) + Listed(sub, cfg, Said(answers, |subs|), yes)
  {
    assert (subs + [sub])[..|subs|] == subs;
  }

  lemma NoAnswers(cfg: ConfigData, answers: seq<bool>, live: Live)
    ensures Answering([], cfg, answers, true) == Answering([], cfg, answers, false) == []
    ensures Settled([], cfg, live) == live
  {}

  /** The calls are one Apply per subscriber, in order, all with the same configuration. */
  ghost predicate OfferedToAll(subs: seq<Subscriber>, cfg: ConfigData, calls: seq<Call>) {
    |calls| == |subs| && forall i :: 0 <= i < |subs| ==> calls[i] == Call(Name(subs[i]), cfg)
  }

  lemma SettledStep(subs: seq<Subscriber>, sub: Subscriber, cfg: ConfigData, live: Live)
    ensures Settled([sub], cfg, Settled(subs, cfg, live)) == Settled(subs + [sub], cfg, live)
  {}

  /** succeeded and failed together are the registered names, each as often as registered. */
  lemma {:induction false} AnswersPartition(subs: seq<Subscriber>, cfg: ConfigData, answers: seq<bool>)
    ensures multiset(Answering(subs, cfg, answers, true)) + multiset(Answering(subs, cfg, answers, false))
            == multiset(Names(subs))
  {
    hide Accepts, Name, Said, Listed;
    if subs != [] {
      var k := |subs| - 1;
      var last, says := subs[k], Said(answers, k);
      AnswersPartition(subs[..k], cfg, answers);
      ListedOnce(last, cfg, says);
      assert Names(subs) == Names(subs[..k]) + [Name(last)];
      Joined(Answering(subs[..k], cfg, answers, true), Listed(last, cfg, says, true),
             Answering(subs[..k], cfg, answers, false), Listed(last, cfg, says, false), Names(subs[..k]), Name(last));
    }
  }

  lemma ListedOnce(sub: Subscriber, cfg: ConfigData, says: bool)
    ensures multiset(Listed(sub, cfg, says, true)) + multiset(Listed(sub, cfg, says, false)) == multiset{Name(sub)}
  {}

  lemma Joined(a: seq<string>, x: seq<string>, b: seq<string>, y: seq<string>, all: seq<string>, n: string)
    requires multiset(a) + multiset(b) == multiset(all) && multiset(x) + multiset(y) == multiset{n}
    ensures multiset(a + x) + multiset(b + y) == multiset(all + [n])
  {
    assert multiset(a + x) + multiset(b + y) == multiset(a) + multiset(b) + (multiset(x) + multiset(y));
  }

  /** A registered subscriber with this name answered this way. */
  ghost predicate Answers(subs: seq<Subscriber>, cfg: ConfigData, answers: seq<bool>, yes: bool, n: string) {
    exists i :: 0 <= i < |subs| && Name(subs[i]) == n && Accepts(subs[i], cfg, Said(answers, i)) == yes
  }

  /** Each name is listed on the side its subscriber put it. */
  lemma {:induction false} AnsweringMembers(subs: seq<Subscriber>, cfg: ConfigData, answers: seq<bool>, yes: bool, n: string)
    ensures n in Answering(subs, cfg, answers, yes) <==> Answers(subs, cfg, answers, yes, n)
  {
    if subs != [] {
      var init, last := subs[..|subs| - 1], subs[|subs| - 1];
      AnsweringMembers(init, cfg, answers, yes, n);
      assert subs == init + [last];
      AnsweringStep(init, last, cfg, answers);
      AnswersStep(init, last, cfg, answers, yes, n);
    }
  }

  lemma AnswersStep(init: seq<Subscriber>, last: Subscriber, cfg: ConfigData, answers: seq<bool>, yes: bool, n: string)
    ensures Answers(init + [last], cfg, answers, yes, n) <==>
      Answers(init, cfg, answers, yes, n) || (Name(last) == n && Accepts(last, cfg, Said(answers, |init|)) == yes)
  {
    hide Name, Accepts, Said;
    var all := init + [last];
    if Answers(init, cfg, answers, yes, n) {
      var i :| 0 <= i < |init| && Name(init[i]) == n && Accepts(init[i], cfg, Said(answers, i)) == yes;
      assert all[i] == init[i];
    }
    assert all[|init|] == last;
  }

  // ---------- debounce ----------

  /** Two's complement int64. */
  function Int64(x: int): int {
    (x + 0x8000_0000_0000_0000) % 0x1_0000_0000_0000_0000 - 0x8000_0000_0000_0000
  }

  /** Wrap-around: the result fits 64 bits and differs by a multiple of 2 to the 64. */
  lemma Int64Wraps(x: int)
    ensures -0x8000_0000_0000_0000 <= Int64(x) < 0x8000_0000_0000_0000
    ensures (Int64(x) - x) % 0x1_0000_0000_0000_0000 == 0
  {}

  /** time.Duration(DebounceMs) * time.Millisecond. */
  function DebounceNanos(ms: int): int {
    Int64(ms * 1_000_000)
  }

  const MAX_DEBOUNCE_MS: int := 9_223_372_036_854

  /** Validate accepts every non-negative debounce_ms, but the window is that many milliseconds
      exactly up to MAX_DEBOUNCE_MS; beyond it the product wraps. */
  lemma DebounceWindow(ms: int)
    requires 0 <= ms < 0x8000_0000_0000_0000
    ensures DebounceNanos(ms) == ms * 1_000_000 <==> ms <= MAX_DEBOUNCE_MS
  {}

  /** One millisecond more, in a configuration that passes Validate, and the "long" window is
      negative: debounceWait does not wait. */
  lemma DebounceWraps()
    ensures exists cfg :: Acceptable(cfg) && cfg.reload.debounceMs == MAX_DEBOUNCE_MS + 1
                          && DebounceNanos(cfg.reload.debounceMs) < 0
  {
    var cfg := AnAcceptable(MAX_DEBOUNCE_MS + 1);
  }

  // ---------- the object ----------

  datatype RegisterResult = Ok | ErrAlreadyStarted | ErrInvalidSubscriber

  datatype Summary =
    | LoadFailed(sources: seq<string>)
    | ValidationFailed(sources: seq<string>, rule: Rule)
    | Applied(sources: seq<string>, changed: seq<Field>, calls: seq<Call>, succeeded: seq<string>, failed: seq<string>)

  predicate KnownSource(s: string) {
    s == "sighup" || s == "file"
  }

  /** The sources NewReloader accepts are those Start has a trigger for, each under its own name. */
  lemma KnownSources(s: string)
    ensures KnownSource(s) <==> exists k: Protocol.Kind :: s == Protocol.SourceName(k)
    ensures Protocol.SourceName(Protocol.Sighup) == "sighup" && Protocol.SourceName(Protocol.File) == "file"
  {
    if KnownSource(s) {
      assert s == Protocol.SourceName(Protocol.Sighup) || s == Protocol.SourceName(Protocol.File);
    }
  }

  class Reloader {
    const sources: seq<string>
    const debounce: int
    const bootCfg: ConfigData
    const level: GlobalLevel
    const requestTimeout: RequestTimeoutConfig
    const server: ServerState.Server
    var subscribers: seq<Subscriber>
    var subNames: set<string>
    var started: bool
    var stopped: bool
    var srcSet: set<string>
    var lastApplied: ConfigData

    ghost predicate Valid()
      reads this
    {
      && subNames == Elems(Names(subscribers))
      && Distinct(Names(subscribers)) && "" !in Names(subscribers)
    }

    function LiveNow(): Live
      reads level, requestTimeout, server
    {
      Live(level.level, requestTimeout.timeoutNanos, server.shutdownTimeoutNanos)
    }

    constructor (rc: ReloadConfig, boot: ConfigData, level: GlobalLevel, requestTimeout: RequestTimeoutConfig,
                 server: ServerState.Server)
      ensures Valid() && subscribers == [] && !started && !stopped && srcSet == {}
      ensures sources == rc.sources && debounce == DebounceNanos(rc.debounceMs)
      ensures bootCfg == lastApplied == boot
      ensures this.level == level && this.requestTimeout == requestTimeout && this.server == server
    {
      sources, debounce, bootCfg, lastApplied := rc.sources, DebounceNanos(rc.debounceMs), boot, boot;
      this.level, this.requestTimeout, this.server := level, requestTimeout, server;
      subscribers, subNames, started, stopped, srcSet := [], {}, false, false, {};
    }

    /** NewReloader: every source must be known, and the boot file must load and validate; its
        normalised content becomes both the restart baseline and the first record. */
    static method New(pathExists: bool, rc: ReloadConfig, boot: Config?, level: GlobalLevel,
                      requestTimeout: RequestTimeoutConfig, server: ServerState.Server)
        returns (r: Reloader?)
      modifies boot
      ensures r != null <==>
        pathExists && (forall i :: 0 <= i < |rc.sources| ==> KnownSource(rc.sources[i]))
        && boot != null && Acceptable(old(boot.Data()))
      ensures r != null ==> fresh(r) && r.Valid() && r.sources == rc.sources && r.subscribers == []
      ensures r != null ==> !r.started && !r.stopped
      ensures r != null ==> r.level == level && r.requestTimeout == requestTimeout && r.server == server
      ensures r != null ==> r.debounce == DebounceNanos(rc.debounceMs)
      ensures r != null ==> r.bootCfg == r.lastApplied == Normalised(old(boot.Data()))
    {
      if !pathExists { return null; }
      for i := 0 to |rc.sources|
        invariant forall j :: 0 <= j < i ==> KnownSource(rc.sources[j])
      {
        if !KnownSource(rc.sources[i]) { return null; }
      }
      if boot == null { return null; }
      var err := boot.Validate();
      if err.Some? {
        assert !Holds(err.value, old(boot.Data()));
        return null;
      }
      r := new Reloader(rc, boot.Data(), level, requestTimeout, server);
    }

    /** Register appends a subscriber, or refuses and changes nothing; the names move as in the
        protocol's Register step. */
    method Register(sub: Option<Subscriber>) returns (res: RegisterResult)
      requires Valid()
      modifies this`subscribers, this`subNames
      ensures Valid()
      ensures res.ErrAlreadyStarted? <==> started || stopped
      ensures res.Ok? ==> sub.Some? && Name(sub.value) !in Names(old(subscribers))
      ensures subscribers == if res.Ok? then old(subscribers) + [sub.value] else old(subscribers)
      ensures sub.Some? ==>
        Names(subscribers) == Protocol.Registered(started, stopped, Names(old(subscribers)), Name(sub.value))
    {
      if started || stopped { return ErrAlreadyStarted; }
      if sub.None? { return ErrInvalidSubscriber; }
      var name := Name(sub.value);
      if name == "" { return ErrInvalidSubscriber; }
      if name in subNames { return ErrInvalidSubscriber; }
      subNames := subNames + {name};
      subscribers := subscribers + [sub.value];
      assert Names(subscribers) == Names(old(subscribers)) + [name];
      return Ok;
    }

    /** snapshotSources: the set's elements, met in any order, sorted, and the set emptied. */
    method SnapshotSources() returns (out: seq<string>)
      modifies this`srcSet
      ensures srcSet == {} && out == SortedList(old(srcSet))
    {
      out := [];
      ghost var all := srcSet;
      var rest := srcSet;
      while rest != {}
        invariant Distinct(out) && Elems(out) + rest == all && Elems(out) !! rest
        decreases rest
      {
        var s :| s in rest;
        rest := rest - {s};
        assert Elems(out + [s]) == Elems(out) + {s};
        out := out + [s];
      }
      ghost var listed := out;
      assert Elems(listed) == all;
      srcSet := {};
      out := SortStrings(out);
      SortStringsSorts(listed);
      MultisetDistinct(listed, out);
      DistinctSortedIsStrict(out);
      SameElems(listed, out);
      SortedListUnique(out);
    }

    /** One comparison of warnRestartRequired. */
    method Compare(before: seq<Field>, k: nat, f: Field, differs: bool, n: ConfigData) returns (changed: seq<Field>)
      requires 0 < k <= 10 && FieldAt(k, f) && before == Changed(k - 1, bootCfg, n)
      requires differs <==> Differs(f, bootCfg, n)
      ensures changed == Changed(k, bootCfg, n)
    {
      FieldStep(k, f, bootCfg, n);
      changed := if differs then before + [f] else before;
    }

    /** warnRestartRequired: the list it logs. */
    method ChangedFields(n: ConfigData) returns (changed: seq<Field>)
      ensures changed == Changed(10, bootCfg, n)
    {
      hide Changed, FieldAt, FIELDS;
      var b := bootCfg;
      NoField(b, n);
      FieldOrder();
      changed := [];
      changed := Compare(changed, 1, HostField, b.server.host != n.server.host, n);
      changed := Compare(changed, 2, PortField, b.server.port != n.server.port, n);
      changed := Compare(changed, 3, ReadTimeoutField, b.server.readTimeout != n.server.readTimeout, n);
      changed := Compare(changed, 4, WriteTimeoutField, b.server.writeTimeout != n.server.writeTimeout, n);
      changed := Compare(changed, 5, IdleTimeoutField, b.server.idleTimeout != n.server.idleTimeout, n);
      changed := Compare(changed, 6, ReadHeaderTimeoutField, b.server.readHeaderTimeout != n.server.readHeaderTimeout, n);
      changed := Compare(changed, 7, MaxHeaderBytesField, b.server.maxHeaderBytes != n.server.maxHeaderBytes, n);
      changed := Compare(changed, 8, LogFormatField, b.log.format != n.log.format, n);
      var same := EqualSources(b.reload.sources, n.reload.sources);
      changed := Compare(changed, 9, SourcesField, !same, n);
      changed := Compare(changed, 10, DebounceField, b.reload.debounceMs != n.reload.debounceMs, n);
    }

    /** One subscriber's Apply; `says` is its answer if it is foreign. */
    method Offer(sub: Subscriber, cfg: ConfigData, says: bool) returns (ok: bool)
      modifies level, requestTimeout, server`shutdownTimeoutNanos
      ensures ok == Accepts(sub, cfg, says)
      ensures LiveNow() == Settled([sub], cfg, old(LiveNow()))
    {
      match sub
      case LevelSub => ok := level.Apply(cfg);
      case RequestTimeoutSub => ok := requestTimeout.Apply(cfg);
      case ShutdownTimeoutSub => ok := ApplyShutdownTimeout(server, cfg);
      case Foreign(_) => ok := says;
    }

    /** The dispatch loop: every subscriber is offered cfg once, in order of registration,
        whatever the others answer. `seen` has the live values in between. */
    method Dispatch(cfg: ConfigData, answers: seq<bool>)
        returns (calls: seq<Call>, succeeded: seq<string>, failed: seq<string>, ghost seen: seq<Live>)
      modifies level, requestTimeout, server`shutdownTimeoutNanos
      ensures OfferedToAll(subscribers, cfg, calls)
      ensures succeeded == Answering(subscribers, cfg, answers, true)
      ensures failed == Answering(subscribers, cfg, answers, false)
      ensures LiveNow() == Settled(subscribers, cfg, old(LiveNow()))
      ensures |seen| == |subscribers|
      ensures forall k :: 0 <= k < |seen| ==> seen[k] == Settled(subscribers[..k], cfg, old(LiveNow()))
    {
      hide Answering, Settled, Accepts, Name;
      calls, succeeded, failed, seen := [], [], [], [];
      NoAnswers(cfg, answers, LiveNow());
      for i := 0 to |subscribers|
        invariant OfferedToAll(subscribers[..i], cfg, calls)
        invariant succeeded == Answering(subscribers[..i], cfg, answers, true)
        invariant failed == Answering(subscribers[..i], cfg, answers, false)
        invariant LiveNow() == Settled(subscribers[..i], cfg, old(LiveNow()))
        invariant |seen| == i
        invariant forall k :: 0 <= k < i ==> seen[k] == Settled(subscribers[..k], cfg, old(LiveNow()))
      {
        var sub := subscribers[i];
        assert subscribers[..i + 1] == subscribers[..i] + [sub];
        SettledStep(subscribers[..i], sub, cfg, old(LiveNow()));
        AnsweringStep(subscribers[..i], sub, cfg, answers);
        calls := calls + [Call(Name(sub), cfg)];
        seen := seen + [LiveNow()];
        var ok := Offer(sub, cfg, i < |answers| && answers[i]);
        if !ok {
          failed := failed + [Name(sub)];
          continue;
        }
        succeeded := succeeded + [Name(sub)];
      }
      assert subscribers[..|subscribers|] == subscribers;
    }

    /** doReload, with the file's content as config.Load returned it (null where it failed) and
        what foreign subscribers will say. The
        set is drained in any case. A failed load or validation changes nothing else; otherwise
        the validated configuration is dispatched, and recorded if a subscriber took it. */
    method DoReload(newCfg: Config?, answers: seq<bool>) returns (summary: Summary)
      requires Valid()
      modifies this`srcSet, this`lastApplied, newCfg, level, requestTimeout, server`shutdownTimeoutNanos
      ensures Valid() && subscribers == old(subscribers)
      ensures srcSet == {} && summary.sources == SortedList(old(srcSet))
      ensures summary.LoadFailed? <==> newCfg == null
      ensures summary.ValidationFailed? <==> newCfg != null && !Acceptable(old(newCfg.Data()))
      ensures summary.ValidationFailed? ==> FirstBroken(summary.rule, old(newCfg.Data()))
      ensures !summary.Applied? ==> lastApplied == old(lastApplied) && LiveNow() == old(LiveNow())
      ensures summary.Applied? ==>
        var cfg := Normalised(old(newCfg.Data()));
        && summary.changed == Changed(10, bootCfg, cfg)
        && OfferedToAll(subscribers, cfg, summary.calls)
        && summary.succeeded == Answering(subscribers, cfg, answers, true)
        && summary.failed == Answering(subscribers, cfg, answers, false)
        && LiveNow() == Settled(subscribers, cfg, old(LiveNow()))
        && lastApplied == if summary.succeeded != [] then cfg else old(lastApplied)
    {
      hide Answering, Settled, Changed, Acceptable, FirstBroken, Normalised;
      var snapshot := SnapshotSources();
      if newCfg == null { return LoadFailed(snapshot); }
      var err := newCfg.Validate();
      if err.Some? { return ValidationFailed(snapshot, err.value); }
      var cfg := newCfg.Data();
      var changed := ChangedFields(cfg);
      var calls, succeeded, failed, _ := Dispatch(cfg, answers);
      if |succeeded| > 0 { lastApplied := cfg; }
      return Applied(snapshot, changed, calls, succeeded, failed);
    }
  }
}

/** The agreement between the live values and the recorded configuration: main's wiring at boot,
    then any series of reloads, for every Reloader that has main's three subscribers among its
    own. */
module LiveState {
  import opened Wrappers
  import opened Text
  import opened Configuration
  import opened Subscribers
  import opened ReloaderObject
  import ServerState

  /** What config.Load meets at one reload, and what foreign subscribers say in its dispatch. */
  datatype Load = Unreadable | Content(data: ConfigData, answers: seq<bool>)

  datatype Point = Point(live: Live, record: ConfigData)

  ghost predicate HasMains(subs: seq<Subscriber>) {
    LevelSub in subs && RequestTimeoutSub in subs && ShutdownTimeoutSub in subs
  }

  /** The live values and the record after one doReload, as its contract gives them. */
  ghost function Reloaded(subs: seq<Subscriber>, p: Point, load: Load): Point {
    if load.Content? && Acceptable(load.data) then
      var cfg := Normalised(load.data);
      Point(Settled(subs, cfg, p.live), if Answering(subs, cfg, load.answers, true) != [] then cfg else p.record)
    else p
  }

  ghost function After(subs: seq<Subscriber>, p: Point, loads: seq<Load>): Point {
    if loads == [] then p
    else Reloaded(subs, After(subs, p, loads[..|loads| - 1]), loads[|loads| - 1])
  }

  /** The last content that was valid. */
  ghost function LastValid(loads: seq<Load>): Option<ConfigData> {
    if loads == [] then None
    else
      var last := loads[|loads| - 1];
      if last.Content? && Acceptable(last.data) then Some(last.data) else LastValid(loads[..|loads| - 1])
  }

  lemma MainsSettle(subs: seq<Subscriber>, d: ConfigData, answers: seq<bool>, live: Live)
    requires HasMains(subs) && Acceptable(d)
    ensures Settled(subs, Normalised(d), live) == Wanted(Normalised(d))
    ensures Answering(subs, Normalised(d), answers, true) != []
  {
    ValidatedIsAccepted(d);
    hide Normalised, Acceptable, Name, Wanted, Answering;
    var i :| 0 <= i < |subs| && subs[i] == LevelSub;
    assert Answers(subs, Normalised(d), answers, true, Name(LevelSub));
    AnsweringMembers(subs, Normalised(d), answers, true, Name(LevelSub));
  }

  /** After any series of reloads the live values and the record are those of the last valid
      file content, complete and from one and the same configuration; without valid content
      they are untouched. */
  lemma {:induction false} LiveFollowsFile(subs: seq<Subscriber>, p: Point, loads: seq<Load>)
    requires HasMains(subs)
    ensures match LastValid(loads)
      case None => After(subs, p, loads) == p
      case Some(d) => After(subs, p, loads) == Point(Wanted(Normalised(d)), Normalised(d))
    ensures LastValid(loads).Some? ==> Acceptable(LastValid(loads).value)
  {
    hide Acceptable, Settled, Answering, Normalised, Wanted, HasMains;
    if loads != [] {
      var init, last := loads[..|loads| - 1], loads[|loads| - 1];
      LiveFollowsFile(subs, p, init);
      if last.Content? && Acceptable(last.data) {
        MainsSettle(subs, last.data, last.answers, After(subs, p, init).live);
      }
    }
  }

  /** main and NewReloader read the file separately, so at boot the live values and the record
      may differ. They agree from the first completed dispatch on, and without one exactly if
      the two boot reads agreed. */
  lemma AgreementExactly(subs: seq<Subscriber>, p: Point, loads: seq<Load>)
    requires HasMains(subs)
    ensures var q := After(subs, p, loads);
      q.live == Wanted(q.record) <==> LastValid(loads).Some? || p.live == Wanted(p.record)
  {
    LiveFollowsFile(subs, p, loads);
  }

  predicate Positive(live: Live) {
    live.requestTimeout > 0 && live.shutdownTimeout > 0
  }

  lemma SettledStaysPositive(subs: seq<Subscriber>, cfg: ConfigData, live: Live)
    requires Positive(live)
    ensures Positive(Settled(subs, cfg, live))
  {}

  /** Both timeouts stay positive for ever, whoever is registered and whatever the files hold:
      after any series of reloads, and with a further dispatch, of any configuration, stopped
      after any k of its subscribers. */
  lemma {:induction false} TimeoutsStayPositive(subs: seq<Subscriber>, p: Point, loads: seq<Load>, cfg: ConfigData, k: nat)
    requires Positive(p.live) && k <= |subs|
    ensures Positive(After(subs, p, loads).live)
    ensures Positive(Settled(subs[..k], cfg, After(subs, p, loads).live))
  {
    hide Settled, Answering, Acceptable, Normalised;
    if loads != [] {
      var init, last := loads[..|loads| - 1], loads[|loads| - 1];
      TimeoutsStayPositive(subs, p, init, cfg, k);
      if last.Content? { SettledStaysPositive(subs, Normalised(last.data), After(subs, p, init).live); }
    }
    SettledStaysPositive(subs[..k], cfg, After(subs, p, loads).live);
  }

  /** The object keeps step with the account above, reload by reload. */
  method ReloadEach(r: Reloader, loads: seq<Load>)
    requires r.Valid()
    modifies r, r.level, r.requestTimeout, r.server
    ensures r.Valid() && r.subscribers == old(r.subscribers)
    ensures Point(r.LiveNow(), r.lastApplied) ==
      After(r.subscribers, Point(old(r.LiveNow()), old(r.lastApplied)), loads)
  {
    hide Settled, Answering, Acceptable, FirstBroken, Changed, Normalised;
    ghost var start := Point(r.LiveNow(), r.lastApplied);
    for n := 0 to |loads|
      invariant r.Valid() && r.subscribers == old(r.subscribers)
      invariant Point(r.LiveNow(), r.lastApplied) == After(r.subscribers, start, loads[..n])
    {
      assert loads[..n + 1][..n] == loads[..n];
      match loads[n]
      case Unreadable =>
        var _ := r.DoReload(null, []);
      case Content(d, answers) =>
        var file := new Config(d);
        var _ := r.DoReload(file, answers);
    }
    assert loads[..|loads|] == loads;
  }

  // ---------- boot ----------

  ghost predicate KnownSources(rc: ReloadConfig) {
    forall i :: 0 <= i < |rc.sources| ==> KnownSource(rc.sources[i])
  }

  /** The registration loop of main, on a fresh Reloader. */
  method RegisterMains(r: Reloader) returns (ok: bool)
    requires r.Valid() && r.subscribers == [] && !r.started && !r.stopped
    modifies r`subscribers, r`subNames
    ensures ok && r.Valid() && HasMains(r.subscribers)
    ensures Names(r.subscribers) == ["log_level", "request_timeout", "graceful_shutdown_timeout"]
  {
    var subs := [LevelSub, RequestTimeoutSub, ShutdownTimeoutSub];
    for i := 0 to |subs|
      invariant r.Valid() && r.subscribers == subs[..i]
    {
      var res := r.Register(Some(subs[i]));
      if !res.Ok? { return false; }
    }
    assert r.subscribers == subs;
    return true;
  }

  /** main up to Start. It reads the file into `first` and NewReloader reads it again into
      `second` (null where a read fails). Boot succeeds exactly if both reads are acceptable,
      the path exists and the sources are known; then the Reloader has main's subscribers, the
      live values are those of the first read and the record is the second. */
  method Boot(first: Config?, second: Config?, pathExists: bool, level: GlobalLevel) returns (r: Reloader?)
    requires first != null && second != null ==> first != second
    modifies first, second, level
    ensures r != null <==>
      first != null && Acceptable(old(first.Data())) && pathExists && KnownSources(old(first.reload))
      && second != null && Acceptable(old(second.Data()))
    ensures r != null ==> fresh(r) && fresh(r.requestTimeout) && fresh(r.server) && r.level == level && r.Valid()
    ensures r != null ==> HasMains(r.subscribers) && Positive(r.LiveNow())
    ensures r != null ==> Names(r.subscribers) == ["log_level", "request_timeout", "graceful_shutdown_timeout"]
    ensures r != null ==> r.LiveNow() == Wanted(Normalised(old(first.Data())))
    ensures r != null ==> r.lastApplied == Normalised(old(second.Data()))
  {
    hide Acceptable, Normalise, FirstBroken;
    if first == null { return null; }
    var err := first.Validate();
    if err.Some? { return null; }
    ghost var read := old(first.Data());
    ValidatedIsAccepted(read);
    var cfg := first.Data();
    var ok := level.Apply(cfg);
    if !ok { return null; }
    var server := new ServerState.Server(cfg.server.gracefulShutdownTimeout);
    var requestTimeout := RequestTimeoutConfig.New(cfg.server.requestTimeout);
    if requestTimeout == null { return null; }
    r := Reloader.New(pathExists, cfg.reload, second, level, requestTimeout, server);
    if r == null { return; }
    var registered := RegisterMains(r);
    if !registered { return null; }
  }

  /** From boot through any series of reloads: both timeouts are positive, and the live values
      agree with the record exactly if some reload completed its dispatch or the two boot reads
      asked for the same. */
  method Lifetime(first: Config?, second: Config?, pathExists: bool, level: GlobalLevel, loads: seq<Load>)
      returns (r: Reloader?)
    requires first != null && second != null ==> first != second
    modifies first, second, level
    ensures r != null ==> first != null && second != null && Positive(r.LiveNow())
    ensures r != null ==>
      (r.LiveNow() == Wanted(r.lastApplied) <==>
         LastValid(loads).Some? || Wanted(Normalised(old(first.Data()))) == Wanted(Normalised(old(second.Data()))))
  {
    hide Acceptable, Normalised, Wanted, HasMains, After, LastValid;
    r := Boot(first, second, pathExists, level);
    if r == null { return; }
    ghost var start := Point(r.LiveNow(), r.lastApplied);
    ReloadEach(r, loads);
    AgreementExactly(r.subscribers, start, loads);
    TimeoutsStayPositive(r.subscribers, start, loads, r.bootCfg, 0);
  }
}

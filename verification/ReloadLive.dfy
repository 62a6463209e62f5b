/** The protocol and the Reloader object together: over every run, the Load, Apply and Finish
    steps do to the live values and the record what DoReload does, reload by reload; so an edit
    that was triggered is live once the protocol rests. */
module ReloadLive {
  import opened Wrappers
  import opened Text
  import opened Traces
  import opened Configuration
  import opened Subscribers
  import opened ReloadProtocol
  import opened ReloadLifecycle
  import opened ReloadWakeup
  import Object = ReloaderObject
  import Account = LiveState

  /** The subscribers behind the names, and what the file holds at each version. */
  datatype Scene = Scene(subs: seq<Subscriber>, files: nat -> ConfigData) {

    /** What Validate stores of the file at version v. */
    function At(v: nat): ConfigData {
      Normalised(files(v))
    }
  }

  /** The step fits the scene: a load passes only on an acceptable file, and main's subscribers
      answer as they do. */
  ghost predicate StepFits(z: Scene, s: State, a: Action) {
    && (a == Reloading(Load(true)) ==> Acceptable(z.files(s.world.fileVersion)))
    && (a.Reloading? && a.reload.Apply? && s.worker.pc.Applying? && s.worker.pc.next < |z.subs| ==>
          var sub := z.subs[s.worker.pc.next];
          a.reload.ok == Accepts(sub, z.At(s.worker.pc.version), a.reload.ok))
    && (!s.life.start.Idle? ==> Names(z.subs) == s.life.subs)
  }

  ghost predicate Fits(z: Scene, r: Run<State, Action>)
    requires WellShaped(r)
  {
    forall i :: 0 <= i < |r.acts| ==> StepFits(z, r.states[i], r.acts[i])
  }

  /** What the step does to the live values and the record. */
  ghost function Moved(z: Scene, s: State, a: Action, p: Account.Point): Account.Point {
    if a.Reloading? && s.worker.pc.Applying? then
      var pc := s.worker.pc;
      match a.reload
      case Apply(_) =>
        if pc.next < |z.subs| then p.(live := Object.Settled([z.subs[pc.next]], z.At(pc.version), p.live)) else p
      case Finish => if pc.anyOk then p.(record := z.At(pc.version)) else p
      case _ => p
    else p
  }

  /** The live values and the record after n steps. */
  ghost function Tracked(z: Scene, r: Run<State, Action>, n: nat, p: Account.Point): Account.Point
    requires WellShaped(r) && n <= |r.acts|
  {
    if n == 0 then p else Moved(z, r.states[n - 1], r.acts[n - 1], Tracked(z, r, n - 1, p))
  }

  /** What the loads of a run met, with the answers of their dispatches so far. */
  ghost function Noted(z: Scene, s: State, a: Action, loads: seq<Account.Load>): seq<Account.Load> {
    match a
    case Reloading(Load(ok)) =>
      loads + [if ok then Account.Content(z.files(s.world.fileVersion), []) else Account.Unreadable]
    case Reloading(Apply(ok)) =>
      if loads != [] && loads[|loads| - 1].Content? then
        var last := loads[|loads| - 1];
        loads[..|loads| - 1] + [last.(answers := last.answers + [ok])]
      else loads
    case _ => loads
  }

  ghost function Met(z: Scene, r: Run<State, Action>, n: nat): seq<Account.Load>
    requires WellShaped(r) && n <= |r.acts|
  {
    if n == 0 then [] else Noted(z, r.states[n - 1], r.acts[n - 1], Met(z, r, n - 1))
  }

  // ---------- refinement ----------

  /** Between reloads p is what DoReload has made of the loads, one after the other; within a
      dispatch it is that of the loads before, with the first subscribers served. */
  ghost predicate Refines(z: Scene, s: State, p0: Account.Point, loads: seq<Account.Load>, p: Account.Point) {
    match s.worker.pc
    case Applying(v, k, anyOk) =>
      && loads != [] && k <= |z.subs|
      && var load, base := loads[|loads| - 1], Account.After(z.subs, p0, loads[..|loads| - 1]);
         && load.Content? && load.data == z.files(v) && Acceptable(z.files(v)) && |load.answers| == k
         && p == Account.Point(Object.Settled(z.subs[..k], z.At(v), base.live), base.record)
         && (anyOk <==> Object.Answering(z.subs[..k], z.At(v), load.answers, true) != [])
    case _ => p == Account.After(z.subs, p0, loads)
  }

  lemma LoadRefines(z: Scene, s: State, ok: bool, t: State, p0: Account.Point, loads: seq<Account.Load>, p: Account.Point)
    requires ReloadStep(s, Load(ok)) == Some(t) && StepFits(z, s, Reloading(Load(ok)))
    requires Refines(z, s, p0, loads, p)
    ensures Refines(z, t, p0, Noted(z, s, Reloading(Load(ok)), loads), p)
  {
    hide Acceptable, Normalised;
    var now := Noted(z, s, Reloading(Load(ok)), loads);
    assert now[..|now| - 1] == loads;
    Object.NoAnswers(z.At(s.world.fileVersion), [], p.live);
  }

  lemma ApplyRefines(z: Scene, s: State, ok: bool, t: State, p0: Account.Point, loads: seq<Account.Load>, p: Account.Point)
    requires ReloadStep(s, Apply(ok)) == Some(t) && StepFits(z, s, Reloading(Apply(ok)))
    requires Refines(z, s, p0, loads, p) && Names(z.subs) == s.life.subs
    ensures Refines(z, t, p0, Noted(z, s, Reloading(Apply(ok)), loads), Moved(z, s, Reloading(Apply(ok)), p))
  {
    hide Acceptable, Normalised, Object.Settled, Object.Answering, Account.After, Accepts, Name;
    var k, load := s.worker.pc.next, loads[|loads| - 1];
    var cfg, before, after := z.At(s.worker.pc.version), load.answers, load.answers + [ok];
    var now := Noted(z, s, Reloading(Apply(ok)), loads);
    assert now[..|now| - 1] == loads[..|loads| - 1];
    assert z.subs[..k + 1] == z.subs[..k] + [z.subs[k]];
    var base := Account.After(z.subs, p0, loads[..|loads| - 1]);
    Object.SettledStep(z.subs[..k], z.subs[k], cfg, base.live);
    Object.AnsweringStep(z.subs[..k], z.subs[k], cfg, after);
    SameAnswers(z.subs[..k], cfg, before, after);
  }

  lemma {:induction false} SameAnswers(subs: seq<Subscriber>, cfg: ConfigData, a: seq<bool>, b: seq<bool>)
    requires |subs| <= |a| <= |b| && a == b[..|a|]
    ensures Object.Answering(subs, cfg, a, true) == Object.Answering(subs, cfg, b, true)
  {
    hide Accepts, Name;
    if subs != [] { SameAnswers(subs[..|subs| - 1], cfg, a, b); }
  }

  lemma FinishRefines(z: Scene, s: State, t: State, p0: Account.Point, loads: seq<Account.Load>, p: Account.Point)
    requires ReloadStep(s, Finish) == Some(t)
    requires Refines(z, s, p0, loads, p) && Names(z.subs) == s.life.subs
    ensures Refines(z, t, p0, loads, Moved(z, s, Reloading(Finish), p))
  {
    hide Acceptable, Normalised, Object.Settled, Object.Answering;
    assert z.subs[..s.worker.pc.next] == z.subs;
  }

  lemma OthersRefine(c: Setup, z: Scene, s: State, a: Action, t: State, p0: Account.Point, loads: seq<Account.Load>,
                     p: Account.Point)
    requires BirthInv(s) && Step(c, s, a) == Some(t) && Refines(z, s, p0, loads, p)
    requires !a.Reloading? || a.reload.Snapshot?
    ensures Refines(z, t, p0, loads, p) && Noted(z, s, a, loads) == loads && Moved(z, s, a, p) == p
  {
    hide Acceptable, Normalised, Object.Settled, Object.Answering, Account.After;
  }

  lemma RefineStep(c: Setup, z: Scene, s: State, a: Action, t: State, p0: Account.Point, loads: seq<Account.Load>,
                   p: Account.Point)
    requires BirthInv(s) && Step(c, s, a) == Some(t) && StepFits(z, s, a) && Refines(z, s, p0, loads, p)
    ensures Refines(z, t, p0, Noted(z, s, a, loads), Moved(z, s, a, p))
  {
    hide StartStep, StopStep, EnqueueStep, WaitStep, ReloadStep, Refines, Moved, Noted;
    match a
    case Reloading(x) =>
      ReloadingIsStarted(s, x);
      match x {
        case Load(ok) =>
          LoadRefines(z, s, ok, t, p0, loads, p);
          LoadMoves(z, s, ok, p);
        case Apply(ok) => ApplyRefines(z, s, ok, t, p0, loads, p);
        case Finish =>
          FinishRefines(z, s, t, p0, loads, p);
          FinishNotes(z, s, loads);
        case Snapshot => OthersRefine(c, z, s, a, t, p0, loads, p);
      }
    case _ => OthersRefine(c, z, s, a, t, p0, loads, p);
  }

  lemma ReloadingIsStarted(s: State, x: ReloadAction)
    requires BirthInv(s) && ReloadStep(s, x).Some?
    ensures !s.life.start.Idle?
  {}

  lemma LoadMoves(z: Scene, s: State, ok: bool, p: Account.Point)
    ensures Moved(z, s, Reloading(Load(ok)), p) == p
  {}

  lemma FinishNotes(z: Scene, s: State, loads: seq<Account.Load>)
    ensures Noted(z, s, Reloading(Finish), loads) == loads
  {}

  lemma RecordStep(c: Setup, z: Scene, s: State, a: Action, t: State, p: Account.Point)
    requires BirthInv(s) && Step(c, s, a) == Some(t) && p.record == z.At(s.worker.lastApplied)
    ensures Moved(z, s, a, p).record == z.At(t.worker.lastApplied)
  {
    hide Normalised, Object.Settled;
  }

  /** Over every run that fits the scene the protocol refines the object: wherever no dispatch is
      under way, the live values and the record are what DoReload gives for the loads met so far;
      and the record is at all times the file of the protocol's recorded version, if it was at
      the start. */
  lemma {:induction false} ProtocolRefinesObject(c: Setup, z: Scene, r: Run<State, Action>, n: nat, p: Account.Point)
    requires IsRun(c, r) && Fits(z, r) && n <= |r.acts|
    ensures Refines(z, r.states[n], p, Met(z, r, n), Tracked(z, r, n, p))
    ensures !r.states[n].worker.pc.Applying? ==> Tracked(z, r, n, p) == Account.After(z.subs, p, Met(z, r, n))
    ensures p.record == z.At(r.states[0].worker.lastApplied) ==>
      Tracked(z, r, n, p).record == z.At(r.states[n].worker.lastApplied)
  {
    hide Step, Inv, BirthInv, StepFits, Moved, Noted, Initial, Normalised;
    if n > 0 {
      var s, a, t, q := r.states[n - 1], r.acts[n - 1], r.states[n], Tracked(z, r, n - 1, p);
      ProtocolRefinesObject(c, z, r, n - 1, p);
      RunStep(c, r, n - 1);
      RefineStep(c, z, s, a, t, p, Met(z, r, n - 1), q);
      if q.record == z.At(s.worker.lastApplied) { RecordStep(c, z, s, a, t, q); }
    } else {
      NothingApplied(r.states[0]);
    }
  }

  lemma NothingApplied(s: State)
    requires Initial(s)
    ensures !s.worker.pc.Applying?
  {}

  // ---------- an edit that was triggered goes live ----------

  /** The last valid content is the one the load of step m met. */
  ghost predicate LastLoad(z: Scene, r: Run<State, Action>, n: nat, m: nat)
    requires WellShaped(r) && n <= |r.acts|
  {
    m < n && r.acts[m] == Reloading(Load(true))
    && Account.LastValid(Met(z, r, n)) == Some(z.files(r.states[m].world.fileVersion))
  }

  lemma NotedValid(z: Scene, s: State, a: Action, loads: seq<Account.Load>)
    requires StepFits(z, s, a)
    ensures Account.LastValid(Noted(z, s, a, loads)) ==
      if a == Reloading(Load(true)) then Some(z.files(s.world.fileVersion)) else Account.LastValid(loads)
  {
    hide Acceptable;
    var now := Noted(z, s, a, loads);
    if a.Reloading? && a.reload.Load? {
      assert now[..|now| - 1] == loads;
    } else if now != loads {
      assert now[..|now| - 1] == loads[..|loads| - 1];
    }
  }

  lemma {:induction false} SomeLastLoad(z: Scene, r: Run<State, Action>, j: nat, n: nat) returns (m: nat)
    requires WellShaped(r) && Fits(z, r) && j < n <= |r.acts| && r.acts[j] == Reloading(Load(true))
    ensures j <= m && LastLoad(z, r, n, m)
    decreases n
  {
    hide StepFits, Noted;
    NotedValid(z, r.states[n - 1], r.acts[n - 1], Met(z, r, n - 1));
    if r.acts[n - 1] == Reloading(Load(true)) {
      m := n - 1;
    } else {
      m := SomeLastLoad(z, r, j, n - 1);
    }
  }

  /** Hot reload, end to end. Take a Reloader with main's subscribers among its own, any request
      of a run (an accepted Trigger call or an event), and any later point of rest with no failed
      load in between. There the live values and the record are, all from one and the same file,
      those of a version no older than the file was at the request; whatever foreign subscribers
      answered. */
  lemma TriggeredEditIsLive(c: Setup, z: Scene, r: Run<State, Action>, i: nat, src: string, n: nat, p: Account.Point)
      returns (v: nat)
    requires IsRun(c, r) && Fits(z, r) && Account.HasMains(z.subs)
    requires i < n <= |r.acts| && AsksFor(r.states[i], r.acts[i], src) && AtRest(r.states[n])
    requires forall m :: i <= m < n ==> r.acts[m] != Reloading(Load(false))
    ensures r.states[i].world.fileVersion <= v <= r.states[n].world.fileVersion
    ensures Tracked(z, r, n, p) == Account.Point(Wanted(z.At(v)), z.At(v))
    ensures p.record == z.At(r.states[0].worker.lastApplied) ==> z.At(v) == z.At(r.states[n].worker.lastApplied)
  {
    hide Step, Inv, Initial, Inserted, AsksFor, StepFits, Moved, Noted, Refines, Normalised;
    var h, k, j := EveryTriggerIsServed(c, r, i, src, n);
    var m := SomeLastLoad(z, r, j, n);
    VersionsGrow(c, r, i, m);
    VersionsGrow(c, r, m, n);
    v := r.states[m].world.fileVersion;
    ProtocolRefinesObject(c, z, r, n, p);
    Account.LiveFollowsFile(z.subs, p, Met(z, r, n));
  }
}

/** The recorded configuration follows the file: its version never goes back, and at rest it
    is no older than the file was at the last trigger. */
module ReloadRecord {
  import opened Text
  import opened Wrappers
  import opened Traces
  import opened ReloadProtocol
  import opened ReloadLifecycle
  import opened ReloadWakeup

  ghost predicate RecordInv(s: State) {
    && s.worker.lastApplied <= s.world.fileVersion
    && (s.worker.pc.Applying? ==> s.worker.lastApplied <= s.worker.pc.version <= s.world.fileVersion)
  }

  lemma RecordStep(c: Setup, s: State, a: Action, t: State)
    requires RecordInv(s) && Step(c, s, a) == Some(t)
    ensures RecordInv(t) && s.worker.lastApplied <= t.worker.lastApplied
  {}

  lemma {:induction false} RecordHolds(c: Setup, r: Run<State, Action>, n: nat)
    requires IsRun(c, r) && n < |r.states|
    ensures RecordInv(r.states[n])
  {
    hide Step, Inv;
    if n > 0 {
      RecordHolds(c, r, n - 1);
      RunStep(c, r, n - 1);
      RecordStep(c, r.states[n - 1], r.acts[n - 1], r.states[n]);
    }
  }

  /** The recorded configuration is always one the file held, and never a step back in the
      file's history. */
  lemma {:induction false} RecordNeverGoesBack(c: Setup, r: Run<State, Action>, i: nat, j: nat)
    requires IsRun(c, r) && i <= j < |r.states|
    ensures r.states[i].worker.lastApplied <= r.states[j].worker.lastApplied <= r.states[j].world.fileVersion
    decreases j
  {
    hide Step, Inv;
    RecordHolds(c, r, j);
    if i < j {
      RecordNeverGoesBack(c, r, i, j - 1);
      RecordHolds(c, r, j - 1);
      RunStep(c, r, j - 1);
      RecordStep(c, r.states[j - 1], r.acts[j - 1], r.states[j]);
    }
  }

  // ---------- the record, read off the steps ----------

  /** The version of the file at the last load that passed. */
  ghost function LoadedVersion(r: Run<State, Action>, n: nat): nat
    requires WellShaped(r) && n <= |r.acts|
  {
    if n == 0 then 0
    else if r.acts[n - 1] == Reloading(Load(true)) then r.states[n - 1].world.fileVersion
    else LoadedVersion(r, n - 1)
  }

  /** Some subscriber has taken the configuration since the last load. */
  ghost predicate Taken(r: Run<State, Action>, n: nat)
    requires n <= |r.acts|
  {
    n > 0 && !Loads(r.acts[n - 1]) && (r.acts[n - 1] == Reloading(Apply(true)) || Taken(r, n - 1))
  }

  /** The version of the last dispatch that ended with a subscriber having taken it; without one,
      that of the boot configuration. */
  ghost function Recorded(r: Run<State, Action>, n: nat): nat
    requires WellShaped(r) && n <= |r.acts|
  {
    if n == 0 then r.states[0].worker.lastApplied
    else if r.acts[n - 1] == Reloading(Finish) && Taken(r, n - 1) then LoadedVersion(r, n - 1)
    else Recorded(r, n - 1)
  }

  ghost predicate Tells(s: State, loaded: nat, taken: bool, recorded: nat) {
    s.worker.lastApplied == recorded
    && (s.worker.pc.Applying? ==> s.worker.pc.version == loaded && s.worker.pc.anyOk == taken)
  }

  lemma TellsStep(c: Setup, s: State, a: Action, t: State, loaded: nat, taken: bool, recorded: nat)
    requires BirthInv(s) && Step(c, s, a) == Some(t) && Tells(s, loaded, taken, recorded)
    ensures Tells(t, if a == Reloading(Load(true)) then s.world.fileVersion else loaded,
                  !Loads(a) && (a == Reloading(Apply(true)) || taken),
                  if a == Reloading(Finish) && taken then loaded else recorded)
  {}

  lemma {:induction false} TellsHolds(c: Setup, r: Run<State, Action>, n: nat)
    requires IsRun(c, r) && n <= |r.acts|
    ensures Tells(r.states[n], LoadedVersion(r, n), Taken(r, n), Recorded(r, n))
  {
    hide Step, Inv, BirthInv, Tells, Loads, Initial;
    if n > 0 {
      TellsHolds(c, r, n - 1);
      RunStep(c, r, n - 1);
      TellsStep(c, r.states[n - 1], r.acts[n - 1], r.states[n],
                LoadedVersion(r, n - 1), Taken(r, n - 1), Recorded(r, n - 1));
    } else {
      TellsAtFirst(r.states[0]);
    }
  }

  lemma TellsAtFirst(s: State)
    requires Initial(s)
    ensures forall loaded: nat, taken: bool :: Tells(s, loaded, taken, s.worker.lastApplied)
  {}

  /** The record changes only where a dispatch ends that some subscriber took, and then to the
      version its load read; no failed load and no refused dispatch leaves a trace in it. */
  lemma RecordIsLastDispatch(c: Setup, r: Run<State, Action>, n: nat)
    requires IsRun(c, r) && n <= |r.acts|
    ensures r.states[n].worker.lastApplied == Recorded(r, n)
  {
    TellsHolds(c, r, n);
  }

  // ---------- an edit that was triggered ends up recorded ----------

  predicate Fails(a: Action) {
    a == Reloading(Load(false)) || a == Reloading(Apply(false))
  }

  /** Version v or a later one is recorded, or is being dispatched without a failure so far. */
  ghost predicate Landing(s: State, v: nat) {
    || v <= s.worker.lastApplied
    || (s.worker.pc.Applying? && v <= s.worker.pc.version && (s.worker.pc.next > 0 ==> s.worker.pc.anyOk))
  }

  lemma LoadLands(c: Setup, s: State, a: Action, t: State)
    requires Step(c, s, a) == Some(t) && Loads(a) && !Fails(a)
    ensures Landing(t, s.world.fileVersion)
  {}

  lemma LandingStep(c: Setup, s: State, a: Action, t: State, v: nat)
    requires Step(c, s, a) == Some(t) && Landing(s, v) && RecordInv(s) && BirthInv(s)
    requires !Fails(a) && |s.life.subs| > 0
    ensures Landing(t, v)
  {}

  lemma {:induction false} LandingHolds(c: Setup, r: Run<State, Action>, j: nat, n: nat)
    requires IsRun(c, r) && j < n <= |r.acts| && Loads(r.acts[j])
    requires |r.states[j].life.subs| > 0
    requires forall m :: j <= m < n ==> !Fails(r.acts[m])
    ensures Landing(r.states[n], r.states[j].world.fileVersion)
    decreases n
  {
    hide Step, Inv, BirthInv, RecordInv, Landing, Fails;
    RunStep(c, r, n - 1);
    if j == n - 1 {
      LoadLands(c, r.states[j], r.acts[j], r.states[n]);
    } else {
      LandingHolds(c, r, j, n - 1);
      RecordHolds(c, r, n - 1);
      WorkerHasStart(c, r, j);
      SubscribersFrozen(c, r, j, n - 1);
      LandingStep(c, r.states[n - 1], r.acts[n - 1], r.states[n], r.states[j].world.fileVersion);
    }
  }

  lemma WorkerHasStart(c: Setup, r: Run<State, Action>, j: nat)
    requires IsRun(c, r) && j < |r.acts| && Loads(r.acts[j])
    ensures !r.states[j].life.start.Idle?
  {
    RunStep(c, r, j);
  }

  /** Eventual consistency of hot reload: if there is a subscriber and nothing fails to load
      or apply, then once the protocol rests after a request, the recorded configuration is at
      least as new as the file was when the request was made. */
  lemma TriggeredEditIsRecorded(c: Setup, r: Run<State, Action>, i: nat, src: string, n: nat)
    requires IsRun(c, r) && i < n <= |r.acts| && AsksFor(r.states[i], r.acts[i], src)
    requires AtRest(r.states[n]) && |r.states[i].life.subs| > 0
    requires forall m :: i <= m < n ==> !Fails(r.acts[m])
    ensures r.states[i].world.fileVersion <= r.states[n].worker.lastApplied
  {
    hide Step, Inv, Fails, AsksFor, Inserted;
    var h, k, j := EveryTriggerIsServed(c, r, i, src, n);
    AskerHasStart(c, r, i, src);
    SubscribersFrozen(c, r, i, j);
    LandingHolds(c, r, j, n);
  }

  lemma AskerHasStart(c: Setup, r: Run<State, Action>, i: nat, src: string)
    requires IsRun(c, r) && i < |r.acts| && AsksFor(r.states[i], r.acts[i], src)
    ensures !r.states[i].life.start.Idle?
  {
    RunStep(c, r, i);
  }

  // ---------- such a run ----------

  /** A run from o to s without a failure. */
  ghost predicate Smooth(c: Setup, r: Run<State, Action>, o: State, s: State) {
    IsRun(c, r) && r.states[0] == o && r.states[|r.acts|] == s && forall m :: 0 <= m < |r.acts| ==> !Fails(r.acts[m])
  }

  lemma Extend(c: Setup, r: Run<State, Action>, o: State, s: State, a: Action) returns (q: Run<State, Action>, t: State)
    requires Smooth(c, r, o, s) && Step(c, s, a).Some? && !Fails(a)
    ensures Step(c, s, a) == Some(t) && Smooth(c, q, o, t)
    ensures q.acts == r.acts + [a] && q.states == r.states + [t]
  {
    hide Step, Initial, Fails;
    t := Step(c, s, a).value;
    q := Run(r.states + [t], r.acts + [a]);
  }

  lemma Begin(c: Setup, o: State) returns (r: Run<State, Action>)
    requires Initial(o)
    ensures Smooth(c, r, o, o) && r.acts == []
  {
    r := Run([o], []);
  }

  lemma Debounced(c: Setup, p: Run<State, Action>, o: State, from: State) returns (r: Run<State, Action>, s: State)
    requires Smooth(c, p, o, from) && from.worker.pc.Parked? && from.queue.token && !from.worker.timer.armed
    ensures Smooth(c, r, o, s) && p.acts <= r.acts && p.states <= r.states
    ensures s.worker.pc.AtSnapshot? && s.queue == from.queue.(token := false)
    ensures s.life == from.life && s.world.fileVersion == from.world.fileVersion
  {
    hide Smooth;
    r, s := Extend(c, p, o, from, Waiting(Take));
    if c.debounce > 0 {
      r, s := Extend(c, r, o, s, Waiting(NewTimer));
      r, s := Extend(c, r, o, s, Outside(Advance(c.debounce)));
      r, s := Extend(c, r, o, s, Waiting(FireTimer));
      r, s := Extend(c, r, o, s, Waiting(TickReceive));
    }
  }

  /** The send, the debounce and the reload that follow an insert. */
  lemma Served(c: Setup, p: Run<State, Action>, o: State, from: State) returns (r: Run<State, Action>, s: State)
    requires Smooth(c, p, o, from) && from.worker.pc.Parked? && !from.worker.timer.armed
    requires Senders(from.queue) == from.queue.toSend == 1 && Inserters(from.queue) == 0 && |from.life.subs| == 1
    ensures Smooth(c, r, o, s) && p.acts <= r.acts && p.states <= r.states
    ensures AtRest(s) && s.worker.lastApplied == from.world.fileVersion
  {
    hide Smooth;
    r, s := Extend(c, p, o, from, Enqueuing(Send));
    r, s := Debounced(c, r, o, s);
    r, s := Extend(c, r, o, s, Reloading(Snapshot));
    r, s := Extend(c, r, o, s, Reloading(Load(true)));
    r, s := Extend(c, r, o, s, Reloading(Apply(true)));
    r, s := Extend(c, r, o, s, Reloading(Finish));
  }

  lemma SmoothRun(c: Setup, r: Run<State, Action>, o: State, s: State)
    requires Smooth(c, r, o, s)
    ensures IsRun(c, r) && |r.states| == |r.acts| + 1 && r.states[|r.acts|] == s
    ensures forall m :: 0 <= m < |r.acts| ==> !Fails(r.acts[m])
  {}

  /** With every Setup there is a run as the result above asks for: a subscriber is registered,
      the file is edited, a Trigger call accepted, its source inserted, debounced, reported,
      loaded and applied. */
  lemma AnEditGoesThrough(c: Setup, o: State) returns (r: Run<State, Action>, i: nat)
    requires Initial(o)
    ensures IsRun(c, r) && r.states[0] == o && i < |r.acts|
    ensures AsksFor(r.states[i], r.acts[i], "manual") && |r.states[i].life.subs| > 0 && AtRest(r.states[|r.acts|])
    ensures forall m :: 0 <= m < |r.acts| ==> !Fails(r.acts[m])
    ensures o.world.fileVersion < r.states[i].world.fileVersion == r.states[|r.acts|].worker.lastApplied
  {
    r := Begin(c, o);
    hide Smooth, Fails, IsRun;
    var s, t;
    r, s := Extend(c, r, o, o, Starting(Register("subscriber")));
    r, s := Extend(c, r, o, s, Starting(StartCall));
    r, s := Extend(c, r, o, s, Starting(LaunchWorker));
    r, s := Extend(c, r, o, s, Outside(EditFile));
    SmoothRun(c, r, o, s);
    i := |r.acts|;
    r, t := Extend(c, r, o, s, Enqueuing(TriggerCall(0, "manual")));
    r, t := Extend(c, r, o, t, Enqueuing(Insert(0, "manual")));
    assert r.states[i] == s && r.acts[i] == Enqueuing(TriggerCall(0, "manual"));
    assert t.queue.toInsert == map[];
    var q := r;
    r, t := Served(c, q, o, t);
    assert r.states[i] == q.states[i] && r.acts[i] == q.acts[i];
    SmoothRun(c, r, o, t);
  }
}

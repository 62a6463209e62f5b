/** What every run of the reload protocol keeps: the flags, the goroutines that exist, the
    wait group, and the answers the public methods give. */
module ReloadLifecycle {
  import opened Text
  import opened Wrappers
  import opened Traces
  import opened ReloadProtocol

  // ---------- the invariant ----------

  predicate WorkerAlive(s: State) {
    !s.worker.pc.Unborn? && !s.worker.pc.Gone?
  }

  predicate WatcherAlive(s: State) {
    s.life.watcher.Selecting? || s.life.watcher.Signalling?
  }

  function TriggerGoroutines(q: Queue): nat {
    q.idle.Size() + q.inserting.Size() + q.sending.Size()
  }

  /** The goroutines the wait group is meant to count. */
  function LiveGoroutines(s: State): nat {
    One(WorkerAlive(s)) + One(WatcherAlive(s)) + TriggerGoroutines(s.queue)
  }

  /** The flags and stopCh agree with how far Start and signalStop have come. */
  ghost predicate LifeInv(l: Life) {
    && (l.started <==> !l.start.Idle? && !l.start.Failed?)
    && (l.stopped <==> l.once.Closing? || l.once.Done?)
    && (l.start.Idle? ==> l.once.Fresh? && l.stopsAtOnce == l.stopsAtWait == 0)
    && (l.stopsAtWait > 0 ==> l.once.Done?)
    && (l.start.FailWait? || l.start.FailFlags? || l.start.Failed? ==> l.once.Done?)
    && (l.once.Flagging? || l.once.Closing? ==>
          (l.once.who.ByWatcher? ==> l.watcher.Signalling?) && (l.once.who.ByStart? ==> l.start.Failing?))
    && (l.watcher.Absent? <==> l.start.Idle? || l.start.Flagged? || l.start.Launched?)
    && (l.watcher.Left? ==> l.once.Done?)
  }

  ghost predicate SubsInv(l: Life) {
    Distinct(l.subs) && "" !in l.subs
  }

  /** Who exists at which point of Start, and who may be gone. */
  ghost predicate BirthInv(s: State) {
    && (s.worker.pc.Unborn? <==> s.life.start.Idle? || s.life.start.Flagged?)
    && (s.worker.pc.Gone? ==> StopClosed(s))
    && (s.life.watcher.Absent? ==> TriggerGoroutines(s.queue) == 0)
  }

  ghost predicate CountInv(s: State) {
    && s.wg == LiveGoroutines(s)
    && (s.life.start.FailFlags? || s.life.start.Failed? ==> LiveGoroutines(s) == 0)
  }

  /** Before Start there is nothing in the queue. */
  ghost predicate QuietInv(s: State) {
    s.life.start.Idle? ==>
      s.queue.toInsert == map[] && s.queue.toSend == 0 && !s.queue.token && s.queue.srcSet == {}
  }

  ghost predicate Inv(s: State) {
    LifeInv(s.life) && SubsInv(s.life) && BirthInv(s) && CountInv(s) && QuietInv(s)
  }

  lemma LifeStep(c: Setup, s: State, a: Action, t: State)
    requires LifeInv(s.life) && Step(c, s, a) == Some(t)
    ensures LifeInv(t.life)
  {}

  lemma SubsStep(c: Setup, s: State, a: Action, t: State)
    requires SubsInv(s.life) && Step(c, s, a) == Some(t)
    ensures SubsInv(t.life)
  {}

  lemma BirthEnqueuing(s: State, a: EnqueueAction, t: State)
    requires BirthInv(s) && EnqueueStep(s, a) == Some(t)
    ensures BirthInv(t)
  {}

  lemma BirthWaiting(c: Setup, s: State, a: WaitAction, t: State)
    requires BirthInv(s) && WaitStep(c, s, a) == Some(t)
    ensures BirthInv(t)
  {}

  lemma BirthStep(c: Setup, s: State, a: Action, t: State)
    requires LifeInv(s.life) && BirthInv(s) && Step(c, s, a) == Some(t)
    ensures BirthInv(t)
  {
    hide EnqueueStep, WaitStep;
    match a
    case Enqueuing(x) => BirthEnqueuing(s, x, t);
    case Waiting(x) => BirthWaiting(c, s, x, t);
    case _ =>
  }

  lemma CountStarting(c: Setup, s: State, a: StartAction, t: State)
    requires LifeInv(s.life) && BirthInv(s) && CountInv(s) && StartStep(c, s, a) == Some(t)
    ensures CountInv(t)
  {}

  lemma CountStopping(s: State, a: StopAction, t: State)
    requires LifeInv(s.life) && CountInv(s) && StopStep(s, a) == Some(t)
    ensures CountInv(t)
  {}

  lemma CountEnqueuing(s: State, a: EnqueueAction, t: State)
    requires CountInv(s) && EnqueueStep(s, a) == Some(t)
    ensures CountInv(t)
  {}

  lemma CountWaiting(c: Setup, s: State, a: WaitAction, t: State)
    requires BirthInv(s) && CountInv(s) && WaitStep(c, s, a) == Some(t)
    ensures CountInv(t)
  {}

  lemma CountReloading(s: State, a: ReloadAction, t: State)
    requires CountInv(s) && ReloadStep(s, a) == Some(t)
    ensures CountInv(t)
  {}

  lemma CountStep(c: Setup, s: State, a: Action, t: State)
    requires LifeInv(s.life) && BirthInv(s) && CountInv(s) && Step(c, s, a) == Some(t)
    ensures CountInv(t)
  {
    hide StartStep, StopStep, EnqueueStep, WaitStep, ReloadStep, LifeInv, BirthInv;
    match a
    case Outside(_) =>
    case Starting(x) => CountStarting(c, s, x, t);
    case Stopping(x) => CountStopping(s, x, t);
    case Enqueuing(x) => CountEnqueuing(s, x, t);
    case Waiting(x) => CountWaiting(c, s, x, t);
    case Reloading(x) => CountReloading(s, x, t);
  }

  lemma QuietStep(c: Setup, s: State, a: Action, t: State)
    requires LifeInv(s.life) && BirthInv(s) && QuietInv(s) && Step(c, s, a) == Some(t)
    ensures QuietInv(t)
  {}

  lemma InvStep(c: Setup, s: State, a: Action, t: State)
    requires Inv(s) && Step(c, s, a) == Some(t)
    ensures Inv(t)
  {
    hide Step, LifeInv, SubsInv, BirthInv, CountInv, QuietInv;
    LifeStep(c, s, a, t);
    SubsStep(c, s, a, t);
    BirthStep(c, s, a, t);
    CountStep(c, s, a, t);
    QuietStep(c, s, a, t);
  }

  /** Inv holds at every point of a run that begins where it holds. */
  lemma {:induction false} InvHolds(c: Setup, r: Run<State, Action>, n: nat)
    requires Follows(c, r) && Inv(r.states[0]) && n < |r.states|
    ensures Inv(r.states[n])
  {
    hide Step, Inv;
    if n > 0 {
      InvHolds(c, r, n - 1);
      InvStep(c, r.states[n - 1], r.acts[n - 1], r.states[n]);
    }
  }

  lemma InitialInv(s: State)
    requires Initial(s)
    ensures Inv(s)
  {}

  lemma InvParts(s: State)
    requires Inv(s)
    ensures LifeInv(s.life) && SubsInv(s.life) && BirthInv(s) && CountInv(s) && QuietInv(s)
  {}

  lemma RunInv(c: Setup, r: Run<State, Action>, n: nat)
    requires IsRun(c, r) && n < |r.states|
    ensures Inv(r.states[n])
  {
    hide Inv, Step, Initial;
    InitialInv(r.states[0]);
    InvHolds(c, r, n);
  }

  /** Everything the induction over a run needs about step i. */
  lemma RunStep(c: Setup, r: Run<State, Action>, i: nat)
    requires IsRun(c, r) && i < |r.acts|
    ensures WellShaped(r) && |r.states| == |r.acts| + 1
    ensures Step(c, r.states[i], r.acts[i]) == Some(r.states[i + 1])
    ensures var s := r.states[i];
      Inv(s) && LifeInv(s.life) && SubsInv(s.life) && BirthInv(s) && CountInv(s) && QuietInv(s)
  {
    hide Inv, Step, Initial, LifeInv, SubsInv, BirthInv, CountInv, QuietInv;
    RunInv(c, r, i);
    InvParts(r.states[i]);
  }

  // ---------- what one step does to the flags ----------

  predicate Passes(s: State, a: Action) {
    a == Starting(StartCall) && !s.life.started && !s.life.stopped
  }

  lemma FlagEffects(c: Setup, s: State, a: Action, t: State)
    requires LifeInv(s.life) && Step(c, s, a) == Some(t)
    ensures t.life.start.Idle? <==> s.life.start.Idle? && a != Starting(StartCall)
    ensures t.life.start.Idle? || t.life.start.Flagged?
            <==> (s.life.start.Idle? || s.life.start.Flagged?) && a != Starting(LaunchWorker)
    ensures t.life.start.Failed? <==> s.life.start.Failed? || a == Starting(FailReturn)
    ensures t.life.start.Succeeded? <==> s.life.start.Succeeded? || a == Starting(StartReturn)
    ensures t.life.stopped <==> s.life.stopped || a == Stopping(OnceFlag)
    ensures StopClosed(t) <==> StopClosed(s) || a == Stopping(OnceClose)
    ensures Passes(s, a) <==> s.life.start.Idle? && !t.life.start.Idle?
    ensures a == Stopping(OnceClose) ==> !StopClosed(s) && s.life.stopped
    ensures !s.life.start.Idle? ==> t.life.subs == s.life.subs
  {}

  lemma WorkerEffects(c: Setup, s: State, a: Action, t: State)
    requires BirthInv(s) && Step(c, s, a) == Some(t)
    ensures t.worker.pc.Unborn? <==> s.worker.pc.Unborn? && a != Starting(LaunchWorker)
    ensures a == Starting(LaunchWorker) ==> s.worker.pc.Unborn?
    ensures s.worker.pc.Gone? ==> t.worker.pc.Gone?
    ensures s.worker.pc.Gone? ==> !a.Reloading?
  {}

  // ---------- main results ----------

  /** The wait group counts exactly the goroutines that are still there; it never goes negative. */
  lemma WaitGroupCountsLiveGoroutines(c: Setup, r: Run<State, Action>, n: nat)
    requires IsRun(c, r) && n < |r.states|
    ensures r.states[n].wg == LiveGoroutines(r.states[n]) >= 0
  {
    RunInv(c, r, n);
  }

  /** Where Start and the stop signal stand, read off the steps the run has taken. */
  ghost predicate TellsHistory(l: Life, past: seq<Action>) {
    && (l.start.Idle? <==> Starting(StartCall) !in past)
    && (l.start.Idle? || l.start.Flagged? <==> Starting(LaunchWorker) !in past)
    && (l.start.Failed? <==> Starting(FailReturn) in past)
    && (l.start.Succeeded? <==> Starting(StartReturn) in past)
    && (l.stopped <==> Stopping(OnceFlag) in past)
    && (l.once.Done? <==> Stopping(OnceClose) in past)
  }

  lemma HistoryGrows(c: Setup, s: State, a: Action, t: State, past: seq<Action>)
    requires LifeInv(s.life) && Step(c, s, a) == Some(t) && TellsHistory(s.life, past)
    ensures TellsHistory(t.life, past + [a])
  {
    FlagEffects(c, s, a, t);
    hide Step, LifeInv, Passes;
  }

  lemma {:induction false} FlagsTellTheHistory(c: Setup, r: Run<State, Action>, n: nat)
    requires IsRun(c, r) && n <= |r.acts|
    ensures TellsHistory(r.states[n].life, r.acts[..n])
  {
    hide Step, TellsHistory, Inv, LifeInv, SubsInv, BirthInv, CountInv, QuietInv, Initial;
    if n > 0 {
      FlagsTellTheHistory(c, r, n - 1);
      RunStep(c, r, n - 1);
      HistoryGrows(c, r.states[n - 1], r.acts[n - 1], r.states[n], r.acts[..n - 1]);
      assert r.acts[..n] == r.acts[..n - 1] + [r.acts[n - 1]];
    } else {
      NoHistory(r.states[0]);
      assert r.acts[..0] == [];
    }
  }

  lemma NoHistory(s: State)
    requires Initial(s)
    ensures TellsHistory(s.life, [])
  {}

  /** Trigger's answer, exactly: ErrNotStarted before any Start and again after a Start that
      failed, ErrStopped from the moment a stop was signalled, acceptance in between. */
  lemma TriggerAnswersFromHistory(c: Setup, r: Run<State, Action>, n: nat)
    requires IsRun(c, r) && n <= |r.acts|
    ensures var answer, past := TriggerAnswer(r.states[n].life), r.acts[..n];
      && (answer.ErrNotStarted? <==> Starting(StartCall) !in past || Starting(FailReturn) in past)
      && (answer.ErrStopped? <==>
            Starting(StartCall) in past && Starting(FailReturn) !in past && Stopping(OnceFlag) in past)
      && (answer.Accepted? <==> Starting(StartCall) in past && Stopping(OnceFlag) !in past)
  {
    FlagsTellTheHistory(c, r, n);
    RunInv(c, r, n);
    hide Follows, IsRun, Step;
  }

  predicate Launches(s: State, a: Action) { a == Starting(LaunchWorker) }
  predicate Closes(s: State, a: Action) { a == Stopping(OnceClose) }

  /** At most one Start passes, at most one worker is launched, and stopCh is closed at most
      once, whatever the interleaving of any number of callers. */
  lemma {:induction false} AtMostOnce(c: Setup, r: Run<State, Action>, n: nat)
    requires IsRun(c, r) && n <= |r.acts|
    ensures Tally(r, 0, n, Passes) == One(!r.states[n].life.start.Idle?)
    ensures Tally(r, 0, n, Launches) == One(!r.states[n].worker.pc.Unborn?)
    ensures Tally(r, 0, n, Closes) == One(StopClosed(r.states[n]))
  {
    hide Step, Inv, LifeInv, SubsInv, BirthInv, CountInv, QuietInv;
    if n > 0 {
      AtMostOnce(c, r, n - 1);
      RunStep(c, r, n - 1);
      FlagEffects(c, r.states[n - 1], r.acts[n - 1], r.states[n]);
      WorkerEffects(c, r.states[n - 1], r.acts[n - 1], r.states[n]);
    }
  }

  /** Nothing takes a stop back, and stopCh is closed only with `stopped` already set. */
  lemma {:induction false} StoppedIsMonotone(c: Setup, r: Run<State, Action>, i: nat, j: nat)
    requires IsRun(c, r) && i <= j < |r.states|
    ensures r.states[i].life.stopped ==> r.states[j].life.stopped
    ensures StopClosed(r.states[i]) ==> StopClosed(r.states[j]) && r.states[i].life.stopped
    decreases j
  {
    hide Step;
    RunInv(c, r, i);
    if i < j {
      StoppedIsMonotone(c, r, i, j - 1);
      RunStep(c, r, j - 1);
      FlagEffects(c, r.states[j - 1], r.acts[j - 1], r.states[j]);
    }
  }

  /** The subscriber list (distinct, non-empty names) is frozen from the moment a Start
      passes, so it is never written while the worker lives. */
  lemma {:induction false} SubscribersFrozen(c: Setup, r: Run<State, Action>, i: nat, j: nat)
    requires IsRun(c, r) && i <= j < |r.states|
    requires !r.states[i].life.start.Idle?
    ensures !r.states[j].life.start.Idle? && r.states[j].life.subs == r.states[i].life.subs
    ensures SubsInv(r.states[j].life)
    decreases j
  {
    hide Step;
    RunInv(c, r, j);
    if i < j {
      SubscribersFrozen(c, r, i, j - 1);
      RunStep(c, r, j - 1);
      FlagEffects(c, r.states[j - 1], r.acts[j - 1], r.states[j]);
    }
  }

  // ---------- what is free to happen ----------

  /** Register, Start, Stop and Trigger can be called at any time, and an accepted Trigger goes
      through its insert and its send without ever waiting, whatever the channel holds. */
  lemma CallersNeverWait(c: Setup, s: State)
    ensures forall name :: Step(c, s, Starting(Register(name))).Some?
    ensures Step(c, s, Starting(StartCall)).Some? && Step(c, s, Stopping(StopCall)).Some?
    ensures forall id: nat, src :: id !in s.queue.toInsert ==> Step(c, s, Enqueuing(TriggerCall(id, src))).Some?
    ensures forall id: nat :: id in s.queue.toInsert ==> Step(c, s, Enqueuing(Insert(id, s.queue.toInsert[id]))).Some?
    ensures s.queue.toSend > 0 ==> Step(c, s, Enqueuing(Send)).Some?
  {}

  /** Every select takes any branch that is ready, and no other: those of the worker, of
      debounceWait, of the context watcher and of a trigger goroutine. */
  lemma SelectsAreFree(c: Setup, s: State)
    ensures s.worker.pc.Parked? ==>
      && (Step(c, s, Waiting(WorkerStop)).Some? <==> StopClosed(s))
      && (Step(c, s, Waiting(Take)).Some? <==> s.queue.token)
    ensures s.worker.pc.Select? ==>
      && (Step(c, s, Waiting(WorkerStop)).Some? <==> StopClosed(s))
      && (Step(c, s, Waiting(Absorb)).Some? <==> s.queue.token)
      && (Step(c, s, Waiting(TickReceive)).Some? <==> s.worker.timer.tick)
    ensures s.life.watcher.Selecting? ==>
      && (Step(c, s, Stopping(WatcherStop)).Some? <==> StopClosed(s))
      && (Step(c, s, Stopping(WatcherCancel)).Some? <==> s.world.canceled)
    ensures forall k :: s.queue.idle.Count(k) > 0 ==>
      && (Step(c, s, Enqueuing(TrigStop(k))).Some? <==> StopClosed(s))
      && Step(c, s, Enqueuing(Event(k))).Some?
  {}

  /** A load, and every Apply, may end either way; the file may be edited, the context canceled
      and time pass at any moment. */
  lemma SurroundingsAreFree(c: Setup, s: State)
    ensures s.worker.pc.AtLoad? ==> forall ok :: Step(c, s, Reloading(Load(ok))).Some?
    ensures s.worker.pc.Applying? && s.worker.pc.next < |s.life.subs| ==>
      forall ok :: Step(c, s, Reloading(Apply(ok))).Some?
    ensures forall w :: Step(c, s, Outside(w)).Some?
  {}

  // ---------- reachability ----------

  ghost predicate Reaches(c: Setup, s: State, t: State) {
    exists r: Run<State, Action> :: Follows(c, r) && r.states[0] == s && r.states[|r.acts|] == t
  }

  lemma ReachesItself(c: Setup, s: State)
    ensures Reaches(c, s, s)
  {
    var r: Run<State, Action> := Run([s], []);
    assert Follows(c, r);
  }

  lemma ReachesFurther(c: Setup, s: State, t: State, a: Action, u: State)
    requires Reaches(c, s, t) && Step(c, t, a) == Some(u)
    ensures Reaches(c, s, u)
  {
    hide Step;
    var r: Run<State, Action> :| Follows(c, r) && r.states[0] == s && r.states[|r.acts|] == t;
    var q := Run(r.states + [u], r.acts + [a]);
    assert Follows(c, q);
  }

  lemma ReachesInv(c: Setup, s: State, t: State)
    requires Inv(s) && Reaches(c, s, t)
    ensures Inv(t)
  {
    hide Step, Inv;
    var r: Run<State, Action> :| Follows(c, r) && r.states[0] == s && r.states[|r.acts|] == t;
    InvHolds(c, r, |r.acts|);
  }

  /** One more step of a run under construction. */
  lemma Go(c: Setup, o: State, s: State, a: Action) returns (t: State)
    requires Reaches(c, o, s) && Step(c, s, a).Some?
    ensures Step(c, s, a) == Some(t) && Reaches(c, o, t)
  {
    t := Step(c, s, a).value;
    ReachesFurther(c, o, s, a, t);
  }

  /** The documentation names "before Start" as the only case of ErrNotStarted. When the file
      trigger cannot be set up the code gives it again, although the Reloader is stopped. */
  lemma TriggerAfterFailedStart(c: Setup, o: State)
    requires c.sources == [File] && Initial(o)
    ensures exists t ::
      Reaches(c, o, t) && t.life.start.Failed? && t.life.stopped && TriggerAnswer(t.life).ErrNotStarted?
  {
    hide Reaches;
    ReachesItself(c, o);
    var s := Go(c, o, o, Starting(StartCall));
    s := Go(c, o, s, Starting(LaunchWorker));
    s := Go(c, o, s, Starting(LaunchWatcher));
    s := Go(c, o, s, Starting(LaunchTrigger(false)));
    s := Go(c, o, s, Stopping(OnceEnter(ByStart)));
    s := Go(c, o, s, Stopping(OnceFlag));
    s := Go(c, o, s, Stopping(OnceClose));
    s := Go(c, o, s, Waiting(WorkerStop));
    s := Go(c, o, s, Stopping(WatcherStop));
    s := Go(c, o, s, Starting(FailWaited));
    s := Go(c, o, s, Starting(FailReturn));
  }
}

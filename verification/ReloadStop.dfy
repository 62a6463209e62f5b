/** Stop completes and is final: every goroutine has a way out once a stop is signalled, and
    a Stop that returns leaves no reload behind, unless it overlapped the Start it stops. */
module ReloadStop {
  import opened Text
  import opened Wrappers
  import opened Traces
  import opened ReloadProtocol
  import opened ReloadLifecycle
  import opened ReloadWakeup

  // ---------- completion ----------

  /** The steps by which a stop is carried through: the watcher seeing the cancel, everyone who
      wants to stop going through signalStop, selects taking the stop branch, everything a
      goroutine does between two selects (an Apply that returns among it), and the waits of Stop
      and of a Start that failed. */
  predicate Drains(a: Action) {
    match a
    case Starting(x) => x.FailWaited? || x.FailReturn?
    case Stopping(x) => !x.StopCall?
    case Enqueuing(x) => x.TrigInsert? || x.TrigSend? || x.TrigStop?
    case Waiting(x) => x.WorkerStop? || x.NewTimer? || x.TimerStop? || x.TimerDrain? || x.TimerReset?
    case Reloading(_) => true
    case _ => false
  }

  function OnceRank(o: Once): nat {
    match o
    case Fresh => 4
    case Flagging(_) => 3
    case Closing(_) => 2
    case Done => 0
  }

  function WatcherRank(w: WatcherPc): nat {
    match w
    case Selecting => 2
    case Signalling => 1
    case _ => 0
  }

  function FailRank(pc: StartPc): nat {
    match pc
    case Failing => 3
    case FailWait => 2
    case FailFlags => 1
    case _ => 0
  }

  /** Draining steps the callers of signalStop have left. */
  function LifeRank(l: Life): nat {
    OnceRank(l.once) + WatcherRank(l.watcher) + FailRank(l.start) + 2 * l.stopsAtOnce + l.stopsAtWait
  }

  /** Draining steps the worker has left, with n subscribers. */
  function WorkerRank(pc: WorkerPc, n: nat): nat {
    match pc
    case Unborn => n + 10
    case Gone => 0
    case Parked => 1
    case Select => 1
    case ResetTimer => 2
    case DrainTick => 3
    case StopTimer => 4
    case CreateTimer => 2
    case AtSnapshot => n + 5
    case AtLoad(_) => n + 4
    case Applying(_, next, _) => 2 + (if next < n then n - next else 0)
  }

  function CrewRank(q: Queue): nat {
    q.idle.Size() + 2 * q.sending.Size() + 3 * q.inserting.Size()
  }

  function Rank(s: State): nat {
    LifeRank(s.life) + WorkerRank(s.worker.pc, |s.life.subs|) + CrewRank(s.queue)
  }

  /** The steps that give someone more to do: a select that takes another branch than stop, Start
      going on, and another call of Stop. */
  predicate Detours(s: State, a: Action) {
    match a
    case Starting(x) => x.LaunchWatcher? || x.LaunchTrigger?
    case Stopping(x) => x.StopCall?
    case Enqueuing(x) => x.Event?
    case Waiting(x) => x.Take? || x.Absorb? || x.TickReceive?
    case _ => false
  }

  predicate Draining(s: State, a: Action) {
    Drains(a)
  }

  /** The draining steps one detour can cause. */
  function PerDetour(s: State): nat {
    |s.life.subs| + 4
  }

  lemma StartRank(c: Setup, s: State, a: StartAction, t: State)
    requires Inv(s) && !s.life.start.Idle? && StartStep(c, s, a) == Some(t)
    ensures Rank(t) + One(Draining(s, Starting(a))) <= Rank(s) + 3 * One(Detours(s, Starting(a)))
  {
    hide CountInv, SubsInv, QuietInv;
  }

  lemma StopRank(s: State, a: StopAction, t: State)
    requires Inv(s) && StopStep(s, a) == Some(t)
    ensures Rank(t) + One(Draining(s, Stopping(a))) <= Rank(s) + 2 * One(Detours(s, Stopping(a)))
  {
    hide CountInv, SubsInv, QuietInv;
  }

  lemma EnqueueRank(s: State, a: EnqueueAction, t: State)
    requires EnqueueStep(s, a) == Some(t)
    ensures Rank(t) + One(Draining(s, Enqueuing(a))) <= Rank(s) + 2 * One(Detours(s, Enqueuing(a)))
  {}

  lemma WaitRank(c: Setup, s: State, a: WaitAction, t: State)
    requires WaitStep(c, s, a) == Some(t)
    ensures Rank(t) + One(Draining(s, Waiting(a))) <= Rank(s) + PerDetour(s) * One(Detours(s, Waiting(a)))
  {}

  lemma ReloadRank(s: State, a: ReloadAction, t: State)
    requires ReloadStep(s, a) == Some(t)
    ensures Rank(t) < Rank(s)
  {}

  /** Every draining step lowers the rank, and only detours raise it. */
  lemma RankStep(c: Setup, s: State, a: Action, t: State)
    requires Inv(s) && !s.life.start.Idle? && Step(c, s, a) == Some(t)
    ensures Rank(t) + One(Draining(s, a)) <= Rank(s) + PerDetour(s) * One(Detours(s, a))
  {
    hide StartStep, StopStep, EnqueueStep, WaitStep, ReloadStep, Inv, Rank;
    match a
    case Outside(_) => WorldRank(s, a.world, t);
    case Starting(x) => StartRank(c, s, x, t);
    case Stopping(x) => StopRank(s, x, t);
    case Enqueuing(x) => EnqueueRank(s, x, t);
    case Waiting(x) => WaitRank(c, s, x, t);
    case Reloading(x) => ReloadRank(s, x, t);
  }

  lemma WorldRank(s: State, a: WorldAction, t: State)
    requires WorldStep(s, a) == Some(t)
    ensures Rank(t) == Rank(s)
  {}

  ghost predicate Enabled(c: Setup, s: State, a: Action) {
    Step(c, s, a).Some?
  }

  /** With stopCh closed, each goroutine that is still there has a draining step of its own. */
  lemma EveryGoroutineCanLeave(c: Setup, s: State)
    requires Inv(s) && StopClosed(s)
    ensures WorkerAlive(s) ==> exists a :: Drains(a) && (a.Waiting? || a.Reloading?) && Enabled(c, s, a)
    ensures s.life.watcher.Selecting? ==> Enabled(c, s, Stopping(WatcherStop))
    ensures s.life.watcher.Signalling? ==> Enabled(c, s, Stopping(OncePass(ByWatcher)))
    ensures forall k :: s.queue.idle.Count(k) > 0 ==> Enabled(c, s, Enqueuing(TrigStop(k)))
    ensures forall k :: s.queue.inserting.Count(k) > 0 ==> Enabled(c, s, Enqueuing(TrigInsert(k)))
    ensures forall k :: s.queue.sending.Count(k) > 0 ==> Enabled(c, s, Enqueuing(TrigSend(k)))
    ensures s.queue.idle.Count(File) > 0 ==> Enabled(c, s, Enqueuing(TrigClosed))
  {
    if WorkerAlive(s) {
      var a := WorkerDrain(s);
      WorkerDrainEnabled(c, s);
      assert Drains(a) && Enabled(c, s, a);
    }
  }

  /** The worker's draining step at each of its program points. */
  function WorkerDrain(s: State): Action {
    match s.worker.pc
    case Parked => Waiting(WorkerStop)
    case Select => Waiting(WorkerStop)
    case CreateTimer => Waiting(NewTimer)
    case StopTimer => Waiting(TimerStop)
    case DrainTick => Waiting(TimerDrain)
    case ResetTimer => Waiting(TimerReset)
    case AtSnapshot => Reloading(Snapshot)
    case AtLoad(_) => Reloading(Load(false))
    case Applying(_, next, _) => if next < |s.life.subs| then Reloading(Apply(true)) else Reloading(Finish)
    case _ => Reloading(Finish)
  }

  lemma WorkerDrainEnabled(c: Setup, s: State)
    requires WorkerAlive(s) && StopClosed(s)
    ensures Drains(WorkerDrain(s)) && Enabled(c, s, WorkerDrain(s))
  {}

  // ---------- who asks for a stop ----------

  /** Somebody is on the way to signalStop, or it is under way or done: a Stop that found the
      Reloader started, a Start that failed, or a watcher whose context is canceled. */
  predicate StopAsked(s: State) {
    || !s.life.once.Fresh? || s.life.stopsAtOnce > 0 || s.life.start.Failing?
    || (s.world.canceled && !s.life.watcher.Absent?)
  }

  /** The same, read off the steps. */
  ghost predicate StopRequested(r: Run<State, Action>, n: nat)
    requires WellShaped(r) && n <= |r.acts|
  {
    || (exists k: nat :: k < n && r.acts[k] == Stopping(StopCall) && r.states[k].life.started)
    || (exists k: nat :: k < n && r.acts[k] == Starting(LaunchTrigger(false)) && !r.states[k + 1].life.start.Triggers?)
    || (Outside(Cancel) in r.acts[..n] && Starting(LaunchWatcher) in r.acts[..n])
  }

  lemma AskedStep(c: Setup, s: State, a: Action, t: State)
    requires LifeInv(s.life) && Step(c, s, a) == Some(t)
    ensures StopAsked(s) ==> StopAsked(t)
    ensures a == Stopping(StopCall) && s.life.started ==> StopAsked(t)
    ensures a == Starting(LaunchTrigger(false)) && !t.life.start.Triggers? ==> StopAsked(t)
  {}

  lemma CancelStep(c: Setup, s: State, a: Action, t: State)
    requires LifeInv(s.life) && Step(c, s, a) == Some(t)
    ensures t.world.canceled <==> s.world.canceled || a == Outside(Cancel)
    ensures t.life.watcher.Absent? <==> s.life.watcher.Absent? && a != Starting(LaunchWatcher)
  {}

  ghost predicate SeesCancel(s: State, o: State, past: seq<Action>) {
    && (s.world.canceled <==> o.world.canceled || Outside(Cancel) in past)
    && (s.life.watcher.Absent? <==> Starting(LaunchWatcher) !in past)
  }

  lemma {:induction false} CancelIsSeen(c: Setup, r: Run<State, Action>, n: nat)
    requires IsRun(c, r) && n <= |r.acts|
    ensures SeesCancel(r.states[n], r.states[0], r.acts[..n])
  {
    hide Step, Inv, LifeInv, SubsInv, BirthInv, CountInv, QuietInv, SeesCancel, Initial;
    if n > 0 {
      var s, a, t := r.states[n - 1], r.acts[n - 1], r.states[n];
      CancelIsSeen(c, r, n - 1);
      RunStep(c, r, n - 1);
      CancelGrows(c, s, a, t, r.states[0], r.acts[..n - 1]);
      assert r.acts[..n] == r.acts[..n - 1] + [a];
    } else {
      NotSeenAtFirst(r.states[0]);
      assert r.acts[..0] == [];
    }
  }

  lemma CancelGrows(c: Setup, s: State, a: Action, t: State, o: State, past: seq<Action>)
    requires LifeInv(s.life) && Step(c, s, a) == Some(t) && SeesCancel(s, o, past)
    ensures SeesCancel(t, o, past + [a])
  {
    CancelStep(c, s, a, t);
    hide Step, LifeInv;
  }

  lemma NotSeenAtFirst(s: State)
    requires Initial(s)
    ensures SeesCancel(s, s, [])
  {}

  lemma {:induction false} RequestStands(c: Setup, r: Run<State, Action>, n: nat)
    requires IsRun(c, r) && n <= |r.acts| && StopRequested(r, n)
    ensures StopAsked(r.states[n])
  {
    hide Step, Inv, Initial;
    CancelIsSeen(c, r, n);
    if !(Outside(Cancel) in r.acts[..n] && Starting(LaunchWatcher) in r.acts[..n]) {
      RunStep(c, r, n - 1);
      AskedStep(c, r.states[n - 1], r.acts[n - 1], r.states[n]);
      if StopRequested(r, n - 1) { RequestStands(c, r, n - 1); }
    }
  }

  /** A stop that was asked for is given: where nobody on the way to signalStop has a step left,
      the flag is set, stopCh is closed, every Stop has come to its wait, and the watcher of a
      canceled context has left. */
  lemma SignalIsGiven(c: Setup, s: State)
    requires Inv(s) && StopAsked(s)
    requires forall x: StopAction :: !x.StopCall? && !x.StopReturn? ==> !Enabled(c, s, Stopping(x))
    ensures StopClosed(s) && s.life.stopped && s.life.stopsAtOnce == 0 && !s.life.start.Failing?
    ensures !WatcherAlive(s)
  {
    assert !Enabled(c, s, Stopping(OnceFlag)) && !Enabled(c, s, Stopping(OnceClose));
    assert !Enabled(c, s, Stopping(WatcherCancel)) && !Enabled(c, s, Stopping(WatcherStop));
    forall who: Caller ensures !AtOnce(s.life, who) {
      assert !Enabled(c, s, Stopping(OnceEnter(who))) && !Enabled(c, s, Stopping(OncePass(who)));
    }
    assert !AtOnce(s.life, ByStop) && !AtOnce(s.life, ByWatcher) && !AtOnce(s.life, ByStart);
  }

  // ---------- everyone leaves ----------

  /** No draining step is left. */
  ghost predicate Drained(c: Setup, s: State) {
    forall a :: Drains(a) ==> !Enabled(c, s, a)
  }

  /** Every goroutine has exited, and every Stop and a Start that failed have returned. */
  predicate Over(s: State) {
    && StopClosed(s) && s.life.stopped && LiveGoroutines(s) == 0 && s.wg == 0
    && s.life.stopsAtOnce == 0 && s.life.stopsAtWait == 0
    && !s.life.start.Failing? && !s.life.start.FailWait? && !s.life.start.FailFlags?
  }

  /** Once a stop was asked for and nothing can drain any further, everyone is gone. */
  lemma DrainedMeansOver(c: Setup, s: State)
    requires Inv(s) && StopAsked(s) && Drained(c, s)
    ensures Over(s)
  {
    forall x: StopAction | !x.StopCall? && !x.StopReturn? ensures !Enabled(c, s, Stopping(x)) {
      assert Drains(Stopping(x));
    }
    SignalIsGiven(c, s);
    NobodyInBags(c, s);
    WorkerIsGone(c, s);
    hide LifeInv, SubsInv, BirthInv, QuietInv;
    assert s.wg == 0;
    assert !Enabled(c, s, Stopping(StopReturn));
    assert !Enabled(c, s, Starting(FailWaited)) && !Enabled(c, s, Starting(FailReturn));
  }

  lemma WorkerIsGone(c: Setup, s: State)
    requires Inv(s) && StopClosed(s) && Drained(c, s)
    ensures !WorkerAlive(s)
  {
    if WorkerAlive(s) { WorkerDrainEnabled(c, s); }
  }

  lemma NobodyInBags(c: Setup, s: State)
    requires Inv(s) && StopClosed(s) && Drained(c, s)
    ensures TriggerGoroutines(s.queue) == 0
  {
    EveryGoroutineCanLeave(c, s);
    forall k: Kind
      ensures s.queue.idle.Count(k) == 0 && s.queue.inserting.Count(k) == 0 && s.queue.sending.Count(k) == 0
    {
      assert !Enabled(c, s, Enqueuing(TrigStop(k)));
      assert !Enabled(c, s, Enqueuing(TrigInsert(k)));
      assert !Enabled(c, s, Enqueuing(TrigSend(k)));
    }
    hide Step, Inv, Enabled, Drains, Drained;
    EmptyBags(s.queue);
  }

  lemma EmptyBags(q: Queue)
    requires forall k: Kind :: q.idle.Count(k) == 0 && q.inserting.Count(k) == 0 && q.sending.Count(k) == 0
    ensures TriggerGoroutines(q) == 0
  {
    assert q.idle.Count(Sighup) == 0 && q.idle.Count(File) == 0;
    assert q.inserting.Count(Sighup) == 0 && q.inserting.Count(File) == 0;
    assert q.sending.Count(Sighup) == 0 && q.sending.Count(File) == 0;
  }

  /** Stop completes, whatever goes on beside it. Between any two points of a started run, with
      any calls, events, edits and passing of time in between, the draining steps are at most the
      rank at the first plus a constant for each detour; and once a Stop found the Reloader
      started, a Start failed, or the context of a launched watcher was canceled, a point where
      no draining step is left has stopCh closed, every goroutine gone and every Stop returned. */
  lemma StopCompletes(c: Setup, r: Run<State, Action>, i: nat, n: nat)
    requires IsRun(c, r) && i <= n <= |r.acts| && !r.states[i].life.start.Idle?
    ensures Tally(r, i, n, Draining) <= Rank(r.states[i]) + PerDetour(r.states[i]) * Tally(r, i, n, Detours)
    ensures StopRequested(r, n) && Drained(c, r.states[n]) ==> Over(r.states[n])
  {
    RankHolds(c, r, i, n);
    hide Step, Inv, Drained, Over, StopAsked, StopRequested, Rank, PerDetour;
    RunInv(c, r, n);
    if StopRequested(r, n) && Drained(c, r.states[n]) {
      RequestStands(c, r, n);
      DrainedMeansOver(c, r.states[n]);
    }
  }

  lemma {:induction false} RankHolds(c: Setup, r: Run<State, Action>, i: nat, n: nat)
    requires IsRun(c, r) && i <= n <= |r.acts| && !r.states[i].life.start.Idle?
    ensures Tally(r, i, n, Draining) + Rank(r.states[n])
            <= Rank(r.states[i]) + PerDetour(r.states[i]) * Tally(r, i, n, Detours)
    decreases n
  {
    hide Step, Initial, Rank, PerDetour, Draining, Detours, One;
    if i < n {
      RankHolds(c, r, i, n - 1);
      RankAlong(c, r, i, n - 1);
      Distributes(PerDetour(r.states[i]), Tally(r, i, n - 1, Detours), One(Detours(r.states[n - 1], r.acts[n - 1])));
    }
  }

  lemma RankAlong(c: Setup, r: Run<State, Action>, i: nat, n: nat)
    requires IsRun(c, r) && i <= n < |r.acts| && !r.states[i].life.start.Idle?
    ensures var s, a := r.states[n], r.acts[n];
      Rank(r.states[n + 1]) + One(Draining(s, a)) <= Rank(s) + PerDetour(r.states[i]) * One(Detours(s, a))
  {
    hide Step, Inv, BirthInv, Rank, Draining, Detours, One;
    RunStep(c, r, n);
    SubscribersFrozen(c, r, i, n);
    RankStep(c, r.states[n], r.acts[n], r.states[n + 1]);
  }

  // ---------- no Stop is lost ----------

  predicate FindsStarted(s: State, a: Action) {
    a == Stopping(StopCall) && s.life.started
  }

  predicate WaitEnds(s: State, a: Action) {
    a == Stopping(StopReturn)
  }

  /** A Stop that is inside the Once. */
  predicate InOnce(l: Life) {
    (l.once.Flagging? || l.once.Closing?) && l.once.who.ByStop?
  }

  lemma StopsStep(c: Setup, s: State, a: Action, t: State)
    requires Step(c, s, a) == Some(t)
    ensures t.life.stopsAtOnce + One(InOnce(t.life)) + t.life.stopsAtWait + One(WaitEnds(s, a))
            == s.life.stopsAtOnce + One(InOnce(s.life)) + s.life.stopsAtWait + One(FindsStarted(s, a))
  {
    match a
    case Stopping(x) => StopsStopping(s, x, t);
    case _ =>
  }

  lemma StopsStopping(s: State, a: StopAction, t: State)
    requires StopStep(s, a) == Some(t)
    ensures t.life.stopsAtOnce + One(InOnce(t.life)) + t.life.stopsAtWait + One(WaitEnds(s, Stopping(a)))
            == s.life.stopsAtOnce + One(InOnce(s.life)) + s.life.stopsAtWait + One(FindsStarted(s, Stopping(a)))
  {}

  /** Every Stop that found the Reloader started is before the Once, in it, waiting, or has
      returned. */
  lemma {:induction false} StopsConserved(c: Setup, r: Run<State, Action>, n: nat)
    requires IsRun(c, r) && n <= |r.acts|
    ensures var l := r.states[n].life;
      Tally(r, 0, n, FindsStarted) == l.stopsAtOnce + One(InOnce(l)) + l.stopsAtWait + Tally(r, 0, n, WaitEnds)
  {
    hide Step, Inv, InOnce, FindsStarted, WaitEnds, One, Initial;
    if n > 0 {
      StopsConserved(c, r, n - 1);
      RunStep(c, r, n - 1);
      StopsStep(c, r.states[n - 1], r.acts[n - 1], r.states[n]);
    } else {
      NoStopAtFirst(r.states[0]);
    }
  }

  lemma NoStopAtFirst(s: State)
    requires Initial(s)
    ensures s.life.stopsAtOnce == One(InOnce(s.life)) == s.life.stopsAtWait == 0
  {}

  // ---------- finality ----------

  lemma {:induction false} GoneForever(c: Setup, r: Run<State, Action>, i: nat, n: nat)
    requires IsRun(c, r) && i <= n < |r.states| && r.states[i].worker.pc.Gone?
    ensures r.states[n].worker.pc.Gone?
    ensures n < |r.acts| ==> !r.acts[n].Reloading?
    decreases n
  {
    hide Step, Inv;
    if i < n {
      GoneForever(c, r, i, n - 1);
      RunStep(c, r, n - 1);
      WorkerEffects(c, r.states[n - 1], r.acts[n - 1], r.states[n]);
    }
    if n < |r.acts| {
      RunStep(c, r, n);
      WorkerEffects(c, r.states[n], r.acts[n], r.states[n + 1]);
    }
  }

  /** A Stop returns: from its wait, or at once because it found nothing started. */
  predicate StopReturns(s: State, a: Action) {
    a == Stopping(StopReturn) || (a == Stopping(StopCall) && !s.life.started)
  }

  lemma NobodyLeft(s: State, past: seq<Action>)
    requires Inv(s) && (s.wg == 0 || !s.life.started)
    requires TellsHistory(s.life, past) && Starting(LaunchWorker) in past
    ensures s.worker.pc.Gone?
  {}

  lemma WaitIsOver(c: Setup, s: State, t: State)
    requires Step(c, s, Stopping(StopReturn)) == Some(t)
    ensures s.wg == 0
  {}

  /** Stop is final: if Start has launched its worker (in particular if Start has returned)
      by the time a Stop returns, no step of any reload comes after it, whatever triggers,
      timers and callers still do. */
  lemma NothingAfterStop(c: Setup, r: Run<State, Action>, i: nat, n: nat)
    requires IsRun(c, r) && i <= n < |r.acts|
    requires StopReturns(r.states[i], r.acts[i]) && Starting(LaunchWorker) in r.acts[..i]
    ensures !r.acts[n].Reloading?
  {
    hide Step, Inv, BirthInv, TellsHistory;
    RunStep(c, r, i);
    if r.acts[i] == Stopping(StopReturn) { WaitIsOver(c, r.states[i], r.states[i + 1]); }
    FlagsTellTheHistory(c, r, i);
    NobodyLeft(r.states[i], r.acts[..i]);
    GoneForever(c, r, i, n);
  }

  // ---------- a Stop that overlaps its Start ----------

  /** Some continuation starts a reload. */
  ghost predicate CanReload(c: Setup, s: State) {
    exists t :: Reaches(c, s, t) && t.worker.pc.AtSnapshot?
  }

  /** Something can still hand the worker a token: the channel, a Trigger caller that read the
      flags before the stop, or a trigger goroutine Start has yet to launch. */
  predicate CanWake(c: Setup, q: Queue) {
    q.token || q.toInsert != map[] || q.toSend > 0 || c.sources != []
  }

  lemma TokenReloads(c: Setup, o: State, s: State)
    requires Reaches(c, o, s) && s.worker.pc.Parked? && s.queue.token
    ensures CanReload(c, o)
  {
    hide Reaches;
    var t := Go(c, o, s, Waiting(Take));
    if c.debounce > 0 {
      t := Go(c, o, t, Waiting(NewTimer));
      t := Go(c, o, t, Outside(Advance(c.debounce)));
      t := Go(c, o, t, Waiting(FireTimer));
      t := Go(c, o, t, Waiting(TickReceive));
    }
  }

  lemma LaunchedReloads(c: Setup, o: State, s: State)
    requires Reaches(c, o, s) && s.life.start.Launched? && s.worker.pc.Parked? && CanWake(c, s.queue)
    ensures CanReload(c, o)
  {
    hide Reaches;
    var t := s;
    if s.queue.token {
    } else if s.queue.toInsert != map[] {
      var id :| id in s.queue.toInsert;
      t := Go(c, o, s, Enqueuing(Insert(id, s.queue.toInsert[id])));
      t := Go(c, o, t, Enqueuing(Send));
    } else if s.queue.toSend > 0 {
      t := Go(c, o, s, Enqueuing(Send));
    } else {
      var k := c.sources[0];
      t := Go(c, o, s, Starting(LaunchWatcher));
      t := Go(c, o, t, Starting(LaunchTrigger(true)));
      t := Go(c, o, t, Enqueuing(Event(k)));
      t := Go(c, o, t, Enqueuing(TrigInsert(k)));
      t := Go(c, o, t, Enqueuing(TrigSend(k)));
    }
    TokenReloads(c, o, t);
  }

  /** No reload can come: the worker is gone, or nothing can wake it and nobody may enqueue. */
  ghost predicate Barren(c: Setup, s: State) {
    || s.worker.pc.Gone?
    || (StopClosed(s) && s.life.stopped && !CanWake(c, s.queue) && TriggerGoroutines(s.queue) == 0
        && (s.worker.pc.Unborn? || s.worker.pc.Parked?))
  }

  lemma BarrenStep(c: Setup, s: State, a: Action, t: State)
    requires Inv(s) && Barren(c, s) && Step(c, s, a) == Some(t)
    ensures Barren(c, t)
  {
    hide CountInv, SubsInv, QuietInv;
  }

  lemma {:induction false} BarrenHolds(c: Setup, r: Run<State, Action>, n: nat)
    requires Follows(c, r) && Inv(r.states[0]) && Barren(c, r.states[0]) && n < |r.states|
    ensures Barren(c, r.states[n])
  {
    hide Step, Inv, Barren;
    if n > 0 {
      BarrenHolds(c, r, n - 1);
      InvHolds(c, r, n - 1);
      BarrenStep(c, r.states[n - 1], r.acts[n - 1], r.states[n]);
    }
  }

  lemma BarrenNeverReloads(c: Setup, s: State)
    requires Inv(s) && Barren(c, s)
    ensures !CanReload(c, s)
  {
    hide Step, Inv;
    forall t | Reaches(c, s, t) ensures !t.worker.pc.AtSnapshot? {
      var r: Run<State, Action> :| Follows(c, r) && r.states[0] == s && r.states[|r.acts|] == t;
      BarrenHolds(c, r, |r.acts|);
    }
  }

  lemma StopReturnEffect(c: Setup, s: State, a: Action, t: State)
    requires StopReturns(s, a) && Step(c, s, a) == Some(t)
    ensures t.worker == s.worker && t.queue == s.queue && t.life.start == s.life.start && t.wg == s.wg
    ensures if a.stop.StopCall? then t == s else s.wg == 0 && s.life.stopsAtWait > 0
  {}

  /** The promise "nothing after Stop" fails in exactly two ways. A Stop that waited fails it if
      its wait ended before Start had launched the worker and something can still wake that; a
      Stop that found nothing started fails it if there was no Start before it. A caller avoids
      both by letting Start return before calling Stop. */
  lemma LateReloadExactly(c: Setup, s: State, a: Action, t: State)
    requires Inv(s) && StopReturns(s, a) && Step(c, s, a) == Some(t)
    ensures CanReload(c, t) <==>
      if a == Stopping(StopReturn) then s.life.start.Flagged? && CanWake(c, s.queue) else s.life.start.Idle?
  {
    StopReturnEffect(c, s, a, t);
    InvStep(c, s, a, t);
    if a == Stopping(StopCall) && s.life.start.Idle? {
      IdleReloads(c, t);
    } else if a == Stopping(StopReturn) && s.life.start.Flagged? && CanWake(c, s.queue) {
      ReachesItself(c, t);
      var u := Go(c, t, t, Starting(LaunchWorker));
      LaunchedReloads(c, t, u);
    } else {
      NoReloadLeft(c, s, a, t);
      BarrenNeverReloads(c, t);
    }
  }

  /** Before Start, everything can still come. */
  lemma IdleReloads(c: Setup, s: State)
    requires Inv(s) && s.life.start.Idle?
    ensures CanReload(c, s)
  {
    ReachesItself(c, s);
    hide Reaches, CanReload;
    var t := Go(c, s, s, Starting(StartCall));
    t := Go(c, s, t, Starting(LaunchWorker));
    t := Go(c, s, t, Enqueuing(TriggerCall(0, "manual")));
    assert 0 in t.queue.toInsert;
    LaunchedReloads(c, s, t);
  }

  lemma NoReloadLeft(c: Setup, s: State, a: Action, t: State)
    requires Inv(s) && Inv(t) && StopReturns(s, a) && Step(c, s, a) == Some(t)
    requires !(a == Stopping(StopReturn) && s.life.start.Flagged? && CanWake(c, s.queue))
    requires !(a == Stopping(StopCall) && s.life.start.Idle?)
    ensures Barren(c, t)
  {
    StopReturnEffect(c, s, a, t);
  }

  /** One such run, from the start: Stop returns between Start's flags and its launch. */
  lemma StopDuringStart(c: Setup, o: State)
    requires Initial(o)
    ensures exists s, t :: Reaches(c, o, s) && Step(c, s, Stopping(StopReturn)) == Some(t) && CanReload(c, t)
  {
    ReachesItself(c, o);
    hide Reaches, CanReload;
    var s := Go(c, o, o, Starting(StartCall));
    s := Go(c, o, s, Enqueuing(TriggerCall(0, "manual")));
    s := Go(c, o, s, Stopping(StopCall));
    s := Go(c, o, s, Stopping(OnceEnter(ByStop)));
    s := Go(c, o, s, Stopping(OnceFlag));
    s := Go(c, o, s, Stopping(OnceClose));
    var t := Go(c, o, s, Stopping(StopReturn));
    assert 0 in s.queue.toInsert;
    InitialInv(o);
    ReachesInv(c, o, s);
    LateReloadExactly(c, s, Stopping(StopReturn), t);
  }
}

/** Start, once it has passed its flag check, and the trigger goroutines it launches: one for
    each configured source, each living until the stop. */
module ReloadStart {
  import opened Wrappers
  import opened Text
  import opened Traces
  import opened ReloadProtocol
  import opened ReloadLifecycle
  import opened ReloadWakeup

  // ---------- one goroutine for each source ----------

  /** Trigger goroutines of kind k, wherever they are. */
  function OfKind(q: Queue, k: Kind): nat {
    q.idle.Count(k) + q.inserting.Count(k) + q.sending.Count(k)
  }

  /** The exits of trigger goroutines of kind k. */
  function Leaves(k: Kind): (State, Action) -> bool {
    (s: State, a: Action) => a == Enqueuing(TrigStop(k)) || (k.File? && a == Enqueuing(TrigClosed))
  }

  /** The sources Start has been through, as long as none has failed. */
  function Reached(c: Setup, l: Life): seq<Kind> {
    match l.start
    case Triggers(next) => if next <= |c.sources| then c.sources[..next] else c.sources
    case Succeeded => c.sources
    case _ => []
  }

  predicate GoesWell(l: Life) {
    l.start.Idle? || l.start.Flagged? || l.start.Launched? || l.start.Triggers? || l.start.Succeeded?
  }

  lemma CrewStep(c: Setup, s: State, a: Action, t: State, k: Kind)
    requires Step(c, s, a) == Some(t) && !(a.Starting? && a.start.LaunchTrigger?)
    ensures OfKind(t.queue, k) == OfKind(s.queue, k) - One(Leaves(k)(s, a))
  {
    match a
    case Enqueuing(x) => CrewEnqueuing(s, x, t, k);
    case _ =>
  }

  lemma CrewEnqueuing(s: State, a: EnqueueAction, t: State, k: Kind)
    requires EnqueueStep(s, a) == Some(t)
    ensures OfKind(t.queue, k) == OfKind(s.queue, k) - One(Leaves(k)(s, Enqueuing(a)))
  {}

  lemma ReachedStep(c: Setup, s: State, a: Action, t: State)
    requires LifeInv(s.life) && Step(c, s, a) == Some(t) && GoesWell(t.life)
    requires !(a.Starting? && a.start.LaunchTrigger?)
    ensures GoesWell(s.life) && Reached(c, t.life) == Reached(c, s.life)
  {}

  lemma LaunchStep(c: Setup, s: State, ok: bool, t: State, k: Kind)
    requires Step(c, s, Starting(LaunchTrigger(ok))) == Some(t) && GoesWell(t.life)
    ensures s.life.start.Triggers? && s.life.start.next < |c.sources|
    ensures var now := c.sources[s.life.start.next];
      && Reached(c, t.life) == Reached(c, s.life) + [now]
      && OfKind(t.queue, k) == OfKind(s.queue, k) + One(now == k)
  {}

  lemma {:induction false} CrewHolds(c: Setup, r: Run<State, Action>, n: nat, k: Kind)
    requires IsRun(c, r) && n <= |r.acts| && GoesWell(r.states[n].life)
    ensures OfKind(r.states[n].queue, k) + Tally(r, 0, n, Leaves(k)) == multiset(Reached(c, r.states[n].life))[k]
  {
    hide Step, Inv, SubsInv, BirthInv, CountInv, QuietInv, LifeInv, OfKind, Leaves, Reached, GoesWell, Initial;
    if n > 0 {
      var s, a, t := r.states[n - 1], r.acts[n - 1], r.states[n];
      RunStep(c, r, n - 1);
      if a.Starting? && a.start.LaunchTrigger? {
        LaunchStep(c, s, a.start.ok, t, k);
        LaunchGoesWell(c, s, a.start.ok, t, k);
        CrewHolds(c, r, n - 1, k);
      } else {
        ReachedStep(c, s, a, t);
        CrewHolds(c, r, n - 1, k);
        CrewStep(c, s, a, t, k);
      }
    } else {
      NobodyAtFirst(c, r.states[0], k);
    }
  }

  lemma LaunchGoesWell(c: Setup, s: State, ok: bool, t: State, k: Kind)
    requires Step(c, s, Starting(LaunchTrigger(ok))) == Some(t)
    ensures GoesWell(s.life) && !Leaves(k)(s, Starting(LaunchTrigger(ok)))
  {}

  lemma NobodyAtFirst(c: Setup, s: State, k: Kind)
    requires Initial(s)
    ensures OfKind(s.queue, k) == 0 && Reached(c, s.life) == []
  {}

  lemma LeavesOnStop(c: Setup, s: State, a: Action, t: State, k: Kind)
    requires Step(c, s, a) == Some(t) && Leaves(k)(s, a)
    ensures StopClosed(t) || (k.File? && a == Enqueuing(TrigClosed))
  {}

  /** Before stopCh is closed nobody leaves but a file trigger whose watcher broke down. */
  lemma {:induction false} NobodyLeavesEarly(c: Setup, r: Run<State, Action>, n: nat, k: Kind)
    requires IsRun(c, r) && n <= |r.acts| && !StopClosed(r.states[n])
    requires k.File? ==> Enqueuing(TrigClosed) !in r.acts[..n]
    ensures Tally(r, 0, n, Leaves(k)) == 0
  {
    hide Step, Inv, LifeInv, StopClosed, Leaves, Initial;
    if n > 0 {
      RunStep(c, r, n - 1);
      StoppedIsMonotone(c, r, n - 1, n);
      assert r.acts[..n] == r.acts[..n - 1] + [r.acts[n - 1]];
      NobodyLeavesEarly(c, r, n - 1, k);
      if Leaves(k)(r.states[n - 1], r.acts[n - 1]) {
        LeavesOnStop(c, r.states[n - 1], r.acts[n - 1], r.states[n], k);
      }
    }
  }

  /** Once Start has returned nil there is, for each kind, one trigger goroutine for each time it
      is configured, less those that left; and until the stop closes stopCh none leaves, except
      for a file trigger whose watcher broke down. Each of them that waits can take an event. */
  lemma SourcesAreWatched(c: Setup, r: Run<State, Action>, n: nat, k: Kind)
    requires IsRun(c, r) && n <= |r.acts| && r.states[n].life.start.Succeeded?
    ensures OfKind(r.states[n].queue, k) + Tally(r, 0, n, Leaves(k)) == multiset(c.sources)[k]
    ensures !StopClosed(r.states[n]) && (k.File? ==> Enqueuing(TrigClosed) !in r.acts[..n]) ==>
      OfKind(r.states[n].queue, k) == multiset(c.sources)[k]
    ensures r.states[n].queue.idle.Count(k) > 0 ==> Step(c, r.states[n], Enqueuing(Event(k))).Some?
  {
    CrewHolds(c, r, n, k);
    if !StopClosed(r.states[n]) && (k.File? ==> Enqueuing(TrigClosed) !in r.acts[..n]) {
      NobodyLeavesEarly(c, r, n, k);
    }
  }

  // ---------- Start itself ----------

  /** Start never stalls: at each of its points its next step is enabled, whatever its file
      watcher does, except that a failing Start waits for its goroutines. */
  lemma StartGoesOn(c: Setup, s: State)
    ensures s.life.start.Flagged? ==> Step(c, s, Starting(LaunchWorker)).Some?
    ensures s.life.start.Launched? ==> Step(c, s, Starting(LaunchWatcher)).Some?
    ensures s.life.start.Triggers? ==>
      if s.life.start.next < |c.sources| then forall ok :: Step(c, s, Starting(LaunchTrigger(ok))).Some?
      else Step(c, s, Starting(StartReturn)).Some?
    ensures s.life.start.FailWait? ==> (Step(c, s, Starting(FailWaited)).Some? <==> s.wg == 0)
    ensures s.life.start.FailFlags? ==> Step(c, s, Starting(FailReturn)).Some?
  {}

  /** The step at which a file trigger cannot be set up. */
  predicate Breaks(c: Setup, s: State, a: Action) {
    a == Starting(LaunchTrigger(false)) && s.life.start.Triggers? && s.life.start.next < |c.sources|
    && c.sources[s.life.start.next].File?
  }

  ghost predicate Broke(c: Setup, r: Run<State, Action>, n: nat)
    requires WellShaped(r) && n <= |r.acts|
  {
    exists k: nat :: k < n && Breaks(c, r.states[k], r.acts[k])
  }

  lemma BreakStep(c: Setup, s: State, a: Action, t: State)
    requires LifeInv(s.life) && Step(c, s, a) == Some(t)
    ensures GoesWell(t.life) <==> GoesWell(s.life) && !Breaks(c, s, a)
  {}

  /** Start takes the failure path exactly if a file trigger could not be set up; a failing
      signal trigger does not exist. */
  lemma {:induction false} StartFailsExactly(c: Setup, r: Run<State, Action>, n: nat)
    requires IsRun(c, r) && n <= |r.acts|
    ensures !GoesWell(r.states[n].life) <==> Broke(c, r, n)
  {
    hide Step, Inv, LifeInv, GoesWell, Breaks, Initial;
    if n > 0 {
      StartFailsExactly(c, r, n - 1);
      RunStep(c, r, n - 1);
      BreakStep(c, r.states[n - 1], r.acts[n - 1], r.states[n]);
      assert Breaks(c, r.states[n - 1], r.acts[n - 1]) ==> Broke(c, r, n);
    } else {
      WellAtFirst(r.states[0]);
    }
  }

  lemma WellAtFirst(s: State)
    requires Initial(s)
    ensures GoesWell(s.life)
  {}
}

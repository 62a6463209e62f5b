/** debounceWait under a clock: the tick that ends it belongs to the latest arming of the
    timer, so reloads start only after a full quiet window, and no later than that. */
module ReloadDebounce {
  import opened Text
  import opened Wrappers
  import opened Traces
  import opened ReloadProtocol
  import opened ReloadLifecycle
  import opened ReloadWakeup

  // ---------- the timer ----------

  /** An armed timer has an empty tick channel; while debounceWait selects, exactly one of the
      two holds; a drained or stopped timer has neither, and a worker that is gone leaves none
      running. */
  ghost predicate TimerInv(s: State) {
    var pc, timer := s.worker.pc, s.worker.timer;
    && !(timer.armed && timer.tick)
    && (pc.Select? || pc.StopTimer? ==> timer.armed || timer.tick)
    && (pc.DrainTick? ==> timer.tick)
    && (pc.Gone? ==> !timer.armed)
    && (pc.ResetTimer? || pc.AtSnapshot? || pc.AtLoad? || pc.Applying? || pc.Parked? || pc.CreateTimer? || pc.Unborn? ==>
          !timer.armed && !timer.tick)
  }

  lemma TimerStep(c: Setup, s: State, a: Action, t: State)
    requires BirthInv(s) && TimerInv(s) && Step(c, s, a) == Some(t)
    ensures TimerInv(t)
  {}

  /** The non-blocking drain of debounceWait always finds the tick it is meant for, so its
      default branch is never taken and no stale tick survives a reset. */
  lemma {:induction false} TimerHolds(c: Setup, r: Run<State, Action>, n: nat)
    requires IsRun(c, r) && n < |r.states|
    ensures TimerInv(r.states[n])
  {
    hide Step, Inv, BirthInv, TimerInv;
    if n > 0 {
      TimerHolds(c, r, n - 1);
      RunStep(c, r, n - 1);
      TimerStep(c, r.states[n - 1], r.acts[n - 1], r.states[n]);
    } else {
      TimerAtFirst(r.states[0]);
    }
  }

  lemma TimerAtFirst(s: State)
    requires Initial(s)
    ensures TimerInv(s)
  {}

  predicate Arms(a: Action) {
    a == Waiting(NewTimer) || a == Waiting(TimerReset)
  }

  /** When the timer was last created or reset, read off the run. */
  ghost function LastArmed(r: Run<State, Action>, n: nat): int
    requires WellShaped(r) && n <= |r.acts|
  {
    if n == 0 then r.states[0].world.now
    else if Arms(r.acts[n - 1]) then r.states[n - 1].world.now
    else LastArmed(r, n - 1)
  }

  ghost predicate ArmedAt(c: Setup, s: State, armed: int) {
    s.worker.timer.armed ==> s.worker.timer.deadline == armed + c.debounce
  }

  lemma ArmedStep(c: Setup, s: State, a: Action, t: State, armed: int)
    requires ArmedAt(c, s, armed) && Step(c, s, a) == Some(t)
    ensures ArmedAt(c, t, if Arms(a) then s.world.now else armed)
    ensures Arms(a) ==> t.worker.timer.armed
  {}

  lemma {:induction false} DeadlineHolds(c: Setup, r: Run<State, Action>, n: nat)
    requires IsRun(c, r) && n <= |r.acts|
    ensures ArmedAt(c, r.states[n], LastArmed(r, n))
  {
    hide Step, Inv, BirthInv, ArmedAt, Arms, Initial;
    if n > 0 {
      DeadlineHolds(c, r, n - 1);
      RunStep(c, r, n - 1);
      ArmedStep(c, r.states[n - 1], r.acts[n - 1], r.states[n], LastArmed(r, n - 1));
    } else {
      UnarmedAtFirst(c, r.states[0]);
    }
  }

  lemma UnarmedAtFirst(c: Setup, s: State)
    requires Initial(s)
    ensures ArmedAt(c, s, s.world.now)
  {}

  /** Every arming is for one window: an armed timer's deadline is the time of its last creation
      or reset plus the window, and it can fire exactly from then on. */
  lemma ArmedForOneWindow(c: Setup, r: Run<State, Action>, n: nat)
    requires IsRun(c, r) && n <= |r.acts|
    ensures var s := r.states[n];
      && (s.worker.timer.armed ==> s.worker.timer.deadline == LastArmed(r, n) + c.debounce)
      && (Step(c, s, Waiting(FireTimer)).Some? <==>
            s.worker.timer.armed && LastArmed(r, n) + c.debounce <= s.world.now)
  {
    DeadlineHolds(c, r, n);
  }

  // ---------- the quiet window ----------

  predicate TakesToken(a: Action) {
    a == Waiting(Take) || a == Waiting(Absorb)
  }

  /** When the worker last consumed a token, read off the run. */
  ghost function LastToken(r: Run<State, Action>, n: nat): int
    requires WellShaped(r) && n <= |r.acts|
  {
    if n == 0 then r.states[0].world.now
    else if TakesToken(r.acts[n - 1]) then r.states[n - 1].world.now
    else LastToken(r, n - 1)
  }

  /** While debounceWait selects, the timer runs or has run for a full window since `last`. */
  ghost predicate WindowInv(c: Setup, s: State, last: int) {
    && last <= s.world.now
    && (s.worker.pc.Select? && s.worker.timer.armed ==> last + c.debounce <= s.worker.timer.deadline)
    && (s.worker.pc.Select? && s.worker.timer.tick ==> last + c.debounce <= s.world.now)
  }

  lemma WindowStep(c: Setup, s: State, a: Action, t: State, last: int)
    requires BirthInv(s) && TimerInv(s) && WindowInv(c, s, last) && Step(c, s, a) == Some(t)
    ensures WindowInv(c, t, if TakesToken(a) then s.world.now else last)
    ensures a == Waiting(TickReceive) ==> last + c.debounce <= s.world.now
  {}

  lemma {:induction false} WindowHolds(c: Setup, r: Run<State, Action>, n: nat)
    requires IsRun(c, r) && n <= |r.acts|
    ensures WindowInv(c, r.states[n], LastToken(r, n))
  {
    hide Step, Inv, BirthInv, TimerInv, WindowInv;
    if n > 0 {
      WindowHolds(c, r, n - 1);
      RunStep(c, r, n - 1);
      TimerHolds(c, r, n - 1);
      WindowStep(c, r.states[n - 1], r.acts[n - 1], r.states[n], LastToken(r, n - 1));
    } else {
      WindowAtFirst(c, r.states[0]);
    }
  }

  lemma WindowAtFirst(c: Setup, s: State)
    requires Initial(s)
    ensures WindowInv(c, s, s.world.now)
  {}

  /** debounceWait returns true on a tick only when at least `debounce` has passed since the
      last token it consumed, however often it was reset in between. */
  lemma DebounceWaitsOutTheWindow(c: Setup, r: Run<State, Action>, n: nat)
    requires IsRun(c, r) && n < |r.acts| && r.acts[n] == Waiting(TickReceive)
    ensures WellShaped(r) && LastToken(r, n) + c.debounce <= r.states[n].world.now
  {
    hide Step, Inv, BirthInv, TimerInv, WindowInv;
    RunStep(c, r, n);
    WindowHolds(c, r, n);
    TimerHolds(c, r, n);
    WindowStep(c, r.states[n], r.acts[n], r.states[n + 1], LastToken(r, n));
  }

  // ---------- spacing of reloads ----------

  /** With a positive window, how far the next reload has got since time t0. */
  ghost predicate Spaced(c: Setup, s: State, last: int, t0: int) {
    && t0 <= s.world.now
    && (BeforeSnapshot(s.worker.pc) ==> t0 <= last)
    && (s.worker.pc.AtSnapshot? ==> t0 + c.debounce <= s.world.now)
  }

  lemma SpacedStep(c: Setup, s: State, a: Action, t: State, last: int, t0: int)
    requires c.debounce > 0
    requires BirthInv(s) && TimerInv(s) && WindowInv(c, s, last) && Spaced(c, s, last, t0)
    requires Step(c, s, a) == Some(t)
    ensures Spaced(c, t, if TakesToken(a) then s.world.now else last, t0)
  {}

  lemma SpacedAfterSnapshot(c: Setup, s: State, t: State, last: int)
    requires Step(c, s, Reloading(Snapshot)) == Some(t) && last <= s.world.now
    ensures Spaced(c, t, last, s.world.now)
  {}

  lemma {:induction false} SpacedHolds(c: Setup, r: Run<State, Action>, i: nat, n: nat)
    requires IsRun(c, r) && i < n <= |r.acts| && r.acts[i] == Reloading(Snapshot) && c.debounce > 0
    ensures Spaced(c, r.states[n], LastToken(r, n), r.states[i].world.now)
    decreases n
  {
    hide Step, Inv, BirthInv, TimerInv, Spaced;
    RunStep(c, r, n - 1);
    WindowHolds(c, r, n - 1);
    if i == n - 1 {
      SpacedAfterSnapshot(c, r.states[i], r.states[n], LastToken(r, i));
    } else {
      SpacedHolds(c, r, i, n - 1);
      TimerHolds(c, r, n - 1);
      SpacedStep(c, r.states[n - 1], r.acts[n - 1], r.states[n], LastToken(r, n - 1), r.states[i].world.now);
    }
  }

  /** With a positive window, any two reloads of a run start at least the window apart. */
  lemma ReloadsAreSpaced(c: Setup, r: Run<State, Action>, i: nat, j: nat)
    requires IsRun(c, r) && i < j < |r.acts| && c.debounce > 0
    requires r.acts[i] == Reloading(Snapshot) && r.acts[j] == Reloading(Snapshot)
    ensures r.states[i].world.now + c.debounce <= r.states[j].world.now
  {
    SpacedHolds(c, r, i, j);
    SnapshotNeedsCycle(c, r, j);
  }

  lemma SnapshotNeedsCycle(c: Setup, r: Run<State, Action>, j: nat)
    requires IsRun(c, r) && j < |r.acts| && r.acts[j] == Reloading(Snapshot)
    ensures r.states[j].worker.pc.AtSnapshot?
  {
    RunStep(c, r, j);
  }

  // ---------- and not later ----------

  function Later(s: State, d: nat): State {
    s.(world := s.world.(now := s.world.now + d))
  }

  /** A step of the worker on its way to a snapshot, or the firing of its timer. */
  predicate Drives(a: Action) {
    (a.Waiting? && !a.wait.WorkerStop?) || a == Reloading(Snapshot)
  }

  /** Time may pass by d only if until then the worker has nothing to do but wait. */
  ghost predicate Idles(c: Setup, s: State, d: nat) {
    forall e: nat, a :: e < d && Drives(a) ==> Step(c, Later(s, e), a).None?
  }

  /** Waking up and debouncing takes no time beyond the window. Loading and applying may. */
  ghost predicate Prompt(c: Setup, r: Run<State, Action>)
    requires WellShaped(r)
  {
    forall i :: 0 <= i < |r.acts| && r.acts[i].Outside? && r.acts[i].world.Advance? ==>
      Idles(c, r.states[i], r.acts[i].world.d)
  }

  /** Where the worker stands in a window that began at `last`. */
  ghost predicate OnTime(c: Setup, s: State, last: int) {
    var pc, timer, now := s.worker.pc, s.worker.timer, s.world.now;
    && (pc.CreateTimer? || pc.StopTimer? || pc.DrainTick? || pc.ResetTimer? ==> now == last)
    && (pc.Select? && timer.armed ==> timer.deadline == last + c.debounce && now <= timer.deadline)
    && (pc.Select? && timer.tick ==> now == last + c.debounce)
    && (pc.AtSnapshot? ==> now == last + Max(0, c.debounce))
    && (pc.CreateTimer? || pc.StopTimer? || pc.DrainTick? || pc.ResetTimer? || pc.Select? ==> c.debounce > 0)
  }

  lemma OnTimeStep(c: Setup, s: State, a: Action, t: State, last: int)
    requires BirthInv(s) && TimerInv(s) && OnTime(c, s, last) && Step(c, s, a) == Some(t)
    requires !(a.Outside? && a.world.Advance?)
    ensures OnTime(c, t, if TakesToken(a) then s.world.now else last)
  {}

  /** What the worker could do at once, if anything. */
  function Due(s: State): Action {
    match s.worker.pc
    case CreateTimer => Waiting(NewTimer)
    case StopTimer => Waiting(TimerStop)
    case DrainTick => Waiting(TimerDrain)
    case ResetTimer => Waiting(TimerReset)
    case Select => Waiting(if s.worker.timer.tick then TickReceive else FireTimer)
    case _ => Reloading(Snapshot)
  }

  lemma OnTimeWait(c: Setup, s: State, d: nat, last: int)
    requires TimerInv(s) && OnTime(c, s, last) && Idles(c, s, d)
    ensures OnTime(c, Later(s, d), last)
  {
    if d > 0 {
      var first, late := Later(s, 0), Later(s, d - 1);
      assert Drives(Due(first)) && Drives(Due(late));
      assert Step(c, first, Due(first)).None? && Step(c, late, Due(late)).None?;
    }
  }

  lemma AdvanceIsLater(c: Setup, s: State, d: nat, t: State)
    requires Step(c, s, Outside(Advance(d))) == Some(t)
    ensures t == Later(s, d)
  {}

  lemma OnTimeAtFirst(c: Setup, s: State)
    requires Initial(s)
    ensures OnTime(c, s, s.world.now)
  {}

  lemma {:induction false} OnTimeHolds(c: Setup, r: Run<State, Action>, n: nat)
    requires IsRun(c, r) && Prompt(c, r) && n <= |r.acts|
    ensures OnTime(c, r.states[n], LastToken(r, n))
  {
    hide Step, Inv, BirthInv, TimerInv, OnTime, Idles, Initial;
    if n > 0 {
      var s, a, t := r.states[n - 1], r.acts[n - 1], r.states[n];
      OnTimeHolds(c, r, n - 1);
      RunStep(c, r, n - 1);
      TimerHolds(c, r, n - 1);
      if a.Outside? && a.world.Advance? {
        OnTimeWait(c, s, a.world.d, LastToken(r, n - 1));
        AdvanceIsLater(c, s, a.world.d, t);
      } else {
        OnTimeStep(c, s, a, t, LastToken(r, n - 1));
      }
    } else {
      OnTimeAtFirst(c, r.states[0]);
    }
  }

  /** Where computing takes no time, a reload starts exactly one window after the last token it
      consumed, and at once where the window is not positive: no reset makes it later. */
  lemma ReloadsStartOnTime(c: Setup, r: Run<State, Action>, n: nat)
    requires IsRun(c, r) && Prompt(c, r) && n < |r.acts| && r.acts[n] == Reloading(Snapshot)
    ensures r.states[n].world.now == LastToken(r, n) + Max(0, c.debounce)
  {
    OnTimeHolds(c, r, n);
    SnapshotNeedsCycle(c, r, n);
  }

  /** Without a positive window no timer is ever made. */
  ghost predicate Timerless(pc: WorkerPc) {
    !pc.CreateTimer? && !pc.Select? && !pc.StopTimer? && !pc.DrainTick? && !pc.ResetTimer?
  }

  lemma TimerlessStep(c: Setup, s: State, a: Action, t: State)
    requires c.debounce <= 0 && Timerless(s.worker.pc) && Step(c, s, a) == Some(t)
    ensures Timerless(t.worker.pc)
  {}

  lemma {:induction false} NoWindowNoTimer(c: Setup, r: Run<State, Action>, n: nat)
    requires IsRun(c, r) && n < |r.states| && c.debounce <= 0
    ensures Timerless(r.states[n].worker.pc)
  {
    hide Step, Inv;
    if n > 0 {
      NoWindowNoTimer(c, r, n - 1);
      RunStep(c, r, n - 1);
      TimerlessStep(c, r.states[n - 1], r.acts[n - 1], r.states[n]);
    }
  }
}

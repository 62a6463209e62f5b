/** Settling: the inserts and sends still to be made and the worker's own steps. Whatever else
    happens in between, a run has no more of them than its requests pay for, and where none is
    left the protocol rests, so the delivery results about resting points are never empty
    promises. */
module ReloadRest {
  import opened Wrappers
  import opened Traces
  import opened ReloadProtocol
  import opened ReloadLifecycle
  import opened ReloadWakeup
  import opened ReloadDebounce

  /** An insert that was asked for and the send that follows it, the firing of the timer, and every step of the worker
      but its exit, whichever way a load or an Apply ends. */
  predicate Settles(s: State, a: Action) {
    match a
    case Enqueuing(_) => Inserts(s, a) || Sends(a)
    case Waiting(x) => !x.WorkerStop?
    case Reloading(_) => true
    case _ => false
  }

  /** Settling steps the worker's cycle has left, with n subscribers, if no token comes in. */
  function CycleRank(w: Worker, n: nat): nat {
    One(w.timer.armed) +
    match w.pc
    case StopTimer => n + 8
    case DrainTick => n + 7
    case ResetTimer => n + 6
    case CreateTimer => n + 6
    case Select => n + 4
    case AtSnapshot => n + 3
    case AtLoad(_) => n + 2
    case Applying(_, next, _) => 1 + (if next < n then n - next else 0)
    case _ => 0
  }

  /** The settling steps one request can cause. */
  function PerRequest(s: State): nat {
    |s.life.subs| + 9
  }

  /** Settling steps left: an insert leads to a send, a send may leave a token, and a token may
      cost a cycle. */
  function Weight(s: State): nat {
    var k := PerRequest(s);
    Times(k, Inserters(s.queue)) + Times(k - 1, Senders(s.queue)) + (if s.queue.token then k - 2 else 0)
    + CycleRank(s.worker, |s.life.subs|)
  }

  function Times(k: nat, n: nat): nat {
    k * n
  }

  // ---------- every schedule ----------

  lemma QueueSettles(c: Setup, s: State, a: Action, t: State)
    requires a.Enqueuing? && Step(c, s, a) == Some(t)
    ensures t.worker == s.worker && t.life == s.life
    ensures One(s.queue.token) <= One(t.queue.token) <= One(s.queue.token) + One(Sends(a))
    ensures One(Settles(s, a)) == One(Inserts(s, a)) + One(Sends(a))
  {}

  lemma CycleSettles(c: Setup, s: State, a: Action, t: State)
    requires TimerInv(s) && Step(c, s, a) == Some(t) && Settles(s, a) && !a.Enqueuing?
    ensures var n := |s.life.subs|;
      && t.life == s.life
      && (One(t.queue.token) == One(s.queue.token) ==> CycleRank(t.worker, n) < CycleRank(s.worker, n))
      && (One(t.queue.token) != One(s.queue.token) ==>
            s.queue.token && !t.queue.token && CycleRank(t.worker, n) < CycleRank(s.worker, n) + n + 7)
  {}

  lemma OthersSettleNothing(c: Setup, s: State, a: Action, t: State)
    requires Inv(s) && TimerInv(s) && Step(c, s, a) == Some(t) && !Settles(s, a) && !a.Enqueuing?
    requires !s.life.start.Idle?
    ensures t.life.subs == s.life.subs
    ensures One(t.queue.token) <= One(s.queue.token)
    ensures CycleRank(t.worker, |s.life.subs|) <= CycleRank(s.worker, |s.life.subs|)
  {
    hide CountInv, SubsInv, QuietInv;
  }

  /** Every settling step lowers the weight, and nothing but a request raises it. */
  lemma WeightStep(c: Setup, s: State, a: Action, t: State)
    requires Inv(s) && TimerInv(s) && Step(c, s, a) == Some(t) && !s.life.start.Idle?
    ensures t.life.subs == s.life.subs
    ensures Weight(t) + One(Settles(s, a)) <= Weight(s) + PerRequest(s) * One(Asks(s, a))
  {
    hide Step, Inv, TimerInv, CycleRank, Senders, Inserters, Settles, Times;
    InsertersStep(c, s, a, t);
    SendersStep(c, s, a, t);
    if a.Enqueuing? {
      QueueSettles(c, s, a, t);
      Weigh(PerRequest(s), Inserters(s.queue), One(Asks(s, a)), One(Inserts(s, a)));
      Weigh(PerRequest(s) - 1, Senders(s.queue), One(Inserts(s, a)), One(Sends(a)));
    } else if Settles(s, a) {
      CycleSettles(c, s, a, t);
    } else {
      OthersSettleNothing(c, s, a, t);
    }
  }

  lemma Weigh(k: nat, n: nat, i: nat, x: nat)
    requires i <= 1 && x <= 1 && n + i >= x
    ensures Times(k, n + i - x) == Times(k, n) + (if i == 1 then k else 0) - if x == 1 then k else 0
  {}

  lemma {:induction false} WeightHolds(c: Setup, r: Run<State, Action>, i: nat, n: nat)
    requires IsRun(c, r) && i <= n <= |r.acts| && !r.states[i].life.start.Idle?
    ensures Tally(r, i, n, Settles) + Weight(r.states[n])
            <= Weight(r.states[i]) + PerRequest(r.states[i]) * Tally(r, i, n, Asks)
    decreases n
  {
    hide Step, Initial, Weight, PerRequest, Asks, Settles, One;
    if i < n {
      var s, a := r.states[n - 1], r.acts[n - 1];
      WeightHolds(c, r, i, n - 1);
      WeightAlong(c, r, i, n - 1);
      Distributes(PerRequest(r.states[i]), Tally(r, i, n - 1, Asks), One(Asks(s, a)));
    }
  }

  lemma WeightAlong(c: Setup, r: Run<State, Action>, i: nat, n: nat)
    requires IsRun(c, r) && i <= n < |r.acts| && !r.states[i].life.start.Idle?
    ensures var s, a := r.states[n], r.acts[n];
      Weight(r.states[n + 1]) + One(Settles(s, a)) <= Weight(s) + PerRequest(r.states[i]) * One(Asks(s, a))
  {
    hide Step, Inv, TimerInv, BirthInv, Weight, Asks, Settles, One;
    RunStep(c, r, n);
    TimerHolds(c, r, n);
    SubscribersFrozen(c, r, i, n);
    WeightStep(c, r.states[n], r.acts[n], r.states[n + 1]);
  }

  /** No settling step is enabled in s, nor after any time has passed. */
  ghost predicate NothingLeft(c: Setup, s: State) {
    forall d: nat, a :: Settles(Later(s, d), a) ==> Step(c, Later(s, d), a).None?
  }

  /** The worker's next step towards rest, and when it is due. */
  function NextOfWorker(s: State): (nat, Action) {
    var timer := s.worker.timer;
    var d := if !timer.tick && timer.deadline > s.world.now then timer.deadline - s.world.now else 0;
    match s.worker.pc
    case CreateTimer => (0, Waiting(NewTimer))
    case StopTimer => (0, Waiting(TimerStop))
    case DrainTick => (0, Waiting(TimerDrain))
    case ResetTimer => (0, Waiting(TimerReset))
    case Select => (d, Waiting(if timer.tick then TickReceive else FireTimer))
    case AtSnapshot => (0, Reloading(Snapshot))
    case AtLoad(_) => (0, Reloading(Load(true)))
    case Applying(_, next, _) => (0, Reloading(if next < |s.life.subs| then Apply(true) else Finish))
    case _ => (0, Waiting(Take))
  }

  lemma WorkerSettles(c: Setup, s: State)
    requires WorkerAlive(s) && TimerInv(s) && (s.worker.pc.Parked? ==> s.queue.token)
    ensures var (d, a) := NextOfWorker(s); Settles(Later(s, d), a) && Step(c, Later(s, d), a).Some?
  {}

  lemma QueueHasNext(c: Setup, s: State) returns (a: Action)
    requires Inserters(s.queue) > 0 || Senders(s.queue) > 0
    ensures Settles(Later(s, 0), a) && Step(c, Later(s, 0), a).Some?
  {
    var q := s.queue;
    if q.toInsert != map[] {
      var id :| id in q.toInsert;
      a := Enqueuing(Insert(id, q.toInsert[id]));
    } else if q.inserting.Size() > 0 {
      a := Enqueuing(TrigInsert(if q.inserting.sighup > 0 then Sighup else File));
    } else if q.toSend > 0 {
      a := Enqueuing(Send);
    } else {
      a := Enqueuing(TrigSend(if q.sending.sighup > 0 then Sighup else File));
    }
  }

  lemma SomethingSettles(c: Setup, s: State) returns (d: nat, a: Action)
    requires WorkerAlive(s) && TimerInv(s) && !AtRest(s)
    ensures Settles(Later(s, d), a) && Step(c, Later(s, d), a).Some?
  {
    hide Step, TimerInv, Settles;
    if Inserters(s.queue) > 0 || Senders(s.queue) > 0 {
      d := 0;
      a := QueueHasNext(c, s);
    } else {
      d, a := NextOfWorker(s).0, NextOfWorker(s).1;
      WorkerSettles(c, s);
    }
  }

  lemma NothingSettlesAtRest(c: Setup, s: State, a: Action)
    requires AtRest(s) && TimerInv(s) && Settles(s, a)
    ensures Step(c, s, a).None?
  {}

  lemma NothingLeftIsRest(c: Setup, s: State)
    requires WorkerAlive(s) && TimerInv(s)
    ensures NothingLeft(c, s) <==> AtRest(s)
  {
    if AtRest(s) {
      forall d: nat, a | Settles(Later(s, d), a) ensures Step(c, Later(s, d), a).None? {
        NothingSettlesAtRest(c, Later(s, d), a);
      }
    } else {
      var d, a := SomethingSettles(c, s);
    }
  }

  /** The protocol settles under every schedule. Between any two points of a started run, with
      any calls, edits, signals and passing of time in between, the settling steps are at most
      the weight at the first plus a constant for each request; and while the worker lives, a
      point is a resting point exactly if no settling step is left there however long one waits. */
  lemma EveryScheduleSettles(c: Setup, r: Run<State, Action>, i: nat, n: nat)
    requires IsRun(c, r) && i <= n <= |r.acts| && !r.states[i].life.start.Idle?
    ensures Tally(r, i, n, Settles) <= Weight(r.states[i]) + PerRequest(r.states[i]) * Tally(r, i, n, Asks)
    ensures WorkerAlive(r.states[n]) ==> (NothingLeft(c, r.states[n]) <==> AtRest(r.states[n]))
  {
    WeightHolds(c, r, i, n);
    TimerHolds(c, r, n);
    hide Step, Inv, TimerInv, Weight;
    if WorkerAlive(r.states[n]) { NothingLeftIsRest(c, r.states[n]); }
  }

  // ---------- one schedule ----------

  /** t is reached from s by settling steps and the passing of time alone. */
  ghost predicate SettlesTo(c: Setup, s: State, t: State) {
    exists r: Run<State, Action> :: Follows(c, r) && r.states[0] == s && r.states[|r.acts|] == t && Undisturbed(r)
  }

  ghost predicate Undisturbed(r: Run<State, Action>)
    requires WellShaped(r)
  {
    forall i :: 0 <= i < |r.acts| ==>
      Settles(r.states[i], r.acts[i]) || (r.acts[i].Outside? && r.acts[i].world.Advance?)
  }

  lemma SettlesFirst(c: Setup, s: State, a: Action, u: State, t: State)
    requires Step(c, s, a) == Some(u) && SettlesTo(c, u, t)
    requires Settles(s, a) || (a.Outside? && a.world.Advance?)
    ensures SettlesTo(c, s, t)
  {
    hide Step, Settles;
    var r: Run<State, Action> :|
      Follows(c, r) && r.states[0] == u && r.states[|r.acts|] == t && Undisturbed(r);
    var q := Run([s] + r.states, [a] + r.acts);
    assert Follows(c, q) && Undisturbed(q);
  }

  lemma TimerAlong(c: Setup, s: State, a: Action, t: State)
    requires Inv(s) && TimerInv(s) && Step(c, s, a) == Some(t)
    ensures Inv(t) && TimerInv(t)
  {
    hide Step, BirthInv, TimerInv;
    InvParts(s);
    TimerStep(c, s, a, t);
    InvStep(c, s, a, t);
  }

  lemma SettlesNothing(c: Setup, s: State)
    ensures SettlesTo(c, s, s)
  {
    var r: Run<State, Action> := Run([s], []);
    assert Follows(c, r) && Undisturbed(r);
  }

  lemma LaterIsAStep(c: Setup, s: State, d: nat)
    ensures Step(c, s, Outside(Advance(d))) == Some(Later(s, d))
    ensures Weight(Later(s, d)) == Weight(s) && (WorkerAlive(s) <==> WorkerAlive(Later(s, d)))
  {}

  lemma SettlingKeepsWorker(c: Setup, s: State, a: Action, t: State)
    requires WorkerAlive(s) && Settles(s, a) && Step(c, s, a) == Some(t)
    ensures WorkerAlive(t) && !Asks(s, a)
  {}

  lemma WorkerHasStart(s: State)
    requires Inv(s) && WorkerAlive(s)
    ensures !s.life.start.Idle?
  {}

  /** In particular such a schedule exists: wherever the worker lives, settling steps and the
      passing of time alone lead to a resting point. */
  lemma {:induction false} RestIsReachable(c: Setup, s: State)
    requires Inv(s) && WorkerAlive(s) && TimerInv(s)
    ensures exists t :: SettlesTo(c, s, t) && AtRest(t)
    decreases Weight(s)
  {
    hide Step, Inv, WorkerAlive, TimerInv, AtRest, Weight, Settles, Later, SettlesTo, Asks;
    if AtRest(s) {
      SettlesNothing(c, s);
    } else {
      var d, a := SomethingSettles(c, s);
      LaterIsAStep(c, s, d);
      var l := Later(s, d);
      var u := Step(c, l, a).value;
      TimerAlong(c, s, Outside(Advance(d)), l);
      TimerAlong(c, l, a, u);
      WorkerHasStart(l);
      WeightStep(c, l, a, u);
      SettlingKeepsWorker(c, l, a, u);
      RestIsReachable(c, u);
      var t :| SettlesTo(c, u, t) && AtRest(t);
      SettlesFirst(c, l, a, u, t);
      SettlesFirst(c, s, Outside(Advance(d)), l, t);
    }
  }
}

/** Tokens may be coalesced, absorbed or left over, but no source and no configuration
    change is lost: wakeup accounting, exactly-once reporting, and freshness. */
module ReloadWakeup {
  import opened Text
  import opened Wrappers
  import opened Traces
  import opened ReloadProtocol
  import opened ReloadLifecycle

  // ---------- readings of a step ----------

  /** The source the step inserts into the set. */
  function Inserted(a: Action): set<string> {
    match a
    case Enqueuing(Insert(_, src)) => {src}
    case Enqueuing(TrigInsert(k)) => {SourceName(k)}
    case _ => {}
  }

  predicate Inserts(s: State, a: Action) {
    a.Enqueuing? && (a.enqueue.Insert? || a.enqueue.TrigInsert?)
  }

  predicate Sends(a: Action) {
    a.Enqueuing? && (a.enqueue.Send? || a.enqueue.TrigSend?)
  }

  /** A wakeup that found the channel full and was dropped. */
  predicate Coalesces(s: State, a: Action) {
    Sends(a) && s.queue.token
  }

  predicate Takes(s: State, a: Action) { a == Waiting(Take) }
  predicate Absorbs(s: State, a: Action) { a == Waiting(Absorb) }
  predicate Snapshots(s: State, a: Action) { a == Reloading(Snapshot) }

  /** A cycle that ended in debounceWait because stopCh was closed. */
  predicate Aborts(s: State, a: Action) {
    a == Waiting(WorkerStop) && s.worker.pc.Select?
  }

  /** The worker took a token and has not yet snapshotted or given up. */
  predicate BeforeSnapshot(pc: WorkerPc) {
    pc.CreateTimer? || pc.Select? || pc.StopTimer? || pc.DrainTick? || pc.ResetTimer? || pc.AtSnapshot?
  }

  /** Callers and trigger goroutines between the set insert and the channel send. */
  function Senders(q: Queue): nat {
    q.toSend + q.sending.Size()
  }

  // ---------- conservation of wakeups ----------

  lemma SendersStep(c: Setup, s: State, a: Action, t: State)
    requires Step(c, s, a) == Some(t)
    ensures Senders(t.queue) == Senders(s.queue) + One(Inserts(s, a)) - One(Sends(a))
  {}

  lemma TokenStep(c: Setup, s: State, a: Action, t: State)
    requires Inv(s) && Step(c, s, a) == Some(t)
    ensures One(t.queue.token) == One(s.queue.token) + One(Sends(a)) - One(Coalesces(s, a))
                                  - One(Takes(s, a)) - One(Absorbs(s, a))
  {
    hide BirthInv, CountInv, SubsInv;
  }

  lemma CycleStep(c: Setup, s: State, a: Action, t: State)
    requires Inv(s) && Step(c, s, a) == Some(t)
    ensures One(BeforeSnapshot(t.worker.pc)) == One(BeforeSnapshot(s.worker.pc)) + One(Takes(s, a))
                                                - One(Snapshots(s, a)) - One(Aborts(s, a))
  {
    hide CountInv, SubsInv, LifeInv, QuietInv;
  }

  lemma NothingPendingAtFirst(s: State)
    requires Initial(s)
    ensures Potential(s) == 0 && WakeInv(s)
  {}

  /** The wakeups under way: one of a cycle before its snapshot, the token in the channel,
      and the sends still to be made. Only these can become reloads without another enqueue. */
  function Potential(s: State): nat {
    One(BeforeSnapshot(s.worker.pc)) + One(s.queue.token) + Senders(s.queue)
  }

  lemma PotentialStep(c: Setup, s: State, a: Action, t: State)
    requires Inv(s) && Step(c, s, a) == Some(t)
    ensures Potential(t) == Potential(s) + One(Inserts(s, a)) - One(Coalesces(s, a)) - One(Absorbs(s, a))
                            - One(Snapshots(s, a)) - One(Aborts(s, a))
  {
    SendersStep(c, s, a, t);
    TokenStep(c, s, a, t);
    CycleStep(c, s, a, t);
    hide Step, Inv, Senders, BeforeSnapshot, One, Inserts, Sends, Coalesces, Absorbs, Snapshots, Aborts, Takes;
  }

  /** Where the wakeups of the first n steps went: under way, dropped on a full channel,
      absorbed by a debounce, turned into a reload, or given up because of a stop. */
  ghost function Accounted(r: Run<State, Action>, n: nat): nat
    requires WellShaped(r) && n <= |r.acts|
  {
    Potential(r.states[n]) + Tally(r, 0, n, Coalesces) + Tally(r, 0, n, Absorbs)
    + Tally(r, 0, n, Snapshots) + Tally(r, 0, n, Aborts)
  }

  /** Every enqueue of a run is accounted for, exactly once. */
  lemma {:induction false} WakeupsConserved(c: Setup, r: Run<State, Action>, n: nat)
    requires IsRun(c, r) && n <= |r.acts|
    ensures Tally(r, 0, n, Inserts) == Accounted(r, n)
  {
    hide Step, Inv, Initial, Inserts, Coalesces, Absorbs, Snapshots, Aborts, Potential, One;
    if n > 0 {
      WakeupsConserved(c, r, n - 1);
      RunStep(c, r, n - 1);
      PotentialStep(c, r.states[n - 1], r.acts[n - 1], r.states[n]);
    } else {
      NothingPendingAtFirst(r.states[0]);
    }
  }

  /** From any point of a run to any later one, the reloads that start are at most the new
      enqueues plus what was pending: once no enqueue begins any more, as after a stop, at
      most Potential many can follow. */
  lemma {:induction false} ReloadsBounded(c: Setup, r: Run<State, Action>, i: nat, n: nat)
    requires IsRun(c, r) && i <= n <= |r.acts|
    ensures Tally(r, i, n, Snapshots) + Potential(r.states[n])
            <= Potential(r.states[i]) + Tally(r, i, n, Inserts)
    decreases n
  {
    hide Step, Inv, Potential, Inserts, Snapshots, One;
    if i < n {
      ReloadsBounded(c, r, i, n - 1);
      RunStep(c, r, n - 1);
      PotentialStep(c, r.states[n - 1], r.acts[n - 1], r.states[n]);
    }
  }

  /** Reloads never exceed enqueues. */
  lemma ReloadsNeverExceedEnqueues(c: Setup, r: Run<State, Action>, n: nat)
    requires IsRun(c, r) && n <= |r.acts|
    ensures Tally(r, 0, n, Snapshots) <= Tally(r, 0, n, Inserts)
  {
    ReloadsBounded(c, r, 0, n);
    NothingPendingAtFirst(r.states[0]);
  }

  // ---------- no lost wakeup ----------

  /** A source in the set always has a wakeup on its way to the worker. */
  ghost predicate WakeInv(s: State) {
    s.queue.srcSet != {} ==> Potential(s) > 0 || s.worker.pc.Gone?
  }

  lemma SetGrowsByInserts(c: Setup, s: State, a: Action, t: State)
    requires Inv(s) && Step(c, s, a) == Some(t)
    ensures t.queue.srcSet == if Snapshots(s, a) then {} else s.queue.srcSet + Inserted(a)
    ensures Inserts(s, a) <==> Inserted(a) != {}
  {
    hide CountInv, SubsInv, BirthInv;
  }

  lemma WakeStep(c: Setup, s: State, a: Action, t: State)
    requires Inv(s) && WakeInv(s) && Step(c, s, a) == Some(t)
    ensures WakeInv(t)
  {
    SetGrowsByInserts(c, s, a, t);
    SendersStep(c, s, a, t);
    TokenStep(c, s, a, t);
    CycleStep(c, s, a, t);
    WorkerEffects(c, s, a, t);
    StopEndsTheWorker(c, s, a, t);
    hide Step, Inv;
  }

  lemma StopEndsTheWorker(c: Setup, s: State, a: Action, t: State)
    requires Step(c, s, a) == Some(t)
    ensures a == Waiting(WorkerStop) ==> t.worker.pc.Gone?
  {}

  lemma {:induction false} WakeHolds(c: Setup, r: Run<State, Action>, n: nat)
    requires IsRun(c, r) && n <= |r.acts|
    ensures WakeInv(r.states[n])
  {
    hide Step, Inv, WakeInv;
    if n > 0 {
      WakeHolds(c, r, n - 1);
      RunStep(c, r, n - 1);
      WakeStep(c, r.states[n - 1], r.acts[n - 1], r.states[n]);
    } else {
      NothingPendingAtFirst(r.states[0]);
    }
  }

  /** With the worker parked, the channel empty and nobody between insert and send, the
      source set is empty: however many sends were dropped, every source was picked up. */
  lemma NoLostWakeup(c: Setup, r: Run<State, Action>, n: nat)
    requires IsRun(c, r) && n <= |r.acts|
    requires Quiescent(r.states[n])
    ensures r.states[n].queue.srcSet == {}
  {
    WakeHolds(c, r, n);
  }

  predicate Quiescent(s: State) {
    s.worker.pc.Parked? && !s.queue.token && Senders(s.queue) == 0
  }

  // ---------- exactly-once reporting ----------

  /** The sources inserted since the last snapshot, read off the steps alone. */
  ghost function Since(r: Run<State, Action>, n: nat): set<string>
    requires n <= |r.acts|
  {
    if n == 0 then {}
    else if r.acts[n - 1] == Reloading(Snapshot) then {}
    else Since(r, n - 1) + Inserted(r.acts[n - 1])
  }

  ghost function InsertedUpTo(r: Run<State, Action>, n: nat): set<string>
    requires n <= |r.acts|
  {
    if n == 0 then {} else InsertedUpTo(r, n - 1) + Inserted(r.acts[n - 1])
  }

  /** What step n - 1 put into a reload's trigger_sources. */
  ghost function ReportedBy(r: Run<State, Action>, i: nat): seq<string>
    requires WellShaped(r) && i < |r.acts|
  {
    if r.acts[i] == Reloading(Snapshot) && r.states[i + 1].worker.pc.AtLoad?
    then r.states[i + 1].worker.pc.reported else []
  }

  ghost function ReportedUpTo(r: Run<State, Action>, n: nat): set<string>
    requires WellShaped(r) && n <= |r.acts|
  {
    if n == 0 then {} else ReportedUpTo(r, n - 1) + Elems(ReportedBy(r, n - 1))
  }

  lemma SnapshotEffect(c: Setup, s: State, t: State)
    requires Step(c, s, Reloading(Snapshot)) == Some(t)
    ensures t.worker.pc == AtLoad(SortedList(s.queue.srcSet))
  {}

  lemma {:induction false} SetIsSince(c: Setup, r: Run<State, Action>, n: nat)
    requires IsRun(c, r) && n <= |r.acts|
    ensures r.states[n].queue.srcSet == Since(r, n)
  {
    hide Step, Inv, Inserted, Inserts;
    if n > 0 {
      SetIsSince(c, r, n - 1);
      RunStep(c, r, n - 1);
      SetGrowsByInserts(c, r.states[n - 1], r.acts[n - 1], r.states[n]);
    }
  }

  /** Each snapshot is the strictly sorted list of exactly the sources inserted since the
      snapshot before it: none missing, none twice, none from an earlier cycle. */
  lemma SnapshotReportsExactly(c: Setup, r: Run<State, Action>, i: nat)
    requires IsRun(c, r) && i < |r.acts| && r.acts[i] == Reloading(Snapshot)
    ensures StrictlySorted(ReportedBy(r, i)) && Elems(ReportedBy(r, i)) == Since(r, i)
  {
    hide Step;
    RunStep(c, r, i);
    SetIsSince(c, r, i);
    SnapshotEffect(c, r.states[i], r.states[i + 1]);
  }

  /** Over every run, what was reported and what still waits in the set is together
      everything ever inserted. */
  lemma {:induction false} NoSourceLost(c: Setup, r: Run<State, Action>, n: nat)
    requires IsRun(c, r) && n <= |r.acts|
    ensures InsertedUpTo(r, n) == ReportedUpTo(r, n) + r.states[n].queue.srcSet
  {
    hide Step, Inv, Inserted, Inserts;
    if n > 0 {
      var s, a, t := r.states[n - 1], r.acts[n - 1], r.states[n];
      NoSourceLost(c, r, n - 1);
      RunStep(c, r, n - 1);
      SetGrowsByInserts(c, s, a, t);
      if a == Reloading(Snapshot) {
        SnapshotEffect(c, s, t);
        SnapshotInsertsNothing();
      }
    }
  }

  lemma SnapshotInsertsNothing()
    ensures Inserted(Reloading(Snapshot)) == {}
  {}

  // ---------- freshness ----------

  /** Step k is a snapshot, after step i, that reported src. */
  ghost predicate ReportsAfter(r: Run<State, Action>, i: nat, src: string, k: nat)
    requires WellShaped(r)
  {
    i < k < |r.acts| && r.acts[k] == Reloading(Snapshot) && src in ReportedBy(r, k)
  }

  predicate Loads(a: Action) {
    a.Reloading? && a.reload.Load?
  }

  /** Before point n, src was reported after step i and then a configuration load began. */
  ghost predicate Delivered(r: Run<State, Action>, i: nat, src: string, n: nat)
    requires WellShaped(r)
  {
    exists k: nat, j: nat :: k < j < n && j < |r.acts| && ReportsAfter(r, i, src, k) && Loads(r.acts[j])
  }

  /** src was reported after step i and its load is the next thing the worker does. */
  ghost predicate Held(r: Run<State, Action>, i: nat, src: string, n: nat)
    requires WellShaped(r) && n < |r.states|
  {
    r.states[n].worker.pc.AtLoad? && exists k: nat :: k < n && ReportsAfter(r, i, src, k)
  }

  lemma LoadEffect(c: Setup, s: State, a: Action, t: State)
    requires BirthInv(s) && Step(c, s, a) == Some(t) && s.worker.pc.AtLoad?
    ensures t.worker.pc.AtLoad? || Loads(a)
  {}

  lemma HeldStep(c: Setup, r: Run<State, Action>, i: nat, src: string, n: nat)
    requires IsRun(c, r) && n < |r.acts| && Held(r, i, src, n)
    ensures Held(r, i, src, n + 1) || Delivered(r, i, src, n + 1)
  {
    hide Step, Inv, BirthInv, ReportsAfter;
    RunStep(c, r, n);
    LoadEffect(c, r.states[n], r.acts[n], r.states[n + 1]);
  }

  lemma InSetStep(c: Setup, r: Run<State, Action>, i: nat, src: string, n: nat)
    requires IsRun(c, r) && i < n < |r.acts| && src in r.states[n].queue.srcSet
    ensures src in r.states[n + 1].queue.srcSet || Held(r, i, src, n + 1)
  {
    hide Step, Inv, BirthInv, Inserts, Inserted;
    RunStep(c, r, n);
    SetGrowsByInserts(c, r.states[n], r.acts[n], r.states[n + 1]);
    if r.acts[n] == Reloading(Snapshot) {
      SnapshotEffect(c, r.states[n], r.states[n + 1]);
      assert ReportsAfter(r, i, src, n);
    }
  }

  /** An inserted source is in the set, held by the worker for its load, or delivered. */
  lemma {:induction false} InsertIsPending(c: Setup, r: Run<State, Action>, i: nat, src: string, n: nat)
    requires IsRun(c, r) && i < n <= |r.acts| && src in Inserted(r.acts[i])
    ensures src in r.states[n].queue.srcSet || Held(r, i, src, n) || Delivered(r, i, src, n)
    decreases n
  {
    hide Step, Inv, Inserts, Inserted, Held, ReportsAfter;
    RunStep(c, r, n - 1);
    if i == n - 1 {
      SetGrowsByInserts(c, r.states[i], r.acts[i], r.states[n]);
      SnapshotInsertsNothing();
    } else {
      InsertIsPending(c, r, i, src, n - 1);
      if src in r.states[n - 1].queue.srcSet {
        InSetStep(c, r, i, src, n - 1);
      } else if Held(r, i, src, n - 1) {
        HeldStep(c, r, i, src, n - 1);
      }
    }
  }

  lemma {:induction false} VersionsGrow(c: Setup, r: Run<State, Action>, i: nat, j: nat)
    requires IsRun(c, r) && i <= j < |r.states|
    ensures r.states[i].world.fileVersion <= r.states[j].world.fileVersion
    decreases j
  {
    hide Step, Inv;
    if i < j {
      VersionsGrow(c, r, i, j - 1);
      RunStep(c, r, j - 1);
      VersionStep(c, r.states[j - 1], r.acts[j - 1], r.states[j]);
    }
  }

  lemma VersionStep(c: Setup, s: State, a: Action, t: State)
    requires Step(c, s, a) == Some(t)
    ensures s.world.fileVersion <= t.world.fileVersion
  {}

  /** Take any insert of a run and any later point with the worker parked, the channel empty and
      nobody between insert and send: in between, a snapshot reported the source and a load then
      began, reading a file no older than the file was at the insert. */
  lemma EveryInsertIsServed(c: Setup, r: Run<State, Action>, i: nat, src: string, n: nat)
      returns (k: nat, j: nat)
    requires IsRun(c, r) && i < n <= |r.acts| && src in Inserted(r.acts[i])
    requires Quiescent(r.states[n])
    ensures i < k < j < n && WellShaped(r)
    ensures r.acts[k] == Reloading(Snapshot) && src in ReportedBy(r, k) && Loads(r.acts[j])
    ensures r.states[i].world.fileVersion <= r.states[j].world.fileVersion
  {
    InsertIsPending(c, r, i, src, n);
    NoLostWakeup(c, r, n);
    k, j :| k < j < n && j < |r.acts| && ReportsAfter(r, i, src, k) && Loads(r.acts[j]);
    VersionsGrow(c, r, i, j);
  }

  // ---------- from the request to the insert ----------

  /** The step asks for a reload on behalf of src: a Trigger call that is accepted, or an event
      seen by a trigger goroutine. */
  predicate AsksFor(s: State, a: Action, src: string) {
    match a
    case Enqueuing(TriggerCall(_, x)) => x == src && TriggerAnswer(s.life).Accepted?
    case Enqueuing(Event(k)) => SourceName(k) == src
    case _ => false
  }

  predicate Asks(s: State, a: Action) {
    match a
    case Enqueuing(TriggerCall(_, _)) => TriggerAnswer(s.life).Accepted?
    case Enqueuing(Event(_)) => true
    case _ => false
  }

  /** Those who asked and have not yet inserted. */
  function Inserters(q: Queue): nat {
    |q.toInsert| + q.inserting.Size()
  }

  lemma InsertersStep(c: Setup, s: State, a: Action, t: State)
    requires Step(c, s, a) == Some(t)
    ensures Inserters(t.queue) == Inserters(s.queue) + One(Asks(s, a)) - One(Inserts(s, a))
  {
    match a
    case Enqueuing(x) => InsertersEnqueuing(s, x, t);
    case _ =>
  }

  lemma InsertersEnqueuing(s: State, a: EnqueueAction, t: State)
    requires EnqueueStep(s, a) == Some(t)
    ensures Inserters(t.queue) == Inserters(s.queue) + One(Asks(s, Enqueuing(a))) - One(Inserts(s, Enqueuing(a)))
  {
    if a.Insert? {
      assert (s.queue.toInsert - {a.call}).Keys == s.queue.toInsert.Keys - {a.call};
    }
  }

  /** Every request that is accepted inserts exactly once: requests so far are those still before
      their insert and the inserts made, whatever the channel held. */
  lemma {:induction false} RequestsConserved(c: Setup, r: Run<State, Action>, n: nat)
    requires IsRun(c, r) && n <= |r.acts|
    ensures Tally(r, 0, n, Asks) == Inserters(r.states[n].queue) + Tally(r, 0, n, Inserts)
  {
    hide Step, Inv, Asks, Inserts, Inserters, One, Initial;
    if n > 0 {
      RequestsConserved(c, r, n - 1);
      RunStep(c, r, n - 1);
      InsertersStep(c, r.states[n - 1], r.acts[n - 1], r.states[n]);
    } else {
      NoInserters(r.states[0]);
    }
  }

  lemma NoInserters(s: State)
    requires Initial(s)
    ensures Inserters(s.queue) == 0
  {}

  /** The call with this id has asked for src and not yet inserted it. */
  predicate AboutTo(q: Queue, id: nat, src: string) {
    id in q.toInsert && q.toInsert[id] == src
  }

  lemma CallStep(c: Setup, s: State, a: Action, t: State, id: nat, src: string)
    requires Step(c, s, a) == Some(t)
    ensures a == Enqueuing(TriggerCall(id, src)) && TriggerAnswer(s.life).Accepted? ==> AboutTo(t.queue, id, src)
    ensures AboutTo(s.queue, id, src) && a != Enqueuing(Insert(id, src)) ==> AboutTo(t.queue, id, src)
  {}

  /** An accepted Trigger call inserts its own source: at any later point it is still about to,
      or it has done so. */
  lemma {:induction false} AcceptedCallInserts(c: Setup, r: Run<State, Action>, i: nat, id: nat, src: string, n: nat)
    requires IsRun(c, r) && i < n <= |r.acts|
    requires r.acts[i] == Enqueuing(TriggerCall(id, src)) && TriggerAnswer(r.states[i].life).Accepted?
    ensures AboutTo(r.states[n].queue, id, src) || exists k :: i < k < n && r.acts[k] == Enqueuing(Insert(id, src))
    decreases n
  {
    hide Step, Inv, AboutTo, TriggerAnswer;
    RunStep(c, r, n - 1);
    CallStep(c, r.states[n - 1], r.acts[n - 1], r.states[n], id, src);
    if i < n - 1 { AcceptedCallInserts(c, r, i, id, src, n - 1); }
  }

  lemma EventStep(c: Setup, s: State, a: Action, t: State, k: Kind)
    requires Step(c, s, a) == Some(t)
    ensures a == Enqueuing(Event(k)) ==> t.queue.inserting.Count(k) > 0
    ensures s.queue.inserting.Count(k) > 0 && a != Enqueuing(TrigInsert(k)) ==> t.queue.inserting.Count(k) > 0
  {}

  /** So does a trigger goroutine that saw an event. */
  lemma {:induction false} EventInserts(c: Setup, r: Run<State, Action>, i: nat, k: Kind, n: nat)
    requires IsRun(c, r) && i < n <= |r.acts| && r.acts[i] == Enqueuing(Event(k))
    ensures r.states[n].queue.inserting.Count(k) > 0 || exists h :: i < h < n && r.acts[h] == Enqueuing(TrigInsert(k))
    decreases n
  {
    hide Step, Inv;
    RunStep(c, r, n - 1);
    EventStep(c, r.states[n - 1], r.acts[n - 1], r.states[n], k);
    if i < n - 1 { EventInserts(c, r, i, k, n - 1); }
  }

  /** Nobody is left before an insert or a send, and the worker has nothing to take. */
  predicate AtRest(s: State) {
    Quiescent(s) && Inserters(s.queue) == 0
  }

  lemma RequestIsInserted(c: Setup, r: Run<State, Action>, i: nat, src: string, n: nat) returns (h: nat)
    requires IsRun(c, r) && i < n <= |r.acts| && AsksFor(r.states[i], r.acts[i], src)
    requires Inserters(r.states[n].queue) == 0
    ensures i < h < n && src in Inserted(r.acts[h])
  {
    hide Step, Initial;
    match r.acts[i].enqueue {
      case TriggerCall(id, _) =>
        AcceptedCallInserts(c, r, i, id, src, n);
        h :| i < h < n && r.acts[h] == Enqueuing(Insert(id, src));
      case Event(k) =>
        EventInserts(c, r, i, k, n);
        h :| i < h < n && r.acts[h] == Enqueuing(TrigInsert(k));
    }
  }

  /** No configuration change is lost. Take any request of a run, an accepted Trigger call or an
      event, and any later point at which the protocol has come to rest: in between, the source
      was inserted, a snapshot reported it, and a load then began, reading a file no older than
      the file was at the request, hence no older than any edit made before it. */
  lemma EveryTriggerIsServed(c: Setup, r: Run<State, Action>, i: nat, src: string, n: nat)
      returns (h: nat, k: nat, j: nat)
    requires IsRun(c, r) && i < n <= |r.acts| && AsksFor(r.states[i], r.acts[i], src)
    requires AtRest(r.states[n])
    ensures i < h < k < j < n && WellShaped(r)
    ensures src in Inserted(r.acts[h])
    ensures r.acts[k] == Reloading(Snapshot) && src in ReportedBy(r, k) && Loads(r.acts[j])
    ensures r.states[i].world.fileVersion <= r.states[j].world.fileVersion
  {
    hide Step, Inserted, AsksFor;
    h := RequestIsInserted(c, r, i, src, n);
    k, j := EveryInsertIsServed(c, r, h, src, n);
    VersionsGrow(c, r, i, h);
  }
}

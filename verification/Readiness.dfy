/** internal/health runOne: the singleflight of one checker as a transition system. Any number
    of requests join or launch executions; each waits under its own deadline; the executing
    goroutine outlives its requesters. Entries share nothing, so one entry is all there is. */
module Readiness {
  import opened Wrappers
  import opened Traces

  datatype Code = Timeout | Panic | Failed

  datatype CheckResult = Passed | Failing(code: Code, details: string)

  // ---------- executeChecker ----------

  /** What the checker function did: returned nil, returned an error that is or is not a context
      error, or panicked. */
  datatype CheckerOutcome = NoError | Error(fromContext: bool, msg: string) | Panicked(msg: string)

  function ExecuteChecker(o: CheckerOutcome): CheckResult {
    match o
    case NoError => Passed
    case Error(fromContext, msg) => Failing(if fromContext then Timeout else Failed, msg)
    case Panicked(msg) => Failing(Panic, "checker panic: " + msg)
  }

  // ---------- state ----------

  /** The executing goroutine of one inflight entry. */
  datatype ExecPc =
    | Created                       // entry installed, goroutine not yet launched
    | Running                       // inside the checker
    | Computed(res: CheckResult)    // result in hand, not yet stored
    | Stored | Closed | Cleared

  datatype Exec = Exec(pc: ExecPc, result: Option<CheckResult>)

  datatype Request =
    | AtLock(called: int, deadline: int)
    | AtLaunch(called: int, deadline: int, exec: nat)
    | Waiting(called: int, deadline: int, exec: nat)
    | Answered(called: int, deadline: int, via: Option<nat>, res: CheckResult, at: int)

  /** Executions are numbered in the order they were installed. */
  datatype State = State(now: int, inflight: Option<nat>, execs: seq<Exec>,
                         reqs: map<nat, Request>, canceled: set<nat>)

  datatype Action =
    | Tick
    | Call(r: nat, parentDeadline: int) | CancelParent(r: nat)
    | Lock(r: nat) | Launch(r: nat)
    | Finish(e: nat, outcome: CheckerOutcome) | Store(e: nat) | CloseDone(e: nat) | Clear(e: nat)
    | ReturnDone(r: nat) | ReturnTimeout(r: nat)

  predicate Initial(s: State) {
    s.inflight.None? && s.execs == [] && s.reqs == map[] && s.canceled == {}
  }

  predicate DoneClosed(s: State, e: nat) {
    e < |s.execs| && (s.execs[e].pc.Closed? || s.execs[e].pc.Cleared?)
  }

  function At(s: State, e: nat, pc: ExecPc): State
    requires e < |s.execs|
  {
    s.(execs := s.execs[e := s.execs[e].(pc := pc)])
  }

  /** One step, with `timeout` the check timeout, or None where the action is not enabled. */
  function Step(timeout: nat, s: State, a: Action): Option<State> {
    match a
    case Tick => Some(s.(now := s.now + 1))
    case Call(r, parentDeadline) =>
      if r in s.reqs then None   // a number names one request
      else Some(s.(reqs := s.reqs[r := AtLock(s.now, Min(parentDeadline, s.now + timeout))]))
    case CancelParent(r) => Some(s.(canceled := s.canceled + {r}))
    case Lock(r) =>
      if r in s.reqs && s.reqs[r].AtLock? then
        var q := s.reqs[r];
        if s.inflight.Some? then Some(s.(reqs := s.reqs[r := Waiting(q.called, q.deadline, s.inflight.value)]))
        else Some(s.(reqs := s.reqs[r := AtLaunch(q.called, q.deadline, |s.execs|)],
                     execs := s.execs + [Exec(Created, None)], inflight := Some(|s.execs|)))
      else None
    case Launch(r) =>
      if r in s.reqs && s.reqs[r].AtLaunch? && s.reqs[r].exec < |s.execs| then
        var q := s.reqs[r];
        Some(At(s, q.exec, Running).(reqs := s.reqs[r := Waiting(q.called, q.deadline, q.exec)]))
      else None
    case Finish(e, o) =>
      if e < |s.execs| && s.execs[e].pc.Running? then Some(At(s, e, Computed(ExecuteChecker(o)))) else None
    case Store(e) =>
      if e < |s.execs| && s.execs[e].pc.Computed? then
        Some(s.(execs := s.execs[e := Exec(Stored, Some(s.execs[e].pc.res))]))
      else None
    case CloseDone(e) =>
      if e < |s.execs| && s.execs[e].pc.Stored? then Some(At(s, e, Closed)) else None
    case Clear(e) =>   // unconditional inflight = nil
      if e < |s.execs| && s.execs[e].pc.Closed? then Some(At(s, e, Cleared).(inflight := None)) else None
    case ReturnDone(r) =>
      if r in s.reqs && s.reqs[r].Waiting? && DoneClosed(s, s.reqs[r].exec) && s.execs[s.reqs[r].exec].result.Some? then
        var q := s.reqs[r];
        Some(s.(reqs := s.reqs[r := Answered(q.called, q.deadline, Some(q.exec), s.execs[q.exec].result.value, s.now)]))
      else None
    case ReturnTimeout(r) =>
      if r in s.reqs && s.reqs[r].Waiting? && (s.reqs[r].deadline <= s.now || r in s.canceled) then
        var q := s.reqs[r];
        Some(s.(reqs := s.reqs[r := Answered(q.called, q.deadline, None, Failing(Timeout, "context done"), s.now)]))
      else None
  }

  ghost predicate Follows(timeout: nat, r: Run<State, Action>) {
    WellShaped(r)
    && forall i :: 0 <= i < |r.acts| ==> Step(timeout, r.states[i], r.acts[i]) == Some(r.states[i + 1])
  }

  ghost predicate IsRun(timeout: nat, r: Run<State, Action>) {
    Follows(timeout, r) && Initial(r.states[0])
  }

  // ---------- the invariant ----------

  /** The slot names the newest execution exactly until that one clears it; every older one has
      cleared. */
  ghost predicate SlotInv(s: State) {
    && (forall e :: 0 <= e < |s.execs| - 1 ==> s.execs[e].pc.Cleared?)
    && (s.inflight.Some? <==> |s.execs| > 0 && !s.execs[|s.execs| - 1].pc.Cleared?)
    && (s.inflight.Some? ==> s.inflight.value == |s.execs| - 1)
  }

  /** A result is stored before done is closed, and only then. */
  ghost predicate ResultInv(s: State) {
    forall e :: 0 <= e < |s.execs| ==>
      (s.execs[e].result.Some? <==> s.execs[e].pc.Stored? || s.execs[e].pc.Closed? || s.execs[e].pc.Cleared?)
  }

  /** Requests refer to installed executions; what a request is about to launch was only just
      created. */
  ghost predicate RequestInv(s: State) {
    && (forall r :: r in s.reqs && (s.reqs[r].AtLaunch? || s.reqs[r].Waiting?) ==> s.reqs[r].exec < |s.execs|)
    && (forall r :: r in s.reqs && s.reqs[r].AtLaunch? ==> s.execs[s.reqs[r].exec].pc.Created?)
  }

  /** No two requests are about to launch the same execution. */
  ghost predicate LauncherInv(s: State) {
    forall r, q :: r in s.reqs && q in s.reqs && s.reqs[r].AtLaunch? && s.reqs[q].AtLaunch? && r != q ==>
      s.reqs[r].exec != s.reqs[q].exec
  }

  /** An answer is the stored result of the execution it came through, or a timeout. */
  ghost predicate AnswerInv(s: State) {
    forall r :: r in s.reqs && s.reqs[r].Answered? ==>
      var q := s.reqs[r];
      match q.via
      case Some(e) => DoneClosed(s, e) && s.execs[e].result == Some(q.res)
      case None => q.res.Failing? && q.res.code.Timeout?
  }

  ghost predicate Inv(s: State) {
    SlotInv(s) && ResultInv(s) && RequestInv(s) && LauncherInv(s) && AnswerInv(s)
  }

  lemma SlotStep(timeout: nat, s: State, a: Action, t: State)
    requires SlotInv(s) && RequestInv(s) && Step(timeout, s, a) == Some(t)
    ensures SlotInv(t)
  {}

  lemma ResultStep(timeout: nat, s: State, a: Action, t: State)
    requires ResultInv(s) && RequestInv(s) && Step(timeout, s, a) == Some(t)
    ensures ResultInv(t)
  {}

  lemma RequestStep(timeout: nat, s: State, a: Action, t: State)
    requires SlotInv(s) && RequestInv(s) && LauncherInv(s) && Step(timeout, s, a) == Some(t)
    ensures RequestInv(t)
  {}

  lemma LauncherStep(timeout: nat, s: State, a: Action, t: State)
    requires RequestInv(s) && LauncherInv(s) && Step(timeout, s, a) == Some(t)
    ensures LauncherInv(t)
  {}

  lemma AnswerStep(timeout: nat, s: State, a: Action, t: State)
    requires ResultInv(s) && RequestInv(s) && AnswerInv(s) && Step(timeout, s, a) == Some(t)
    ensures AnswerInv(t)
  {}

  lemma InvStep(timeout: nat, s: State, a: Action, t: State)
    requires Inv(s) && Step(timeout, s, a) == Some(t)
    ensures Inv(t)
  {
    hide Step, SlotInv, ResultInv, RequestInv, LauncherInv, AnswerInv;
    SlotStep(timeout, s, a, t);
    ResultStep(timeout, s, a, t);
    RequestStep(timeout, s, a, t);
    LauncherStep(timeout, s, a, t);
    AnswerStep(timeout, s, a, t);
  }

  lemma {:induction false} InvHolds(timeout: nat, r: Run<State, Action>, n: nat)
    requires IsRun(timeout, r) && n < |r.states|
    ensures Inv(r.states[n])
  {
    hide Step, Inv;
    if n > 0 {
      InvHolds(timeout, r, n - 1);
      InvStep(timeout, r.states[n - 1], r.acts[n - 1], r.states[n]);
    } else {
      InvAtFirst(r.states[0]);
    }
  }

  lemma InvAtFirst(s: State)
    requires Initial(s)
    ensures Inv(s)
  {}

  /** What the induction over a run needs about step i. */
  lemma RunStep(timeout: nat, r: Run<State, Action>, i: nat)
    requires IsRun(timeout, r) && i < |r.acts|
    ensures Step(timeout, r.states[i], r.acts[i]) == Some(r.states[i + 1])
    ensures Inv(r.states[i]) && Inv(r.states[i + 1])
  {
    hide Step, Inv;
    InvHolds(timeout, r, i);
    InvHolds(timeout, r, i + 1);
  }

  // ---------- singleflight ----------

  /** In every interleaving: the slot is taken exactly while one execution has not cleared it,
      it names that execution, no other execution is in flight, so at most one checker call
      runs at a time; and the unconditional clear only ever erases the clearer's own entry. */
  lemma Singleflight(timeout: nat, r: Run<State, Action>, n: nat)
    requires IsRun(timeout, r) && n < |r.states|
    ensures var s := r.states[n];
      && (forall e :: 0 <= e < |s.execs| ==> (s.inflight == Some(e) <==> !s.execs[e].pc.Cleared?))
      && (s.inflight.Some? ==> s.inflight.value < |s.execs|)
      && (forall d, e :: 0 <= d < |s.execs| && 0 <= e < |s.execs| && s.execs[d].pc.Running? && s.execs[e].pc.Running?
            ==> d == e)
    ensures n < |r.acts| && r.acts[n].Clear? ==>
      r.states[n].inflight == Some(r.acts[n].e) && r.states[n + 1].inflight.None?
  {
    InvHolds(timeout, r, n);
    if n < |r.acts| && r.acts[n].Clear? {
      assert Step(timeout, r.states[n], r.acts[n]) == Some(r.states[n + 1]);
    }
  }

  // ---------- write-once results, agreement ----------

  lemma DoneStays(timeout: nat, s: State, a: Action, t: State, e: nat)
    requires RequestInv(s) && Step(timeout, s, a) == Some(t) && DoneClosed(s, e)
    ensures DoneClosed(t, e) && t.execs[e].result == s.execs[e].result
  {}

  /** Once done is closed, the result of an execution never changes again. */
  lemma {:induction false} ResultIsWriteOnce(timeout: nat, r: Run<State, Action>, i: nat, n: nat, e: nat)
    requires IsRun(timeout, r) && i <= n < |r.states| && DoneClosed(r.states[i], e)
    ensures DoneClosed(r.states[n], e) && r.states[n].execs[e].result == r.states[i].execs[e].result
    ensures r.states[n].execs[e].result.Some?
    decreases n
  {
    hide Step, SlotInv, LauncherInv, AnswerInv, Initial;
    if i < n {
      ResultIsWriteOnce(timeout, r, i, n - 1, e);
      RunStep(timeout, r, n - 1);
      DoneStays(timeout, r.states[n - 1], r.acts[n - 1], r.states[n], e);
    } else {
      InvHolds(timeout, r, i);
    }
  }

  /** All requests answered through one execution got the same result, the one it stored; every
      other answer is a timeout. */
  lemma Agreement(timeout: nat, r: Run<State, Action>, n: nat, p: nat, q: nat)
    requires IsRun(timeout, r) && n < |r.states|
    requires p in r.states[n].reqs && q in r.states[n].reqs
    requires r.states[n].reqs[p].Answered? && r.states[n].reqs[q].Answered?
    ensures var a, b := r.states[n].reqs[p], r.states[n].reqs[q];
      && (a.via == b.via ==> (a.res == b.res || (a.via.None? && a.res.Failing? && b.res.Failing?)))
      && (a.via.None? ==> a.res.Failing? && a.res.code == Timeout)
      && (a.via.Some? ==> DoneClosed(r.states[n], a.via.value)
                          && r.states[n].execs[a.via.value].result == Some(a.res))
  {
    InvHolds(timeout, r, n);
  }

  // ---------- where results come from ----------

  /** How execution e stands with the checker outcomes of the run so far. */
  ghost predicate FromChecker(x: Exec, e: nat, past: seq<Action>) {
    match x.pc
    case Created => forall o :: Finish(e, o) !in past
    case Running => forall o :: Finish(e, o) !in past
    case Computed(res) => OnlyOutcome(e, past, res)
    case _ => x.result.Some? && OnlyOutcome(e, past, x.result.value)
  }

  /** The checker of execution e has come back, always with an outcome that means res. */
  ghost predicate OnlyOutcome(e: nat, past: seq<Action>, res: CheckResult) {
    && (exists o :: Finish(e, o) in past)
    && (forall o :: Finish(e, o) in past ==> res == ExecuteChecker(o))
  }

  ghost predicate Provenance(s: State, past: seq<Action>) {
    && (forall e :: 0 <= e < |s.execs| ==> FromChecker(s.execs[e], e, past))
    && (forall e: nat, o :: e >= |s.execs| ==> Finish(e, o) !in past)
  }

  lemma ProvenanceStep(timeout: nat, s: State, a: Action, t: State, past: seq<Action>)
    requires Inv(s) && Provenance(s, past) && Step(timeout, s, a) == Some(t)
    ensures Provenance(t, past + [a])
  {
    var now := past + [a];
    assert forall b :: b in now <==> b in past || b == a;
    forall e | 0 <= e < |t.execs| ensures FromChecker(t.execs[e], e, now) {
      ExecProvenance(timeout, s, a, t, past, e);
    }
    hide FromChecker, SlotInv, ResultInv, RequestInv, LauncherInv, AnswerInv;
  }

  lemma ExecProvenance(timeout: nat, s: State, a: Action, t: State, past: seq<Action>, e: nat)
    requires Inv(s) && Provenance(s, past) && Step(timeout, s, a) == Some(t) && e < |t.execs|
    ensures FromChecker(t.execs[e], e, past + [a])
  {
    hide SlotInv, LauncherInv, AnswerInv;
    var now := past + [a];
    assert forall b :: b in now <==> b in past || b == a;
    if e < |s.execs| {
      assert FromChecker(s.execs[e], e, past);
      if a.Finish? && a.e == e {
        assert Finish(e, a.outcome) in now;
      } else {
        assert forall o :: Finish(e, o) in now <==> Finish(e, o) in past;
      }
    }
  }

  lemma {:induction false} ProvenanceHolds(timeout: nat, r: Run<State, Action>, n: nat)
    requires IsRun(timeout, r) && n <= |r.acts|
    ensures Provenance(r.states[n], r.acts[..n])
  {
    hide Step, Inv, Provenance;
    if n > 0 {
      ProvenanceHolds(timeout, r, n - 1);
      RunStep(timeout, r, n - 1);
      ProvenanceStep(timeout, r.states[n - 1], r.acts[n - 1], r.states[n], r.acts[..n - 1]);
      assert r.acts[..n] == r.acts[..n - 1] + [r.acts[n - 1]];
    } else {
      NoProvenance(r.states[0]);
      assert r.acts[..0] == [];
    }
  }

  lemma NoProvenance(s: State)
    requires Initial(s)
    ensures Provenance(s, [])
  {}

  /** What each way a checker can end means: nil is a pass, a panic is code panic, an error that
      comes from a context is code timeout, and any other error is code failed. */
  ghost predicate Reports(res: CheckResult, e: nat, past: seq<Action>) {
    && (res == Passed <==> Finish(e, NoError) in past)
    && (forall m :: res == Failing(Panic, "checker panic: " + m) <==> Finish(e, Panicked(m)) in past)
    && (forall m :: res == Failing(Timeout, m) <==> Finish(e, Error(true, m)) in past)
    && (forall m :: res == Failing(Failed, m) <==> Finish(e, Error(false, m)) in past)
  }

  lemma OutcomeReports(e: nat, past: seq<Action>, res: CheckResult)
    requires OnlyOutcome(e, past, res)
    ensures Reports(res, e, past)
  {
    var o :| Finish(e, o) in past;
    forall m, n: string | "checker panic: " + m == "checker panic: " + n ensures m == n {
      assert m == ("checker panic: " + m)[15..] == ("checker panic: " + n)[15..] == n;
    }
  }

  /** A request answered through an execution got what that execution's checker did, whichever
      way it ended: the checker had come back, and with just this. */
  lemma AnswerComesFromChecker(timeout: nat, r: Run<State, Action>, n: nat, p: nat)
    requires IsRun(timeout, r) && n <= |r.acts|
    requires p in r.states[n].reqs && r.states[n].reqs[p].Answered? && r.states[n].reqs[p].via.Some?
    ensures var q := r.states[n].reqs[p];
      Reports(q.res, q.via.value, r.acts[..n]) && exists o :: Finish(q.via.value, o) in r.acts[..n]
  {
    ProvenanceHolds(timeout, r, n);
    InvHolds(timeout, r, n);
    hide Step, Reports;
    var q := r.states[n].reqs[p];
    assert FromChecker(r.states[n].execs[q.via.value], q.via.value, r.acts[..n]);
    OutcomeReports(q.via.value, r.acts[..n], q.res);
  }

  // ---------- an execution runs to its end ----------

  /** Steps execution e has left. */
  function ExecRank(pc: ExecPc): nat {
    match pc
    case Created => 5
    case Running => 4
    case Computed(_) => 3
    case Stored => 2
    case Closed => 1
    case Cleared => 0
  }

  function StepsOf(e: nat): (State, Action) -> bool {
    (s: State, a: Action) =>
      match a
      case Launch(r) => r in s.reqs && s.reqs[r].AtLaunch? && s.reqs[r].exec == e
      case Finish(d, _) => d == e
      case Store(d) => d == e
      case CloseDone(d) => d == e
      case Clear(d) => d == e
      case _ => false
  }

  lemma ExecStep(timeout: nat, s: State, a: Action, t: State, e: nat)
    requires RequestInv(s) && Step(timeout, s, a) == Some(t)
    ensures |s.execs| <= |t.execs|
    ensures e < |s.execs| ==> ExecRank(t.execs[e].pc) + One(StepsOf(e)(s, a)) == ExecRank(s.execs[e].pc)
    ensures e >= |s.execs| ==> !StepsOf(e)(s, a) && (e < |t.execs| ==> t.execs[e].pc.Created?)
  {}

  /** Each execution takes its five steps (launch, the checker's return, store, close, clear)
      once each: its checker is called once, and five steps after it was installed it is over. */
  lemma {:induction false} FiveSteps(timeout: nat, r: Run<State, Action>, n: nat, e: nat)
    requires IsRun(timeout, r) && n <= |r.acts|
    ensures var s := r.states[n];
      Tally(r, 0, n, StepsOf(e)) == if e < |s.execs| then 5 - ExecRank(s.execs[e].pc) else 0
  {
    hide Step, Inv, SlotInv, ResultInv, RequestInv, LauncherInv, AnswerInv, StepsOf;
    if n > 0 {
      FiveSteps(timeout, r, n - 1, e);
      RunStep(timeout, r, n - 1);
      InvGivesRequestInv(r.states[n - 1]);
      ExecStep(timeout, r.states[n - 1], r.acts[n - 1], r.states[n], e);
    }
  }

  lemma InvGivesRequestInv(s: State)
    requires Inv(s)
    ensures RequestInv(s)
  {}

  /** Whoever installed an execution is about to launch it. */
  ghost predicate CreatedInv(s: State) {
    forall e :: 0 <= e < |s.execs| && s.execs[e].pc.Created? ==> HasLauncher(s, e)
  }

  ghost predicate HasLauncher(s: State, e: nat) {
    exists r :: r in s.reqs && s.reqs[r].AtLaunch? && s.reqs[r].exec == e
  }

  lemma CreatedStep(timeout: nat, s: State, a: Action, t: State)
    requires RequestInv(s) && CreatedInv(s) && Step(timeout, s, a) == Some(t)
    ensures CreatedInv(t)
  {
    forall e | 0 <= e < |t.execs| && t.execs[e].pc.Created? ensures HasLauncher(t, e) {
      if e < |s.execs| {
        var r :| r in s.reqs && s.reqs[r].AtLaunch? && s.reqs[r].exec == e;
        assert r in t.reqs && t.reqs[r].AtLaunch? && t.reqs[r].exec == e;
      } else {
        assert a.r in t.reqs && t.reqs[a.r].AtLaunch? && t.reqs[a.r].exec == e;
      }
    }
  }

  lemma {:induction false} CreatedHolds(timeout: nat, r: Run<State, Action>, n: nat)
    requires IsRun(timeout, r) && n <= |r.acts|
    ensures CreatedInv(r.states[n])
  {
    hide Step, Inv, SlotInv, ResultInv, RequestInv, LauncherInv, AnswerInv;
    if n > 0 {
      CreatedHolds(timeout, r, n - 1);
      RunStep(timeout, r, n - 1);
      InvGivesRequestInv(r.states[n - 1]);
      CreatedStep(timeout, r.states[n - 1], r.acts[n - 1], r.states[n]);
    }
  }

  /** The next of the five steps is always enabled: whoever installed the execution can launch
      it, a running checker may end in any way, and then result, close and clear follow. */
  lemma ExecutionGoesOn(timeout: nat, r: Run<State, Action>, n: nat, e: nat)
    requires IsRun(timeout, r) && n <= |r.acts| && e < |r.states[n].execs|
    ensures var s := r.states[n];
      match s.execs[e].pc
      case Created => exists p :: StepsOf(e)(s, Launch(p)) && Step(timeout, s, Launch(p)).Some?
      case Running => forall o :: Step(timeout, s, Finish(e, o)).Some?
      case Computed(_) => Step(timeout, s, Store(e)).Some?
      case Stored => Step(timeout, s, CloseDone(e)).Some?
      case Closed => Step(timeout, s, Clear(e)).Some?
      case Cleared => true
  {
    CreatedHolds(timeout, r, n);
    InvHolds(timeout, r, n);
    var s := r.states[n];
    if s.execs[e].pc.Created? {
      var p :| p in s.reqs && s.reqs[p].AtLaunch? && s.reqs[p].exec == e;
      assert StepsOf(e)(s, Launch(p)) && Step(timeout, s, Launch(p)).Some?;
    }
  }

  // ---------- staleness ----------

  /** What request p refers to once it has taken the lock: execution e, or a timeout. */
  ghost predicate BoundTo(s: State, p: nat, e: nat) {
    p in s.reqs &&
    match s.reqs[p]
    case AtLock(_, _) => false
    case AtLaunch(_, _, x) => x == e
    case Waiting(_, _, x) => x == e
    case Answered(_, _, via, _, _) => via == None || via == Some(e)
  }

  lemma LockBinds(timeout: nat, s: State, t: State, p: nat)
    requires SlotInv(s) && Step(timeout, s, Lock(p)) == Some(t)
    ensures t.inflight.Some? && t.inflight.value == |t.execs| - 1 && BoundTo(t, p, t.inflight.value)
  {}

  lemma BoundStays(timeout: nat, s: State, a: Action, t: State, p: nat, e: nat)
    requires BoundTo(s, p, e) && Step(timeout, s, a) == Some(t)
    ensures BoundTo(t, p, e)
  {}

  /** A result is never staler than the lock: what a request gets through done comes from the
      newest execution at the moment the request left the entry lock, one that had not cleared
      the slot then. (It may have finished already, between its close and its clear.) */
  lemma {:induction false} StalenessBound(timeout: nat, r: Run<State, Action>, i: nat, n: nat, p: nat)
    requires IsRun(timeout, r) && i < n <= |r.acts| && r.acts[i] == Lock(p)
    ensures var s := r.states[i + 1];
      && s.inflight.Some? && s.inflight.value == |s.execs| - 1
      && !s.execs[s.inflight.value].pc.Cleared?
      && BoundTo(r.states[n], p, s.inflight.value)
    decreases n
  {
    hide Step, BoundTo;
    RunStep(timeout, r, n - 1);
    if i == n - 1 {
      LockBinds(timeout, r.states[i], r.states[n], p);
    } else {
      StalenessBound(timeout, r, i, n - 1, p);
      BoundStays(timeout, r.states[n - 1], r.acts[n - 1], r.states[n], p, r.states[i + 1].inflight.value);
    }
  }

  predicate Unfinished(s: State, e: nat) {
    s.inflight == Some(e) && e < |s.execs| && (s.execs[e].pc.Created? || s.execs[e].pc.Running?)
  }

  lemma StaysUnfinished(timeout: nat, s: State, a: Action, t: State, e: nat)
    requires SlotInv(s) && RequestInv(s) && Unfinished(s, e) && Step(timeout, s, a) == Some(t)
    requires !(a.Finish? && a.e == e)
    ensures Unfinished(t, e)
  {}

  lemma {:induction false} UnfinishedHolds(timeout: nat, r: Run<State, Action>, i: nat, n: nat, e: nat)
    requires IsRun(timeout, r) && i <= n <= |r.acts| && Unfinished(r.states[i], e)
    requires forall k :: i <= k < n ==> !(r.acts[k].Finish? && r.acts[k].e == e)
    ensures Unfinished(r.states[n], e)
    decreases n
  {
    hide Step, Unfinished;
    if i < n {
      UnfinishedHolds(timeout, r, i, n - 1, e);
      RunStep(timeout, r, n - 1);
      StaysUnfinished(timeout, r.states[n - 1], r.acts[n - 1], r.states[n], e);
    }
  }

  /** While a checker does not come back, no second one is started, and every request that
      takes the lock meanwhile and is answered is answered with a timeout. */
  lemma StuckCheckerTimesOut(timeout: nat, r: Run<State, Action>, i: nat, j: nat, n: nat, e: nat, p: nat)
    requires IsRun(timeout, r) && i <= j < n <= |r.acts| && Unfinished(r.states[i], e)
    requires forall k :: i <= k < n ==> !(r.acts[k].Finish? && r.acts[k].e == e)
    requires r.acts[j] == Lock(p) && p in r.states[n].reqs && r.states[n].reqs[p].Answered?
    ensures |r.states[n].execs| == |r.states[i].execs|
    ensures r.states[n].reqs[p].via.None?
    ensures r.states[n].reqs[p].res.Failing? && r.states[n].reqs[p].res.code == Timeout
  {
    UnfinishedHolds(timeout, r, i, n, e);
    UnfinishedHolds(timeout, r, i, j + 1, e);
    StalenessBound(timeout, r, j, n, p);
    InvHolds(timeout, r, n);
    InvHolds(timeout, r, i);
    hide Step, IsRun, Follows;
  }

  // ---------- time ----------

  /** Request r has an instruction to execute, or something it waits for has happened. */
  predicate Ready(s: State, r: nat) {
    r in s.reqs &&
    match s.reqs[r]
    case AtLock(_, _) => true
    case AtLaunch(_, _, _) => true
    case Waiting(_, deadline, e) => DoneClosed(s, e) || deadline <= s.now || r in s.canceled
    case Answered(_, _, _, _, _) => false
  }

  /** Time passes only while every request waits: computing takes no time. Executions, the
      checker calls in particular, take as long as they like. */
  ghost predicate Prompt(r: Run<State, Action>)
    requires WellShaped(r)
  {
    forall i :: 0 <= i < |r.acts| && r.acts[i].Tick? ==> forall p :: p in r.states[i].reqs ==> !Ready(r.states[i], p)
  }

  /** The bound below is no artefact of stopped time: a ready request has a step of its own. */
  lemma ReadyCanStep(timeout: nat, s: State, r: nat)
    requires Inv(s) && Ready(s, r)
    ensures Step(timeout, s, Lock(r)).Some? || Step(timeout, s, Launch(r)).Some?
            || Step(timeout, s, ReturnDone(r)).Some? || Step(timeout, s, ReturnTimeout(r)).Some?
  {}

  /** The select of a waiting request takes any branch that is ready, and no other; requests may
      come and be canceled at any time. */
  lemma SelectIsFree(timeout: nat, s: State, r: nat)
    requires Inv(s)
    ensures r in s.reqs && s.reqs[r].Waiting? ==>
      && (Step(timeout, s, ReturnDone(r)).Some? <==> DoneClosed(s, s.reqs[r].exec))
      && (Step(timeout, s, ReturnTimeout(r)).Some? <==> s.reqs[r].deadline <= s.now || r in s.canceled)
    ensures r !in s.reqs ==> forall parent :: Step(timeout, s, Call(r, parent)).Some?
    ensures Step(timeout, s, CancelParent(r)).Some?
  {}

  ghost predicate InTime(s: State, q: Request) {
    match q
    case Answered(called, deadline, _, _, at) => called <= at <= Max(called, deadline)
    case _ => q.called <= s.now <= Max(q.called, q.deadline)
  }

  ghost predicate TimeInv(s: State) {
    forall p :: p in s.reqs ==> InTime(s, s.reqs[p])
  }

  lemma TimeStep(timeout: nat, s: State, a: Action, t: State)
    requires TimeInv(s) && Step(timeout, s, a) == Some(t)
    requires a.Tick? ==> forall p :: p in s.reqs ==> !Ready(s, p)
    ensures TimeInv(t)
  {}

  lemma {:induction false} TimeHolds(timeout: nat, r: Run<State, Action>, n: nat)
    requires IsRun(timeout, r) && Prompt(r) && n < |r.states|
    ensures TimeInv(r.states[n])
  {
    hide Step, TimeInv;
    if n > 0 {
      TimeHolds(timeout, r, n - 1);
      RunStep(timeout, r, n - 1);
      TimeStep(timeout, r.states[n - 1], r.acts[n - 1], r.states[n]);
    } else {
      TimeAtFirst(r.states[0]);
    }
  }

  lemma TimeAtFirst(s: State)
    requires Initial(s)
    ensures TimeInv(s)
  {}

  lemma CallEffect(timeout: nat, s: State, t: State, p: nat, parent: int)
    requires Step(timeout, s, Call(p, parent)) == Some(t)
    ensures p in t.reqs && t.reqs[p].called == s.now && t.reqs[p].deadline == Min(parent, s.now + timeout)
  {}

  lemma CallKept(timeout: nat, s: State, a: Action, t: State, p: nat)
    requires p in s.reqs && Step(timeout, s, a) == Some(t)
    ensures p in t.reqs && t.reqs[p].called == s.reqs[p].called && t.reqs[p].deadline == s.reqs[p].deadline
  {}

  lemma {:induction false} CallHolds(timeout: nat, r: Run<State, Action>, i: nat, n: nat, p: nat, parent: int)
    requires IsRun(timeout, r) && i < n <= |r.acts| && r.acts[i] == Call(p, parent)
    ensures p in r.states[n].reqs
    ensures var q, now := r.states[n].reqs[p], r.states[i].now;
      q.called == now && q.deadline == Min(parent, now + timeout)
    decreases n
  {
    hide Step;
    RunStep(timeout, r, n - 1);
    if i == n - 1 {
      CallEffect(timeout, r.states[i], r.states[n], p, parent);
    } else {
      CallHolds(timeout, r, i, n - 1, p, parent);
      CallKept(timeout, r.states[n - 1], r.acts[n - 1], r.states[n], p);
    }
  }

  /** Every request comes back by its own deadline: the earlier of its parent's deadline and
      the check timeout counted from its own call, whoever runs the checker and for however
      long. A request still open has not passed it. */
  lemma AnswerInTime(timeout: nat, r: Run<State, Action>, i: nat, n: nat, p: nat, parent: int)
    requires IsRun(timeout, r) && Prompt(r) && i < n <= |r.acts| && r.acts[i] == Call(p, parent)
    ensures p in r.states[n].reqs
    ensures var limit := Max(r.states[i].now, Min(parent, r.states[i].now + timeout));
      if r.states[n].reqs[p].Answered? then r.states[i].now <= r.states[n].reqs[p].at <= limit
      else r.states[n].now <= limit
  {
    CallHolds(timeout, r, i, n, p, parent);
    TimeHolds(timeout, r, n);
    assert InTime(r.states[n], r.states[n].reqs[p]);
  }

  // ---------- two runs ----------

  /** A run in which computing takes no time leads from s to t. */
  ghost predicate Leads(timeout: nat, s: State, t: State) {
    exists r: Run<State, Action> ::
      Follows(timeout, r) && Prompt(r) && r.states[0] == s && r.states[|r.acts|] == t
  }

  lemma LeadsNowhere(timeout: nat, s: State)
    ensures Leads(timeout, s, s)
  {
    var r: Run<State, Action> := Run([s], []);
    assert Follows(timeout, r) && Prompt(r);
  }

  lemma Go(timeout: nat, o: State, s: State, a: Action) returns (t: State)
    requires Leads(timeout, o, s) && Step(timeout, s, a).Some?
    requires a.Tick? ==> forall p :: p in s.reqs ==> !Ready(s, p)
    ensures Step(timeout, s, a) == Some(t) && Leads(timeout, o, t)
  {
    hide Step, Ready;
    t := Step(timeout, s, a).value;
    var r: Run<State, Action> :|
      Follows(timeout, r) && Prompt(r) && r.states[0] == o && r.states[|r.acts|] == s;
    var q := Run(r.states + [t], r.acts + [a]);
    assert Follows(timeout, q) && Prompt(q);
  }

  /** Time runs to the deadline while the only request waits for a running checker. */
  lemma {:induction false} WaitOut(timeout: nat, o: State, s: State, p: nat, deadline: int) returns (t: State)
    requires Leads(timeout, o, s) && s.now <= deadline && s.reqs.Keys == {p} && s.canceled == {}
    requires s.reqs[p].Waiting? && s.reqs[p].deadline == deadline && !DoneClosed(s, s.reqs[p].exec)
    ensures Leads(timeout, o, t) && t == s.(now := deadline)
    decreases deadline - s.now
  {
    hide Leads;
    t := s;
    if s.now < deadline {
      t := Go(timeout, o, s, Tick);
      t := WaitOut(timeout, o, t, p, deadline);
    }
  }

  /** A checker that does not come back: the request that started it is answered when its own
      timeout has passed, the checker still running. */
  lemma ACheckerHangs(timeout: nat, o: State, p: nat)
    requires Initial(o)
    ensures exists t :: Leads(timeout, o, t) && p in t.reqs && t.execs == [Exec(Running, None)]
                        && t.now == o.now + timeout && t.reqs[p].Answered? && t.reqs[p].via.None?
  {
    LeadsNowhere(timeout, o);
    hide Leads;
    var s := Go(timeout, o, o, Call(p, o.now + timeout));
    s := Go(timeout, o, s, Lock(p));
    s := Go(timeout, o, s, Launch(p));
    s := WaitOut(timeout, o, s, p, o.now + timeout);
    s := Go(timeout, o, s, ReturnTimeout(p));
  }

  /** One call of the checker answers two requests. */
  lemma ACallIsShared(timeout: nat, o: State, p: nat, q: nat)
    requires Initial(o) && p != q && timeout > 0
    ensures exists t :: Leads(timeout, o, t) && p in t.reqs && q in t.reqs && |t.execs| == 1
                        && t.reqs[p].Answered? && t.reqs[q].Answered? && t.reqs[p].via == t.reqs[q].via == Some(0)
  {
    LeadsNowhere(timeout, o);
    hide Leads;
    var s := Go(timeout, o, o, Call(p, o.now + timeout));
    s := Go(timeout, o, s, Lock(p));
    s := Go(timeout, o, s, Launch(p));
    s := Go(timeout, o, s, Call(q, o.now + timeout));
    s := Go(timeout, o, s, Lock(q));
    s := Go(timeout, o, s, Finish(0, NoError));
    s := Go(timeout, o, s, Store(0));
    s := Go(timeout, o, s, CloseDone(0));
    s := Go(timeout, o, s, ReturnDone(p));
    s := Go(timeout, o, s, ReturnDone(q));
    s := Go(timeout, o, s, Clear(0));
  }
}

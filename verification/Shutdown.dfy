/** Run after its listener is up, and gracefulShutdown, as a timed transition system. Serve,
    Shutdown and Close are foreign: each returns what it likes, when it likes, or never.
    Time is counted in nanoseconds and passes only while Run has nothing to do, so "within
    the deadline" means up to the time Run's own instructions take. */
module Shutdown {
  import opened Wrappers
  import opened Traces

  /** What Shutdown reports: nil, context.DeadlineExceeded, or another error. */
  datatype Report = Clean | DeadlineExceeded | OtherError

  datatype Result = Nil | ErrServeFailed | ErrShutdownTimeout

  /** Run's program counter. The deadline is fixed on entry to gracefulShutdown. */
  datatype Main =
    | Selecting
    | Entering
    | Stage1(entry: int, deadline: int)
    | Stage2(entry: int, deadline: int, report: Report)
    | Returned(result: Result, at: int)

  /** A goroutine that makes one foreign call and sends its outcome once. */
  datatype Sender<T> = Unlaunched | Calling | Sending(outcome: T) | Finished

  datatype Close = NotClosed | Closing | ClosedUp

  datatype State = State(now: int, timeoutNanos: int, canceled: bool, main: Main,
                         serve: Sender<bool>, serveCh: Option<bool>,      // true is a Serve error
                         shutdown: Sender<Report>, shutdownCh: Option<Report>,
                         close: Close)

  predicate Initial(s: State) {
    && s.main.Selecting? && s.serve.Calling? && s.serveCh.None?
    && s.shutdown.Unlaunched? && s.shutdownCh.None? && s.close.NotClosed?
  }

  datatype Action =
    // time, the caller's context, hot reload of the timeout
    | Tick | Cancel | Update(d: int)
    // the foreign calls and the sends of their goroutines
    | ServeReturns(err: bool) | ServeSend
    | ShutdownReturns(report: Report) | ShutdownSend
    | CloseReturns
    // Run
    | SeeCancel | SeeServe(err: bool) | Enter
    | SeeShutdown(report: Report) | SeeDeadline1 | SeeServe2 | SeeDeadline2

  function Classify(r: Report): Result {
    match r
    case Clean => Nil
    case DeadlineExceeded => ErrShutdownTimeout
    case OtherError => ErrServeFailed
  }

  /** Run can take a step now. */
  predicate MainReady(s: State) {
    match s.main
    case Selecting => s.canceled || s.serveCh.Some?
    case Entering => true
    case Stage1(_, deadline) => s.shutdownCh.Some? || deadline <= s.now
    case Stage2(_, deadline, _) => s.serveCh.Some? || deadline <= s.now
    case Returned(_, _) => false
  }

  function Step(s: State, a: Action): Option<State> {
    match a
    case Tick => Guard(!MainReady(s), s.(now := s.now + 1))
    case Cancel => Some(s.(canceled := true))
    case Update(d) => Some(if d > 0 then s.(timeoutNanos := d) else s)

    case ServeReturns(err) => Guard(s.serve.Calling?, s.(serve := Sending(err)))
    case ServeSend =>
      if s.serve.Sending? && s.serveCh.None? then Some(s.(serve := Finished, serveCh := Some(s.serve.outcome))) else None
    case ShutdownReturns(report) => Guard(s.shutdown.Calling?, s.(shutdown := Sending(report)))
    case ShutdownSend =>
      if s.shutdown.Sending? && s.shutdownCh.None? then
        Some(s.(shutdown := Finished, shutdownCh := Some(s.shutdown.outcome)))
      else None
    case CloseReturns => Guard(s.close.Closing?, s.(close := ClosedUp))

    case SeeCancel => Guard(s.main.Selecting? && s.canceled, s.(main := Entering))
    case SeeServe(err) =>
      Guard(s.main.Selecting? && s.serveCh == Some(err),
            s.(serveCh := None, main := Returned(if err then ErrServeFailed else Nil, s.now)))
    case Enter =>
      Guard(s.main.Entering?, s.(main := Stage1(s.now, s.now + s.timeoutNanos), shutdown := Calling))
    case SeeShutdown(report) =>
      if s.main.Stage1? && s.shutdownCh == Some(report) then
        Some(s.(shutdownCh := None, main := Stage2(s.main.entry, s.main.deadline, report)))
      else None
    case SeeDeadline1 =>
      if s.main.Stage1? && s.main.deadline <= s.now then
        Some(s.(main := Stage2(s.main.entry, s.main.deadline, DeadlineExceeded), close := Closing))
      else None
    case SeeServe2 =>
      if s.main.Stage2? && s.serveCh.Some? then
        Some(s.(serveCh := None, main := Returned(Classify(s.main.report), s.now)))
      else None
    case SeeDeadline2 =>
      if s.main.Stage2? && s.main.deadline <= s.now then
        Some(s.(main := Returned(Classify(s.main.report), s.now)))
      else None
  }

  /** A run from wherever it begins. */
  ghost predicate Follows(r: Run<State, Action>) {
    WellShaped(r) && forall i :: 0 <= i < |r.acts| ==> Step(r.states[i], r.acts[i]) == Some(r.states[i + 1])
  }

  /** A run from its beginning. */
  ghost predicate IsRun(r: Run<State, Action>) {
    Follows(r) && Initial(r.states[0])
  }

  // ---------- channels ----------

  /** A sender that still has its outcome finds its channel empty. */
  ghost predicate ChannelInv(s: State) {
    && (s.serveCh.Some? ==> s.serve.Finished?)
    && (s.shutdownCh.Some? ==> s.shutdown.Finished?)
    && !s.serve.Unlaunched?
    && (s.main.Selecting? || s.main.Entering? ==> s.shutdown.Unlaunched?)
  }

  lemma ChannelStep(s: State, a: Action, t: State)
    requires ChannelInv(s) && Step(s, a) == Some(t)
    ensures ChannelInv(t)
  {}

  lemma {:induction false} ChannelHolds(r: Run<State, Action>, n: nat)
    requires IsRun(r) && n < |r.states|
    ensures ChannelInv(r.states[n])
  {
    hide Step, ChannelInv;
    if n > 0 {
      ChannelHolds(r, n - 1);
      ChannelStep(r.states[n - 1], r.acts[n - 1], r.states[n]);
    } else {
      ChannelAtFirst(r.states[0]);
    }
  }

  lemma ChannelAtFirst(s: State)
    requires Initial(s)
    ensures ChannelInv(s)
  {}

  predicate SendsServe(s: State, a: Action) { a == ServeSend }
  predicate SendsShutdown(s: State, a: Action) { a == ShutdownSend }

  /** Each result channel gets at most one send, and that send never waits: neither goroutine
      can be stuck on a result nobody reads. */
  lemma {:induction false} SendersNeverBlock(r: Run<State, Action>, n: nat)
    requires IsRun(r) && n <= |r.acts|
    ensures Tally(r, 0, n, SendsServe) == One(r.states[n].serve.Finished?)
    ensures Tally(r, 0, n, SendsShutdown) == One(r.states[n].shutdown.Finished?)
    ensures r.states[n].serve.Sending? ==> Step(r.states[n], ServeSend).Some?
    ensures r.states[n].shutdown.Sending? ==> Step(r.states[n], ShutdownSend).Some?
  {
    ChannelHolds(r, n);
    if n > 0 {
      SendersNeverBlock(r, n - 1);
      ChannelHolds(r, n - 1);
      SenderEffects(r.states[n - 1], r.acts[n - 1], r.states[n]);
    }
  }

  lemma SenderEffects(s: State, a: Action, t: State)
    requires ChannelInv(s) && Step(s, a) == Some(t)
    ensures t.serve.Finished? <==> s.serve.Finished? || a == ServeSend
    ensures a == ServeSend ==> !s.serve.Finished?
    ensures t.shutdown.Finished? <==> s.shutdown.Finished? || a == ShutdownSend
    ensures a == ShutdownSend ==> !s.shutdown.Finished?
  {}

  // ---------- one deadline ----------

  /** Run never idles past the deadline it fixed on entry. */
  ghost predicate ClockInv(s: State, entry: int, limit: int) {
    match s.main
    case Stage1(e, d) => e == entry && d == limit && entry <= s.now <= Max(entry, limit)
    case Stage2(e, d, _) => e == entry && d == limit && entry <= s.now <= Max(entry, limit)
    case Returned(_, at) => entry <= at <= Max(entry, limit)
    case _ => false
  }

  lemma ClockStep(s: State, a: Action, t: State, entry: int, limit: int)
    requires ClockInv(s, entry, limit) && Step(s, a) == Some(t)
    ensures ClockInv(t, entry, limit)
  {}

  lemma EnterEffect(s: State, t: State)
    requires Step(s, Enter) == Some(t)
    ensures ClockInv(t, s.now, s.now + s.timeoutNanos)
  {}

  /** The timeout in force after n steps: the last positive update, or what the server was made
      with. */
  ghost function TimeoutAt(r: Run<State, Action>, n: nat): int
    requires WellShaped(r) && n <= |r.acts|
  {
    if n == 0 then r.states[0].timeoutNanos
    else if r.acts[n - 1].Update? && r.acts[n - 1].d > 0 then r.acts[n - 1].d
    else TimeoutAt(r, n - 1)
  }

  lemma TimeoutStep(s: State, a: Action, t: State)
    requires Step(s, a) == Some(t)
    ensures t.timeoutNanos == if a.Update? && a.d > 0 then a.d else s.timeoutNanos
  {}

  lemma {:induction false} TimeoutIsLastUpdate(r: Run<State, Action>, n: nat)
    requires IsRun(r) && n <= |r.acts|
    ensures r.states[n].timeoutNanos == TimeoutAt(r, n)
  {
    hide Step;
    if n > 0 {
      TimeoutIsLastUpdate(r, n - 1);
      TimeoutStep(r.states[n - 1], r.acts[n - 1], r.states[n]);
    }
  }

  /** Shutdown is bounded by one deadline, not two: whatever Shutdown, Close and Serve do, and
      whatever the timeout is changed to meanwhile, from the entry at step i on the clock shows
      no more than entry time plus the timeout last set before until Run returns, and Run
      returns no later than that. */
  lemma {:induction false} OneDeadline(r: Run<State, Action>, i: nat, n: nat)
    requires IsRun(r) && i < n <= |r.acts| && r.acts[i] == Enter
    ensures var limit := Max(r.states[i].now, r.states[i].now + TimeoutAt(r, i));
      && (!r.states[n].main.Returned? ==> r.states[n].now <= limit)
      && (r.states[n].main.Returned? ==> r.states[i].now <= r.states[n].main.at <= limit)
  {
    TimeoutIsLastUpdate(r, i);
    ClockHolds(r, i, n);
  }

  /** Nor is it cut short: neither stage gives up before the whole of that timeout has passed. */
  lemma FullTimeIsGiven(r: Run<State, Action>, i: nat, n: nat)
    requires IsRun(r) && i < n < |r.acts| && r.acts[i] == Enter
    requires r.acts[n] == SeeDeadline1 || r.acts[n] == SeeDeadline2
    ensures r.states[i].now + TimeoutAt(r, i) <= r.states[n].now
  {
    TimeoutIsLastUpdate(r, i);
    ClockHolds(r, i, n);
    assert Step(r.states[n], r.acts[n]) == Some(r.states[n + 1]);
  }

  lemma {:induction false} ClockHolds(r: Run<State, Action>, i: nat, n: nat)
    requires IsRun(r) && i < n <= |r.acts| && r.acts[i] == Enter
    ensures ClockInv(r.states[n], r.states[i].now, r.states[i].now + r.states[i].timeoutNanos)
    decreases n
  {
    hide Step, ClockInv;
    if i == n - 1 {
      EnterEffect(r.states[i], r.states[n]);
    } else {
      ClockHolds(r, i, n - 1);
      ClockStep(r.states[n - 1], r.acts[n - 1], r.states[n], r.states[i].now,
                r.states[i].now + r.states[i].timeoutNanos);
    }
  }

  predicate OfMain(a: Action) {
    a.SeeCancel? || a.SeeServe? || a.Enter? || a.SeeShutdown? || a.SeeDeadline1? || a.SeeServe2? || a.SeeDeadline2?
  }

  /** The bound is not an artefact of stopped time: until Run has returned, either it has a
      step of its own or time can pass. */
  lemma TimeOrMain(s: State)
    ensures MainReady(s) <==> exists a :: OfMain(a) && Step(s, a).Some?
    ensures Step(s, Tick).Some? <==> !MainReady(s)
  {
    if MainReady(s) {
      var a := match s.main
        case Selecting => if s.canceled then SeeCancel else SeeServe(s.serveCh.value)
        case Entering => Enter
        case Stage1(_, deadline) => if deadline <= s.now then SeeDeadline1 else SeeShutdown(s.shutdownCh.value)
        case Stage2(_, deadline, _) => if deadline <= s.now then SeeDeadline2 else SeeServe2
        case _ => Tick;
      assert OfMain(a) && Step(s, a).Some?;
    }
  }

  /** Each of Run's selects takes any branch that is ready, and no other; and the foreign calls
      may return anything at any time. */
  lemma SelectsAreFree(s: State)
    ensures s.main.Selecting? ==>
      && (Step(s, SeeCancel).Some? <==> s.canceled)
      && (forall err :: Step(s, SeeServe(err)).Some? <==> s.serveCh == Some(err))
    ensures s.main.Stage1? ==>
      && (forall p :: Step(s, SeeShutdown(p)).Some? <==> s.shutdownCh == Some(p))
      && (Step(s, SeeDeadline1).Some? <==> s.main.deadline <= s.now)
    ensures s.main.Stage2? ==>
      && (Step(s, SeeServe2).Some? <==> s.serveCh.Some?)
      && (Step(s, SeeDeadline2).Some? <==> s.main.deadline <= s.now)
    ensures s.serve.Calling? ==> forall err :: Step(s, ServeReturns(err)).Some?
    ensures s.shutdown.Calling? ==> forall p :: Step(s, ShutdownReturns(p)).Some?
    ensures s.close.Closing? ==> Step(s, CloseReturns).Some?
    ensures Step(s, Cancel).Some? && forall d :: Step(s, Update(d)).Some?
  {}

  // ---------- what Run returns ----------

  /** Which of the select branches that carry an outcome the run has taken, before it entered
      stage 2, in stage 2, and once it has returned. */
  ghost predicate Verdict(m: Main, past: seq<Action>) {
    match m
    case Stage2(_, _, report) =>
      && SeeServe(true) !in past && SeeServe(false) !in past
      && (SeeDeadline1 in past ==> report.DeadlineExceeded?)
      && (forall p :: SeeShutdown(p) in past ==> p == report)
      && (SeeShutdown(report) in past || SeeDeadline1 in past)
    case Returned(result, _) =>
      && (result.ErrShutdownTimeout? <==> SeeDeadline1 in past || SeeShutdown(DeadlineExceeded) in past)
      && (result.ErrServeFailed? <==> SeeServe(true) in past || SeeShutdown(OtherError) in past)
      && (result.Nil? <==> SeeServe(false) in past || SeeShutdown(Clean) in past)
    case _ =>
      && SeeServe(true) !in past && SeeServe(false) !in past && SeeDeadline1 !in past
      && forall p :: SeeShutdown(p) !in past
  }

  /** The branches that carry an outcome or return. */
  predicate Decides(a: Action) {
    a.SeeServe? || a.SeeShutdown? || a.SeeDeadline1? || a.SeeServe2? || a.SeeDeadline2?
  }

  lemma VerdictStep(s: State, a: Action, t: State, past: seq<Action>)
    requires Verdict(s.main, past) && Step(s, a) == Some(t)
    ensures Verdict(t.main, past + [a])
  {
    if Decides(a) { VerdictDecided(s, a, t, past); } else { VerdictKept(s, a, t, past); }
  }

  lemma VerdictDecided(s: State, a: Action, t: State, past: seq<Action>)
    requires Verdict(s.main, past) && Step(s, a) == Some(t) && Decides(a)
    ensures Verdict(t.main, past + [a])
  {
    assert forall b :: b in past + [a] <==> b in past || b == a;
  }

  lemma VerdictKept(s: State, a: Action, t: State, past: seq<Action>)
    requires Verdict(s.main, past) && Step(s, a) == Some(t) && !Decides(a)
    ensures Verdict(t.main, past + [a])
  {
    assert forall b: Action :: Decides(b) ==> (b in past + [a] <==> b in past);
  }

  /** The forced Close, the end of Serve and the cancel branch, in terms of the steps taken. */
  ghost predicate Outcomes(s: State, past: seq<Action>) {
    && (s.main.Selecting? ==> SeeCancel !in past)
    && (SeeCancel in past ==> SeeServe(true) !in past && SeeServe(false) !in past)
    && (!s.close.NotClosed? <==> SeeDeadline1 in past)
    && (s.serve.Calling? ==> ServeReturns(true) !in past && ServeReturns(false) !in past)
  }

  lemma OutcomesStep(s: State, a: Action, t: State, past: seq<Action>)
    requires Outcomes(s, past) && Verdict(s.main, past) && ChannelInv(s) && Step(s, a) == Some(t)
    ensures Outcomes(t, past + [a])
  {
    assert forall b :: b in past + [a] <==> b in past || b == a;
  }

  lemma ToldAtFirst(s: State)
    requires Initial(s)
    ensures Verdict(s.main, []) && Outcomes(s, [])
  {}

  lemma {:induction false} ToldByHistory(r: Run<State, Action>, n: nat)
    requires IsRun(r) && n <= |r.acts|
    ensures Verdict(r.states[n].main, r.acts[..n]) && Outcomes(r.states[n], r.acts[..n])
  {
    hide Step, Verdict, Outcomes, ChannelInv;
    if n > 0 {
      ToldByHistory(r, n - 1);
      ChannelHolds(r, n - 1);
      VerdictStep(r.states[n - 1], r.acts[n - 1], r.states[n], r.acts[..n - 1]);
      OutcomesStep(r.states[n - 1], r.acts[n - 1], r.states[n], r.acts[..n - 1]);
      assert r.acts[..n] == r.acts[..n - 1] + [r.acts[n - 1]];
    } else {
      ToldAtFirst(r.states[0]);
      assert r.acts[..0] == [];
    }
  }

  // ---------- the forced Close ----------

  /** Shutdown's one report is on its way to Run or was seen by it, as it was made. */
  ghost predicate Reported(s: State, past: seq<Action>) {
    && (forall p :: ShutdownReturns(p) in past <==>
          s.shutdown == Sending(p) || s.shutdownCh == Some(p) || SeeShutdown(p) in past)
    && (forall p, q :: SeeShutdown(p) in past && SeeShutdown(q) in past ==> p == q)
    && (forall p :: SeeShutdown(p) in past ==> s.shutdown.Finished? && s.shutdownCh.None?)
  }

  lemma ReportedStep(s: State, a: Action, t: State, past: seq<Action>)
    requires ChannelInv(s) && Reported(s, past) && Step(s, a) == Some(t)
    ensures Reported(t, past + [a])
  {
    assert forall b :: b in past + [a] <==> b in past || b == a;
  }

  lemma {:induction false} ReportedHolds(r: Run<State, Action>, n: nat)
    requires IsRun(r) && n <= |r.acts|
    ensures Reported(r.states[n], r.acts[..n])
  {
    hide Step, ChannelInv, Reported;
    if n > 0 {
      ReportedHolds(r, n - 1);
      ChannelHolds(r, n - 1);
      ReportedStep(r.states[n - 1], r.acts[n - 1], r.states[n], r.acts[..n - 1]);
      assert r.acts[..n] == r.acts[..n - 1] + [r.acts[n - 1]];
    } else {
      NoReport(r.states[0]);
      assert r.acts[..0] == [];
    }
  }

  lemma NoReport(s: State)
    requires Initial(s)
    ensures Reported(s, [])
  {}

  /** A forced Close always means ErrShutdownTimeout. The converse holds unless Shutdown itself
      reported the deadline. */
  lemma ForceCloseExactly(r: Run<State, Action>, n: nat)
    requires IsRun(r) && n <= |r.acts| && r.states[n].main.Returned?
    ensures !r.states[n].close.NotClosed? ==> r.states[n].main.result.ErrShutdownTimeout?
    ensures ShutdownReturns(DeadlineExceeded) !in r.acts[..n] ==>
      (r.states[n].main.result.ErrShutdownTimeout? <==> !r.states[n].close.NotClosed?)
  {
    ToldByHistory(r, n);
    ReportedHolds(r, n);
  }

  /** net/http's Shutdown reports the end of its context only once that has ended. */
  predicate Credible(s: State, a: Action) {
    a == ShutdownReturns(DeadlineExceeded) && s.main.Stage1? ==> s.main.deadline <= s.now
  }

  /** A continuation with a credible Shutdown returns ErrShutdownTimeout without a Close. */
  ghost predicate CanTimeOutUnforced(s: State) {
    exists t :: Leads(s, t) && t.main.Returned? && t.main.result.ErrShutdownTimeout? && t.close.NotClosed?
  }

  ghost predicate Leads(s: State, t: State) {
    exists r: Run<State, Action> :: Follows(r) && AllCredible(r) && r.states[0] == s && r.states[|r.acts|] == t
  }

  ghost predicate AllCredible(r: Run<State, Action>)
    requires WellShaped(r)
  {
    forall i :: 0 <= i < |r.acts| ==> Credible(r.states[i], r.acts[i])
  }

  lemma LeadsNowhere(s: State)
    ensures Leads(s, s)
  {
    var r: Run<State, Action> := Run([s], []);
    assert Follows(r) && AllCredible(r);
  }

  lemma Go(o: State, s: State, a: Action) returns (t: State)
    requires Leads(o, s) && Step(s, a).Some? && Credible(s, a)
    ensures Step(s, a) == Some(t) && Leads(o, t)
  {
    hide Step, Credible;
    t := Step(s, a).value;
    var r: Run<State, Action> :| Follows(r) && AllCredible(r) && r.states[0] == o && r.states[|r.acts|] == s;
    var q := Run(r.states + [t], r.acts + [a]);
    assert Follows(q) && AllCredible(q);
  }

  /** Time runs to the deadline while Run has nothing else to look at. */
  lemma {:induction false} WaitOut(o: State, s: State, deadline: int) returns (t: State)
    requires Leads(o, s) && s.now <= deadline
    requires s.main.Stage1? || s.main.Stage2?
    requires s.main.deadline == deadline && (if s.main.Stage1? then s.shutdownCh.None? else s.serveCh.None?)
    ensures Leads(o, t) && t == s.(now := deadline)
    decreases deadline - s.now
  {
    hide Leads;
    t := s;
    if s.now < deadline {
      t := Go(o, s, Tick);
      t := WaitOut(o, t, deadline);
    }
  }

  /** In stage 2 with the deadline as its report, Run is bound to return ErrShutdownTimeout. */
  lemma ReportStands(o: State, s: State)
    requires Leads(o, s) && s.main.Stage2? && s.main.report.DeadlineExceeded? && s.close.NotClosed?
    ensures CanTimeOutUnforced(o)
  {
    hide Leads;
    var t := s;
    if s.serveCh.Some? {
      t := Go(o, s, SeeServe2);
    } else {
      if s.now < s.main.deadline { t := WaitOut(o, s, s.main.deadline); }
      t := Go(o, t, SeeDeadline2);
    }
  }

  /** Shutdown is still running, or what it reported and Run has not looked at is the deadline. */
  predicate DeadlineToCome(s: State) {
    s.shutdown.Calling? || s.shutdown == Sending(DeadlineExceeded) || s.shutdownCh == Some(DeadlineExceeded)
  }

  lemma UnforcedFrom(s: State)
    requires s.main.Stage1? && s.close.NotClosed? && ChannelInv(s) && DeadlineToCome(s)
    ensures CanTimeOutUnforced(s)
  {
    LeadsNowhere(s);
    hide Leads, CanTimeOutUnforced;
    var t := s;
    if s.shutdown.Calling? {
      if s.now < s.main.deadline { t := WaitOut(s, s, s.main.deadline); }
      t := Go(s, t, ShutdownReturns(DeadlineExceeded));
    }
    if t.shutdown.Sending? { t := Go(s, t, ShutdownSend); }
    t := Go(s, t, SeeShutdown(DeadlineExceeded));
    ReportStands(s, t);
  }

  /** Shutdown has reported something else, or Run has looked away: from here a timeout without
      a Close is out of reach. */
  ghost predicate Decided(s: State) {
    && ChannelInv(s)
    && match s.main
       case Stage1(_, _) => s.close.NotClosed? && !DeadlineToCome(s)
       case Stage2(_, _, report) => s.close.NotClosed? ==> !report.DeadlineExceeded?
       case Returned(result, _) => s.close.NotClosed? ==> !result.ErrShutdownTimeout?
       case _ => false
  }

  lemma DecidedStep(s: State, a: Action, t: State)
    requires Decided(s) && Step(s, a) == Some(t)
    ensures Decided(t)
  {}

  lemma {:induction false} DecidedHolds(r: Run<State, Action>, n: nat)
    requires Follows(r) && n < |r.states| && Decided(r.states[0])
    ensures Decided(r.states[n])
  {
    hide Step, Decided;
    if n > 0 {
      DecidedHolds(r, n - 1);
      DecidedStep(r.states[n - 1], r.acts[n - 1], r.states[n]);
    }
  }

  /** Where the timeout can still come without a forced Close: at a point of stage 1, exactly
      while Shutdown has not come back or its waiting report is the deadline. */
  lemma UnforcedTimeoutExactly(r: Run<State, Action>, n: nat)
    requires IsRun(r) && n <= |r.acts| && r.states[n].main.Stage1?
    ensures CanTimeOutUnforced(r.states[n]) <==> DeadlineToCome(r.states[n])
  {
    var s := r.states[n];
    ToldByHistory(r, n);
    ChannelHolds(r, n);
    if DeadlineToCome(s) {
      UnforcedFrom(s);
    } else {
      forall t | Leads(s, t) ensures Decided(t) {
        var q: Run<State, Action> :| Follows(q) && AllCredible(q) && q.states[0] == s && q.states[|q.acts|] == t;
        DecidedHolds(q, |q.acts|);
      }
    }
  }

  // ---------- Serve errors ----------

  /** While Run has not taken the cancel branch, a Serve error is on its way to Run or was
      returned by it. */
  ghost predicate ServeTold(s: State, past: seq<Action>) {
    && (s.main.Selecting? || s.main.Returned?)
    && (s.main.Selecting? ==>
          (ServeReturns(true) in past <==> s.serve == Sending(true) || s.serveCh == Some(true)))
    && (s.main.Returned? ==>
          && (ServeReturns(true) in past <==> s.main.result.ErrServeFailed?)
          && s.serve.Finished? && !s.main.result.ErrShutdownTimeout?)
  }

  lemma ServeToldStep(s: State, a: Action, t: State, past: seq<Action>)
    requires ServeTold(s, past) && Outcomes(s, past) && ChannelInv(s) && Step(s, a) == Some(t) && a != SeeCancel
    ensures ServeTold(t, past + [a])
  {
    assert forall b :: b in past + [a] <==> b in past || b == a;
  }

  lemma {:induction false} ServeToldHolds(r: Run<State, Action>, n: nat)
    requires IsRun(r) && n <= |r.acts| && SeeCancel !in r.acts[..n]
    ensures ServeTold(r.states[n], r.acts[..n])
  {
    hide Step, ServeTold, Outcomes, ChannelInv, Verdict;
    if n > 0 {
      assert r.acts[..n] == r.acts[..n - 1] + [r.acts[n - 1]];
      assert r.acts[n - 1] in r.acts[..n];
      ServeToldHolds(r, n - 1);
      ChannelHolds(r, n - 1);
      ToldByHistory(r, n - 1);
      ServeToldStep(r.states[n - 1], r.acts[n - 1], r.states[n], r.acts[..n - 1]);
    } else {
      ServeToldAtFirst(r.states[0]);
      assert r.acts[..0] == [];
    }
  }

  lemma ServeToldAtFirst(s: State)
    requires Initial(s)
    ensures ServeTold(s, [])
  {}

  /** Run's result in terms of what the foreign calls did. Without the cancel branch it is
      ErrServeFailed if Serve failed and nil if not. With it, it is ErrShutdownTimeout where
      stage 1 ended on its timer, and otherwise what Shutdown returned decides. Stage 2 never
      changes it. */
  lemma ResultFromHistory(r: Run<State, Action>, n: nat)
    requires IsRun(r) && n <= |r.acts| && r.states[n].main.Returned?
    ensures var result, past := r.states[n].main.result, r.acts[..n];
      if SeeCancel !in past then
        result == if ServeReturns(true) in past then ErrServeFailed else Nil
      else if SeeDeadline1 in past then
        result == ErrShutdownTimeout
      else
        && (result == Nil <==> ShutdownReturns(Clean) in past)
        && (result == ErrShutdownTimeout <==> ShutdownReturns(DeadlineExceeded) in past)
        && (result == ErrServeFailed <==> ShutdownReturns(OtherError) in past)
  {
    ToldByHistory(r, n);
    if SeeCancel !in r.acts[..n] {
      ServeToldHolds(r, n);
    } else if SeeDeadline1 !in r.acts[..n] {
      ReportedHolds(r, n);
      hide Step, ChannelInv, IsRun;
    }
  }

  /** Unless Run's select took the cancel branch, Run returns ErrServeFailed exactly if Serve
      failed; if it did, exactly if Shutdown came back in time and failed for a reason other than
      its deadline. */
  lemma WhenServeErrorsAreReported(r: Run<State, Action>, n: nat)
    requires IsRun(r) && n <= |r.acts| && r.states[n].main.Returned?
    ensures var failed, past := r.states[n].main.result.ErrServeFailed?, r.acts[..n];
      && (SeeCancel !in past ==> (failed <==> ServeReturns(true) in past))
      && (SeeCancel in past ==> (failed <==> SeeDeadline1 !in past && ShutdownReturns(OtherError) in past))
  {
    ResultFromHistory(r, n);
  }

  // ---------- two runs the documentation does not expect ----------

  /** Once the cancel branch is taken the guarantee above is lost: here Serve has failed before
      the cancel, both branches of Run's select are ready, and Run returns nil. */
  lemma ServeErrorCanBeSwallowed(o: State)
    requires Initial(o)
    ensures exists s, t ::
      Leads(o, s) && s.serve == Sending(true) && Leads(s, t) && t.main.Returned? && t.main.result.Nil?
  {
    LeadsNowhere(o);
    hide Leads;
    var f := Go(o, o, ServeReturns(true));
    LeadsNowhere(f);
    var s := Go(f, f, ServeSend);
    s := Go(f, s, Cancel);
    s := Go(f, s, SeeCancel);
    s := Go(f, s, Enter);
    s := Go(f, s, ShutdownReturns(Clean));
    s := Go(f, s, ShutdownSend);
    s := Go(f, s, SeeShutdown(Clean));
    s := Go(f, s, SeeServe2);
  }

  /** With every positive timeout, Run can report the shutdown timeout without ever having
      forced the connections closed: at the deadline Shutdown reports the end of its context,
      and Run's select takes that report instead of the context's own end. */
  lemma TimeoutWithoutForceClose(o: State)
    requires Initial(o) && o.timeoutNanos > 0
    ensures exists t ::
      Leads(o, t) && t.main == Returned(ErrShutdownTimeout, o.now + o.timeoutNanos) && t.close.NotClosed?
  {
    LeadsNowhere(o);
    hide Leads;
    var s := Go(o, o, Cancel);
    s := Go(o, s, SeeCancel);
    s := Go(o, s, Enter);
    s := WaitOut(o, s, s.main.deadline);
    s := Go(o, s, ShutdownReturns(DeadlineExceeded));
    s := Go(o, s, ShutdownSend);
    s := Go(o, s, SeeShutdown(DeadlineExceeded));
    s := Go(o, s, SeeDeadline2);
  }
}

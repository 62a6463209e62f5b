/** The link between the two accounts of internal/health: what a request meets in a run of the
    singleflight is what RunOne says, so the bounds and the verdict of the handler's loop are
    about runs of Readiness. */
module ReadinessStay {
  import opened Wrappers
  import opened Traces
  import opened Readiness
  import Handler = ReadinessHandler

  // ---------- clocks of a run ----------

  /** When the context of request p ends, as far as the first n steps tell: at its deadline, or
      at an earlier cancel. */
  ghost function ContextEnd(r: Run<State, Action>, n: nat, p: nat, parent: int): int
    requires WellShaped(r) && n <= |r.acts|
  {
    if n == 0 then parent
    else
      var before := ContextEnd(r, n - 1, p, parent);
      if r.acts[n - 1] == CancelParent(p) then Min(before, r.states[n - 1].now) else before
  }

  /** When execution e closed its done channel. */
  ghost function ClosedAt(r: Run<State, Action>, n: nat, e: nat): Option<int>
    requires WellShaped(r) && n <= |r.acts|
  {
    if n == 0 then None
    else if r.acts[n - 1] == CloseDone(e) then Some(r.states[n - 1].now)
    else ClosedAt(r, n - 1, e)
  }

  lemma ClockStep(timeout: nat, s: State, a: Action, t: State, p: nat, e: nat)
    requires Inv(s) && Step(timeout, s, a) == Some(t)
    ensures s.now <= t.now
    ensures t.canceled == if a.CancelParent? then s.canceled + {a.r} else s.canceled
    ensures DoneClosed(t, e) <==> DoneClosed(s, e) || a == CloseDone(e)
    ensures a == CloseDone(e) ==> t.now == s.now
  {}

  lemma ClocksAtFirst(s: State, p: nat, e: nat)
    requires Initial(s)
    ensures p !in s.canceled && !DoneClosed(s, e)
  {}

  /** The context of p has ended, or execution e closed done, exactly if the state says so. */
  lemma {:induction false} ClocksAgree(timeout: nat, r: Run<State, Action>, n: nat, p: nat, parent: int, e: nat)
    requires IsRun(timeout, r) && n <= |r.acts|
    ensures var s, end, closed := r.states[n], ContextEnd(r, n, p, parent), ClosedAt(r, n, e);
      && end <= parent && (if p in s.canceled then end <= s.now else end == parent)
      && (closed.Some? <==> DoneClosed(s, e)) && (closed.Some? ==> closed.value <= s.now)
  {
    hide Step, Inv, DoneClosed;
    if n > 0 {
      ClocksAgree(timeout, r, n - 1, p, parent, e);
      RunStep(timeout, r, n - 1);
      ClockStep(timeout, r.states[n - 1], r.acts[n - 1], r.states[n], p, e);
    } else {
      ClocksAtFirst(r.states[0], p, e);
    }
  }

  /** A cancel that comes after step i does not end the context before it. */
  lemma {:induction false} EndNotBefore(timeout: nat, r: Run<State, Action>, i: nat, n: nat, p: nat, parent: int)
    requires IsRun(timeout, r) && i <= n <= |r.acts|
    ensures Min(r.states[i].now, ContextEnd(r, i, p, parent)) <= ContextEnd(r, n, p, parent)
    ensures r.states[i].now <= r.states[n].now
    decreases n
  {
    hide Step, Inv;
    if i < n {
      EndNotBefore(timeout, r, i, n - 1, p, parent);
      RunStep(timeout, r, n - 1);
      ClockStep(timeout, r.states[n - 1], r.acts[n - 1], r.states[n], p, 0);
    }
  }

  // ---------- while a request is open ----------

  /** Until request p is answered: no time passes before it waits, none once the execution it
      waits for has closed done, and none after the end of its wait. */
  ghost predicate Open(s: State, p: nat, end: int, closed: Option<int>) {
    p in s.reqs && !s.reqs[p].Answered? ==>
      var q := s.reqs[p];
      && q.called <= s.now <= Max(q.called, Min(end, q.deadline))
      && (q.Waiting? || s.now == q.called)
      && (q.Waiting? && closed.Some? ==> s.now == Max(q.called, closed.value))
  }

  /** When the execution p waits for closed done. */
  ghost function ClosedFor(r: Run<State, Action>, n: nat, p: nat): Option<int>
    requires WellShaped(r) && n <= |r.acts|
  {
    var s := r.states[n];
    if p in s.reqs && s.reqs[p].Waiting? then ClosedAt(r, n, s.reqs[p].exec) else None
  }

  /** What the step needs of the two clocks. */
  ghost predicate Clocks(s: State, p: nat, end: int, closed: Option<int>) {
    && (if p in s.canceled then end <= s.now else p in s.reqs ==> s.reqs[p].deadline <= end)
    && (p in s.reqs && s.reqs[p].Waiting? ==> (closed.Some? <==> DoneClosed(s, s.reqs[p].exec)))
    && (closed.Some? ==> closed.value <= s.now)
  }

  lemma OpenStep(timeout: nat, s: State, a: Action, t: State, p: nat, end: int, closed: Option<int>, end': int,
                 closed': Option<int>)
    requires Inv(s) && p in s.reqs && Step(timeout, s, a) == Some(t)
    requires a.Tick? ==> !Ready(s, p)
    requires Open(s, p, end, closed) && Clocks(s, p, end, closed) && Clocks(t, p, end', closed')
    requires end' == if a == CancelParent(p) then Min(end, s.now) else end
    requires s.reqs[p].Waiting? && p in t.reqs && t.reqs[p] == s.reqs[p] ==>
      closed' == if a == CloseDone(s.reqs[p].exec) then Some(s.now) else closed
    ensures p in t.reqs && Open(t, p, end', closed')
  {}

  lemma ClosedForStep(r: Run<State, Action>, n: nat, p: nat)
    requires WellShaped(r) && n < |r.acts| && p in r.states[n].reqs && p in r.states[n + 1].reqs
    requires r.states[n].reqs[p].Waiting? && r.states[n + 1].reqs[p] == r.states[n].reqs[p]
    ensures ClosedFor(r, n + 1, p) ==
      if r.acts[n] == CloseDone(r.states[n].reqs[p].exec) then Some(r.states[n].now) else ClosedFor(r, n, p)
  {}

  lemma ClocksHold(timeout: nat, r: Run<State, Action>, i: nat, n: nat, p: nat, parent: int)
    requires IsRun(timeout, r) && i < n <= |r.acts| && r.acts[i] == Call(p, parent)
    ensures Clocks(r.states[n], p, ContextEnd(r, n, p, parent), ClosedFor(r, n, p))
  {
    hide Step, DoneClosed;
    CallHolds(timeout, r, i, n, p, parent);
    var q := r.states[n].reqs[p];
    ClocksAgree(timeout, r, n, p, parent, if q.Waiting? then q.exec else 0);
  }

  lemma {:induction false} OpenHolds(timeout: nat, r: Run<State, Action>, i: nat, n: nat, p: nat, parent: int)
    requires IsRun(timeout, r) && Prompt(r) && i < n <= |r.acts| && r.acts[i] == Call(p, parent)
    ensures p in r.states[n].reqs && Open(r.states[n], p, ContextEnd(r, n, p, parent), ClosedFor(r, n, p))
    decreases n
  {
    hide Step, Inv, Open, Clocks, ContextEnd, ClosedFor, Ready;
    ClocksHold(timeout, r, i, n, p, parent);
    RunStep(timeout, r, n - 1);
    if i == n - 1 {
      OpenAtFirst(timeout, r.states[i], r.states[n], p, parent, ContextEnd(r, n, p, parent), ClosedFor(r, n, p));
    } else {
      OpenHolds(timeout, r, i, n - 1, p, parent);
      ClocksHold(timeout, r, i, n - 1, p, parent);
      CallHolds(timeout, r, i, n, p, parent);
      EndStep(r, n - 1, p, parent);
      var s, t := r.states[n - 1], r.states[n];
      if s.reqs[p].Waiting? && t.reqs[p] == s.reqs[p] { ClosedForStep(r, n - 1, p); }
      OpenStep(timeout, s, r.acts[n - 1], t, p, ContextEnd(r, n - 1, p, parent), ClosedFor(r, n - 1, p),
               ContextEnd(r, n, p, parent), ClosedFor(r, n, p));
    }
  }

  lemma EndStep(r: Run<State, Action>, n: nat, p: nat, parent: int)
    requires WellShaped(r) && n < |r.acts|
    ensures var before := ContextEnd(r, n, p, parent);
      ContextEnd(r, n + 1, p, parent) == if r.acts[n] == CancelParent(p) then Min(before, r.states[n].now) else before
  {}

  lemma OpenAtFirst(timeout: nat, s: State, t: State, p: nat, parent: int, end: int, closed: Option<int>)
    requires Step(timeout, s, Call(p, parent)) == Some(t)
    ensures p in t.reqs && Open(t, p, end, closed)
  {}

  /** One request of a run: called at step `call`, answered at step `answer`. */
  datatype Visit = Visit(r: Run<State, Action>, call: nat, answer: nat, p: nat, parent: int) {

    ghost predicate Fits() {
      WellShaped(r) && call < answer < |r.acts|
    }

    ghost function Called(): int
      requires Fits()
    {
      r.states[call].now
    }

    /** The answer the request got. */
    ghost function Result(): CheckResult
      requires Fits()
    {
      var reqs := r.states[answer + 1].reqs;
      if p in reqs && reqs[p].Answered? then reqs[p].res else Passed
    }

    ghost function AnsweredAt(): int
      requires Fits()
    {
      r.states[answer].now
    }

    /** When the request's context ended, as known when it was answered. */
    ghost function End(): int
      requires Fits()
    {
      ContextEnd(r, answer, p, parent)
    }

    /** When the execution it waited for closed done, if that was before the answer. */
    ghost function Closed(): Option<int>
      requires Fits()
    {
      ClosedFor(r, answer, p)
    }
  }

  /** A visit of a run in which computing takes no time, begun before the context ended. */
  ghost predicate IsVisit(timeout: nat, v: Visit) {
    && v.Fits() && IsRun(timeout, v.r) && Prompt(v.r) && v.r.acts[v.call] == Call(v.p, v.parent)
    && (v.r.acts[v.answer] == ReturnDone(v.p) || v.r.acts[v.answer] == ReturnTimeout(v.p))
    && v.Called() < ContextEnd(v.r, v.call, v.p, v.parent)
  }
  // ---------- what a visit gets ----------

  lemma AnswerEffect(timeout: nat, s: State, a: Action, t: State, p: nat)
    requires Inv(s) && Step(timeout, s, a) == Some(t) && (a == ReturnDone(p) || a == ReturnTimeout(p))
    ensures p in s.reqs && s.reqs[p].Waiting? && p in t.reqs && t.reqs[p].Answered?
    ensures t.reqs[p].at == s.now
    ensures var e := s.reqs[p].exec;
      && e < |s.execs| && (DoneClosed(s, e) ==> s.execs[e].result.Some?)
      && if a == ReturnDone(p) then DoneClosed(s, e) && s.execs[e].result == Some(t.reqs[p].res)
         else t.reqs[p].res == Failing(Timeout, "context done") && (s.reqs[p].deadline <= s.now || p in s.canceled)
  {}

  /** The execution a visit met, as RunOne takes it. If it had closed done by the time of the
      answer, x has its result and closes when it did (at once, if that was before the call);
      if not, x closes done only after the wait. */
  ghost predicate Meets(timeout: nat, v: Visit, x: Handler.Execution)
    requires IsVisit(timeout, v)
  {
    var s := v.r.states[v.answer];
    match v.Closed()
    case Some(at) =>
      && v.Called() + x.wait == Max(v.Called(), at)
      && WaitsFor(s, v.p) && s.execs[s.reqs[v.p].exec].result == Some(x.res)
    case None => Min(v.End(), v.Called() + timeout) < v.Called() + x.wait
  }

  predicate WaitsFor(s: State, p: nat) {
    p in s.reqs && s.reqs[p].Waiting? && s.reqs[p].exec < |s.execs|
  }

  /** runOne in a run of the singleflight is RunOne: result and return time of every visit are
      what RunOne says of the execution the visit met, under the context it was called with. */
  lemma StayIsRunOne(timeout: nat, v: Visit) returns (x: Handler.Execution)
    requires IsVisit(timeout, v)
    ensures Meets(timeout, v, x)
    ensures Handler.RunOne(v.Called(), v.End(), timeout, x) == (v.Result(), v.AnsweredAt())
  {
    hide Step, Inv, Prompt, Initial;
    var r, i, j, p := v.r, v.call, v.answer, v.p;
    RunStep(timeout, r, j);
    AnswerEffect(timeout, r.states[j], r.acts[j], r.states[j + 1], p);
    CallHolds(timeout, r, i, j, p, v.parent);
    OpenHolds(timeout, r, i, j, p, v.parent);
    EndNotBefore(timeout, r, i, j, p, v.parent);
    var s := r.states[j];
    var e := s.reqs[p].exec;
    ClocksAgree(timeout, r, j, p, v.parent, e);
    if r.acts[j] == ReturnDone(p) {
      x := Handler.Execution(s.now - v.Called(), true, v.Result());
    } else if DoneClosed(s, e) {
      x := Handler.Execution(s.now - v.Called(), false, s.execs[e].result.value);
    } else {
      x := Handler.Execution(s.now - v.Called() + 1, false, Passed);
    }
  }

  /** The visit was answered by its execution, whose checker had returned nil. */
  ghost predicate Healthy(v: Visit)
    requires v.Fits()
  {
    var s := v.r.states[v.answer];
    v.r.acts[v.answer] == ReturnDone(v.p) && WaitsFor(s, v.p)
    && Finish(s.reqs[v.p].exec, NoError) in v.r.acts[..v.answer]
  }

  /** What a visit's result means: the outcome of the checker call it waited for, if it was
      answered by that, and otherwise a timeout. */
  lemma VisitReports(timeout: nat, v: Visit)
    requires IsVisit(timeout, v)
    ensures var s := v.r.states[v.answer];
      WaitsFor(s, v.p) &&
      if v.r.acts[v.answer] == ReturnDone(v.p) then Reports(v.Result(), s.reqs[v.p].exec, v.r.acts[..v.answer])
      else v.Result() == Failing(Timeout, "context done")
    ensures v.Result() == Passed <==> Healthy(v)
  {
    var r, j, p := v.r, v.answer, v.p;
    RunStep(timeout, r, j);
    AnswerEffect(timeout, r.states[j], r.acts[j], r.states[j + 1], p);
    if r.acts[j] == ReturnDone(p) {
      var e := r.states[j].reqs[p].exec;
      ProvenanceHolds(timeout, r, j);
      assert FromChecker(r.states[j].execs[e], e, r.acts[..j]);
      OutcomeReports(e, r.acts[..j], v.Result());
    }
    hide Step, Prompt, Initial;
  }

  // ---------- a whole readiness request ----------

  /** When turn k of a request begins: the first at its start, each other with the answer before. */
  ghost function TurnAt(vs: seq<Visit>, start: int, k: nat): int
    requires k <= |vs| && forall j :: 0 <= j < |vs| ==> vs[j].Fits()
  {
    if k == 0 then start else vs[k - 1].AnsweredAt()
  }

  ghost predicate AreVisits(timeout: nat, vs: seq<Visit>) {
    forall k :: 0 <= k < |vs| ==> IsVisit(timeout, vs[k])
  }

  /** Each visit begins when its turn comes, before the context has ended. */
  ghost predicate TakeTurns(timeout: nat, vs: seq<Visit>, start: int, limit: int) {
    AreVisits(timeout, vs) && forall k :: 0 <= k < |vs| ==> vs[k].Called() == TurnAt(vs, start, k) < limit
  }

  /** The visits of one request to n checkers, one after the other, under a context that ends at
      limit (a visit over before then cannot tell a context that ends later). They stop early
      only where the context has ended. */
  ghost predicate Request(timeout: nat, vs: seq<Visit>, n: nat, start: int, limit: int) {
    && TakeTurns(timeout, vs, start, limit) && |vs| <= n
    && (forall k :: 0 <= k < |vs| ==>
          vs[k].End() == limit || (limit < vs[k].End() && vs[k].AnsweredAt() < limit))
    && (|vs| < n ==> limit <= TurnAt(vs, start, |vs|))
  }

  /** A stay that is over before the context ends does not depend on when that is. */
  lemma SameBefore(t: int, end: int, limit: int, timeout: nat, x: Handler.Execution)
    requires end == limit || (limit < end && Handler.RunOne(t, end, timeout, x).1 < limit)
    requires t < limit
    ensures Handler.RunOne(t, limit, timeout, x) == Handler.RunOne(t, end, timeout, x)
  {}

  /** x is what turn k met, and turn k went as RunOne says of x. */
  ghost predicate TurnWent(timeout: nat, v: Visit, limit: int, x: Handler.Execution)
    requires IsVisit(timeout, v)
  {
    Meets(timeout, v, x) && Handler.RunOne(v.Called(), limit, timeout, x) == (v.Result(), v.AnsweredAt())
  }

  lemma TurnGoes(timeout: nat, v: Visit, limit: int) returns (x: Handler.Execution)
    requires IsVisit(timeout, v) && v.Called() < limit
    requires v.End() == limit || (limit < v.End() && v.AnsweredAt() < limit)
    ensures TurnWent(timeout, v, limit, x)
  {
    x := StayIsRunOne(timeout, v);
    hide IsRun, Prompt, Meets, Handler.RunOne;
    SameBefore(v.Called(), v.End(), limit, timeout, x);
  }

  lemma {:induction false} TurnsGo(timeout: nat, vs: seq<Visit>, n: nat, start: int, limit: int, m: nat)
      returns (xs: seq<Handler.Execution>)
    requires Request(timeout, vs, n, start, limit) && m <= n
    ensures |xs| == m
    ensures forall k :: 0 <= k < m && k < |vs| ==> TurnWent(timeout, vs[k], limit, xs[k])
  {
    hide TurnWent, IsVisit;
    if m == 0 { return []; }
    xs := TurnsGo(timeout, vs, n, start, limit, m - 1);
    var x := Handler.Execution(0, true, Passed);
    if m <= |vs| { x := TurnGoes(timeout, vs[m - 1], limit); }
    xs := xs + [x];
  }

  lemma {:induction false} LoopKeepsTime(timeout: nat, vs: seq<Visit>, start: int, limit: int,
                                         xs: seq<Handler.Execution>, k: nat)
    requires TakeTurns(timeout, vs, start, limit) && |vs| <= |xs| && k <= |vs|
    requires forall i :: 0 <= i < |vs| ==> TurnWent(timeout, vs[i], limit, xs[i])
    ensures Handler.TimeAt(xs, start, limit, timeout, k) == TurnAt(vs, start, k)
  {
    hide TurnWent, IsVisit, Handler.TimeAt;
    if k > 0 {
      LoopKeepsTime(timeout, vs, start, limit, xs, k - 1);
      TurnTakes(timeout, vs[k - 1], start, limit, xs, k - 1);
    } else {
      LoopStarts(timeout, start, limit, xs);
    }
  }

  lemma LoopStarts(timeout: nat, start: int, limit: int, xs: seq<Handler.Execution>)
    ensures Handler.TimeAt(xs, start, limit, timeout, 0) == start
  {}

  lemma TurnTakes(timeout: nat, v: Visit, start: int, limit: int, xs: seq<Handler.Execution>, k: nat)
    requires k < |xs| && IsVisit(timeout, v) && TurnWent(timeout, v, limit, xs[k])
    requires v.Called() == Handler.TimeAt(xs, start, limit, timeout, k) < limit
    ensures Handler.TimeAt(xs, start, limit, timeout, k + 1) == v.AnsweredAt()
  {
    hide IsRun, Prompt, Meets, Handler.RunOne;
  }

  lemma PassesAsAnswered(timeout: nat, xs: seq<Handler.Execution>, start: int, limit: int, i: nat)
    requires i < |xs|
    ensures var t := Handler.TimeAt(xs, start, limit, timeout, i);
      Handler.PassesInTurn(xs, start, limit, timeout, i) <==>
        t < limit && Handler.RunOne(t, limit, timeout, xs[i]).0.Passed?
  {}

  /** The handler's loop is about runs. For every readiness request whose turns are visits of
      singleflight runs, the loop over the executions the visits met keeps the same time; so
      Ready answers 200 exactly if no checker was left out and every visit was answered by a
      checker call that returned nil, and the last answer comes within the context and within n
      check timeouts. */
  lemma RequestIsTheLoop(timeout: nat, vs: seq<Visit>, n: nat, start: int, limit: int)
      returns (xs: seq<Handler.Execution>)
    requires Request(timeout, vs, n, start, limit)
    ensures |xs| == n && forall k :: 0 <= k < |vs| ==> TurnWent(timeout, vs[k], limit, xs[k])
    ensures forall k :: 0 <= k <= |vs| ==> Handler.TimeAt(xs, start, limit, timeout, k) == TurnAt(vs, start, k)
    ensures (forall k :: 0 <= k < n ==> Handler.PassesInTurn(xs, start, limit, timeout, k)) <==>
      |vs| == n && forall k :: 0 <= k < n ==> Healthy(vs[k])
    ensures start <= TurnAt(vs, start, |vs|) <= Max(start, Min(limit, start + n * timeout))
  {
    xs := TurnsGo(timeout, vs, n, start, limit, n);
    hide IsRun, Prompt, Meets, Healthy, Handler.RunOne, Handler.PassesInTurn, Handler.TimeAt;
    forall k | 0 <= k <= |vs| ensures Handler.TimeAt(xs, start, limit, timeout, k) == TurnAt(vs, start, k) {
      LoopKeepsTime(timeout, vs, start, limit, xs, k);
    }
    forall k | 0 <= k < |vs|
      ensures Handler.PassesInTurn(xs, start, limit, timeout, k) <==> Healthy(vs[k])
    {
      PassesAsAnswered(timeout, xs, start, limit, k);
      VisitReports(timeout, vs[k]);
    }
    if |vs| < n { PassesAsAnswered(timeout, xs, start, limit, |vs|); }
    Handler.TimeGrows(xs, start, limit, timeout, |vs|, n);
    Handler.EndBound(xs, start, limit, timeout);
  }
}

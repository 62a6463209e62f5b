/** internal/health around the singleflight: registering checkers, running them in order under
    the total timeout, and the verdict. A request's stay in runOne is given by when the
    execution it is bound to closes its done channel; that runs of the singleflight are like
    that is ReadinessStay.StayIsRunOne. */
module ReadinessHandler {
  import opened Wrappers
  import opened Readiness

  // ---------- registration ----------

  class ReadinessConfig {
    var entries: seq<string>       // checker names in registration order
    var names: set<string>
    var checkTimeout: int
    var totalTimeout: int

    ghost predicate Valid()
      reads this
    {
      && names == (set n | n in entries) && "" !in entries
      && (forall i, j :: 0 <= i < j < |entries| ==> entries[i] != entries[j])
      && checkTimeout > 0 && totalTimeout > 0
    }

    constructor ()
      ensures Valid() && entries == []
      ensures checkTimeout == 1_000_000_000 && totalTimeout == 5 * checkTimeout
    {
      entries, names := [], {};
      checkTimeout, totalTimeout := 1_000_000_000, 5_000_000_000;
    }

    /** A checker is appended unless its name is empty or taken, or its function nil. */
    method WithChecker(name: string, nilFn: bool) returns (ok: bool)
      requires Valid()
      modifies this`entries, this`names
      ensures Valid()
      ensures ok <==> name != "" && !nilFn && name !in old(entries)
      ensures entries == if ok then old(entries) + [name] else old(entries)
    {
      if name == "" || nilFn || name in names { return false; }
      names := names + {name};
      entries := entries + [name];
      return true;
    }

    method WithCheckTimeout(d: int) returns (ok: bool)
      requires Valid()
      modifies this`checkTimeout
      ensures Valid() && (ok <==> d > 0)
      ensures checkTimeout == if ok then d else old(checkTimeout)
    {
      if d <= 0 { return false; }
      checkTimeout := d;
      return true;
    }

    method WithTotalTimeout(d: int) returns (ok: bool)
      requires Valid()
      modifies this`totalTimeout
      ensures Valid() && (ok <==> d > 0)
      ensures totalTimeout == if ok then d else old(totalTimeout)
    {
      if d <= 0 { return false; }
      totalTimeout := d;
      return true;
    }
  }

  // ---------- one checker of one request ----------

  /** What a request meets in runOne: its execution closes done `wait` after the call, with this
      result. When that falls on the very instant the wait expires, `tie` is what select picks. */
  datatype Execution = Execution(wait: nat, tie: bool, res: CheckResult)

  /** Result and return time of runOne called at t, with the request's context ending at `limit`. */
  function RunOne(t: int, limit: int, timeout: nat, x: Execution): (CheckResult, int) {
    var until := Min(limit, t + timeout);
    if t + x.wait < until || (t + x.wait == until && x.tie) then (x.res, t + x.wait)
    else (Failing(Timeout, "context done"), Max(t, until))
  }

  datatype CheckResponse = CheckResponse(name: string, ok: bool, error: Option<Code>)

  /** The external form of a result: the code only, never the details. */
  function Respond(name: string, res: CheckResult): CheckResponse {
    match res
    case Passed => CheckResponse(name, true, None)
    case Failing(code, _) => CheckResponse(name, false, Some(code))
  }

  function Unlaunched(name: string): CheckResponse {
    CheckResponse(name, false, Some(Timeout))
  }

  // ---------- all checkers of one request ----------

  /** The time at which entry i is reached. */
  function TimeAt(xs: seq<Execution>, start: int, limit: int, timeout: nat, i: nat): int
    requires i <= |xs|
  {
    if i == 0 then start
    else
      var t := TimeAt(xs, start, limit, timeout, i - 1);
      if t < limit then RunOne(t, limit, timeout, xs[i - 1]).1 else t
  }

  /** n checkers take at most n check timeouts, and never more than the total. */
  lemma {:induction false} TimeBound(xs: seq<Execution>, start: int, limit: int, timeout: nat, i: nat)
    requires i <= |xs| && start <= limit
    ensures start <= TimeAt(xs, start, limit, timeout, i) <= Min(limit, start + i * timeout)
  {
    if i > 0 {
      TimeBound(xs, start, limit, timeout, i - 1);
      assert i * timeout == (i - 1) * timeout + timeout;
    }
  }

  lemma {:induction false} TimeGrows(xs: seq<Execution>, start: int, limit: int, timeout: nat, i: nat, j: nat)
    requires i <= j <= |xs|
    ensures TimeAt(xs, start, limit, timeout, i) <= TimeAt(xs, start, limit, timeout, j)
    ensures limit <= TimeAt(xs, start, limit, timeout, i) ==>
      TimeAt(xs, start, limit, timeout, j) == TimeAt(xs, start, limit, timeout, i)
    decreases j
  {
    if i < j { TimeGrows(xs, start, limit, timeout, i, j - 1); }
  }

  /** What an item of the answer says of a result: ok exactly for a pass, and otherwise the code
      alone. */
  predicate Says(item: CheckResponse, res: CheckResult) {
    && (item.ok <==> res == Passed)
    && (item.error == None <==> res == Passed)
    && (forall code :: item.error == Some(code) <==> res.Failing? && res.code == code)
  }

  /** The turn of checker i came before the total ran out, and item says how it went. */
  predicate AnswersTurn(item: CheckResponse, xs: seq<Execution>, start: int, limit: int, timeout: nat, i: nat) {
    i < |xs| &&
    var t := TimeAt(xs, start, limit, timeout, i);
    t < limit && Says(item, RunOne(t, limit, timeout, xs[i]).0)
  }

  lemma TurnIsAnswered(name: string, xs: seq<Execution>, start: int, limit: int, timeout: nat, i: nat)
    requires i < |xs| && TimeAt(xs, start, limit, timeout, i) < limit
    ensures var r := RunOne(TimeAt(xs, start, limit, timeout, i), limit, timeout, xs[i]);
      && AnswersTurn(Respond(name, r.0), xs, start, limit, timeout, i) && Respond(name, r.0).name == name
      && TimeAt(xs, start, limit, timeout, i + 1) == r.1
  {
    RespondSays(name, RunOne(TimeAt(xs, start, limit, timeout, i), limit, timeout, xs[i]).0);
  }

  lemma TurnIsLate(xs: seq<Execution>, start: int, limit: int, timeout: nat, i: nat)
    requires i < |xs| && limit <= TimeAt(xs, start, limit, timeout, i)
    ensures TimeAt(xs, start, limit, timeout, i + 1) == TimeAt(xs, start, limit, timeout, i)
  {}

  lemma TurnsStart(xs: seq<Execution>, start: int, limit: int, timeout: nat)
    ensures TimeAt(xs, start, limit, timeout, 0) == start
  {}

  lemma RespondSays(name: string, res: CheckResult)
    ensures Respond(name, res).name == name && Says(Respond(name, res), res)
  {}

  lemma UnlaunchedIs(name: string)
    ensures Unlaunched(name).name == name && !Unlaunched(name).ok && Unlaunched(name).error == Some(Timeout)
  {}

  /** runAllCheckers. The answer lists every registered name in order: first the checkers that
      were run, each answered as runOne answered, then (only if the total ran out) a suffix of
      checkers that were never launched and count as timeouts. */
  method RunAllCheckers(entries: seq<string>, xs: seq<Execution>, start: int, limit: int, timeout: nat)
      returns (out: seq<CheckResponse>, launched: nat, end: int)
    requires |xs| == |entries|
    ensures |out| == |entries| && forall i :: 0 <= i < |out| ==> out[i].name == entries[i]
    ensures launched <= |out|
    ensures forall i :: 0 <= i < launched ==> AnswersTurn(out[i], xs, start, limit, timeout, i)
    ensures forall i :: launched <= i < |out| ==> !out[i].ok && out[i].error == Some(Timeout)
    ensures launched < |out| ==> limit <= TimeAt(xs, start, limit, timeout, launched)
    ensures end == TimeAt(xs, start, limit, timeout, |xs|)
  {
    hide RunOne, Respond, Unlaunched, AnswersTurn, TimeAt;
    out, launched, end := [], 0, start;
    TurnsStart(xs, start, limit, timeout);
    for i := 0 to |entries|
      invariant |out| == i && launched <= i && end == TimeAt(xs, start, limit, timeout, i)
      invariant forall k :: 0 <= k < i ==> out[k].name == entries[k]
      invariant forall k :: 0 <= k < launched ==> AnswersTurn(out[k], xs, start, limit, timeout, k)
      invariant forall k :: launched <= k < i ==> !out[k].ok && out[k].error == Some(Timeout)
      invariant launched < i ==> limit <= end && limit <= TimeAt(xs, start, limit, timeout, launched)
    {
      if limit <= end {
        var item := Unlaunched(entries[i]);
        UnlaunchedIs(entries[i]);
        TurnIsLate(xs, start, limit, timeout, i);
        out := out + [item];
      } else {
        var r := RunOne(end, limit, timeout, xs[i]);
        TurnIsAnswered(entries[i], xs, start, limit, timeout, i);
        out := out + [Respond(entries[i], r.0)];
        launched := i + 1;
        end := r.1;
      }
    }
  }

  // ---------- the verdict ----------

  method Verdict(results: seq<CheckResponse>) returns (status: nat, body: string)
    ensures status == 200 || status == 503
    ensures status == 200 <==> forall i :: 0 <= i < |results| ==> results[i].ok
    ensures body == if status == 200 then "ok" else "degraded"
  {
    var allOK := true;
    for i := 0 to |results|
      invariant allOK
      invariant forall k :: 0 <= k < i ==> results[k].ok
    {
      if !results[i].ok {
        allOK := false;
        break;
      }
    }
    status, body := 200, "ok";
    if !allOK { status, body := 503, "degraded"; }
  }

  /** Checker i's turn came before the total ran out, and its execution passed and closed done
      within the wait. */
  ghost predicate PassesInTurn(xs: seq<Execution>, start: int, limit: int, timeout: nat, i: nat)
    requires i < |xs|
  {
    var t := TimeAt(xs, start, limit, timeout, i);
    var until := Min(limit, t + timeout);
    t < limit && xs[i].res.Passed? && (t + xs[i].wait < until || (t + xs[i].wait == until && xs[i].tie))
  }

  lemma TurnPasses(item: CheckResponse, xs: seq<Execution>, start: int, limit: int, timeout: nat, i: nat)
    requires i < |xs| && AnswersTurn(item, xs, start, limit, timeout, i)
    ensures item.ok <==> PassesInTurn(xs, start, limit, timeout, i)
  {}

  /** One readiness request, called at `start` under a context ending at `parent`: the answer is
      200 exactly if every checker passed in its turn, and it comes within the total timeout
      and within n check timeouts. */
  method Ready(entries: seq<string>, xs: seq<Execution>, start: int, parent: int, checkTimeout: nat, totalTimeout: nat)
      returns (status: nat, results: seq<CheckResponse>, end: int)
    requires |xs| == |entries|
    ensures |results| == |entries| && (status == 200 || status == 503)
    ensures var limit := Min(parent, start + totalTimeout);
      status == 200 <==> forall i :: 0 <= i < |xs| ==> PassesInTurn(xs, start, limit, checkTimeout, i)
    ensures start <= end
    ensures end <= Max(start, Min(Min(parent, start + totalTimeout), start + |xs| * checkTimeout))
  {
    var limit := Min(parent, start + totalTimeout);
    var launched, body;
    results, launched, end := RunAllCheckers(entries, xs, start, limit, checkTimeout);
    status, body := Verdict(results);
    EndBound(xs, start, limit, checkTimeout);
    hide Min, Max, TimeAt, RunOne, AnswersTurn;
    forall i | 0 <= i < |xs| ensures results[i].ok <==> PassesInTurn(xs, start, limit, checkTimeout, i) {
      if i < launched {
        TurnPasses(results[i], xs, start, limit, checkTimeout, i);
      } else {
        TimeGrows(xs, start, limit, checkTimeout, launched, i);
      }
    }
  }

  lemma EndBound(xs: seq<Execution>, start: int, limit: int, timeout: nat)
    ensures start <= TimeAt(xs, start, limit, timeout, |xs|) <= Max(start, Min(limit, start + |xs| * timeout))
  {
    if start <= limit {
      TimeBound(xs, start, limit, timeout, |xs|);
    } else {
      TimeGrows(xs, start, limit, timeout, 0, |xs|);
    }
  }
}

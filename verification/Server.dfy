/** internal/server without its sockets: the start-once state of a Server and the live
    shutdown deadline. The mux is a set of patterns it accepted; whether it accepts or panics
    on a given registration is up to it. */
module ServerState {
  import opened Wrappers

  // ---------- one operation, by value ----------

  datatype HandleResult =
    | Registered | ErrCannotRegisterAfterRun | ErrInvalidHandler | ErrInvalidPattern | ErrDuplicatePattern
  datatype RunResult = Serving | ErrAlreadyRunning | ErrServeFailed

  /** A call on the Server, with what its surroundings decide: whether the mux takes the
      pattern, and the address listening yields if it succeeds. */
  datatype Op =
    | Handle(pattern: string, nilHandler: bool, muxAccepts: bool)
    | Run(listen: Option<string>)
    | UpdateShutdownTimeout(d: int)

  predicate IsValidPattern(p: string) {
    p != "" && p[0] == '/'
  }

  // ---------- the object ----------

  class Server {
    var started: bool
    var addr: string
    var patterns: set<string>
    var mux: set<string>                // what http.ServeMux has registered
    var shutdownTimeoutNanos: int

    constructor (gracefulShutdownTimeout: int)
      ensures !started && addr == "" && patterns == mux == {}
      ensures shutdownTimeoutNanos == gracefulShutdownTimeout
    {
      started, addr, patterns, mux := false, "", {}, {};
      shutdownTimeoutNanos := gracefulShutdownTimeout;
    }

    /** The pattern set mirrors the mux. */
    predicate Valid()
      reads this
    {
      patterns == mux && forall p :: p in patterns ==> "/" <= p
    }

    /** Handle registers in the mux and the pattern set together or in neither; a panicking
        mux becomes ErrInvalidPattern. */
    method Handle(pattern: string, nilHandler: bool, muxAccepts: bool) returns (res: HandleResult)
      requires Valid()
      modifies this`patterns, this`mux
      ensures Valid()
      ensures patterns == if res.Registered? then old(patterns) + {pattern} else old(patterns)
      ensures res.Registered? ==> pattern !in old(patterns)
      ensures res.Registered? <==>
        !started && !nilHandler && "/" <= pattern && pattern !in old(mux) && muxAccepts
      ensures res.ErrCannotRegisterAfterRun? <==> started
      ensures res.ErrDuplicatePattern? <==> !started && !nilHandler && "/" <= pattern && pattern in old(mux)
      ensures res.ErrInvalidHandler? <==> !started && nilHandler
    {
      if started { return ErrCannotRegisterAfterRun; }
      if nilHandler { return ErrInvalidHandler; }
      if !IsValidPattern(pattern) { return ErrInvalidPattern; }
      if pattern in patterns { return ErrDuplicatePattern; }
      if !muxAccepts { return ErrInvalidPattern; }   // mux.Handle panicked, recovered
      mux := mux + {pattern};
      patterns := patterns + {pattern};
      return Registered;
    }

    /** The guarded first part of Run: a second Run is refused before it looks at the listener,
        a failed listen leaves the server as it was. */
    method BeginRun(listen: Option<string>) returns (res: RunResult)
      modifies this`started, this`addr
      ensures res.ErrAlreadyRunning? <==> old(started)
      ensures res.Serving? <==> !old(started) && listen.Some?
      ensures started <==> old(started) || listen.Some?
      ensures addr == if res.Serving? then listen.value else old(addr)
    {
      if started { return ErrAlreadyRunning; }
      if listen.None? { return ErrServeFailed; }
      started := true;
      addr := listen.value;
      return Serving;
    }

    /** Only a positive deadline is stored; any other is refused and changes nothing. */
    method UpdateShutdownTimeout(d: int) returns (ok: bool)
      modifies this`shutdownTimeoutNanos
      ensures ok <==> d > 0
      ensures shutdownTimeoutNanos == if ok then d else old(shutdownTimeoutNanos)
    {
      if d <= 0 { return false; }
      shutdownTimeoutNanos := d;
      return true;
    }
  }

  // ---------- any sequence of calls ----------

  /** The Run at i is the one that gets past the start flag. */
  ghost predicate Starts(ops: seq<Op>, i: nat)
    requires i < |ops|
  {
    ops[i].Run? && ops[i].listen.Some? && forall j :: 0 <= j < i ==> !(ops[j].Run? && ops[j].listen.Some?)
  }

  ghost predicate StartedBy(ops: seq<Op>) {
    exists i :: 0 <= i < |ops| && ops[i].Run? && ops[i].listen.Some?
  }

  /** The Handle at i is accepted by the mux: it comes before any successful Run. */
  ghost predicate MuxTakes(ops: seq<Op>, i: nat)
    requires i < |ops|
  {
    && ops[i].Handle? && !ops[i].nilHandler && "/" <= ops[i].pattern && ops[i].muxAccepts
    && !StartedBy(ops[..i])
  }

  ghost function Taken(ops: seq<Op>): set<string> {
    set i | 0 <= i < |ops| && MuxTakes(ops, i) :: ops[i].pattern
  }

  /** The last positive deadline set, or the one the server was made with. */
  ghost function LastTimeout(ops: seq<Op>, timeout: int): int {
    if ops == [] then timeout
    else
      var last := ops[|ops| - 1];
      if last.UpdateShutdownTimeout? && last.d > 0 then last.d else LastTimeout(ops[..|ops| - 1], timeout)
  }

  /** Where the first Run that found a listener listens. */
  ghost function Address(ops: seq<Op>): string {
    if ops == [] then ""
    else
      var init, last := ops[..|ops| - 1], ops[|ops| - 1];
      if StartedBy(init) then Address(init) else if last.Run? && last.listen.Some? then last.listen.value else ""
  }

  lemma TakenGrows(ops: seq<Op>, op: Op)
    ensures Taken(ops + [op]) ==
      if op.Handle? && !op.nilHandler && "/" <= op.pattern && op.muxAccepts && !StartedBy(ops)
      then Taken(ops) + {op.pattern} else Taken(ops)
  {
    var n, all := |ops|, ops + [op];
    assert all[..n] == ops;
    forall i | 0 <= i < n ensures MuxTakes(all, i) <==> MuxTakes(ops, i) {
      assert all[..i] == ops[..i];
    }
    assert MuxTakes(all, n) <==>
      op.Handle? && !op.nilHandler && "/" <= op.pattern && op.muxAccepts && !StartedBy(ops);
    forall p | p in Taken(all) ensures p in Taken(ops) || (MuxTakes(all, n) && p == op.pattern) {
      var i :| 0 <= i < |all| && MuxTakes(all, i) && all[i].pattern == p;
      if i < n { assert MuxTakes(ops, i) && ops[i].pattern == p; }
    }
    forall p | p in Taken(ops) ensures p in Taken(all) {
      var i :| 0 <= i < |ops| && MuxTakes(ops, i) && ops[i].pattern == p;
      assert MuxTakes(all, i) && all[i].pattern == p;
    }
    if MuxTakes(all, n) { assert all[n].pattern in Taken(all); }
  }

  lemma StartedGrows(ops: seq<Op>, op: Op)
    ensures StartedBy(ops + [op]) <==> StartedBy(ops) || (op.Run? && op.listen.Some?)
  {
    var all := ops + [op];
    if StartedBy(ops) {
      var i :| 0 <= i < |ops| && ops[i].Run? && ops[i].listen.Some?;
      assert all[i].Run? && all[i].listen.Some?;
    }
    if op.Run? && op.listen.Some? { assert all[|ops|].Run? && all[|ops|].listen.Some?; }
  }

  /** Once a Run has served, no further call adds a pattern. */
  lemma {:induction false} FrozenAfterRun(ops: seq<Op>, more: seq<Op>)
    requires StartedBy(ops)
    ensures StartedBy(ops + more) && Taken(ops + more) == Taken(ops)
  {
    if more == [] {
      assert ops + more == ops;
    } else {
      var rest, last := more[..|more| - 1], more[|more| - 1];
      FrozenAfterRun(ops, rest);
      assert ops + more == (ops + rest) + [last];
      TakenGrows(ops + rest, last);
      StartedGrows(ops + rest, last);
    }
  }

  /** The start-once machine, for any client. After any sequence of calls the server is started
      exactly if some Run found a listener; exactly one Run served, the first such; the
      patterns are exactly what the mux took, all of it before that Run; the address is that
      Run's, and the deadline the last positive one set. */
  method AnyClient(ops: seq<Op>, timeout: int) returns (s: Server, served: seq<nat>)
    ensures fresh(s) && s.Valid()
    ensures s.started <==> StartedBy(ops)
    ensures s.patterns == s.mux == Taken(ops)
    ensures |served| == if StartedBy(ops) then 1 else 0
    ensures forall k :: 0 <= k < |served| ==> served[k] < |ops| && Starts(ops, served[k])
    ensures s.addr == Address(ops)
    ensures s.shutdownTimeoutNanos == LastTimeout(ops, timeout)
    ensures timeout > 0 ==> s.shutdownTimeoutNanos > 0
  {
    s := new Server(timeout);
    served := [];
    for n := 0 to |ops|
      invariant fresh(s) && s.Valid()
      invariant s.started <==> StartedBy(ops[..n])
      invariant s.patterns == Taken(ops[..n])
      invariant |served| == if s.started then 1 else 0
      invariant forall k :: 0 <= k < |served| ==> served[k] < n && Starts(ops, served[k])
      invariant s.addr == Address(ops[..n])
      invariant s.shutdownTimeoutNanos == LastTimeout(ops[..n], timeout)
      invariant timeout > 0 ==> s.shutdownTimeoutNanos > 0
    {
      assert ops[..n + 1] == ops[..n] + [ops[n]];
      assert ops[..n + 1][..n] == ops[..n];
      TakenGrows(ops[..n], ops[n]);
      StartedGrows(ops[..n], ops[n]);
      match ops[n] {
        case Handle(p, nilHandler, accepts) =>
          var _ := s.Handle(p, nilHandler, accepts);
        case Run(listen) =>
          var res := s.BeginRun(listen);
          if res.Serving? { served := served + [n]; }
        case UpdateShutdownTimeout(d) =>
          var _ := s.UpdateShutdownTimeout(d);
      }
    }
    assert ops[..|ops|] == ops;
  }
}

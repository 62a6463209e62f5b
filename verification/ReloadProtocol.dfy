/** The hot-reload engine of internal/reload as a labelled transition system: every
    goroutine is cut at the points where another one can get in between.

    Goroutines without identity are kept as bags, one bag per program counter, so any
    number of Trigger and Stop callers is covered. A step that holds a mutex throughout,
    one channel operation, one timer call, one launch (`wg.Add` with its `go`) and one
    exit (`return` with its deferred calls) is atomic. */
module ReloadProtocol {
  import opened Text
  import opened Wrappers
  import opened Traces

  // ---------- configuration of one Reloader ----------

  datatype Kind = Sighup | File

  function SourceName(k: Kind): string {
    match k
    case Sighup => "sighup"
    case File => "file"
  }

  /** `debounce` is in nanoseconds and may be zero or negative. `stopDrains` tells the two
      behaviours of a timer's Stop apart: since Go 1.23 it takes back an undelivered tick and
      reports true; earlier timers and injected clocks leave the tick buffered and report false. */
  datatype Setup = Setup(sources: seq<Kind>, debounce: int, stopDrains: bool)

  // ---------- state ----------

  /** Progress of the one Start call that gets past the flag check. */
  datatype StartPc =
    | Idle
    | Flagged                // flags and channels set, mutex released
    | Launched               // worker launched
    | Triggers(next: nat)    // context watcher launched, sources[..next] launched
    | Failing                // a file trigger failed: about to call signalStop
    | FailWait               // about to wait for the goroutines
    | FailFlags              // about to reset the flags
    | Succeeded
    | Failed

  datatype Caller = ByStop | ByWatcher | ByStart

  /** The sync.Once of signalStop, with the caller running its body. */
  datatype Once = Fresh | Flagging(who: Caller) | Closing(who: Caller) | Done

  datatype WatcherPc = Absent | Selecting | Signalling | Left

  datatype WorkerPc =
    | Unborn
    | Parked                                                      // select of worker
    | CreateTimer | Select | StopTimer | DrainTick | ResetTimer   // debounceWait
    | AtSnapshot                                                  // debounceWait returned true
    | AtLoad(reported: seq<string>)
    | Applying(version: nat, next: nat, anyOk: bool)
    | Gone

  datatype Timer = Timer(armed: bool, deadline: int, tick: bool)

  /** What the public methods and the context watcher share. */
  datatype Life = Life(started: bool, stopped: bool, subs: seq<string>, start: StartPc,
                       once: Once, stopsAtOnce: nat, stopsAtWait: nat, watcher: WatcherPc)

  /** How many trigger goroutines of each kind are at one program counter. */
  datatype Crew = Crew(sighup: nat, file: nat) {
    function Count(k: Kind): nat {
      match k case Sighup => sighup case File => file
    }
    function Size(): nat { sighup + file }
    function Join(k: Kind): Crew {
      match k case Sighup => Crew(sighup + 1, file) case File => Crew(sighup, file + 1)
    }
    function Leave(k: Kind): Crew
      requires Count(k) > 0
    {
      match k case Sighup => Crew(sighup - 1, file) case File => Crew(sighup, file - 1)
    }
  }

  /** The source set, the one-slot channel, and everyone inside enqueue: accepted Trigger calls
      with their source up to the insert (the value sent is never looked at) and then as a
      count, trigger goroutines by kind. */
  datatype Queue = Queue(token: bool, srcSet: set<string>,
                         toInsert: map<nat, string>, toSend: nat,
                         idle: Crew, inserting: Crew, sending: Crew)

  datatype Worker = Worker(pc: WorkerPc, timer: Timer, lastApplied: nat)

  datatype World = World(now: int, canceled: bool, fileVersion: nat)

  datatype State = State(life: Life, queue: Queue, worker: Worker, world: World, wg: int)

  /** What NewReloader returns: nothing started, the boot configuration recorded. (Said field
      by field; a constructor applied to literals throughout is slow to reason about.) */
  predicate Initial(s: State) {
    var l, q, w := s.life, s.queue, s.worker;
    && !l.started && !l.stopped && l.subs == [] && l.start.Idle? && l.once.Fresh?
    && l.stopsAtOnce == 0 && l.stopsAtWait == 0 && l.watcher.Absent?
    && !q.token && q.srcSet == {} && q.toInsert == map[] && q.toSend == 0
    && q.idle.Size() == 0 && q.inserting.Size() == 0 && q.sending.Size() == 0
    && w.pc.Unborn? && !w.timer.armed && !w.timer.tick && w.lastApplied <= s.world.fileVersion
    && s.wg == 0
  }

  // ---------- actions ----------

  datatype Action =
    | Outside(world: WorldAction)
    | Starting(start: StartAction)
    | Stopping(stop: StopAction)
    | Enqueuing(enqueue: EnqueueAction)
    | Waiting(wait: WaitAction)
    | Reloading(reload: ReloadAction)

  datatype WorldAction = Advance(d: nat) | EditFile | Cancel

  /** Register, Start, and the steps of the Start that passed. */
  datatype StartAction =
    | Register(name: string)
    | StartCall | LaunchWorker | LaunchWatcher | LaunchTrigger(ok: bool) | StartReturn
    | FailWaited | FailReturn

  /** Stop, signalStop by any of its callers, and the context watcher. */
  datatype StopAction =
    | StopCall | StopReturn
    | OnceEnter(who: Caller) | OnceFlag | OnceClose | OncePass(who: Caller)
    | WatcherCancel | WatcherStop

  /** Trigger, enqueue by a Trigger caller or a trigger goroutine, and that goroutine's exits. */
  datatype EnqueueAction =
    | TriggerCall(call: nat, source: string)
    | Insert(call: nat, source: string) | Send
    | Event(kind: Kind) | TrigInsert(kind: Kind) | TrigSend(kind: Kind)
    | TrigStop(kind: Kind) | TrigClosed

  /** worker's select and debounceWait, and the firing of its timer. */
  datatype WaitAction =
    | WorkerStop | Take | NewTimer | Absorb | TimerStop | TimerDrain | TimerReset | TickReceive
    | FireTimer

  /** doReload. */
  datatype ReloadAction = Snapshot | Load(ok: bool) | Apply(ok: bool) | Finish

  // ---------- steps ----------

  predicate StopClosed(s: State) {
    s.life.once.Done?
  }

  function WorldStep(s: State, a: WorldAction): Option<State> {
    match a
    case Advance(d) => Some(s.(world := s.world.(now := s.world.now + d)))
    case EditFile => Some(s.(world := s.world.(fileVersion := s.world.fileVersion + 1)))
    case Cancel => Some(s.(world := s.world.(canceled := true)))
  }

  /** The subscriber names after one Register call. */
  function Registered(started: bool, stopped: bool, subs: seq<string>, name: string): seq<string> {
    if started || stopped || name == "" || name in subs then subs else subs + [name]
  }

  function StartStep(c: Setup, s: State, a: StartAction): Option<State> {
    var l := s.life;
    match a
    case Register(name) => Some(s.(life := l.(subs := Registered(l.started, l.stopped, l.subs, name))))
    case StartCall =>
      if l.started || l.stopped then Some(s)   // ErrAlreadyStarted
      else Some(s.(life := l.(started := true, start := Flagged),
                   queue := s.queue.(token := false, srcSet := {})))
    case LaunchWorker =>
      Guard(l.start.Flagged?,
            s.(life := l.(start := Launched), worker := s.worker.(pc := Parked), wg := s.wg + 1))
    case LaunchWatcher =>
      Guard(l.start.Launched?, s.(life := l.(start := Triggers(0), watcher := Selecting), wg := s.wg + 1))
    case LaunchTrigger(ok) =>
      if l.start.Triggers? && l.start.next < |c.sources| then
        var k := c.sources[l.start.next];
        if k.File? && !ok then Some(s.(life := l.(start := Failing)))
        else Some(s.(life := l.(start := Triggers(l.start.next + 1)),
                     queue := s.queue.(idle := s.queue.idle.Join(k)), wg := s.wg + 1))
      else None
    case StartReturn =>
      Guard(l.start.Triggers? && l.start.next >= |c.sources|, s.(life := l.(start := Succeeded)))
    case FailWaited => Guard(l.start.FailWait? && s.wg == 0, s.(life := l.(start := FailFlags)))
    case FailReturn =>
      Guard(l.start.FailFlags?, s.(life := l.(start := Failed, started := false, stopped := true)))
  }

  /** The caller stands before the Once of signalStop. */
  predicate AtOnce(l: Life, who: Caller) {
    match who
    case ByStop => l.stopsAtOnce > 0
    case ByWatcher => l.watcher.Signalling?
    case ByStart => l.start.Failing?
  }

  /** The caller moves from before the Once to inside or past it. */
  function Entered(l: Life, who: Caller): Life
    requires AtOnce(l, who)
  {
    if who.ByStop? then l.(stopsAtOnce := l.stopsAtOnce - 1) else l
  }

  /** The caller's signalStop has returned; the watcher exits right after it. */
  function Released(l: Life, who: Caller): Life {
    match who
    case ByStop => l.(stopsAtWait := l.stopsAtWait + 1)
    case ByWatcher => l.(watcher := Left)
    case ByStart => l.(start := FailWait)
  }

  function Leaving(who: Caller): int {
    if who.ByWatcher? then 1 else 0
  }

  function StopStep(s: State, a: StopAction): Option<State> {
    var l := s.life;
    match a
    case StopCall => if l.started then Some(s.(life := l.(stopsAtOnce := l.stopsAtOnce + 1))) else Some(s)
    case StopReturn =>
      if l.stopsAtWait > 0 && s.wg == 0 then Some(s.(life := l.(stopsAtWait := l.stopsAtWait - 1))) else None
    case OnceEnter(who) =>
      if l.once.Fresh? && AtOnce(l, who) then Some(s.(life := Entered(l, who).(once := Flagging(who)))) else None
    case OnceFlag =>
      if l.once.Flagging? then Some(s.(life := l.(once := Closing(l.once.who), stopped := true))) else None
    case OnceClose =>
      if l.once.Closing? then
        Some(s.(life := Released(l.(once := Done), l.once.who), wg := s.wg - Leaving(l.once.who)))
      else None
    case OncePass(who) =>
      if l.once.Done? && AtOnce(l, who) then
        Some(s.(life := Released(Entered(l, who), who), wg := s.wg - Leaving(who)))
      else None
    case WatcherCancel => Guard(l.watcher.Selecting? && s.world.canceled, s.(life := l.(watcher := Signalling)))
    case WatcherStop =>
      Guard(l.watcher.Selecting? && StopClosed(s), s.(life := l.(watcher := Left), wg := s.wg - 1))
  }

  datatype TriggerResult = Accepted | ErrNotStarted | ErrStopped

  /** What Trigger answers from the two flags it reads under the mutex. */
  function TriggerAnswer(l: Life): TriggerResult {
    if !l.started then ErrNotStarted else if l.stopped then ErrStopped else Accepted
  }

  function EnqueueStep(s: State, a: EnqueueAction): Option<State> {
    var q := s.queue;
    match a
    case TriggerCall(id, src) =>
      if id in q.toInsert then None   // an id names one call
      else if TriggerAnswer(s.life).Accepted? then Some(s.(queue := q.(toInsert := q.toInsert[id := src])))
      else Some(s)
    case Insert(id, src) =>
      if id in q.toInsert && q.toInsert[id] == src then
        Some(s.(queue := q.(toInsert := q.toInsert - {id}, toSend := q.toSend + 1, srcSet := q.srcSet + {src})))
      else None
    case Send =>
      if q.toSend > 0 then Some(s.(queue := q.(toSend := q.toSend - 1, token := true))) else None
    case Event(k) =>
      if q.idle.Count(k) > 0 then
        Some(s.(queue := q.(idle := q.idle.Leave(k), inserting := q.inserting.Join(k))))
      else None
    case TrigInsert(k) =>
      if q.inserting.Count(k) > 0 then
        Some(s.(queue := q.(inserting := q.inserting.Leave(k), sending := q.sending.Join(k),
                            srcSet := q.srcSet + {SourceName(k)})))
      else None
    case TrigSend(k) =>
      if q.sending.Count(k) > 0 then
        Some(s.(queue := q.(sending := q.sending.Leave(k), idle := q.idle.Join(k), token := true)))
      else None
    case TrigStop(k) =>
      if q.idle.Count(k) > 0 && StopClosed(s) then
        Some(s.(queue := q.(idle := q.idle.Leave(k)), wg := s.wg - 1))
      else None
    case TrigClosed =>   // the file watcher closed its own channels
      if q.idle.Count(File) > 0 then Some(s.(queue := q.(idle := q.idle.Leave(File)), wg := s.wg - 1)) else None
  }

  function WaitStep(c: Setup, s: State, a: WaitAction): Option<State> {
    var w, timer := s.worker, s.worker.timer;
    match a
    case WorkerStop =>
      Guard((w.pc.Parked? || w.pc.Select?) && StopClosed(s),
            s.(worker := w.(pc := Gone, timer := timer.(armed := false)), wg := s.wg - 1))
    case Take =>
      Guard(w.pc.Parked? && s.queue.token,
            s.(queue := s.queue.(token := false),
               worker := w.(pc := if c.debounce <= 0 then AtSnapshot else CreateTimer)))
    case NewTimer =>
      Guard(w.pc.CreateTimer?,
            s.(worker := w.(pc := Select, timer := Timer(true, s.world.now + c.debounce, false))))
    case Absorb =>
      Guard(w.pc.Select? && s.queue.token,
            s.(queue := s.queue.(token := false), worker := w.(pc := StopTimer)))
    case TimerStop =>
      if !w.pc.StopTimer? then None
      else if timer.armed then Some(s.(worker := w.(pc := ResetTimer, timer := timer.(armed := false))))
      else if c.stopDrains && timer.tick then Some(s.(worker := w.(pc := ResetTimer, timer := timer.(tick := false))))
      else Some(s.(worker := w.(pc := DrainTick)))
    case TimerDrain => Guard(w.pc.DrainTick?, s.(worker := w.(pc := ResetTimer, timer := timer.(tick := false))))
    case TimerReset =>
      Guard(w.pc.ResetTimer?,
            s.(worker := w.(pc := Select, timer := timer.(armed := true, deadline := s.world.now + c.debounce))))
    case TickReceive =>
      Guard(w.pc.Select? && timer.tick,
            s.(worker := w.(pc := AtSnapshot, timer := Timer(false, timer.deadline, false))))
    case FireTimer =>
      Guard(timer.armed && timer.deadline <= s.world.now,
            s.(worker := w.(timer := timer.(armed := false, tick := true))))
  }

  ghost function ReloadStep(s: State, a: ReloadAction): Option<State> {
    var w := s.worker;
    match a
    case Snapshot =>
      Guard(w.pc.AtSnapshot?,
            s.(worker := w.(pc := AtLoad(SortedList(s.queue.srcSet))), queue := s.queue.(srcSet := {})))
    case Load(ok) =>   // config.Load and Validate; a failure of either ends the reload
      Guard(w.pc.AtLoad?, s.(worker := w.(pc := if ok then Applying(s.world.fileVersion, 0, false) else Parked)))
    case Apply(ok) =>
      if w.pc.Applying? && w.pc.next < |s.life.subs| then
        Some(s.(worker := w.(pc := Applying(w.pc.version, w.pc.next + 1, w.pc.anyOk || ok))))
      else None
    case Finish =>
      if w.pc.Applying? && w.pc.next >= |s.life.subs| then
        Some(s.(worker := w.(pc := Parked, lastApplied := if w.pc.anyOk then w.pc.version else w.lastApplied)))
      else None
  }

  /** One step, or None where the action is not enabled. */
  ghost function Step(c: Setup, s: State, a: Action): Option<State> {
    match a
    case Outside(x) => WorldStep(s, x)
    case Starting(x) => StartStep(c, s, x)
    case Stopping(x) => StopStep(s, x)
    case Enqueuing(x) => EnqueueStep(s, x)
    case Waiting(x) => WaitStep(c, s, x)
    case Reloading(x) => ReloadStep(s, x)
  }

  // ---------- runs ----------

  /** A run of the protocol from wherever it begins. */
  ghost predicate Follows(c: Setup, r: Run<State, Action>) {
    WellShaped(r) && forall i :: 0 <= i < |r.acts| ==> Step(c, r.states[i], r.acts[i]) == Some(r.states[i + 1])
  }

  /** A run of the protocol from its beginning. */
  ghost predicate IsRun(c: Setup, r: Run<State, Action>) {
    Follows(c, r) && Initial(r.states[0])
  }
}

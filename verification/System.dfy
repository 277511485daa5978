/** Models the whole batcher as a state machine: the pool of workers, the callers of
    src/batcher/mod.rs with their probes of the pool (src/pool/mod.rs), the shared `Notify` they
    wait on, and the handles whose last drop closes every request channel. */
module System {
  import opened StatusWord
  import opened Worker
  import Router

  /** `predict` waits for room, `try_predict` does not. */
  datatype Mode = Waits | FailsFast

  /** The state of a caller's `Notified` future. `Consumed`: it took the stored permit when it was
      enabled. */
  datatype Node = NoNode | Queued | NotifiedOne | NotifiedAll | Consumed

  datatype Answer = Replied(outcome: Outcome) | QueueFullError | NoAvailableWorkersError

  datatype Stage = LoadState | TrySend | LoadRebuilding

  /** One walk over the pool: `probes` workers done with in this pass; `hope` once a live queue was
      found full or a worker rebuilding in the second pass. */
  datatype Scan = Scan(start: nat, probes: nat, primary: bool, stage: Stage, hope: bool)

  /** The worker to probe next. */
  function Sink(s: Sys, scan: Scan): (sink: nat)
    requires |s.workers| > 0
    ensures sink < |s.workers|
  {
    Router.Ring(scan.start, scan.probes, |s.workers|)
  }

  datatype CallerPc =
    | Scanning(scan: Scan) // 183, 195: try_push
    | Registering          // 190: create and enable a new Notified
    | Parked               // 201: await the notification
    | Awaiting             // 184, 196: await the reply
    | Done(answer: Answer)
    | Canceled             // the future was dropped

  /** Where the request was queued. */
  datatype Home = Nowhere | At(worker: nat)

  /** `woken`: its wait has ended, and it has not tried again since. */
  datatype Caller =
    Caller(input: int, handle: nat, mode: Mode, pc: CallerPc, node: Node, home: Home, woken: bool)

  datatype Sys = Sys(
    workers: seq<Worker>,
    callers: map<nat, Caller>,
    waiters: seq<nat>,   // Notify: callers waiting, oldest first
    permit: bool,        // Notify: a wakeup stored for the next one to register
    handles: set<nat>)

  predicate Initial(s: Sys) {
    && |s.workers| >= 1
    && (forall i | 0 <= i < |s.workers| :: s.workers[i] == Started())
    && s.callers == map[] && s.waiters == [] && !s.permit && s.handles != {}
  }

  predicate InFlight(c: Caller) {
    c.pc.Scanning? || c.pc.Registering? || c.pc.Parked? || c.pc.Awaiting?
  }

  function CanceledIds(s: Sys): set<nat> {
    set id | id in s.callers && s.callers[id].pc.Canceled?
  }

  function SetWorker(s: Sys, i: nat, w: Worker): Sys
    requires i < |s.workers|
  {
    s.(workers := s.workers[i := w])
  }

  function SetCaller(s: Sys, id: nat, c: Caller): Sys {
    s.(callers := s.callers[id := c])
  }

  // ---- Notify ----

  /** The waiter list names callers, each waiting on a queued node. */
  predicate WaitersKnown(s: Sys) {
    forall k | 0 <= k < |s.waiters| :: s.waiters[k] in s.callers
  }

  function NotifyOne(s: Sys): Sys
    requires WaitersKnown(s)
  {
    if s.waiters == [] then s.(permit := true)
    else
      var id := s.waiters[0];
      SetCaller(s, id, s.callers[id].(node := NotifiedOne)).(waiters := s.waiters[1..])
  }

  function NotifyWaiters(s: Sys): Sys {
    s.(callers := map id | id in s.callers ::
                    if id in s.waiters then s.callers[id].(node := NotifiedAll) else s.callers[id],
       waiters := [])
  }

  function Without(waiters: seq<nat>, id: nat): (rest: seq<nat>)
    ensures forall k | 0 <= k < |rest| :: rest[k] in waiters
  {
    if waiters == [] then []
    else if waiters[0] == id then Without(waiters[1..], id)
    else [waiters[0]] + Without(waiters[1..], id)
  }

  /** A caller leaves with this program counter: dropping its future takes it off the list, and a
      wakeup it was given by notify_one but never consumed goes to the next waiter. */
  function Leave(s: Sys, id: nat, pc: CallerPc): Sys
    requires WaitersKnown(s) && id in s.callers
  {
    var c := s.callers[id];
    var left := SetCaller(s, id, c.(pc := pc, node := NoNode));
    match c.node
    case Queued => left.(waiters := Without(s.waiters, id))
    case NotifiedOne => NotifyOne(left)
    case _ => left
  }

  // ---- A caller's walk over the pool ----

  /** A pool of one goes straight to the second pass. */
  function StartScan(n: nat, start: nat): Scan {
    Scan(start, 0, n != 1, LoadState, false)
  }

  predicate Ready(c: Config, w: Worker, primary: bool) {
    if primary then w.status == Waiting && w.predictor == Alive && w.len < c.batchSize
    else w.status !in {Exit, Crashed} && w.predictor == Alive
  }

  /** On to the next probe, to the second pass, or to the answer. */
  function Advance(s: Sys, id: nat, scan: Scan): Sys
    requires WaitersKnown(s) && id in s.callers && |s.workers| > 0
  {
    var n := |s.workers|;
    var c := s.callers[id];
    var next := scan.(stage := LoadState);
    if scan.probes + 1 < n then SetCaller(s, id, c.(pc := Scanning(next.(probes := scan.probes + 1))))
    else if scan.primary then SetCaller(s, id, c.(pc := Scanning(next.(probes := 0, primary := false))))
    else if !scan.hope then Leave(s, id, Done(NoAvailableWorkersError))
    else if c.mode == FailsFast then Leave(s, id, Done(QueueFullError))
    else SetCaller(s, id, c.(pc := if c.node == NoNode then Registering else Parked, woken := false))
  }

  /** try_send, after the look at the status: an accumulator that has set Exit or Crashed but not
      returned yet may be seen as closed or not. */
  function TrySendStep(c: Config, s: Sys, id: nat, scan: Scan, early: bool): Sys
    requires WaitersKnown(s) && id in s.callers && |s.workers| > 0
  {
    var w := s.workers[Sink(s, scan)];
    if w.acc.AccGone? || (early && w.status in {Exit, Crashed}) then Advance(s, id, scan)
    else if |w.chan| < c.queueSize then
      var caller := s.callers[id];
      SetCaller(SetWorker(s, Sink(s, scan), PushRequest(w, Request(id, caller.input))), id,
                caller.(pc := Awaiting, home := At(Sink(s, scan)), woken := false))
    else Advance(s, id, scan.(hope := scan.hope || !scan.primary))
  }

  function ProbeStep(c: Config, s: Sys, id: nat, scan: Scan, early: bool): Sys
    requires WaitersKnown(s) && id in s.callers && |s.workers| > 0
  {
    var w := s.workers[Sink(s, scan)];
    var caller := s.callers[id];
    match scan.stage
    case LoadState =>
      if Ready(c, w, scan.primary) then SetCaller(s, id, caller.(pc := Scanning(scan.(stage := TrySend))))
      else if scan.primary then Advance(s, id, scan)
      else SetCaller(s, id, caller.(pc := Scanning(scan.(stage := LoadRebuilding))))
    case TrySend => TrySendStep(c, s, id, scan, early)
    case LoadRebuilding => Advance(s, id, scan.(hope := scan.hope || w.predictor == Rebuilding))
  }

  /** A new Notified: it consumes a stored permit, or joins the end of the waiter list. */
  function RegisterStep(s: Sys, id: nat, start: nat): Sys
    requires id in s.callers
  {
    var c := s.callers[id].(pc := Scanning(StartScan(|s.workers|, start)));
    if s.permit then SetCaller(s, id, c.(node := Consumed)).(permit := false)
    else SetCaller(s, id, c.(node := Queued)).(waiters := s.waiters + [id])
  }

  // ---- Steps ----

  datatype Act =
    // What the system does on its own.
    | Work(i: nat, a: WorkerAct)
    | Probe(id: nat, early: bool)
    | Register(id: nat, start: nat)
    | Wake(id: nat)
    | Receive(id: nat, outcome: Outcome)
    // What its users do.
    | Call(id: nat, input: int, handle: nat, mode: Mode, start: nat)
    | Cancel(id: nat)
    | CloneHandle(handle: nat, clone: nat)
    | DropHandle(handle: nat)

  predicate Internal(a: Act) {
    a.Work? || a.Probe? || a.Register? || a.Wake? || a.Receive?
  }

  predicate Resolved(s: Sys, id: nat, outcome: Outcome)
    requires id in s.callers
  {
    var c := s.callers[id];
    c.home.At? && c.home.worker < |s.workers|
    && Resolution(Request(id, c.input), outcome) in s.workers[c.home.worker].resolved
  }

  predicate Enabled(c: Config, s: Sys, a: Act) {
    match a
    case Work(i, a) => i < |s.workers| && WorkerEnabled(c, s.workers[i], s.handles == {}, a) && WaitersKnown(s)
    case Probe(id, _) =>
      id in s.callers && s.callers[id].pc.Scanning? && |s.workers| > 0 && WaitersKnown(s)
    case Register(id, start) => id in s.callers && s.callers[id].pc.Registering? && start < |s.workers|
    case Wake(id) =>
      id in s.callers && s.callers[id].pc.Parked? && s.callers[id].node in {NotifiedOne, NotifiedAll, Consumed}
    case Receive(id, outcome) =>
      id in s.callers && s.callers[id].pc.Awaiting? && Resolved(s, id, outcome) && WaitersKnown(s)
    case Call(id, _, handle, _, start) => id !in s.callers && handle in s.handles && start < |s.workers|
    // A future can be dropped only where it is suspended.
    case Cancel(id) =>
      && id in s.callers && WaitersKnown(s)
      && (s.callers[id].pc.Awaiting? || (s.callers[id].pc.Parked? && s.callers[id].node != Consumed))
    case CloneHandle(handle, _) => handle in s.handles
    // A call in flight borrows its handle.
    case DropHandle(handle) =>
      handle in s.handles && forall id | id in s.callers && InFlight(s.callers[id]) :: s.callers[id].handle != handle
  }

  /** A worker's step, with the wakeup it sends. */
  function WorkStep(c: Config, s: Sys, i: nat, a: WorkerAct): Sys
    requires Enabled(c, s, Work(i, a))
  {
    var w := s.workers[i];
    var s' := SetWorker(s, i, WorkerNext(c, w, s.handles == {}, CanceledIds(s), a));
    if a.Acc? && (w.acc.SignalFirst? || w.acc.SignalNext?) then NotifyOne(s')
    else if a.Run? && (w.run.WakeAlive? || w.run.WakeDead?) then NotifyWaiters(s')
    else s'
  }

  function Step(c: Config, s: Sys, a: Act): Sys
    requires Enabled(c, s, a)
  {
    match a
    case Work(i, a) => WorkStep(c, s, i, a)
    case Probe(id, early) => ProbeStep(c, s, id, s.callers[id].pc.scan, early)
    case Register(id, start) => RegisterStep(s, id, start)
    case Wake(id) => SetCaller(s, id, s.callers[id].(pc := Registering, node := NoNode, woken := true))
    case Receive(id, outcome) => Leave(s, id, Done(Replied(outcome)))
    case Call(id, input, handle, mode, start) =>
      SetCaller(s, id, Caller(input, handle, mode, Scanning(StartScan(|s.workers|, start)), NoNode, Nowhere, false))
    case Cancel(id) => Leave(s, id, Canceled)
    case CloneHandle(_, clone) => s.(handles := s.handles + {clone})
    case DropHandle(handle) => s.(handles := s.handles - {handle})
  }

  // ---- Runs ----

  /** A run: the states passed through, and the step between each two. */
  datatype Trace = Trace(states: seq<Sys>, acts: seq<Act>)

  predicate IsRun(c: Config, t: Trace) {
    && |t.states| == |t.acts| + 1
    && forall k {:trigger t.acts[k]} | 0 <= k < |t.acts| :: Enabled(c, t.states[k], t.acts[k]) && t.states[k + 1] == Step(c, t.states[k], t.acts[k])
  }
}

/** Models one worker of src/worker/mod.rs and src/worker/inf.rs as a state machine: its bounded
    request channel, the accumulator task, the job channel of depth one and the inference thread.

    Each program counter below stands just before the shared access it names; a step performs that
    access and the local work up to the next one. The accumulator and the inference thread step
    independently, so every interleaving of their accesses is a run. A timer may fire at any time,
    and the factory and `predict_batch` may come back with any outcome they are allowed. */
module Worker {
  import opened StatusWord
  import opened Buffer

  datatype Request = Request(id: nat, input: int)

  datatype ReplyError = InferenceError | InvalidPredictorOutput | InternalError

  /** What became of a request's oneshot sender. One dropped unsent reads as InternalError. */
  datatype Outcome = Output(value: int) | Failed(error: ReplyError) | SenderDropped

  datatype Resolution = Resolution(request: Request, outcome: Outcome)

  datatype Trigger = Capacity | Timeout

  /** How a stretch of the request log left the accumulator: as a batch handed to the inference
      thread, as a batch cut but refused at the hand-off, or drained after a crash. */
  datatype Segment =
    | Handed(requests: seq<Request>, trigger: Trigger)
    | Refused(requests: seq<Request>, trigger: Trigger)
    | Drained(requests: seq<Request>)

  /** How a batch left the job channel. */
  datatype Receipt = Served(batch: seq<Request>) | Flushed(batch: seq<Request>)

  datatype Config = Config(batchSize: nat, queueSize: nat, attempts: nat, f: int -> int)

  predicate ValidConfig(c: Config) {
    1 <= c.batchSize <= U32_MAX && 1 <= c.queueSize && 1 <= c.attempts <= 255
  }

  datatype AccPc =
    | AwaitFirst                      // 250: recv for the first request of a batch
    | SignalFirst(taken: Request)     // 252: notify_one, then push and count it
    | Fill                            // 287: select between recv, timer and the job channel closing
    | SignalNext(taken: Request)      // 291: notify_one, then push and count it
    | CheckAlive(trigger: Trigger)    // 339: load the predictor state
    | DrainBuffer                     // 360: try_recv until empty, into the buffer
    | FailBuffer                      // 365: error replies, then reset
    | MarkRunning(trigger: Trigger)   // 201
    | Reserve(trigger: Trigger)       // 379
    | LoadPermitted(trigger: Trigger) // 383: load the predictor state, permit in hand
    | Send(trigger: Trigger)          // 389
    | DrainHanded                     // 385: try_recv until empty, into the refused batch
    | FailHanded                      // 385: error replies
    | MarkSent                        // 98
    | ResetLen                        // 228
    | Exiting                         // 231, 308: request channel closed, state set to Exit
    | Crashing                        // 216: job channel closed, state set to Crashed
    | AccGone

  datatype FailStage = InPanic | InQueue | InRebuild

  datatype RunPc =
    | Idle                            // 252: blocking_recv
    | Filter(i: nat)                  // 254
    | Predict                         // 264: predict_batch
    | ReplyOutputs(outputs: seq<int>) // 332: results, one reply at a time
    | ReplyError(error: ReplyError)   // 332: one error for the batch
    | Panicked                        // 277: store Rebuilding
    | FailJob(stage: FailStage)       // 284, 287, 323: error replies
    | FlushQueued                     // 287: try_recv
    | Build(left: nat)                // 292: factory attempts left
    | FlushRebuilt                    // 323: try_recv
    | StoreAlive                      // 324
    | WakeAlive                       // 326: notify_waiters
    | StoreDead                       // 311
    | WakeDead                        // 314: notify_waiters
    | Drop                            // return: drop the job receiver
    | RunGone

  datatype Worker = Worker(
    chan: seq<Request>,        // request channel
    acc: AccPc,
    buf: seq<Request>,         // batch being accumulated
    hand: seq<Request>,        // batch cut from the buffer and not yet sent or failed
    slot: seq<seq<Request>>,   // job channel
    credits: nat,              // its free permits
    run: RunPc,
    job: seq<Request>,         // batch held by the inference thread
    predictor: PredictorStatus,
    status: WorkerStatus,      // the two fields of the status word
    len: nat,
    // What happened so far.
    accepted: seq<Request>,    // pushed on the request channel
    segments: seq<Segment>,    // left the accumulator
    receipts: seq<Receipt>,    // left the job channel
    doomed: seq<Request>,      // were in the job channel when a panic was caught
    late: nat,                 // batches sent since the last panic, up to the next Alive store
    resolved: seq<Resolution>) // senders used or dropped

  /** A worker whose predictor has been built and acknowledged. */
  function Started(): Worker {
    Worker([], AwaitFirst, [], [], [], 1, Idle, [], Alive, Waiting, 0, [], [], [], [], 0, [])
  }

  // ---- Sequences ----

  function Flat(batches: seq<seq<Request>>): seq<Request> {
    if batches == [] then [] else batches[0] + Flat(batches[1..])
  }

  /** Every request of a batch resolved in the same way. */
  function AllResolved(batch: seq<Request>, outcome: Outcome): seq<Resolution> {
    seq(|batch|, i requires 0 <= i < |batch| => Resolution(batch[i], outcome))
  }

  // ---- The accumulator ----

  datatype AccAct = AccGo | AccRecv | AccTimer | AccJobClosed

  /** `closed`: every handle is gone, so a recv on the empty request channel returns None. */
  predicate AccEnabled(w: Worker, closed: bool, a: AccAct) {
    match w.acc
    case AwaitFirst => a == AccRecv && (w.chan != [] || closed)
    case Fill =>
      || (a == AccRecv && (w.chan != [] || closed))
      || a == AccTimer
      || (a == AccJobClosed && w.run.RunGone?)
    case Reserve(_) => a == AccGo && (w.hand == [] || w.run.RunGone? || w.credits > 0)
    case AccGone => false
    case _ => a == AccGo
  }

  /** recv: the next request, or the end of the channel. */
  function Recv(w: Worker, next: Request -> AccPc): Worker {
    if w.chan != [] then w.(chan := w.chan[1..], acc := next(w.chan[0]))
    else w.(acc := Exiting, status := Exit)
  }

  function PushTaken(c: Config, w: Worker, taken: Request): Worker {
    var buf := w.buf + [taken];
    w.(buf := buf, len := w.len + 1, acc := if |buf| == c.batchSize then CheckAlive(Capacity) else Fill)
  }

  function CheckPredictor(w: Worker, trigger: Trigger): Worker {
    if w.predictor == Alive then w.(hand := w.buf, buf := [], acc := MarkRunning(trigger))
    else w.(acc := DrainBuffer)
  }

  /** One try_recv of `handle_crashed_inf`; when there is nothing left the buffer is taken whole. */
  function DrainBufferStep(w: Worker): Worker {
    if w.chan != [] then w.(chan := w.chan[1..], buf := w.buf + [w.chan[0]])
    else w.(hand := w.buf, buf := [], segments := w.segments + [Drained(w.buf)], acc := FailBuffer)
  }

  function DrainHandedStep(w: Worker): Worker {
    if w.chan != [] then
      w.(chan := w.chan[1..], hand := w.hand + [w.chan[0]], segments := w.segments + [Drained([w.chan[0]])])
    else w.(acc := FailHanded)
  }

  function FailHead(w: Worker): Worker
    requires w.hand != []
  {
    w.(hand := w.hand[1..], resolved := w.resolved + [Resolution(w.hand[0], Failed(InternalError))])
  }

  function ReserveStep(w: Worker, trigger: Trigger): Worker {
    if w.hand == [] then w.(acc := MarkSent)
    else if w.run.RunGone? then w.(acc := Crashing, status := Crashed)
    else w.(credits := if w.credits > 0 then w.credits - 1 else 0, acc := LoadPermitted(trigger))
  }

  function PermittedStep(w: Worker, trigger: Trigger): Worker {
    if w.predictor == Alive then w.(acc := Send(trigger))
    else w.(credits := w.credits + 1, segments := w.segments + [Refused(w.hand, trigger)], acc := DrainHanded)
  }

  /** One store of zero: no length, and Waiting again. */
  function ResetBatchLen(w: Worker): Worker {
    w.(status := Waiting, len := 0, acc := AwaitFirst)
  }

  /** `permit.send`: it succeeds even when the receiver has been dropped. */
  function SendStep(w: Worker, trigger: Trigger): Worker {
    w.(slot := w.slot + [w.hand], hand := [], segments := w.segments + [Handed(w.hand, trigger)],
       late := if w.predictor == Alive then w.late else w.late + 1, acc := MarkSent)
  }

  /** The accumulator returns: its buffers, the request channel, and, when the inference thread is
      gone as well, what is left in the job channel are dropped. */
  function AccDrop(w: Worker): Worker {
    var jobs := if w.run.RunGone? then Flat(w.slot) else [];
    w.(chan := [], buf := [], hand := [], slot := if w.run.RunGone? then [] else w.slot,
       credits := if w.run.RunGone? then w.credits + |w.slot| else w.credits,
       resolved := w.resolved + AllResolved(w.hand + w.buf + w.chan + jobs, SenderDropped), acc := AccGone)
  }

  function AccNext(c: Config, w: Worker, closed: bool, a: AccAct): Worker
    requires AccEnabled(w, closed, a)
  {
    match w.acc
    case AwaitFirst => Recv(w, r => SignalFirst(r))
    case SignalFirst(r) => PushTaken(c, w, r)
    case Fill =>
      if a == AccRecv then Recv(w, r => SignalNext(r))
      else w.(acc := CheckAlive(if a == AccTimer then Timeout else Capacity))
    case SignalNext(r) => PushTaken(c, w, r)
    case CheckAlive(trigger) => CheckPredictor(w, trigger)
    case DrainBuffer => DrainBufferStep(w)
    case FailBuffer => if w.hand != [] then FailHead(w) else ResetBatchLen(w)
    case MarkRunning(trigger) => w.(status := Running, acc := Reserve(trigger))
    case Reserve(trigger) => ReserveStep(w, trigger)
    case LoadPermitted(trigger) => PermittedStep(w, trigger)
    case Send(trigger) => SendStep(w, trigger)
    case DrainHanded => DrainHandedStep(w)
    case FailHanded => if w.hand != [] then FailHead(w) else w.(acc := ResetLen)
    case MarkSent => w.(status := Running, acc := ResetLen)
    case ResetLen => ResetBatchLen(w)
    case Exiting => AccDrop(w)
    case Crashing => AccDrop(w)
  }

  // ---- The inference thread ----

  datatype RunAct = RunGo | PredictOk(outputs: seq<int>) | PredictErr | PredictPanic | BuildOk | BuildErr | BuildCancel

  /** The predictor's contract: the i-th output, if there is one, answers the i-th input. */
  predicate Answers(c: Config, batch: seq<Request>, outputs: seq<int>) {
    forall i | 0 <= i < |batch| && i < |outputs| :: outputs[i] == c.f(batch[i].input)
  }

  predicate RunEnabled(c: Config, w: Worker, a: RunAct) {
    match w.run
    case Idle => a == RunGo && (w.slot != [] || w.acc.AccGone?)
    case Predict => a.PredictErr? || a.PredictPanic? || (a.PredictOk? && Answers(c, w.job, a.outputs))
    case Build(left) => a.BuildOk? || a.BuildErr? || (a.BuildCancel? && w.acc.AccGone?)
    case RunGone => false
    case _ => a == RunGo
  }

  /** One filter test: a closed sender goes, the last pair takes its place. */
  function FilterStep(w: Worker, canceled: set<nat>, i: nat): Worker {
    if i < |w.job| then
      if w.job[i].id in canceled then
        w.(job := SwapRemove(w.job, i), resolved := w.resolved + [Resolution(w.job[i], SenderDropped)])
      else w.(run := Filter(i + 1))
    else w.(run := if w.job == [] then Idle else Predict)
  }

  function ResolveHead(w: Worker, outcome: Outcome): Worker
    requires w.job != []
  {
    w.(job := w.job[1..], resolved := w.resolved + [Resolution(w.job[0], outcome)])
  }

  function PredictStep(w: Worker, a: RunAct): Worker {
    match a
    case PredictOk(outputs) => w.(run := if |outputs| == |w.job| then ReplyOutputs(outputs) else ReplyError(InvalidPredictorOutput))
    case PredictErr => w.(run := ReplyError(InferenceError))
    case _ => w.(run := Panicked, doomed := w.doomed + Flat(w.slot))
  }

  function ReplyOutputsStep(w: Worker, outputs: seq<int>): Worker {
    if w.job == [] || outputs == [] then w.(run := Idle)
    else ResolveHead(w, Output(outputs[0])).(run := ReplyOutputs(outputs[1..]))
  }

  /** Where the inference thread goes once a flushed batch has had its replies. */
  function AfterFail(c: Config, stage: FailStage): RunPc {
    match stage
    case InPanic => FlushQueued
    case InQueue => Build(c.attempts)
    case InRebuild => StoreAlive
  }

  /** `flush_batch`: a single try_recv. */
  function FlushStep(w: Worker, found: RunPc, empty: RunPc): Worker {
    if w.slot != [] then
      w.(job := w.slot[0], slot := w.slot[1..], credits := w.credits + 1,
         receipts := w.receipts + [Flushed(w.slot[0])], run := found)
    else w.(run := empty)
  }

  function RunDrop(w: Worker): Worker {
    w.(slot := [], credits := w.credits + |w.slot|,
       resolved := w.resolved + AllResolved(Flat(w.slot), SenderDropped), run := RunGone)
  }

  function RunNext(c: Config, w: Worker, canceled: set<nat>, a: RunAct): Worker
    requires RunEnabled(c, w, a)
  {
    match w.run
    case Idle =>
      if w.slot != [] then
        w.(job := w.slot[0], slot := w.slot[1..], credits := w.credits + 1,
           receipts := w.receipts + [Served(w.slot[0])], run := Filter(0))
      else w.(run := Drop)
    case Filter(i) => FilterStep(w, canceled, i)
    case Predict => PredictStep(w, a)
    case ReplyOutputs(outputs) => ReplyOutputsStep(w, outputs)
    case ReplyError(error) => if w.job != [] then ResolveHead(w, Failed(error)) else w.(run := Idle)
    case Panicked => w.(predictor := Rebuilding, late := 0, run := FailJob(InPanic))
    case FailJob(stage) => if w.job != [] then ResolveHead(w, Failed(InternalError)) else w.(run := AfterFail(c, stage))
    case FlushQueued => FlushStep(w, FailJob(InQueue), Build(c.attempts))
    case Build(left) =>
      if a.BuildOk? then w.(run := FlushRebuilt)
      else if a.BuildErr? && left > 1 then w.(run := Build(left - 1))
      else w.(run := StoreDead)
    case FlushRebuilt => FlushStep(w, FailJob(InRebuild), StoreAlive)
    case StoreAlive => w.(predictor := Alive, run := WakeAlive)
    case WakeAlive => w.(run := Idle)
    case StoreDead => w.(predictor := Dead, run := WakeDead)
    case WakeDead => w.(run := Drop)
    case Drop => RunDrop(w)
  }

  // ---- A worker among others ----

  /** A router's push. */
  function PushRequest(w: Worker, r: Request): Worker {
    w.(chan := w.chan + [r], accepted := w.accepted + [r])
  }

  datatype WorkerAct = Acc(acc: AccAct) | Run(run: RunAct)

  predicate WorkerEnabled(c: Config, w: Worker, closed: bool, a: WorkerAct) {
    match a
    case Acc(a) => AccEnabled(w, closed, a)
    case Run(a) => RunEnabled(c, w, a)
  }

  function WorkerNext(c: Config, w: Worker, closed: bool, canceled: set<nat>, a: WorkerAct): Worker
    requires WorkerEnabled(c, w, closed, a)
  {
    match a
    case Acc(a) => AccNext(c, w, closed, a)
    case Run(a) => RunNext(c, w, canceled, a)
  }
}

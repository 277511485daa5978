/** What each program counter says about a worker's buffers, its job channel and its predictor. */
module WorkerShape {
  import opened StatusWord
  import opened Buffer
  import opened Worker

  /** A batch as it is cut: never empty, never over the limit, and cut for capacity exactly when
      it is full. */
  predicate WellCut(c: Config, batch: seq<Request>, trigger: Trigger) {
    1 <= |batch| <= c.batchSize && (trigger == Capacity <==> |batch| == c.batchSize)
  }

  function Permits(acc: AccPc): nat {
    if acc.LoadPermitted? || acc.Send? then 1 else 0
  }

  predicate AccShape(c: Config, w: Worker) {
    match w.acc
    case Fill => 1 <= |w.buf| < c.batchSize && w.hand == []
    case SignalNext(_) => 1 <= |w.buf| < c.batchSize && w.hand == []
    case CheckAlive(trigger) =>
      && 1 <= |w.buf| <= c.batchSize && w.hand == []
      && (trigger == Timeout ==> |w.buf| < c.batchSize)
      // Woken early by the job channel: then the predictor is dead.
      && (trigger == Capacity && |w.buf| < c.batchSize ==> w.predictor == Dead)
    case DrainBuffer => w.buf != [] && w.hand == []
    case Exiting => |w.buf| < c.batchSize && w.hand == []
    case MarkRunning(trigger) => w.buf == [] && WellCut(c, w.hand, trigger)
    case Reserve(trigger) => w.buf == [] && WellCut(c, w.hand, trigger)
    case LoadPermitted(trigger) => w.buf == [] && WellCut(c, w.hand, trigger)
    case Send(trigger) => w.buf == [] && WellCut(c, w.hand, trigger)
    case FailBuffer => w.buf == []
    case DrainHanded => w.buf == []
    case FailHanded => w.buf == []
    case Crashing => w.buf == [] && w.run.RunGone?
    case AccGone => w.buf == [] && w.hand == [] && w.chan == [] && (w.run.RunGone? ==> w.slot == [])
    case _ => w.buf == [] && w.hand == []
  }

  predicate RunShape(c: Config, w: Worker) {
    match w.run
    case Filter(i) => i <= |w.job|
    case Predict => w.job != []
    case Panicked => w.job != []
    case ReplyOutputs(outputs) => |outputs| == |w.job| && Answers(c, w.job, outputs)
    case ReplyError(_) => true
    case FailJob(_) => true
    case Build(left) => 1 <= left <= c.attempts && w.job == []
    case _ => w.job == []
  }

  predicate PredictorShape(w: Worker) {
    match w.run
    case FailJob(_) => w.predictor == Rebuilding
    case FlushQueued => w.predictor == Rebuilding
    case Build(_) => w.predictor == Rebuilding
    case FlushRebuilt => w.predictor == Rebuilding
    case StoreAlive => w.predictor == Rebuilding
    case StoreDead => w.predictor == Rebuilding
    case WakeDead => w.predictor == Dead
    case Drop => w.predictor == Dead || (w.predictor == Alive && w.acc == AccGone)
    case RunGone => w.predictor == Dead || (w.predictor == Alive && w.acc == AccGone)
    case _ => w.predictor == Alive
  }

  predicate JobChannelShape(w: Worker) {
    && |w.slot| + Permits(w.acc) + w.credits == 1
    && w.late <= 1
    && (w.predictor != Alive && w.acc.Send? ==> w.late == 0)
  }

  predicate Shape(c: Config, w: Worker) {
    AccShape(c, w) && RunShape(c, w) && PredictorShape(w) && JobChannelShape(w)
  }

  // ---- What each side leaves alone ----

  /** An accumulator step writes nothing of the inference thread's. */
  lemma AccFrame(c: Config, w: Worker, closed: bool, a: AccAct)
    requires AccEnabled(w, closed, a)
    ensures var w' := AccNext(c, w, closed, a);
            && w'.run == w.run && w'.job == w.job && w'.predictor == w.predictor
            && w'.receipts == w.receipts && w'.doomed == w.doomed && w'.accepted == w.accepted
  {
  }

  /** An inference step writes nothing of the accumulator's; death is for good. */
  lemma RunFrame(c: Config, w: Worker, canceled: set<nat>, a: RunAct)
    requires RunEnabled(c, w, a)
    ensures var w' := RunNext(c, w, canceled, a);
            && w'.acc == w.acc && w'.chan == w.chan && w'.buf == w.buf && w'.hand == w.hand
            && w'.status == w.status && w'.len == w.len
            && w'.accepted == w.accepted && w'.segments == w.segments
            && (PredictorShape(w) && w.predictor == Dead ==> w'.predictor == Dead)
            && (w'.run.RunGone? ==> w'.slot == [])
  {
  }

  // ---- Preservation ----

  lemma AccShapeAcc(c: Config, w: Worker, closed: bool, a: AccAct)
    requires ValidConfig(c) && Shape(c, w) && AccEnabled(w, closed, a)
    ensures AccShape(c, AccNext(c, w, closed, a))
  {
  }

  lemma PredictorShapeAcc(c: Config, w: Worker, closed: bool, a: AccAct)
    requires PredictorShape(w) && AccEnabled(w, closed, a)
    ensures PredictorShape(AccNext(c, w, closed, a))
  {
  }

  lemma JobChannelShapeAcc(c: Config, w: Worker, closed: bool, a: AccAct)
    requires ValidConfig(c) && Shape(c, w) && AccEnabled(w, closed, a)
    ensures JobChannelShape(AccNext(c, w, closed, a))
  {
  }

  lemma ShapeAcc(c: Config, w: Worker, closed: bool, a: AccAct)
    requires ValidConfig(c) && Shape(c, w) && AccEnabled(w, closed, a)
    ensures Shape(c, AccNext(c, w, closed, a))
  {
    AccFrame(c, w, closed, a);
    AccShapeAcc(c, w, closed, a);
    PredictorShapeAcc(c, w, closed, a);
    JobChannelShapeAcc(c, w, closed, a);
  }

  lemma RunShapeRun(c: Config, w: Worker, canceled: set<nat>, a: RunAct)
    requires ValidConfig(c) && Shape(c, w) && RunEnabled(c, w, a)
    ensures RunShape(c, RunNext(c, w, canceled, a))
  {
  }

  lemma PredictorShapeRun(c: Config, w: Worker, canceled: set<nat>, a: RunAct)
    requires ValidConfig(c) && Shape(c, w) && RunEnabled(c, w, a)
    ensures PredictorShape(RunNext(c, w, canceled, a))
  {
  }

  lemma JobChannelShapeRun(c: Config, w: Worker, canceled: set<nat>, a: RunAct)
    requires ValidConfig(c) && Shape(c, w) && RunEnabled(c, w, a)
    ensures JobChannelShape(RunNext(c, w, canceled, a))
  {
  }

  lemma ShapeRun(c: Config, w: Worker, canceled: set<nat>, a: RunAct)
    requires ValidConfig(c) && Shape(c, w) && RunEnabled(c, w, a)
    ensures Shape(c, RunNext(c, w, canceled, a))
  {
    RunFrame(c, w, canceled, a);
    RunShapeRun(c, w, canceled, a);
    PredictorShapeRun(c, w, canceled, a);
    JobChannelShapeRun(c, w, canceled, a);
  }

  lemma ShapePush(c: Config, w: Worker, r: Request)
    requires Shape(c, w) && w.acc != AccGone
    ensures Shape(c, PushRequest(w, r))
  {
  }
}

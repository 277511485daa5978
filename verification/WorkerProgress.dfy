/** A worker never stops while it holds a request, and cannot go on for ever without being given
    new ones: every step it takes on its own lowers a measure. */
module WorkerProgress {
  import opened Buffer
  import opened Worker
  import opened WorkerShape
  import opened WorkerHistory

  /** A batch sent into a job channel whose receiver is gone: nobody will ever receive it. */
  predicate Stranded(w: Worker) {
    w.run.RunGone? && w.slot != []
  }

  /** The worker has a request, or a batch, that somebody is there to deal with. */
  predicate Busy(w: Worker) {
    w.chan != [] || Taken(w.acc) != [] || w.buf != [] || w.hand != [] || w.job != [] || (w.slot != [] && !w.run.RunGone?)
  }

  /** The step a busy worker can always take. */
  function SomeStep(w: Worker): WorkerAct {
    match w.acc
    case AccGone => SomeRunStep(w)
    case AwaitFirst => if w.chan != [] then Acc(AccRecv) else SomeRunStep(w)
    case Fill => Acc(AccTimer)
    case Reserve(_) => if w.hand == [] || w.run.RunGone? || w.credits > 0 then Acc(AccGo) else SomeRunStep(w)
    case _ => Acc(AccGo)
  }

  function SomeRunStep(w: Worker): WorkerAct {
    match w.run
    case Predict => Run(PredictErr)
    case Build(_) => Run(BuildErr)
    case _ => Run(RunGo)
  }

  /** While a worker is busy one of its steps is enabled, whether or not its channel is closed. */
  lemma BusyCanStep(c: Config, w: Worker, closed: bool)
    requires Shape(c, w) && Busy(w)
    ensures WorkerEnabled(c, w, closed, SomeStep(w))
  {
  }

  // ---- The measure ----

  // What is left for the accumulator to do, whatever it still receives.
  function AccRank(acc: AccPc): nat {
    match acc
    case AwaitFirst => 2
    case SignalFirst(_) => 310
    case Fill => 310
    case SignalNext(_) => 310
    case CheckAlive(_) => 309
    case DrainBuffer => 4
    case FailBuffer => 3
    case MarkRunning(_) => 308
    case Reserve(_) => 307
    case LoadPermitted(_) => 306
    case Send(_) => 305
    case DrainHanded => 6
    case FailHanded => 5
    case MarkSent => 4
    case ResetLen => 3
    case Exiting => 1
    case Crashing => 1
    case AccGone => 0
  }

  // What is left for the inference thread to do with the batch it holds, a rebuild included.
  function RunRank(attempts: nat, w: Worker): int {
    match w.run
    case Idle => 2
    case Filter(i) => attempts + 12 + |w.job| - i
    case Predict => attempts + 11
    case ReplyOutputs(_) => 3
    case ReplyError(_) => 3
    case Panicked => attempts + 10
    case FailJob(InPanic) => attempts + 9
    case FlushQueued => attempts + 8
    case FailJob(InQueue) => attempts + 7
    case Build(left) => 6 + left
    case FlushRebuilt => 6
    case FailJob(InRebuild) => 5
    case StoreAlive => 4
    case WakeAlive => 3
    case StoreDead => 3
    case WakeDead => 2
    case Drop => 1
    case RunGone => 0
  }

  function ChannelCost(w: Worker): nat {
    300 * |w.slot| + 3 * |Flat(w.slot)|
  }

  function AccCost(w: Worker): nat {
    400 * |w.chan| + 6 * |Taken(w.acc)| + 5 * |w.buf| + 4 * |w.hand| + AccRank(w.acc)
  }

  function RunCost(c: Config, w: Worker): int {
    |w.job| + RunRank(c.attempts, w)
  }

  function Measure(c: Config, w: Worker): int {
    AccCost(w) + ChannelCost(w) + RunCost(c, w)
  }

  lemma MeasureIsNatural(c: Config, w: Worker)
    requires RunShape(c, w)
    ensures Measure(c, w) >= 0
  {
  }

  lemma SendLowersCost(w: Worker, trigger: Trigger)
    requires JobChannelShape(w) && w.acc == Send(trigger)
    ensures var w' := SendStep(w, trigger);
            AccCost(w') + ChannelCost(w') < AccCost(w) + ChannelCost(w)
  {
    assert w.slot == [] && w.slot + [w.hand] == [w.hand];
    FlatOne(w.hand);
  }

  lemma DropLowersCost(w: Worker)
    requires w.acc.Exiting? || w.acc.Crashing?
    ensures var w' := AccDrop(w);
            AccCost(w') + ChannelCost(w') < AccCost(w) + ChannelCost(w)
  {
  }

  lemma PushLowersCost(c: Config, w: Worker, x: Request)
    requires Taken(w.acc) == [x]
    ensures AccCost(PushTaken(c, w, x)) < AccCost(w)
  {
  }

  lemma DrainLowersCost(w: Worker)
    ensures w.acc.DrainBuffer? ==> AccCost(DrainBufferStep(w)) < AccCost(w)
    ensures w.acc.DrainHanded? ==> AccCost(DrainHandedStep(w)) < AccCost(w)
  {
  }

  lemma RecvLowersCost(w: Worker, next: Request -> AccPc)
    requires w.acc.AwaitFirst? || w.acc.Fill?
    requires forall r :: AccRank(next(r)) <= 310 && |Taken(next(r))| == 1
    ensures AccCost(Recv(w, next)) < AccCost(w)
  {
  }

  lemma HandOffLowersCost(w: Worker, trigger: Trigger)
    ensures w.acc == CheckAlive(trigger) ==> AccCost(CheckPredictor(w, trigger)) < AccCost(w)
    ensures w.acc == Reserve(trigger) ==> AccCost(ReserveStep(w, trigger)) < AccCost(w)
    ensures w.acc == LoadPermitted(trigger) ==> AccCost(PermittedStep(w, trigger)) < AccCost(w)
  {
  }

  predicate Accumulates(acc: AccPc) {
    acc.AwaitFirst? || acc.SignalFirst? || acc.Fill? || acc.SignalNext? || acc.CheckAlive? || acc.DrainBuffer? || acc.FailBuffer?
  }

  lemma AccumulatingLowersCost(c: Config, w: Worker, closed: bool, a: AccAct)
    requires AccEnabled(w, closed, a) && Accumulates(w.acc)
    ensures AccCost(AccNext(c, w, closed, a)) < AccCost(w) && AccNext(c, w, closed, a).slot == w.slot
  {
    match w.acc {
      case AwaitFirst => RecvLowersCost(w, r => SignalFirst(r));
      case Fill => RecvLowersCost(w, r => SignalNext(r));
      case SignalFirst(x) => PushLowersCost(c, w, x);
      case SignalNext(x) => PushLowersCost(c, w, x);
      case CheckAlive(trigger) => HandOffLowersCost(w, trigger);
      case DrainBuffer => DrainLowersCost(w);
      case FailBuffer =>
    }
  }

  lemma HandingLowersCost(c: Config, w: Worker, closed: bool, a: AccAct)
    requires JobChannelShape(w) && AccEnabled(w, closed, a) && !Accumulates(w.acc)
    ensures var w' := AccNext(c, w, closed, a);
            AccCost(w') + ChannelCost(w') < AccCost(w) + ChannelCost(w)
  {
    match w.acc {
      case Reserve(trigger) => HandOffLowersCost(w, trigger);
      case LoadPermitted(trigger) => HandOffLowersCost(w, trigger);
      case Send(trigger) => SendLowersCost(w, trigger);
      case DrainHanded => DrainLowersCost(w);
      case Exiting => DropLowersCost(w);
      case Crashing => DropLowersCost(w);
      case _ =>
    }
  }

  lemma AccLowersCost(c: Config, w: Worker, closed: bool, a: AccAct)
    requires JobChannelShape(w) && AccEnabled(w, closed, a)
    ensures var w' := AccNext(c, w, closed, a);
            AccCost(w') + ChannelCost(w') < AccCost(w) + ChannelCost(w)
  {
    if Accumulates(w.acc) {
      AccumulatingLowersCost(c, w, closed, a);
    } else {
      HandingLowersCost(c, w, closed, a);
    }
  }

  lemma RunLowersCost(c: Config, w: Worker, canceled: set<nat>, a: RunAct)
    requires ValidConfig(c) && RunShape(c, w) && RunEnabled(c, w, a)
    ensures var w' := RunNext(c, w, canceled, a);
            ChannelCost(w') + RunCost(c, w') < ChannelCost(w) + RunCost(c, w)
  {
    assert w.slot != [] ==> |Flat(w.slot)| == |w.slot[0]| + |Flat(w.slot[1..])|;
  }

  /** Every step a worker takes on its own lowers its measure: through panics, rebuilds, death and
      shutdown. */
  lemma StepLowersMeasure(c: Config, w: Worker, closed: bool, canceled: set<nat>, a: WorkerAct)
    requires ValidConfig(c) && Shape(c, w) && WorkerEnabled(c, w, closed, a)
    ensures 0 <= Measure(c, WorkerNext(c, w, closed, canceled, a)) < Measure(c, w)
  {
    match a {
      case Acc(a) =>
        AccFrame(c, w, closed, a);
        AccLowersCost(c, w, closed, a);
        ShapeAcc(c, w, closed, a);
      case Run(a) =>
        RunFrame(c, w, canceled, a);
        RunLowersCost(c, w, canceled, a);
        ShapeRun(c, w, canceled, a);
    }
    MeasureIsNatural(c, WorkerNext(c, w, closed, canceled, a));
  }
}

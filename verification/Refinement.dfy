/** The inference thread of the state machine, step by step, does what the loops of
    src/worker/buffer.rs, src/worker/dispatch.rs and src/worker/inf.rs are proved to do in one go.
    The accumulator's steps in between leave the thread's batch alone, so they do not matter. */
module Refinement {
  import opened Worker
  import B = Buffer
  import D = Dispatch
  import T = Retry

  // ---- The filter ----

  /** The thread's filter steps from its `k`-th test on; who has cancelled may change from one test
      to the next. */
  function Filtered(w: Worker, canceled: nat -> set<nat>, k: nat): Worker
    requires w.run.Filter? && w.run.i <= |w.job|
    decreases |w.job| - w.run.i
  {
    if w.run.i < |w.job| then Filtered(FilterStep(w, canceled(k), w.run.i), canceled, k + 1)
    else FilterStep(w, canceled(k), w.run.i)
  }

  function Closed(canceled: nat -> set<nat>): B.Tests<Request> {
    (k: nat, r: Request) => r.id in canceled(k)
  }

  /** They leave the very sequence `filter_canceled` leaves, in the same order, and go on to the
      predictor exactly if it is not empty. */
  lemma {:induction false} FilterStepsAreFilterCanceled(w: Worker, canceled: nat -> set<nat>, k: nat)
    requires w.run.Filter? && w.run.i <= |w.job|
    ensures Filtered(w, canceled, k).job == B.Filter(w.job, w.run.i, k, Closed(canceled))
    ensures Filtered(w, canceled, k).run == if Filtered(w, canceled, k).job == [] then Idle else Predict
    decreases |w.job| - w.run.i
  {
    if w.run.i < |w.job| {
      FilterStepsAreFilterCanceled(FilterStep(w, canceled(k), w.run.i), canceled, k + 1);
    }
  }

  // ---- The replies ----

  /** The thread's reply steps, until its batch is done with. */
  function Replied(w: Worker): Worker
    requires w.run.ReplyOutputs? || w.run.ReplyError?
    requires w.run.ReplyOutputs? ==> |w.run.outputs| == |w.job|
    decreases |w.job|
  {
    if w.job == [] then w
    else
      match w.run
      case ReplyOutputs(outputs) => Replied(ReplyOutputsStep(w, outputs))
      case ReplyError(error) => Replied(ResolveHead(w, Failed(error)))
  }

  /** What came back from `predict_batch`. */
  function Inference(a: RunAct): D.Inference<int, ()>
    requires a.PredictOk? || a.PredictErr?
  {
    if a.PredictOk? then D.Outputs(a.outputs) else D.Failure(())
  }

  function AsOutcome(reply: D.Result<int, ()>): Outcome {
    match reply
    case Ok(value) => Output(value)
    case Err(InferenceError(_)) => Failed(ReplyError.InferenceError)
    case Err(InvalidPredictorOutput) => Failed(ReplyError.InvalidPredictorOutput)
    case Err(InternalError) => Failed(ReplyError.InternalError)
  }

  /** Each request of a batch with the reply at its position. */
  function Paired(batch: seq<Request>, replies: seq<D.Result<int, ()>>): (paired: seq<Resolution>)
    requires |replies| == |batch|
    ensures |paired| == |batch|
  {
    seq(|batch|, i requires 0 <= i < |batch| => Resolution(batch[i], AsOutcome(replies[i])))
  }

  lemma {:induction false} RepliesInOrder(w: Worker, replies: seq<D.Result<int, ()>>)
    requires w.run.ReplyOutputs? || w.run.ReplyError?
    requires w.run.ReplyOutputs? ==> |w.run.outputs| == |w.job|
    requires |replies| == |w.job|
    requires forall i | 0 <= i < |w.job| ::
               AsOutcome(replies[i]) == if w.run.ReplyOutputs? then Output(w.run.outputs[i]) else Failed(w.run.error)
    ensures Replied(w).resolved == w.resolved + Paired(w.job, replies) && Replied(w).job == []
    decreases |w.job|
  {
    if w.job != [] {
      var next := if w.run.ReplyOutputs? then ReplyOutputsStep(w, w.run.outputs) else ResolveHead(w, Failed(w.run.error));
      RepliesInOrder(next, replies[1..]);
      assert Paired(w.job, replies) == [Resolution(w.job[0], AsOutcome(replies[0]))] + Paired(w.job[1..], replies[1..]);
    }
  }

  /** Whatever `predict_batch` returns, the thread sends the replies `send_output` sends: each to the
      sender at its own position, and nothing else. */
  lemma ReplyStepsAreSendOutput(c: Config, w: Worker, a: RunAct)
    requires w.run.Predict? && (a.PredictOk? || a.PredictErr?)
    ensures Replied(PredictStep(w, a)).resolved ==
            w.resolved + Paired(w.job, D.Replies<int, ()>(Inference(a), |w.job|))
  {
    RepliesInOrder(PredictStep(w, a), D.Replies<int, ()>(Inference(a), |w.job|));
  }

  // ---- The rebuild ----

  /** The thread after `n` failed attempts to build a predictor. */
  function FailedBuilds(c: Config, w: Worker, n: nat): (w': Worker)
    requires w.run.Build? && n <= w.run.left && 1 <= w.run.left
    ensures w' == w.(run := if n < w.run.left then Build(w.run.left - n) else StoreDead)
    decreases n
  {
    if n == 0 then w
    else
      var next := RunNext(c, w, {}, BuildErr);
      if next.run.Build? then FailedBuilds(c, next, n - 1) else next
  }

  /** The last wait being zero, a build is cancelled only with attempts left. */
  lemma {:induction false} CancelledEarly<P, E>(waits: seq<nat>, last: T.BuildResult<P, E>, n: nat, p: nat,
                                                factory: nat -> T.Attempt<P, E>, exit: nat -> bool)
    requires waits != [] && waits[|waits| - 1] == 0
    ensures var run := T.SpawnRun(waits, last, n, p, factory, exit);
            run.calls >= n && (run.result.Cancelled? ==> run.calls < n + |waits|)
  {
    if !exit(p) && !factory(n).Built? && |waits| > 1 {
      var sleep := T.Sleeping<P, E>(waits[0], p + 1, exit);
      CancelledEarly(waits[1..], T.FailureOf(factory(n), sleep.completed), n + 1, sleep.polls, factory, exit);
    }
  }

  /** A rebuild takes the steps `spawn_predictor` takes: as many failed attempts, and then the same
      end: a new predictor, or none. */
  lemma BuildStepsAreSpawnPredictor<P, E>(c: Config, w: Worker, waits: seq<nat>, p: nat,
                                          factory: nat -> T.Attempt<P, E>, exit: nat -> bool)
    requires waits != [] && waits[|waits| - 1] == 0 && w.run == Build(|waits|)
    ensures var run := T.SpawnRun(waits, T.Cancelled, 0, p, factory, exit);
            var failed := if run.result.Success? then run.calls - 1 else run.calls;
            0 <= failed <= |waits| &&
            match run.result
            case Success(_) =>
              failed < |waits| && FailedBuilds(c, w, failed).run.Build?
              && RunNext(c, FailedBuilds(c, w, failed), {}, BuildOk) == w.(run := FlushRebuilt)
            case Cancelled =>
              failed < |waits| && FailedBuilds(c, w, failed).run.Build?
              && (w.acc.AccGone? ==> RunNext(c, FailedBuilds(c, w, failed), {}, BuildCancel) == w.(run := StoreDead))
            case _ => failed == |waits| && FailedBuilds(c, w, failed) == w.(run := StoreDead)
  {
    var run := T.SpawnRun(waits, T.Cancelled, 0, p, factory, exit);
    T.SpawnCallsAreBounded(waits, T.Cancelled, 0, p, factory, exit);
    T.SpawnReportsLast(waits, T.Cancelled, 0, p, factory, exit);
    CancelledEarly(waits, T.Cancelled, 0, p, factory, exit);
  }
}

/** The inference thread of src/worker/inf.rs in the form it is written in: `inference_runner` with
    the loops of `filter_canceled`, `send_output`, `send_errors_on_crash`, `flush_batch` and the
    factory retries over its local batch. Every access to shared state is one step of the state
    machine, with any steps of the accumulator and the routers in between. */
module Runner {
  import opened StatusWord
  import opened Buffer
  import opened Worker
  import opened WorkerShape
  import opened WorkerHistory
  import opened WorkerProgress
  import opened Path

  /** What others do before the next access, who has given up by then, and what the predictor or
      the factory comes back with if it is called. */
  datatype RunTurn = RunTurn(others: seq<Stepper>, canceled: set<nat>, outcome: RunAct)

  class Thread {
    const c: Config
    var w: Worker             // the worker as the state machine sees it
    var script: seq<RunTurn>  // what is still to come from others
    var batch: seq<Request>   // the batch the thread holds

    ghost predicate Valid()
      reads this
    {
      ValidConfig(c) && Sound(c, w) && !w.run.RunGone?
    }

    constructor (c: Config, script: seq<RunTurn>)
      requires ValidConfig(c)
      ensures this.c == c && Valid() && w == Started() && batch == []
    {
      this.c, this.script := c, script;
      w, batch := Started(), [];
      new;
      StepsToSelf(c, w);
    }

    /** The steps since `w0`, with `left` turns of others to come then. */
    ghost predicate Since(w0: Worker, left: nat)
      reads this
    {
      Path.Since(c, w0, left, w, |script|)
    }

    ghost predicate Progressed(w0: Worker, left: nat)
      reads this
    {
      Path.Progressed(c, w0, left, w, |script|)
    }

    /** The thread's own things are as they were, and what is in the job channel stays there. */
    ghost predicate Untouched(w0: Worker)
      reads this
    {
      w.run == w0.run && w.job == w0.job && w.predictor == w0.predictor && w0.slot <= w.slot
    }

    /** One step of others, if it may be taken. */
    method Move(move: Stepper)
      requires Valid()
      modifies this`w
      ensures Valid() && StepsTo(c, old(w), w) && Untouched(old(w))
    {
      StepsToSelf(c, w);
      if !move.ByThread? && May(c, w, move) {
        StepsByOne(c, w, move);
        StepsOn(c, Started(), w, Moved(c, w, move));
        MovedKeeps(c, w, move);
        if move.ByTask? {
          AccFrame(c, w, move.closed, move.acc);
        }
        w := Moved(c, w, move);
      }
    }

    /** A turn of others. */
    method Wait() returns (turn: RunTurn)
      requires Valid()
      modifies this`w, this`script
      ensures Valid() && StepsTo(c, old(w), w) && Untouched(old(w))
      ensures script == if old(script) == [] then [] else old(script)[1..]
      ensures old(script) == [] ==> w == old(w)
    {
      StepsToSelf(c, w);
      if script == [] {
        return RunTurn([], {}, RunGo);
      }
      turn := script[0];
      for k := 0 to |turn.others|
        invariant Valid() && StepsTo(c, old(w), w) && Untouched(old(w))
        invariant script == old(script)
      {
        ghost var w1 := w;
        Move(turn.others[k]);
        StepsOn(c, old(w), w1, w);
      }
      script := script[1..];
    }

    /** The thread's own step, in the state the others have left. */
    method Take(a: RunAct, canceled: set<nat>)
      requires Valid() && !w.run.Drop? && RunEnabled(c, w, a)
      modifies this`w
      ensures Valid() && Progressed(old(w), |script|) && w == RunNext(c, old(w), canceled, a)
    {
      RunStepIsSound(c, w, canceled, a);
      w := RunNext(c, w, canceled, a);
    }

    /** One access: others take their turns until it is ready, and it is never ready, `ok` false, only
        if it is not when nothing more is to come from others. A call of the predictor or the factory
        comes to what the turn says, if that is possible, and to an error otherwise. */
    method Access() returns (ok: bool, before: Worker, a: RunAct, canceled: set<nat>)
      requires Valid() && !w.run.Drop?
      modifies this`w, this`script
      ensures Valid() && Since(old(w), |old(script)|) && (ok ==> Progressed(old(w), |old(script)|))
      ensures before.run == old(w.run) && before.job == old(w.job) && before.predictor == old(w.predictor)
      ensures old(w.slot) <= before.slot && Sound(c, before)
      ensures ok <==> RunEnabled(c, before, a)
      ensures !ok ==> script == []
      ensures w == if ok then RunNext(c, before, canceled, a) else before
      ensures before.run.Predict? || before.run.Build? ==> ok
      ensures !before.run.Predict? && !before.run.Build? ==> a == RunGo
    {
      ghost var (w0, left) := (w, |script|);
      var turn := Wait();
      while w.run.Idle? && !RunEnabled(c, w, RunGo) && script != []
        invariant Valid() && Since(w0, left) && Untouched(w0)
        decreases |script|
      {
        ghost var w1 := w;
        turn := Wait();
        StepsOn(c, w0, w1, w);
      }
      before, canceled, a := w, turn.canceled, Comes(c, w, turn.outcome);
      ok := RunEnabled(c, w, a);
      if ok {
        Take(a, canceled);
        StepsOn(c, w0, before, w);
      }
    }

    // ---- The accesses, one by one ----

    /** `blocking_recv`: a batch, or the end of the channel. */
    method BlockingRecv() returns (ok: bool, received: bool)
      requires Valid() && w.run.Idle?
      modifies this`w, this`script, this`batch
      ensures Valid() && Since(old(w), |old(script)|) && (ok ==> Progressed(old(w), |old(script)|))
      ensures w.run == if !ok then Idle else if received then Filter(0) else Drop
      ensures !ok ==> script == [] && !RunEnabled(c, w, RunGo)
      ensures batch == w.job
    {
      var before, a, canceled;
      ok, before, a, canceled := Access();
      assert before.job == [] by { SoundInv(c, before); }
      received := before.slot != [];
      batch := if ok && received then before.slot[0] else [];
    }

    /** `is_closed` of the sender at hand. */
    method IsClosed(i: nat) returns (closed: bool)
      requires Valid() && w.run == Filter(i) && i < |w.job|
      modifies this`w, this`script
      ensures Valid() && Progressed(old(w), |old(script)|)
      ensures if closed then w.run == Filter(i) && w.job == SwapRemove(old(w.job), i)
              else w.run == Filter(i + 1) && w.job == old(w.job)
    {
      var _, before, _, canceled := Access();
      closed := before.job[i].id in canceled;
    }

    /** The end of the filter, which touches nothing shared. */
    method EndFilter()
      requires Valid() && w.run == Filter(|w.job|)
      modifies this`w, this`script
      ensures Valid() && Progressed(old(w), |old(script)|)
      ensures w.job == old(w.job) && w.run == if w.job == [] then Idle else Predict
    {
      var _, _, _, _ := Access();
    }

    /** `predict_batch` under `catch_unwind`. */
    method CallPredictor() returns (a: RunAct)
      requires Valid() && w.run.Predict?
      modifies this`w, this`script
      ensures Valid() && Progressed(old(w), |old(script)|) && w.job == old(w.job)
      ensures a.PredictOk? || a.PredictErr? || a.PredictPanic?
      ensures a.PredictOk? ==> Answers(c, w.job, a.outputs)
      ensures old(w.slot) <= w.slot
      ensures w.run == match a
                       case PredictOk(outputs) =>
                         if |outputs| == |w.job| then ReplyOutputs(outputs) else ReplyError(InvalidPredictorOutput)
                       case PredictErr => ReplyError(InferenceError)
                       case _ => Panicked
    {
      var ok, before, canceled;
      ok, before, a, canceled := Access();
    }

    /** A reply to the first sender left. */
    method Reply()
      requires Valid() && (w.run.ReplyOutputs? || w.run.ReplyError? || w.run.FailJob?) && w.job != [] && HasReplies(w)
      modifies this`w, this`script
      ensures Valid() && Progressed(old(w), |old(script)|) && w.job == old(w.job)[1..]
      ensures w.run == if old(w.run).ReplyOutputs? then ReplyOutputs(old(w.run).outputs[1..]) else old(w.run)
      ensures Resolution(old(w.job)[0], ReplyAt(old(w.run), 0)) in w.resolved
      ensures w.predictor == old(w.predictor) && old(w.slot) <= w.slot
    {
      var _, before, _, _ := Access();
      assert w.resolved[|before.resolved|] == Resolution(before.job[0], ReplyAt(before.run, 0));
    }

    /** The end of the replies, which touches nothing shared. */
    method EndReplies()
      requires Valid() && (w.run.ReplyOutputs? || w.run.ReplyError? || w.run.FailJob?) && w.job == []
      modifies this`w, this`script
      ensures Valid() && Progressed(old(w), |old(script)|) && w.job == []
      ensures w.run == if old(w.run).FailJob? then AfterFail(c, old(w.run).stage) else Idle
      ensures w.predictor == old(w.predictor) && old(w.slot) <= w.slot
    {
      var _, _, _, _ := Access();
    }

    /** A store of the predictor's state. */
    method Store()
      requires Valid() && (w.run.Panicked? || w.run.StoreAlive? || w.run.StoreDead?)
      modifies this`w, this`script
      ensures Valid() && Progressed(old(w), |old(script)|) && w.job == old(w.job) && old(w.slot) <= w.slot
      ensures w.predictor == if old(w.run).Panicked? then Rebuilding else if old(w.run).StoreAlive? then Alive else Dead
      ensures w.run == if old(w.run).Panicked? then FailJob(InPanic) else if old(w.run).StoreAlive? then WakeAlive else WakeDead
    {
      var _, _, _, _ := Access();
    }

    /** `notify_waiters`. */
    method NotifyWaiters()
      requires Valid() && (w.run.WakeAlive? || w.run.WakeDead?)
      modifies this`w, this`script
      ensures Valid() && Progressed(old(w), |old(script)|) && w.job == old(w.job) && w.predictor == old(w.predictor)
      ensures w.run == if old(w.run).WakeAlive? then Idle else Drop
    {
      var _, _, _, _ := Access();
    }

    /** The one `try_recv` of `flush_batch`: it takes whatever there was. */
    method TryRecv() returns (received: bool)
      requires Valid() && (w.run.FlushQueued? || w.run.FlushRebuilt?)
      modifies this`w, this`script, this`batch
      ensures Valid() && Progressed(old(w), |old(script)|) && w.predictor == old(w.predictor)
      ensures w.slot == [] && batch == w.job
      ensures !received ==> batch == []
      ensures old(w.slot) != [] ==> received && old(w.slot) == [batch]
      ensures w.run == if received then FailJob(if old(w.run).FlushQueued? then InQueue else InRebuild)
                       else if old(w.run).FlushQueued? then Build(c.attempts) else StoreAlive
    {
      var _, before, _, _ := Access();
      assert |before.slot| <= 1 && before.job == [] by { SoundInv(c, before); }
      received := before.slot != [];
      batch := if received then before.slot[0] else [];
    }

    /** One attempt of `spawn_predictor`. */
    method CallFactory() returns (a: RunAct)
      requires Valid() && w.run.Build? && w.job == []
      modifies this`w, this`script
      ensures Valid() && Progressed(old(w), |old(script)|) && w.job == [] && w.predictor == old(w.predictor)
      ensures a.BuildOk? || a.BuildErr? || a.BuildCancel?
      ensures w.run == if a.BuildOk? then FlushRebuilt
                       else if a.BuildErr? && old(w.run).left > 1 then Build(old(w.run).left - 1)
                       else StoreDead
    {
      var ok, before, canceled;
      ok, before, a, canceled := Access();
    }

    // ---- The program ----

    /** `filter_canceled`. */
    method FilterCanceled()
      requires Valid() && w.run == Filter(0) && batch == w.job
      modifies this`w, this`script, this`batch
      ensures Valid() && Progressed(old(w), |old(script)|)
      ensures batch == w.job && w.run == if batch == [] then Idle else Predict
    {
      ghost var (w0, left) := (w, |script|);
      var i := 0;
      StepsToSelf(c, w);
      while i < |batch|
        invariant Valid() && Since(w0, left) && i <= |batch| && batch == w.job && w.run == Filter(i)
        decreases |batch| - i
      {
        ghost var w1 := w;
        var closed := IsClosed(i);
        StepsOn(c, w0, w1, w);
        if closed {
          batch := SwapRemove(batch, i);
        } else {
          i := i + 1;
        }
      }
      ghost var w2 := w;
      EndFilter();
      StepsOn(c, w0, w2, w);
    }

    /** `send_output` and `send_errors_on_crash`: to each sender, in order, the reply of its
        position. */
    method SendReplies()
      requires Valid() && (w.run.ReplyOutputs? || w.run.ReplyError? || w.run.FailJob?) && batch == w.job && HasReplies(w)
      modifies this`w, this`script, this`batch
      ensures Valid() && Progressed(old(w), |old(script)|) && batch == [] && w.job == []
      ensures w.run == if old(w.run).FailJob? then AfterFail(c, old(w.run).stage) else Idle
      ensures w.predictor == old(w.predictor) && old(w.slot) <= w.slot
      ensures forall k | 0 <= k < |old(batch)| :: Resolution(old(batch)[k], ReplyAt(old(w.run), k)) in w.resolved
    {
      ghost var (w0, left, all) := (w, |script|, batch);
      ghost var n: nat := 0;
      StepsToSelf(c, w);
      while batch != []
        invariant Valid() && Since(w0, left) && batch == w.job && n <= |all| && batch == all[n..]
        invariant SameReplies(w0.run, n, w.run) && HasReplies(w)
        invariant w.predictor == w0.predictor && w0.slot <= w.slot
        invariant forall k | 0 <= k < n :: Resolution(all[k], ReplyAt(w0.run, k)) in w.resolved
        decreases |batch|
      {
        ghost var w1 := w;
        Reply();
        StepsOn(c, w0, w1, w);
        ResolutionsStay(c, w1, w);
        NextReply(w0.run, n, w1.run, w.run);
        batch, n := batch[1..], n + 1;
      }
      ghost var w2 := w;
      EndReplies();
      StepsOn(c, w0, w2, w);
      ResolutionsStay(c, w2, w);
    }

    /** `flush_batch`: nothing is left in the job channel, and what was there is failed. */
    method FlushBatch()
      requires Valid() && (w.run.FlushQueued? || w.run.FlushRebuilt?)
      modifies this`w, this`script, this`batch
      ensures Valid() && Progressed(old(w), |old(script)|) && w.job == [] && w.predictor == old(w.predictor)
      ensures w.run == if old(w.run).FlushQueued? then Build(c.attempts) else StoreAlive
      ensures forall r | r in Flat(old(w.slot)) :: GotError(w, r)
    {
      ghost var w0 := w;
      var received := TryRecv();
      ghost var flushed := batch;
      if received {
        ghost var w1 := w;
        SendReplies();
        StepsOn(c, w0, w1, w);
        assert forall k | 0 <= k < |flushed| :: GotError(w, flushed[k]);
        FlatOne(flushed);
      }
    }

    /** `spawn_predictor`: a new predictor within `attempts` calls of the factory, or none after
        exactly that many failed ones, or sooner when it is cancelled. */
    method SpawnPredictor() returns (built: bool, calls: nat, cancelled: bool)
      requires Valid() && w.run == Build(c.attempts) && w.job == []
      modifies this`w, this`script
      ensures Valid() && Progressed(old(w), |old(script)|) && w.job == [] && w.predictor == old(w.predictor)
      ensures w.run == if built then FlushRebuilt else StoreDead
      ensures calls <= c.attempts && (built ==> calls > 0 && !cancelled) && (!built && !cancelled ==> calls == c.attempts)
    {
      ghost var (w0, turns) := (w, |script|);
      StepsToSelf(c, w);
      built, calls, cancelled := false, 0, false;
      while !built && !cancelled && calls < c.attempts
        invariant Valid() && calls <= c.attempts && w.job == [] && w.predictor == w0.predictor
        invariant Since(w0, turns) && (calls > 0 || cancelled ==> Progressed(w0, turns))
        invariant w.run == if built then FlushRebuilt else if cancelled || calls == c.attempts then StoreDead
                           else Build(c.attempts - calls)
        invariant built ==> calls > 0 && !cancelled
        decreases c.attempts - calls, !cancelled
      {
        ghost var w1 := w;
        var outcome := CallFactory();
        StepsOn(c, w0, w1, w);
        built, cancelled := outcome.BuildOk?, outcome.BuildCancel?;
        calls := if cancelled then calls else calls + 1;
      }
    }

    /** The panic is announced, and its batch and the one in the job channel are failed. */
    method FailAll()
      requires Valid() && w.run.Panicked? && batch == w.job
      modifies this`w, this`script, this`batch
      ensures Valid() && Progressed(old(w), |old(script)|) && w.job == [] && w.run == Build(c.attempts)
      ensures w.predictor == Rebuilding
      ensures forall r | r in old(batch) || r in Flat(old(w.slot)) :: GotError(w, r)
    {
      ghost var (w0, failed) := (w, batch);
      Store();
      ghost var w1 := w;
      SendReplies();
      StepsOn(c, w0, w1, w);
      assert forall k | 0 <= k < |failed| :: GotError(w, failed[k]);
      ghost var w2 := w;
      SlotKept(c, w0.slot, w2);
      FlushBatch();
      StepsOn(c, w0, w2, w);
      ErrorsStay(c, w2, w);
    }

    /** What the thread does about a panic: Rebuilding is stored, the batch and whatever is in the job
        channel fail, and the predictor is rebuilt and Alive stored, or Dead. */
    method HandlePanic() returns (rebuilt: bool, calls: nat)
      requires Valid() && w.run.Panicked? && batch == w.job
      modifies this`w, this`script, this`batch
      ensures Valid() && Progressed(old(w), |old(script)|) && w.job == []
      ensures w.run == (if rebuilt then Idle else Drop) && w.predictor == (if rebuilt then Alive else Dead)
      ensures calls <= c.attempts
      ensures forall r | r in old(batch) || r in Flat(old(w.slot)) :: GotError(w, r)
    {
      ghost var w0 := w;
      FailAll();
      ghost var w1 := w;
      var cancelled;
      rebuilt, calls, cancelled := SpawnPredictor();
      StepsOn(c, w0, w1, w);
      ghost var w2 := w;
      EndRebuild(rebuilt);
      StepsOn(c, w0, w2, w);
      StepsOn(c, w1, w2, w);
      ErrorsStay(c, w1, w);
    }

    /** The end of a rebuild: what came meanwhile is flushed if it succeeded, the outcome stored, and
        all waiters notified. */
    method EndRebuild(rebuilt: bool)
      requires Valid() && w.run == (if rebuilt then FlushRebuilt else StoreDead) && w.job == []
      modifies this`w, this`script, this`batch
      ensures Valid() && Progressed(old(w), |old(script)|) && w.job == []
      ensures w.run == (if rebuilt then Idle else Drop) && w.predictor == (if rebuilt then Alive else Dead)
    {
      ghost var w0 := w;
      StepsToSelf(c, w);
      if rebuilt {
        FlushBatch();
      }
      ghost var w1 := w;
      Store();
      StepsOn(c, w0, w1, w);
      ghost var w2 := w;
      NotifyWaiters();
      StepsOn(c, w0, w2, w);
    }

    /** What it does with a batch that is not empty once filtered. */
    method RunBatch() returns (alive: bool)
      requires Valid() && w.run.Predict? && batch == w.job
      modifies this`w, this`script, this`batch
      ensures Valid() && Progressed(old(w), |old(script)|) && w.job == []
      ensures w.run == if alive then Idle else Drop
    {
      ghost var w0 := w;
      var outcome := CallPredictor();
      ghost var w1 := w;
      if outcome.PredictPanic? {
        var calls;
        alive, calls := HandlePanic();
      } else {
        assert HasReplies(w);
        SendReplies();
        alive := true;
      }
      StepsOn(c, w0, w1, w);
    }

    /** `inference_runner`, once the first predictor is built: it returns because the job channel
        closed or the predictor could not be rebuilt, or nothing
        more is to come from others and it still waits for a batch. */
    method InferenceRunner() returns (returned: bool)
      requires Valid() && w.run.Idle?
      modifies this`w, this`script, this`batch
      ensures Valid() && StepsTo(c, old(w), w)
      ensures w.run == if returned then Drop else Idle
      ensures !returned ==> script == [] && !RunEnabled(c, w, RunGo)
    {
      ghost var w0 := w;
      StepsToSelf(c, w);
      while true
        invariant Valid() && StepsTo(c, w0, w) && w.run.Idle?
        decreases |script|, MeasureOf(c, w)
      {
        ghost var w1 := w;
        var ok, received := BlockingRecv();
        StepsOn(c, w0, w1, w);
        if !ok || !received {
          return ok;
        }
        ghost var w2 := w;
        FilterCanceled();
        StepsOn(c, w0, w2, w);
        StepsOn(c, w1, w2, w);
        if batch != [] {
          ghost var w3 := w;
          var alive := RunBatch();
          StepsOn(c, w0, w3, w);
          if !alive {
            return true;
          }
        }
      }
    }
  }

  /** What the step comes to: as the turn says if that is possible, or an error. */
  function Comes(c: Config, w: Worker, outcome: RunAct): (a: RunAct)
    ensures w.run.Predict? || w.run.Build? ==> RunEnabled(c, w, a)
    ensures !w.run.Predict? && !w.run.Build? ==> a == RunGo
  {
    match w.run
    case Predict => if RunEnabled(c, w, outcome) then outcome else PredictErr
    case Build(_) => if RunEnabled(c, w, outcome) then outcome else BuildErr
    case _ => RunGo
  }

  /** The outputs still to be sent are those of the requests left. */
  predicate HasReplies(w: Worker) {
    w.run.ReplyOutputs? ==> |w.run.outputs| == |w.job|
  }

  /** What the k-th of the requests left is to be sent. */
  function ReplyAt(run: RunPc, k: nat): Outcome {
    match run
    case ReplyOutputs(outputs) => if k < |outputs| then Output(outputs[k]) else SenderDropped
    case ReplyError(error) => Failed(error)
    case _ => Failed(InternalError)
  }

  /** After the first `n` replies the others are as before. */
  predicate SameReplies(run: RunPc, n: nat, run': RunPc) {
    if run.ReplyOutputs? then n <= |run.outputs| && run' == ReplyOutputs(run.outputs[n..]) else run' == run
  }

  lemma NextReply(run: RunPc, n: nat, before: RunPc, after: RunPc)
    requires SameReplies(run, n, before) && (before.ReplyOutputs? ==> before.outputs != [])
    requires after == if before.ReplyOutputs? then ReplyOutputs(before.outputs[1..]) else before
    ensures SameReplies(run, n + 1, after) && ReplyAt(before, 0) == ReplyAt(run, n)
  {
  }

  lemma ResolutionsStay(c: Config, w: Worker, w': Worker)
    requires StepsTo(c, w, w')
    ensures forall x | x in w.resolved :: x in w'.resolved
  {
    var steps :| Follows(c, w, steps, w');
    RepliesStay(c, w, steps, w');
  }

  // What was in the job channel still is.
  lemma SlotKept(c: Config, slot: seq<seq<Request>>, w: Worker)
    requires ValidConfig(c) && Sound(c, w) && slot <= w.slot
    ensures forall r | r in Flat(slot) :: r in Flat(w.slot)
  {
    SoundInv(c, w);
    assert slot == [] || slot == w.slot;
  }

  lemma RunStepIsSound(c: Config, w: Worker, canceled: set<nat>, a: RunAct)
    requires ValidConfig(c) && Sound(c, w) && RunEnabled(c, w, a)
    ensures Sound(c, RunNext(c, w, canceled, a)) && StepsTo(c, w, RunNext(c, w, canceled, a))
    ensures MeasureOf(c, RunNext(c, w, canceled, a)) < MeasureOf(c, w)
  {
    SoundInv(c, w);
    StepLowersMeasure(c, w, false, canceled, Run(a));
    StepsByOne(c, w, ByThread(a, canceled));
    StepsOn(c, Started(), w, RunNext(c, w, canceled, a));
  }
}

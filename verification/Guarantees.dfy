/** What every worker of every run keeps: how batches are cut, the order they leave in, the job
    channel across a panic, and the packed status word. */
module Guarantees {
  import opened StatusWord
  import opened Worker
  import opened WorkerShape
  import opened WorkerHistory
  import opened WorkerInvariant
  import opened WorkerWord
  import opened System
  import opened SystemShape
  import opened Custody

  lemma WorkerInvAlong(c: Config, t: Trace, k: nat, i: nat)
    requires ValidConfig(c) && IsRun(c, t) && Initial(t.states[0]) && k < |t.states| && i < |t.states[k].workers|
    ensures WorkerInv(c, t.states[k].workers[i])
  {
    KeptAlong(c, t, k);
  }

  /** A job channel closed by the inference thread, seen by a live accumulator, means that the
      predictor is dead. */
  lemma ClosedJobChannelMeansDead(c: Config, t: Trace, k: nat, i: nat)
    requires ValidConfig(c) && IsRun(c, t) && Initial(t.states[0]) && k < |t.states| && i < |t.states[k].workers|
    requires t.states[k].workers[i].run.RunGone? && !t.states[k].workers[i].acc.AccGone?
    ensures t.states[k].workers[i].predictor == Dead
  {
    WorkerInvAlong(c, t, k, i);
  }

  /** So no batch is ever cut as ready because the job channel closed: every one that was handed
      over, or refused at the hand-off, held 1 to `batchSize` requests, and was cut for capacity
      exactly when it was full. */
  lemma ReadyBatchesAreWellCut(c: Config, t: Trace, k: nat, i: nat, s: Segment)
    requires ValidConfig(c) && IsRun(c, t) && Initial(t.states[0]) && k < |t.states| && i < |t.states[k].workers|
    requires s in t.states[k].workers[i].segments && !s.Drained?
    ensures 1 <= |s.requests| <= c.batchSize
    ensures s.trigger == Capacity <==> |s.requests| == c.batchSize
    ensures s.trigger == Timeout ==> |s.requests| < c.batchSize
  {
    WorkerInvAlong(c, t, k, i);
  }

  /** At the accumulator's loop boundaries the requests pushed, in the order they were pushed, are
      those of the batches cut or drained so far, then the batch being built, then the queue; and
      what was handed over is what the inference thread received, then the job channel. */
  lemma RequestsLeaveInOrder(c: Config, t: Trace, k: nat, i: nat)
    requires ValidConfig(c) && IsRun(c, t) && Initial(t.states[0]) && k < |t.states| && i < |t.states[k].workers|
    requires t.states[k].workers[i].acc.AwaitFirst? || t.states[k].workers[i].acc.Fill?
    ensures var w := t.states[k].workers[i];
            && w.accepted == FlatSegments(w.segments) + w.buf + w.chan
            && (!w.run.RunGone? ==> HandedBatches(w.segments) == ReceivedBatches(w.receipts) + w.slot)
  {
    WorkerInvAlong(c, t, k, i);
    var w := t.states[k].workers[i];
    assert w.accepted == FlatSegments(w.segments) + [] + w.buf + [] + w.chan;
  }

  /** The job channel never holds more than its one permit allows, and at most one batch enters it
      between a panic and the end of its rebuild. */
  lemma OneBatchInJobChannel(c: Config, t: Trace, k: nat, i: nat)
    requires ValidConfig(c) && IsRun(c, t) && Initial(t.states[0]) && k < |t.states| && i < |t.states[k].workers|
    ensures var w := t.states[k].workers[i]; |w.slot| + Permits(w.acc) <= 1 && w.late <= 1
  {
    WorkerInvAlong(c, t, k, i);
  }

  /** Hence the single try_recv of a flush leaves it empty. */
  lemma FlushEmptiesJobChannel(c: Config, t: Trace, k: nat, i: nat)
    requires ValidConfig(c) && IsRun(c, t) && Initial(t.states[0]) && k < |t.acts|
    requires t.acts[k] == Work(i, Run(RunGo)) && i < |t.states[k].workers|
    requires t.states[k].workers[i].run in {FlushQueued, FlushRebuilt}
    ensures i < |t.states[k + 1].workers| && t.states[k + 1].workers[i].slot == []
  {
    WorkerInvAlong(c, t, k, i);
    KeptAlong(c, t, k);
    StepFrame(c, t.states[k], t.acts[k]);
  }

  // ---- The status word ----

  /** The packed word of worker `i` after `k` steps, as its accumulator has written it. */
  function WordAt(t: Trace, i: nat, k: nat): u64
    requires k < |t.states| && |t.states| == |t.acts| + 1
  {
    if k == 0 then 0
    else
      match t.acts[k - 1]
      case Work(j, Acc(a)) =>
        if j == i && i < |t.states[k - 1].workers| then WordAcc(t.states[k - 1].workers[i], a, WordAt(t, i, k - 1))
        else WordAt(t, i, k - 1)
      case _ => WordAt(t, i, k - 1)
  }

  lemma RunsKeepPair(c: Config, w: Worker, canceled: set<nat>, a: RunAct, word: u64)
    requires RunEnabled(c, w, a) && Decodes(word, w)
    ensures Decodes(word, RunNext(c, w, canceled, a))
  {
    RunFrame(c, w, canceled, a);
  }

  lemma WordStep(c: Config, t: Trace, i: nat, k: nat)
    requires ValidConfig(c) && IsRun(c, t) && k < |t.acts| && SysShape(c, t.states[k]) && i < |t.states[k].workers|
    requires Decodes(WordAt(t, i, k), t.states[k].workers[i])
    ensures i < |t.states[k + 1].workers| && Decodes(WordAt(t, i, k + 1), t.states[k + 1].workers[i])
  {
    var (s, a) := (t.states[k], t.acts[k]);
    assert WorkerInv(c, s.workers[i]);
    assert Enabled(c, s, a);
    WorkerAfter(c, s, a, i);
    if a.Work? && a.i == i {
      match a.a {
        case Acc(b) => WordRefinesPair(c, s.workers[i], s.handles == {}, b, WordAt(t, i, k));
        case Run(b) => RunsKeepPair(c, s.workers[i], CanceledIds(s), b, WordAt(t, i, k));
      }
    }
  }

  ghost predicate DecodesAt(t: Trace, i: nat, k: nat) {
    && k < |t.states| && |t.states| == |t.acts| + 1 && i < |t.states[k].workers|
    && Decodes(WordAt(t, i, k), t.states[k].workers[i])
  }

  lemma WordStepAlong(c: Config, t: Trace, i: nat, k: nat)
    requires ValidConfig(c) && IsRun(c, t) && Initial(t.states[0]) && k < |t.acts| && DecodesAt(t, i, k)
    ensures DecodesAt(t, i, k + 1)
  {
    KeptAlong(c, t, k);
    WordStep(c, t, i, k);
  }

  lemma WordAtStart(t: Trace, i: nat)
    requires |t.states| == |t.acts| + 1 && Initial(t.states[0]) && i < |t.states[0].workers|
    ensures DecodesAt(t, i, 0)
  {
    assert t.states[0].workers[i] == Started();
    ZeroWord();
  }

  lemma {:induction false} WordKept(c: Config, t: Trace, i: nat, k: nat)
    requires ValidConfig(c) && IsRun(c, t) && Initial(t.states[0]) && k < |t.states| && i < |t.states[0].workers|
    ensures DecodesAt(t, i, k)
  {
    if k == 0 {
      WordAtStart(t, i);
    } else {
      WordKept(c, t, i, k - 1);
      WordStepAlong(c, t, i, k - 1);
    }
  }

  /** In every state the word decodes to the status and the batch length, the router's tests on it
      are tests on the pair, and in the states where the accumulator waits or hands off the length is
      that of the batch being built or handed off. */
  lemma WordAlong(c: Config, t: Trace, i: nat, k: nat)
    requires ValidConfig(c) && IsRun(c, t) && Initial(t.states[0]) && k < |t.states| && i < |t.states[0].workers|
    ensures i < |t.states[k].workers|
    ensures Decodes(WordAt(t, i, k), t.states[k].workers[i]) && LenShape(c, t.states[k].workers[i])
  {
    WordKept(c, t, i, k);
    WorkerInvAlong(c, t, k, i);
  }

  lemma RouterSeesStatusWord(c: Config, t: Trace, i: nat, k: nat)
    requires ValidConfig(c) && IsRun(c, t) && Initial(t.states[0]) && k < |t.states| && i < |t.states[0].workers|
    ensures i < |t.states[k].workers|
    ensures AcceptsPrimary(WordAt(t, i, k), t.states[k].workers[i].predictor, c.batchSize) <==> System.Ready(c, t.states[k].workers[i], true)
    ensures AcceptsSecondary(WordAt(t, i, k), t.states[k].workers[i].predictor) <==> System.Ready(c, t.states[k].workers[i], false)
  {
    WordAlong(c, t, i, k);
    RouterSeesPair(c, t.states[k].workers[i], WordAt(t, i, k));
  }

  /** What others read off the status: Waiting while a batch is being built and until it is announced,
      with the number of its requests; Running from there to the end of the hand-off; Exit or Crashed
      once the accumulator is to return, for good, and Crashed only of a dead worker. */
  lemma StatusSaysWhere(c: Config, t: Trace, i: nat, k: nat)
    requires ValidConfig(c) && IsRun(c, t) && Initial(t.states[0]) && k < |t.states| && i < |t.states[k].workers|
    ensures var w := t.states[k].workers[i];
            && w.len <= c.batchSize
            && (w.acc.AwaitFirst? || w.acc.SignalFirst? || w.acc.Fill? || w.acc.SignalNext? || w.acc.CheckAlive? || w.acc.MarkRunning? ==>
                  w.status == Waiting && w.len == |w.buf| + |w.hand|)
            && (w.acc.Reserve? || w.acc.LoadPermitted? || w.acc.Send? ==> w.status == Running && w.len == |w.hand|)
            && (w.acc.DrainHanded? || w.acc.FailHanded? || w.acc.MarkSent? || w.acc.ResetLen? ==> w.status == Running)
            && (w.status == Exit || w.status == Crashed <==> w.acc.Exiting? || w.acc.Crashing? || w.acc.AccGone?)
            && (w.status == Crashed ==> w.predictor == Dead)
  {
    WorkerInvAlong(c, t, k, i);
  }

  // ---- What the runs leave open ----

  /** Nothing that users, the clock, the predictor and the factory may do is ruled out: the timer may
      fire whenever a batch is being filled; the predictor may fail, panic, or return right results in any
      number; the factory may succeed or fail; a call may begin on any handle, with any ticket; and its
      future may be dropped wherever it is suspended. */
  lemma NothingIsRuledOut(c: Config, t: Trace, k: nat, i: nat, outputs: seq<int>)
    requires ValidConfig(c) && IsRun(c, t) && Initial(t.states[0]) && k < |t.states| && i < |t.states[k].workers|
    ensures var (s, w) := (t.states[k], t.states[k].workers[i]);
            && (w.acc.Fill? ==> Enabled(c, s, Work(i, Acc(AccTimer))))
            && (w.run.Predict? ==> Enabled(c, s, Work(i, Run(PredictErr))) && Enabled(c, s, Work(i, Run(PredictPanic))))
            && (w.run.Predict? && (forall j | 0 <= j < |w.job| && j < |outputs| :: outputs[j] == c.f(w.job[j].input)) ==>
                  Enabled(c, s, Work(i, Run(PredictOk(outputs)))))
            && (w.run.Build? ==> Enabled(c, s, Work(i, Run(BuildOk))) && Enabled(c, s, Work(i, Run(BuildErr))))
            && (forall id: nat, input, handle: nat, mode, start: nat | id !in s.callers && handle in s.handles && start < |s.workers| ::
                  Enabled(c, s, Call(id, input, handle, mode, start)))
            && (forall id | id in s.callers && (s.callers[id].pc.Awaiting? || (s.callers[id].pc.Parked? && s.callers[id].node == Queued)) ::
                  Enabled(c, s, Cancel(id)))
  {
    KeptAlong(c, t, k);
  }
}

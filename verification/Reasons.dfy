/** Why each request got what it got. Along every run, every reply and every dropped sender goes back
    to one step that decided it, and every such step decides: what it decides is done by the time its
    task, or its thread, comes round again. In particular a batch is cut as ready exactly when the
    accumulator's load finds the predictor alive. */
module Reasons {
  import opened StatusWord
  import opened Buffer
  import opened Worker
  import opened WorkerShape
  import opened WorkerInvariant
  import opened System
  import opened SystemShape
  import opened Custody
  import opened Guarantees

  // ---- The steps that decide ----

  /** A call of the predictor, or the flush of the job channel. */
  ghost predicate ThreadDecides(w: Worker, a: RunAct, r: Request, outcome: Outcome) {
    || (a.PredictOk? && |a.outputs| == |w.job| && exists j :: 0 <= j < |w.job| && w.job[j] == r && outcome == Output(a.outputs[j]))
    || (a.PredictOk? && |a.outputs| != |w.job| && r in w.job && outcome == Failed(InvalidPredictorOutput))
    || (a.PredictErr? && r in w.job && outcome == Failed(InferenceError))
    || (a.PredictPanic? && r in w.job && outcome == Failed(InternalError))
    || (w.run in {FlushQueued, FlushRebuilt} && r in Flat(w.slot) && outcome == Failed(InternalError))
  }

  /** A load that finds the predictor not alive, or the drain that follows. */
  predicate TaskDecides(w: Worker, r: Request, outcome: Outcome) {
    && outcome == Failed(InternalError)
    && (|| (w.acc.CheckAlive? && w.predictor != Alive && r in w.buf)
        || (w.acc.LoadPermitted? && w.predictor != Alive && r in w.hand)
        || ((w.acc.DrainBuffer? || w.acc.DrainHanded?) && w.chan != [] && r == w.chan[0]))
  }

  /** A test of the filter that finds the caller gone. */
  predicate FilterDrops(w: Worker, canceled: set<nat>, r: Request, outcome: Outcome) {
    outcome == SenderDropped && w.run.Filter? && r in w.job && r.id in canceled
  }

  /** The end of the task, with what it and a job channel nobody reads still hold. */
  predicate TaskDrops(w: Worker, r: Request, outcome: Outcome) {
    outcome == SenderDropped && (w.acc.Exiting? || w.acc.Crashing?)
    && (r in w.chan || r in w.buf || r in w.hand || r in Flat(w.slot))
  }

  /** The end of the thread, with what the job channel still holds. */
  predicate ThreadDrops(w: Worker, r: Request, outcome: Outcome) {
    outcome == SenderDropped && w.run.Drop? && r in Flat(w.slot)
  }

  ghost predicate Decides(w: Worker, canceled: set<nat>, a: WorkerAct, r: Request, outcome: Outcome) {
    match a
    case Acc(_) => TaskDecides(w, r, outcome) || TaskDrops(w, r, outcome)
    case Run(b) => ThreadDecides(w, b, r, outcome) || FilterDrops(w, canceled, r, outcome) || ThreadDrops(w, r, outcome)
  }

  // ---- What is decided and not done yet ----

  ghost predicate ThreadOwes(w: Worker, r: Request, outcome: Outcome) {
    match w.run
    case ReplyOutputs(outputs) => exists j :: 0 <= j < |w.job| && j < |outputs| && w.job[j] == r && outcome == Output(outputs[j])
    case ReplyError(error) => r in w.job && outcome == Failed(error)
    case Panicked => r in w.job && outcome == Failed(InternalError)
    case FailJob(_) => r in w.job && outcome == Failed(InternalError)
    case _ => false
  }

  predicate TaskOwes(w: Worker, r: Request, outcome: Outcome) {
    outcome == Failed(InternalError) &&
    match w.acc
    case DrainBuffer => r in w.buf
    case FailBuffer => r in w.hand
    case DrainHanded => r in w.hand
    case FailHanded => r in w.hand
    case _ => false
  }

  predicate Settled(w: Worker, r: Request, outcome: Outcome) {
    Resolution(r, outcome) in w.resolved
  }

  ghost predicate Due(w: Worker, r: Request, outcome: Outcome) {
    Settled(w, r, outcome) || ThreadOwes(w, r, outcome) || TaskOwes(w, r, outcome)
  }

  // ---- Nothing is due without a reason ----

  lemma InFlat(batches: seq<seq<Request>>, r: Request)
    requires batches != [] && r in batches[0]
    ensures r in Flat(batches)
  {
  }

  lemma AllResolvedHas(batch: seq<Request>, outcome: Outcome, r: Request, o: Outcome)
    requires Resolution(r, o) in AllResolved(batch, outcome)
    ensures r in batch && o == outcome
  {
  }

  lemma TaskReason(c: Config, w: Worker, closed: bool, a: AccAct, r: Request, outcome: Outcome)
    requires AccShape(c, w) && AccEnabled(w, closed, a) && Due(AccNext(c, w, closed, a), r, outcome)
    ensures Due(w, r, outcome) || TaskDecides(w, r, outcome) || TaskDrops(w, r, outcome)
  {
    var w' := AccNext(c, w, closed, a);
    AccFrame(c, w, closed, a);
    if Settled(w', r, outcome) && !Settled(w, r, outcome) && (w.acc.Exiting? || w.acc.Crashing?) {
      var jobs := if w.run.RunGone? then Flat(w.slot) else [];
      AllResolvedHas(w.hand + w.buf + w.chan + jobs, SenderDropped, r, outcome);
    }
  }

  lemma SettledReason(c: Config, w: Worker, canceled: set<nat>, a: RunAct, r: Request, outcome: Outcome)
    requires RunShape(c, w) && RunEnabled(c, w, a) && Settled(RunNext(c, w, canceled, a), r, outcome)
    ensures Settled(w, r, outcome) || ThreadOwes(w, r, outcome) || FilterDrops(w, canceled, r, outcome) || ThreadDrops(w, r, outcome)
  {
    var w' := RunNext(c, w, canceled, a);
    if w.run.Drop? && !Settled(w, r, outcome) {
      AllResolvedHas(Flat(w.slot), SenderDropped, r, outcome);
    }
  }

  lemma OwedReason(c: Config, w: Worker, canceled: set<nat>, a: RunAct, r: Request, outcome: Outcome)
    requires RunShape(c, w) && RunEnabled(c, w, a) && ThreadOwes(RunNext(c, w, canceled, a), r, outcome)
    ensures ThreadOwes(w, r, outcome) || ThreadDecides(w, a, r, outcome)
  {
    var w' := RunNext(c, w, canceled, a);
    if w.run.ReplyOutputs? {
      var j :| 0 <= j < |w'.job| && j < |w'.run.outputs| && w'.job[j] == r && outcome == Output(w'.run.outputs[j]);
      assert w.job[j + 1] == r && w.run.outputs[j + 1] == w'.run.outputs[j];
    } else if w.run in {FlushQueued, FlushRebuilt} {
      InFlat(w.slot, r);
    }
  }

  lemma ThreadReason(c: Config, w: Worker, canceled: set<nat>, a: RunAct, r: Request, outcome: Outcome)
    requires RunShape(c, w) && RunEnabled(c, w, a) && Due(RunNext(c, w, canceled, a), r, outcome)
    ensures Due(w, r, outcome) || ThreadDecides(w, a, r, outcome) || FilterDrops(w, canceled, r, outcome) || ThreadDrops(w, r, outcome)
  {
    var w' := RunNext(c, w, canceled, a);
    RunFrame(c, w, canceled, a);
    if Settled(w', r, outcome) {
      SettledReason(c, w, canceled, a, r, outcome);
    } else if ThreadOwes(w', r, outcome) {
      OwedReason(c, w, canceled, a, r, outcome);
    }
  }

  ghost predicate DecidesAt(t: Trace, m: nat, i: nat, r: Request, outcome: Outcome) {
    && m < |t.acts| && m < |t.states| && t.acts[m].Work? && t.acts[m].i == i && i < |t.states[m].workers|
    && Decides(t.states[m].workers[i], CanceledIds(t.states[m]), t.acts[m].a, r, outcome)
  }

  ghost predicate DueAt(t: Trace, k: nat, i: nat, r: Request, outcome: Outcome) {
    k < |t.states| && i < |t.states[k].workers| && Due(t.states[k].workers[i], r, outcome)
  }

  /** One worker on a step of the system: its own step, a push, or nothing. */
  lemma WorkerMoves(c: Config, t: Trace, k: nat, i: nat)
    requires ValidConfig(c) && IsRun(c, t) && Initial(t.states[0]) && k < |t.acts| && i < |t.states[k].workers|
    ensures |t.states[k + 1].workers| == |t.states[k].workers|
    ensures var (s, a) := (t.states[k], t.acts[k]);
            var (w, w') := (s.workers[i], t.states[k + 1].workers[i]);
            if a.Work? && a.i == i
            then WorkerEnabled(c, w, s.handles == {}, a.a) && w' == WorkerNext(c, w, s.handles == {}, CanceledIds(s), a.a)
            else w' == w || exists r :: w' == PushRequest(w, r)
  {
    KeptAlong(c, t, k);
    assert Enabled(c, t.states[k], t.acts[k]);
    WorkerAfter(c, t.states[k], t.acts[k], i);
  }

  lemma PushDue(w: Worker, pushed: Request, r: Request, outcome: Outcome)
    requires Due(PushRequest(w, pushed), r, outcome)
    ensures Due(w, r, outcome)
  {
  }

  lemma WorkDue(c: Config, w: Worker, closed: bool, canceled: set<nat>, a: WorkerAct, r: Request, outcome: Outcome)
    requires Shape(c, w) && WorkerEnabled(c, w, closed, a) && Due(WorkerNext(c, w, closed, canceled, a), r, outcome)
    ensures Due(w, r, outcome) || Decides(w, canceled, a, r, outcome)
  {
    match a {
      case Acc(b) => TaskReason(c, w, closed, b, r, outcome);
      case Run(b) => ThreadReason(c, w, canceled, b, r, outcome);
    }
  }

  lemma DueStep(c: Config, t: Trace, k: nat, i: nat, r: Request, outcome: Outcome)
    requires ValidConfig(c) && IsRun(c, t) && Initial(t.states[0]) && k < |t.acts| && DueAt(t, k + 1, i, r, outcome)
    ensures DueAt(t, k, i, r, outcome) || DecidesAt(t, k, i, r, outcome)
  {
    var (s, a) := (t.states[k], t.acts[k]);
    assert |s.workers| >= 1 by { KeptAlong(c, t, k); }
    WorkerMoves(c, t, k, 0);
    WorkerMoves(c, t, k, i);
    var (w, w') := (s.workers[i], t.states[k + 1].workers[i]);
    if a.Work? && a.i == i {
      assert Shape(c, w) by { WorkerInvAlong(c, t, k, i); }
      WorkDue(c, w, s.handles == {}, CanceledIds(s), a.a, r, outcome);
    } else if w' != w {
      var pushed :| w' == PushRequest(w, pushed);
      PushDue(w, pushed, r, outcome);
    }
  }

  lemma NothingDueAtStart(t: Trace, i: nat, r: Request, outcome: Outcome)
    requires |t.states| > 0 && Initial(t.states[0])
    ensures !DueAt(t, 0, i, r, outcome)
  {
    if i < |t.states[0].workers| {
      assert t.states[0].workers[i] == Started();
    }
  }

  lemma {:induction false} DueHasReason(c: Config, t: Trace, k: nat, i: nat, r: Request, outcome: Outcome)
    requires ValidConfig(c) && IsRun(c, t) && Initial(t.states[0]) && DueAt(t, k, i, r, outcome)
    ensures exists m: nat :: m < k && DecidesAt(t, m, i, r, outcome)
  {
    if k == 0 {
      NothingDueAtStart(t, i, r, outcome);
    } else {
      DueStep(c, t, k - 1, i, r, outcome);
      if DueAt(t, k - 1, i, r, outcome) {
        DueHasReason(c, t, k - 1, i, r, outcome);
      }
    }
  }

  /** Whatever a request got goes back to a step, before, that decided exactly that. */
  lemma OutcomeHasReason(c: Config, t: Trace, k: nat, i: nat, r: Request, outcome: Outcome)
    requires ValidConfig(c) && IsRun(c, t) && Initial(t.states[0]) && k < |t.states| && i < |t.states[k].workers|
    requires Resolution(r, outcome) in t.states[k].workers[i].resolved
    ensures exists m: nat :: m < k && DecidesAt(t, m, i, r, outcome)
  {
    assert DueAt(t, k, i, r, outcome);
    DueHasReason(c, t, k, i, r, outcome);
  }

  // ---- What is decided is done ----

  lemma FlatOfOne(w: Worker, r: Request)
    requires |w.slot| <= 1 && r in Flat(w.slot)
    ensures w.slot != [] && r in w.slot[0]
  {
    if w.slot != [] {
      assert w.slot[1..] == [];
    }
  }

  lemma ThreadDecided(c: Config, w: Worker, canceled: set<nat>, a: RunAct, r: Request, outcome: Outcome)
    requires RunShape(c, w) && JobChannelShape(w) && RunEnabled(c, w, a) && ThreadDecides(w, a, r, outcome)
    ensures ThreadOwes(RunNext(c, w, canceled, a), r, outcome)
  {
    if w.run in {FlushQueued, FlushRebuilt} {
      FlatOfOne(w, r);
    }
  }

  lemma ThreadGoesOn(c: Config, w: Worker, canceled: set<nat>, a: RunAct, r: Request, outcome: Outcome)
    requires RunEnabled(c, w, a) && ThreadOwes(w, r, outcome)
    ensures ThreadOwes(RunNext(c, w, canceled, a), r, outcome) || Settled(RunNext(c, w, canceled, a), r, outcome)
  {
    var w' := RunNext(c, w, canceled, a);
    if w.job != [] && w'.job == w.job[1..] && w.job[0] == r && w'.resolved[|w.resolved|] == Resolution(r, outcome) {
    } else if w.run.ReplyOutputs? {
      var j :| 0 <= j < |w.job| && j < |w.run.outputs| && w.job[j] == r && outcome == Output(w.run.outputs[j]);
      assert w'.job[j - 1] == r && w'.run.outputs[j - 1] == w.run.outputs[j];
    }
  }

  /** The task owes this request an error, or will when it has drained it. */
  predicate TaskWillOwe(w: Worker, r: Request) {
    TaskOwes(w, r, Failed(InternalError)) || ((w.acc.DrainBuffer? || w.acc.DrainHanded?) && r in w.chan)
  }

  lemma TaskGoesOn(c: Config, w: Worker, closed: bool, a: AccAct, r: Request)
    requires AccEnabled(w, closed, a) && TaskWillOwe(w, r)
    ensures TaskWillOwe(AccNext(c, w, closed, a), r) || Settled(AccNext(c, w, closed, a), r, Failed(InternalError))
  {
    var w' := AccNext(c, w, closed, a);
    if (w.acc.FailBuffer? || w.acc.FailHanded?) && w.hand[0] == r {
      assert w'.resolved[|w.resolved|] == Resolution(r, Failed(InternalError));
    }
  }

  /** What one step leaves of what is owed: it is still owed, or settled for good. */
  ghost predicate Carries(w: Worker, w': Worker, r: Request, outcome: Outcome) {
    && (Settled(w, r, outcome) ==> Settled(w', r, outcome))
    && (ThreadOwes(w, r, outcome) ==> ThreadOwes(w', r, outcome) || Settled(w', r, outcome))
    && (TaskWillOwe(w, r) ==> TaskWillOwe(w', r) || Settled(w', r, Failed(InternalError)))
  }

  lemma WorkCarries(c: Config, w: Worker, closed: bool, canceled: set<nat>, a: WorkerAct, r: Request, outcome: Outcome)
    requires WorkerEnabled(c, w, closed, a)
    ensures Carries(w, WorkerNext(c, w, closed, canceled, a), r, outcome)
  {
    var w' := WorkerNext(c, w, closed, canceled, a);
    WorkerRemembers(c, w, closed, canceled, a);
    match a {
      case Acc(b) =>
        AccFrame(c, w, closed, b);
        if TaskWillOwe(w, r) {
          TaskGoesOn(c, w, closed, b, r);
        }
      case Run(b) =>
        RunFrame(c, w, canceled, b);
        if ThreadOwes(w, r, outcome) {
          ThreadGoesOn(c, w, canceled, b, r, outcome);
        }
    }
  }

  lemma PushCarries(w: Worker, pushed: Request, r: Request, outcome: Outcome)
    ensures Carries(w, PushRequest(w, pushed), r, outcome)
  {
  }

  lemma StepCarries(c: Config, t: Trace, k: nat, i: nat, r: Request, outcome: Outcome)
    requires ValidConfig(c) && IsRun(c, t) && Initial(t.states[0]) && k < |t.acts| && i < |t.states[k].workers|
    ensures |t.states[k + 1].workers| == |t.states[k].workers|
    ensures Carries(t.states[k].workers[i], t.states[k + 1].workers[i], r, outcome)
  {
    var (s, a) := (t.states[k], t.acts[k]);
    var (w, w') := (s.workers[i], t.states[k + 1].workers[i]);
    WorkerMoves(c, t, k, i);
    if a.Work? && a.i == i {
      WorkCarries(c, w, s.handles == {}, CanceledIds(s), a.a, r, outcome);
    } else if w' != w {
      var pushed :| w' == PushRequest(w, pushed);
      PushCarries(w, pushed, r, outcome);
    }
  }

  ghost predicate ThreadDueAt(t: Trace, k: nat, i: nat, r: Request, outcome: Outcome) {
    && k < |t.states| && i < |t.states[k].workers|
    && (ThreadOwes(t.states[k].workers[i], r, outcome) || Settled(t.states[k].workers[i], r, outcome))
  }

  lemma {:induction false} ThreadDueUntil(c: Config, t: Trace, m: nat, k: nat, i: nat, r: Request, outcome: Outcome)
    requires ValidConfig(c) && IsRun(c, t) && Initial(t.states[0]) && m <= k < |t.states| && ThreadDueAt(t, m, i, r, outcome)
    ensures ThreadDueAt(t, k, i, r, outcome)
    decreases k
  {
    if m < k {
      ThreadDueUntil(c, t, m, k - 1, i, r, outcome);
      StepCarries(c, t, k - 1, i, r, outcome);
    }
  }

  predicate TaskDueAt(t: Trace, k: nat, i: nat, r: Request) {
    && k < |t.states| && i < |t.states[k].workers|
    && (TaskWillOwe(t.states[k].workers[i], r) || Settled(t.states[k].workers[i], r, Failed(InternalError)))
  }

  lemma {:induction false} TaskDueUntil(c: Config, t: Trace, m: nat, k: nat, i: nat, r: Request)
    requires ValidConfig(c) && IsRun(c, t) && Initial(t.states[0]) && m <= k < |t.states| && TaskDueAt(t, m, i, r)
    ensures TaskDueAt(t, k, i, r)
    decreases k
  {
    if m < k {
      TaskDueUntil(c, t, m, k - 1, i, r);
      StepCarries(c, t, k - 1, i, r, Failed(InternalError));
    }
  }

  /** Once the predictor has been called, or a batch flushed, every request of the batch gets what its
      position, or the error, or the panic says, before the thread waits for the next batch. */
  lemma CallDecides(c: Config, t: Trace, m: nat, k: nat, i: nat, a: RunAct, r: Request, outcome: Outcome)
    requires ValidConfig(c) && IsRun(c, t) && Initial(t.states[0]) && m < k < |t.states| && i < |t.states[m].workers|
    requires t.acts[m] == Work(i, Run(a)) && ThreadDecides(t.states[m].workers[i], a, r, outcome)
    requires i < |t.states[k].workers| && t.states[k].workers[i].run.Idle?
    ensures Resolution(r, outcome) in t.states[k].workers[i].resolved
  {
    var (s, w) := (t.states[m], t.states[m].workers[i]);
    KeptAlong(c, t, m);
    WorkerInvAlong(c, t, m, i);
    assert Enabled(c, s, t.acts[m]);
    ThreadDecided(c, w, CanceledIds(s), a, r, outcome);
    WorkerAfter(c, s, t.acts[m], i);
    ThreadDueUntil(c, t, m + 1, k, i, r, outcome);
  }

  // ---- The accumulator's two looks at the predictor ----

  /** Step `k` is the accumulator's look at the predictor: before it announces the batch, or with the
      permit in hand. */
  predicate Looks(t: Trace, k: nat, i: nat) {
    && k < |t.acts| && k < |t.states| && i < |t.states[k].workers| && t.acts[k] == Work(i, Acc(AccGo))
    && (t.states[k].workers[i].acc.CheckAlive? || t.states[k].workers[i].acc.LoadPermitted?)
  }

  /** The batch goes on exactly when that look finds the predictor alive: it is cut as ready, and it is
      sent. */
  lemma ReadyExactlyWhenAlive(c: Config, t: Trace, k: nat, i: nat)
    requires ValidConfig(c) && IsRun(c, t) && Initial(t.states[0]) && Looks(t, k, i)
    ensures |t.states[k + 1].workers| == |t.states[k].workers|
    ensures var (w, w') := (t.states[k].workers[i], t.states[k + 1].workers[i]);
            if w.acc.CheckAlive? then
              && (w'.acc.MarkRunning? <==> w.predictor == Alive)
              && (w'.acc.MarkRunning? ==> w'.hand == w.buf && w'.buf == [] && w'.chan == w.chan && w'.acc.trigger == w.acc.trigger)
            else
              && (w'.acc.Send? <==> w.predictor == Alive)
              && (w'.acc.Send? ==> w'.hand == w.hand && w'.chan == w.chan)
  {
    KeptAlong(c, t, k);
    assert Enabled(c, t.states[k], t.acts[k]);
    WorkerAfter(c, t.states[k], t.acts[k], i);
  }

  /** And when it does not, everything the accumulator has and everything queued gets InternalError, by
      the time it waits for the first request of a batch again. */
  lemma NotAliveFailsAll(c: Config, t: Trace, m: nat, k: nat, i: nat, r: Request)
    requires ValidConfig(c) && IsRun(c, t) && Initial(t.states[0]) && m < k < |t.states| && Looks(t, m, i)
    requires t.states[m].workers[i].predictor != Alive
    requires r in t.states[m].workers[i].buf || r in t.states[m].workers[i].hand || r in t.states[m].workers[i].chan
    requires i < |t.states[k].workers| && t.states[k].workers[i].acc.AwaitFirst?
    ensures Resolution(r, Failed(InternalError)) in t.states[k].workers[i].resolved
  {
    var (s, w) := (t.states[m], t.states[m].workers[i]);
    KeptAlong(c, t, m);
    WorkerInvAlong(c, t, m, i);
    assert Enabled(c, s, t.acts[m]);
    WorkerAfter(c, s, t.acts[m], i);
    TaskDueUntil(c, t, m + 1, k, i, r);
  }
}

/** The batch a panic finds in the job channel: it is never run, and every caller in it is failed
    before the rebuild starts. */
module Doomed {
  import opened Buffer
  import opened Worker
  import opened WorkerShape
  import opened WorkerHistory
  import opened WorkerInvariant
  import opened System
  import opened SystemShape
  import opened Custody

  /** The request was in a batch received to be run. */
  predicate Ran(w: Worker, r: Request) {
    exists k | 0 <= k < |w.receipts| :: w.receipts[k].Served? && r in w.receipts[k].batch
  }

  /** What was received to be run is with the thread, or resolved. */
  ghost predicate RanIsOut(w: Worker) {
    forall r | Ran(w, r) :: r in w.job || r in RequestsOf(w.resolved)
  }

  ghost predicate NeverRun(w: Worker) {
    forall r | r in w.doomed :: !Ran(w, r)
  }

  ghost predicate AcceptsOnce(w: Worker) {
    forall r :: Count(w.accepted, r) <= 1
  }

  lemma RequestsGrow(w: Worker, w': Worker, r: Request)
    requires w.resolved <= w'.resolved && r in RequestsOf(w.resolved)
    ensures r in RequestsOf(w'.resolved)
  {
    var k :| 0 <= k < |w.resolved| && w.resolved[k].request == r;
    assert RequestsOf(w'.resolved)[k] == r;
  }

  lemma ResolvedIsOut(w: Worker, r: Request, outcome: Outcome)
    requires Resolution(r, outcome) in w.resolved
    ensures r in RequestsOf(w.resolved)
  {
    var k :| 0 <= k < |w.resolved| && w.resolved[k] == Resolution(r, outcome);
    assert RequestsOf(w.resolved)[k] == r;
  }

  /** What an inference step takes out of the batch it resolves. */
  lemma JobLeaves(c: Config, w: Worker, canceled: set<nat>, a: RunAct, r: Request)
    requires RunShape(c, w) && RunEnabled(c, w, a) && r in w.job
    ensures r in RunNext(c, w, canceled, a).job || r in RequestsOf(RunNext(c, w, canceled, a).resolved)
  {
    var w' := RunNext(c, w, canceled, a);
    if w.run.Filter? && w.run.i < |w.job| && w.job[w.run.i].id in canceled {
      SwapRemoveKeeps(w.job, w.run.i);
      assert r in multiset(w.job);
      assert w'.resolved[|w.resolved|].request == w.job[w.run.i];
      assert RequestsOf(w'.resolved)[|w.resolved|] == w.job[w.run.i];
    } else if w'.job != w.job {
      assert w.job == [w.job[0]] + w.job[1..];
      assert RequestsOf(w'.resolved)[|w.resolved|] == w.job[0];
    }
  }

  /** A batch is received to be run only by an idle thread. */
  lemma RanNext(c: Config, w: Worker, canceled: set<nat>, a: RunAct, r: Request)
    requires RunEnabled(c, w, a)
    ensures Ran(RunNext(c, w, canceled, a), r) <==> Ran(w, r) || (w.run.Idle? && w.slot != [] && r in w.slot[0])
  {
    var w' := RunNext(c, w, canceled, a);
    assert w.receipts <= w'.receipts;
    if Ran(w, r) {
      var k :| 0 <= k < |w.receipts| && w.receipts[k].Served? && r in w.receipts[k].batch;
      assert w'.receipts[k] == w.receipts[k];
    } else if w.run.Idle? && w.slot != [] {
      assert w'.receipts[|w.receipts|] == Served(w.slot[0]);
    }
  }

  lemma RanIsOutRun(c: Config, w: Worker, canceled: set<nat>, a: RunAct)
    requires RunShape(c, w) && RunEnabled(c, w, a) && RanIsOut(w)
    ensures RanIsOut(RunNext(c, w, canceled, a))
  {
    var w' := RunNext(c, w, canceled, a);
    assert w.resolved <= w'.resolved;
    forall r | Ran(w', r)
      ensures r in w'.job || r in RequestsOf(w'.resolved)
    {
      RanNext(c, w, canceled, a, r);
      if r in w.job {
        JobLeaves(c, w, canceled, a, r);
      } else if r in RequestsOf(w.resolved) {
        RequestsGrow(w, w', r);
      }
    }
  }

  /** A request that has been run, or failed, is not in the job channel as well. */
  lemma NotTwice(w: Worker, r: Request)
    requires ConservedAt(w, r) && AcceptsOnce(w) && r in Flat(w.slot)
    ensures r !in w.job && r !in RequestsOf(w.resolved)
  {
    CountMember(Flat(w.slot), r);
    CountMember(w.job, r);
    CountMember(RequestsOf(w.resolved), r);
  }

  lemma NeverRunRun(c: Config, w: Worker, canceled: set<nat>, a: RunAct)
    requires WorkerInv(c, w) && RunEnabled(c, w, a) && RanIsOut(w) && NeverRun(w) && AcceptsOnce(w)
    ensures NeverRun(RunNext(c, w, canceled, a))
  {
    var w' := RunNext(c, w, canceled, a);
    forall r | r in w'.doomed
      ensures !Ran(w', r)
    {
      RanNext(c, w, canceled, a, r);
      assert ConservedAt(w, r);
      if r in Flat(w.slot) {
        NotTwice(w, r);
      }
      if r in w.doomed && w.run.Idle? && w.slot != [] && r in w.slot[0] {
        assert DoomedAt(w, r);
        ResolvedIsOut(w, r, Failed(InternalError));
      }
    }
  }

  lemma FateNext(c: Config, w: Worker, closed: bool, canceled: set<nat>, a: WorkerAct)
    requires WorkerInv(c, w) && WorkerEnabled(c, w, closed, a) && RanIsOut(w) && NeverRun(w) && AcceptsOnce(w)
    ensures RanIsOut(WorkerNext(c, w, closed, canceled, a)) && NeverRun(WorkerNext(c, w, closed, canceled, a))
  {
    match a {
      case Acc(b) =>
        var w' := AccNext(c, w, closed, b);
        AccFrame(c, w, closed, b);
        assert w.resolved <= w'.resolved by { WorkerRemembers(c, w, closed, canceled, a); }
        forall r | Ran(w', r)
          ensures r in w'.job || r in RequestsOf(w'.resolved)
        {
          assert Ran(w, r);
          if r in RequestsOf(w.resolved) {
            RequestsGrow(w, w', r);
          }
        }
      case Run(b) =>
        RanIsOutRun(c, w, canceled, b);
        NeverRunRun(c, w, canceled, b);
    }
  }

  lemma OnceInPool(s: Sys, i: nat)
    requires AcceptedOnce(s) && i < |s.workers|
    ensures AcceptsOnce(s.workers[i])
  {
    forall r
      ensures Count(s.workers[i].accepted, r) <= 1
    {
      assert Count(s.workers[i].accepted, r) == if QueuedWith(s, r, i) then 1 else 0;
    }
  }

  lemma {:induction false} FateAlong(c: Config, t: Trace, k: nat, i: nat)
    requires ValidConfig(c) && IsRun(c, t) && Initial(t.states[0]) && k < |t.states| && i < |t.states[k].workers|
    ensures RanIsOut(t.states[k].workers[i]) && NeverRun(t.states[k].workers[i])
  {
    if k > 0 {
      var (s, a) := (t.states[k - 1], t.acts[k - 1]);
      KeptAlong(c, t, k - 1);
      WorkerAfter(c, s, a, 0);
      FateAlong(c, t, k - 1, i);
      FateStep(c, s, a, i);
    }
  }

  lemma FateStep(c: Config, s: Sys, a: Act, i: nat)
    requires Kept(c, s) && Enabled(c, s, a) && i < |s.workers| && RanIsOut(s.workers[i]) && NeverRun(s.workers[i])
    ensures |Step(c, s, a).workers| == |s.workers|
    ensures RanIsOut(Step(c, s, a).workers[i]) && NeverRun(Step(c, s, a).workers[i])
  {
    WorkerAfter(c, s, a, i);
    if a.Work? && a.i == i {
      assert WorkerInv(c, s.workers[i]);
      OnceInPool(s, i);
      FateNext(c, s.workers[i], s.handles == {}, CanceledIds(s), a.a);
    } else {
      var w' := Step(c, s, a).workers[i];
      assert w'.receipts == s.workers[i].receipts && w'.resolved == s.workers[i].resolved;
      assert w'.job == s.workers[i].job && w'.doomed == s.workers[i].doomed;
      assert forall r :: Ran(w', r) <==> Ran(s.workers[i], r);
    }
  }

  /** No batch that is run contains a request that a panic found in the job channel. */
  lemma DoomedIsNeverRun(c: Config, t: Trace, k: nat, i: nat, r: Request, batch: seq<Request>)
    requires ValidConfig(c) && IsRun(c, t) && Initial(t.states[0]) && k < |t.states| && i < |t.states[k].workers|
    requires r in t.states[k].workers[i].doomed && Served(batch) in t.states[k].workers[i].receipts
    ensures r !in batch
  {
    FateAlong(c, t, k, i);
    var w := t.states[k].workers[i];
    var j :| 0 <= j < |w.receipts| && w.receipts[j] == Served(batch);
    assert !Ran(w, r);
  }

  /** Once the rebuild starts, and ever after until the next panic, all of them have been failed with
      InternalError. */
  lemma DoomedFailedBeforeRebuild(c: Config, t: Trace, k: nat, i: nat, r: Request)
    requires ValidConfig(c) && IsRun(c, t) && Initial(t.states[0]) && k < |t.states| && i < |t.states[k].workers|
    requires r in t.states[k].workers[i].doomed
    requires t.states[k].workers[i].run !in {Panicked, FailJob(InPanic), FlushQueued, FailJob(InQueue)}
    ensures Resolution(r, Failed(InternalError)) in t.states[k].workers[i].resolved
  {
    KeptAlong(c, t, k);
    assert WorkerInv(c, t.states[k].workers[i]);
    assert DoomedAt(t.states[k].workers[i], r);
  }
}

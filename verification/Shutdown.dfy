/** Shutdown: once the last handle is gone the system comes to rest with every accumulator and every
    inference thread ended, and no batch handed to a live thread is dropped on the way. */
module Shutdown {
  import opened StatusWord
  import opened Buffer
  import opened Worker
  import opened WorkerShape
  import opened WorkerHistory
  import opened WorkerInvariant
  import opened System
  import opened SystemShape
  import opened Custody
  import opened Wakeup
  import opened Liveness

  // ---- It completes ----

  lemma QuietIsOver(c: Config, s: Sys, i: nat)
    requires SysShape(c, s) && Quiet(c, s) && s.handles == {} && i < |s.workers|
    ensures s.workers[i].acc.AccGone? && s.workers[i].run.RunGone?
  {
    var w := s.workers[i];
    QuietWorker(c, s, i);
    assert WorkerInv(c, w);
    assert Internal(Act.Work(i, Acc(AccRecv))) && Internal(Act.Work(i, Acc(AccGo)));
    assert Internal(Act.Work(i, Acc(AccTimer))) && Internal(Act.Work(i, Run(RunGo)));
    assert !Enabled(c, s, Act.Work(i, Acc(AccRecv))) && !Enabled(c, s, Act.Work(i, Acc(AccGo)));
    assert !Enabled(c, s, Act.Work(i, Acc(AccTimer))) && !Enabled(c, s, Act.Work(i, Run(RunGo)));
    assert w.acc.AccGone?;
  }

  lemma {:induction false} StaysClosed(c: Config, states: nat -> Sys, acts: nat -> Act, n: nat)
    requires ValidConfig(c) && Unattended(c, states, acts) && Kept(c, states(0)) && states(0).handles == {}
    ensures Kept(c, states(n)) && states(n).handles == {}
  {
    if n > 0 {
      StaysClosed(c, states, acts, n - 1);
      assert Moves(c, states(n - 1), acts(n - 1), states(n - 1 + 1));
      if !Quiet(c, states(n - 1)) {
        KeptStep(c, states(n - 1), acts(n - 1));
        StepFrame(c, states(n - 1), acts(n - 1));
      }
    }
  }

  /** After any run that has dropped the last handle, under every schedule, every accumulator returns
      and every inference thread ends. */
  lemma ShutdownCompletes(c: Config, t: Trace, states: nat -> Sys, acts: nat -> Act)
    requires ValidConfig(c) && IsRun(c, t) && Initial(t.states[0]) && t.states[|t.acts|].handles == {}
    requires states(0) == t.states[|t.acts|] && Unattended(c, states, acts)
    ensures exists m :: Quiet(c, states(m)) && forall i | 0 <= i < |states(m).workers| ::
              states(m).workers[i].acc.AccGone? && states(m).workers[i].run.RunGone?
  {
    KeptAlong(c, t, |t.acts|);
    AttendedAlong(c, t, |t.acts|);
    ComesToRest(c, states, acts, 0);
    var m :| Quiet(c, states(m)) && Kept(c, states(m)) && Attended(states(m));
    StaysClosed(c, states, acts, m);
    forall i | 0 <= i < |states(m).workers|
      ensures states(m).workers[i].acc.AccGone? && states(m).workers[i].run.RunGone?
    {
      QuietIsOver(c, states(m), i);
    }
  }

  // ---- Nothing handed over is lost ----

  /** A live thread that is about to end has emptied the job channel. */
  predicate EmptyAtEnd(w: Worker) {
    w.run.Drop? && w.predictor != Dead ==> w.slot == []
  }

  lemma EmptyAtEndNext(c: Config, w: Worker, closed: bool, canceled: set<nat>, a: WorkerAct)
    requires PredictorShape(w) && EmptyAtEnd(w) && WorkerEnabled(c, w, closed, a)
    ensures EmptyAtEnd(WorkerNext(c, w, closed, canceled, a))
  {
    if a.Acc? {
      AccFrame(c, w, closed, a.acc);
    }
  }

  /** The request is with a live thread, or has had its reply; unanswered only if it was cancelled. */
  ghost predicate Honoured(w: Worker, canceled: set<nat>, r: Request) {
    || r in Flat(w.slot) || r in w.job
    || exists outcome :: Resolution(r, outcome) in w.resolved && (outcome.SenderDropped? ==> r.id in canceled)
  }

  lemma ResolvedIsHonoured(w: Worker, canceled: set<nat>, r: Request, outcome: Outcome)
    requires Resolution(r, outcome) in w.resolved && (outcome.SenderDropped? ==> r.id in canceled)
    ensures Honoured(w, canceled, r)
  {
  }

  lemma HonouredStays(w: Worker, w': Worker, canceled: set<nat>, canceled': set<nat>, r: Request)
    requires Honoured(w, canceled, r) && canceled <= canceled' && w.resolved <= w'.resolved
    requires r in Flat(w.slot) ==> r in Flat(w'.slot)
    requires r in w.job ==> r in w'.job
    ensures Honoured(w', canceled', r)
  {
    if r !in Flat(w.slot) && r !in w.job {
      var outcome :| Resolution(r, outcome) in w.resolved && (outcome.SenderDropped? ==> r.id in canceled);
      ResolvedIsHonoured(w', canceled', r, outcome);
    }
  }

  lemma HonouredAcc(c: Config, w: Worker, closed: bool, canceled: set<nat>, a: AccAct, r: Request)
    requires PredictorShape(w) && w.predictor != Dead && AccEnabled(w, closed, a) && Honoured(w, canceled, r)
    ensures Honoured(AccNext(c, w, closed, a), canceled, r)
  {
    var w' := AccNext(c, w, closed, a);
    AccFrame(c, w, closed, a);
    assert w.resolved <= w'.resolved by { WorkerRemembers(c, w, closed, canceled, Acc(a)); }
    if r in Flat(w.slot) {
      InFlat(w.slot, w.hand, r);
    }
    HonouredStays(w, w', canceled, canceled, r);
  }

  /** A step of the thread that takes from its batch resolves what it takes. */
  lemma JobHonoured(c: Config, w: Worker, canceled: set<nat>, a: RunAct, r: Request)
    requires RunShape(c, w) && RunEnabled(c, w, a) && r in w.job
    ensures Honoured(RunNext(c, w, canceled, a), canceled, r)
  {
    var w' := RunNext(c, w, canceled, a);
    if w.run.Filter? && w.run.i < |w.job| && w.job[w.run.i].id in canceled {
      SwapRemoveKeeps(w.job, w.run.i);
      assert r in multiset(w.job);
      if r == w.job[w.run.i] {
        ResolvedIsHonoured(w', canceled, r, SenderDropped);
      }
    } else if w'.job != w.job {
      assert w.job == [w.job[0]] + w.job[1..];
      assert w'.resolved[|w.resolved|] in w'.resolved;
      if r == w.job[0] {
        ResolvedIsHonoured(w', canceled, r, w'.resolved[|w.resolved|].outcome);
      }
    }
  }

  lemma SlotHonoured(c: Config, w: Worker, canceled: set<nat>, a: RunAct, r: Request)
    requires RunEnabled(c, w, a) && EmptyAtEnd(w) && w.predictor != Dead && r in Flat(w.slot)
    ensures Honoured(RunNext(c, w, canceled, a), canceled, r)
  {
  }

  lemma HonouredRun(c: Config, w: Worker, canceled: set<nat>, a: RunAct, r: Request)
    requires RunShape(c, w) && RunEnabled(c, w, a) && EmptyAtEnd(w) && w.predictor != Dead && Honoured(w, canceled, r)
    ensures Honoured(RunNext(c, w, canceled, a), canceled, r)
  {
    if r in w.job {
      JobHonoured(c, w, canceled, a, r);
    } else if r in Flat(w.slot) {
      SlotHonoured(c, w, canceled, a, r);
    } else {
      var w' := RunNext(c, w, canceled, a);
      assert w.resolved <= w'.resolved by { WorkerRemembers(c, w, false, canceled, Run(a)); }
      HonouredStays(w, w', canceled, canceled, r);
    }
  }

  lemma CanceledStay(c: Config, s: Sys, a: Act)
    requires SysShape(c, s) && Enabled(c, s, a)
    ensures CanceledIds(s) <= CanceledIds(Step(c, s, a))
  {
    StepFrame(c, s, a);
  }

  lemma HonouredNext(c: Config, w: Worker, closed: bool, canceled: set<nat>, a: WorkerAct, r: Request)
    requires Shape(c, w) && EmptyAtEnd(w) && w.predictor != Dead
    requires WorkerEnabled(c, w, closed, a) && Honoured(w, canceled, r)
    ensures Honoured(WorkerNext(c, w, closed, canceled, a), canceled, r)
  {
    match a {
      case Acc(b) => HonouredAcc(c, w, closed, canceled, b, r);
      case Run(b) => HonouredRun(c, w, canceled, b, r);
    }
  }

  lemma HonouredStep(c: Config, s: Sys, a: Act, i: nat, r: Request)
    requires SysShape(c, s) && Enabled(c, s, a) && i < |s.workers| && s.workers[i].predictor != Dead
    requires EmptyAtEnd(s.workers[i]) && Honoured(s.workers[i], CanceledIds(s), r)
    ensures |Step(c, s, a).workers| == |s.workers|
    ensures Honoured(Step(c, s, a).workers[i], CanceledIds(s), r)
  {
    WorkerAfter(c, s, a, i);
    if a.Work? && a.i == i {
      assert Shape(c, s.workers[i]) by { assert WorkerInv(c, s.workers[i]); }
      HonouredNext(c, s.workers[i], s.handles == {}, CanceledIds(s), a.a, r);
    } else {
      HonouredStays(s.workers[i], Step(c, s, a).workers[i], CanceledIds(s), CanceledIds(s), r);
    }
  }

  lemma EmptyAtEndStep(c: Config, s: Sys, a: Act, i: nat)
    requires SysShape(c, s) && Enabled(c, s, a) && i < |s.workers| && EmptyAtEnd(s.workers[i])
    ensures |Step(c, s, a).workers| == |s.workers| && EmptyAtEnd(Step(c, s, a).workers[i])
  {
    WorkerAfter(c, s, a, i);
    if a.Work? && a.i == i {
      assert PredictorShape(s.workers[i]) by { assert WorkerInv(c, s.workers[i]); }
      EmptyAtEndNext(c, s.workers[i], s.handles == {}, CanceledIds(s), a.a);
    }
  }

  lemma {:induction false} EmptyAtEndAlong(c: Config, t: Trace, k: nat, i: nat)
    requires ValidConfig(c) && IsRun(c, t) && Initial(t.states[0]) && k < |t.states| && i < |t.states[0].workers|
    ensures i < |t.states[k].workers| && EmptyAtEnd(t.states[k].workers[i])
  {
    if k > 0 {
      EmptyAtEndAlong(c, t, k - 1, i);
      KeptAlong(c, t, k - 1);
      EmptyAtEndStep(c, t.states[k - 1], t.acts[k - 1], i);
    }
  }

  ghost predicate HonouredAt(t: Trace, k: nat, i: nat, r: Request) {
    k < |t.states| && i < |t.states[k].workers| && Honoured(t.states[k].workers[i], CanceledIds(t.states[k]), r)
  }

  lemma HonouredStepAlong(c: Config, t: Trace, k: nat, i: nat, r: Request)
    requires ValidConfig(c) && IsRun(c, t) && Initial(t.states[0]) && k < |t.acts| && i < |t.states[0].workers|
    requires HonouredAt(t, k, i, r) && t.states[k].workers[i].predictor != Dead
    ensures HonouredAt(t, k + 1, i, r)
  {
    KeptAlong(c, t, k);
    EmptyAtEndAlong(c, t, k, i);
    HonouredStep(c, t.states[k], t.acts[k], i, r);
    CanceledStay(c, t.states[k], t.acts[k]);
    var w' := t.states[k + 1].workers[i];
    HonouredStays(w', w', CanceledIds(t.states[k]), CanceledIds(t.states[k + 1]), r);
  }

  /** Worker `i` has had its predictor, alive or being rebuilt, from state `j` to before state `k`. */
  ghost predicate KeepsPredictor(t: Trace, j: nat, k: nat, i: nat)
    requires k <= |t.states|
  {
    forall m | j <= m < k :: i < |t.states[m].workers| && t.states[m].workers[i].predictor != Dead
  }

  lemma {:induction false} HonouredAlong(c: Config, t: Trace, j: nat, k: nat, i: nat, r: Request)
    requires ValidConfig(c) && IsRun(c, t) && Initial(t.states[0]) && j <= k < |t.states| && i < |t.states[0].workers|
    requires HonouredAt(t, j, i, r) && KeepsPredictor(t, j, k, i)
    ensures HonouredAt(t, k, i, r)
    decreases k
  {
    if j < k {
      HonouredAlong(c, t, j, k - 1, i, r);
      HonouredStepAlong(c, t, k - 1, i, r);
    }
  }

  /** A request handed to a thread that stays alive, in the job channel or in a batch being run, is
      still there later, shutdown included, or it has had its reply, or it had been cancelled. */
  lemma HandedIsHonoured(c: Config, t: Trace, j: nat, k: nat, i: nat, r: Request)
    requires ValidConfig(c) && IsRun(c, t) && Initial(t.states[0]) && j <= k < |t.states| && i < |t.states[0].workers|
    requires i < |t.states[j].workers| && (r in Flat(t.states[j].workers[i].slot) || r in t.states[j].workers[i].job)
    requires KeepsPredictor(t, j, k, i)
    ensures HonouredAt(t, k, i, r)
  {
    HonouredAlong(c, t, j, k, i, r);
  }
}

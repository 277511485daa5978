/** Runs in which the predictor never panics: nothing is drained, no batch is stranded, and every
    call is over in the end. */
module PanicFree {
  import opened StatusWord
  import opened Worker
  import opened WorkerShape
  import opened WorkerInvariant
  import opened WorkerProgress
  import opened System
  import opened SystemShape
  import opened Custody
  import opened Wakeup
  import opened Liveness

  predicate IsPanic(a: Act) {
    a.Work? && a.a.Run? && a.a.run.PredictPanic?
  }

  /** The predictor is alive and nothing is under way to recover from a panic. */
  predicate Healthy(w: Worker) {
    && w.predictor == Alive
    && (w.run.Idle? || w.run.Filter? || w.run.Predict? || w.run.ReplyOutputs? || w.run.ReplyError? || w.run.Drop? || w.run.RunGone?)
    && !w.acc.DrainBuffer? && !w.acc.FailBuffer? && !w.acc.DrainHanded? && !w.acc.FailHanded? && !w.acc.Crashing?
  }

  lemma HealthyNext(c: Config, w: Worker, closed: bool, canceled: set<nat>, a: WorkerAct)
    requires PredictorShape(w) && Healthy(w) && WorkerEnabled(c, w, closed, a)
    requires !(a.Run? && a.run.PredictPanic?)
    ensures Healthy(WorkerNext(c, w, closed, canceled, a))
  {
  }

  ghost predicate AllHealthy(s: Sys) {
    forall i | 0 <= i < |s.workers| :: Healthy(s.workers[i])
  }

  lemma HealthyStep(c: Config, s: Sys, a: Act)
    requires ValidConfig(c) && SysShape(c, s) && AllHealthy(s) && Enabled(c, s, a) && !IsPanic(a)
    ensures AllHealthy(Step(c, s, a))
  {
    forall i | 0 <= i < |Step(c, s, a).workers|
      ensures Healthy(Step(c, s, a).workers[i])
    {
      assert |Step(c, s, a).workers| == |s.workers| by { WorkerAfter(c, s, a, 0); }
      WorkerAfter(c, s, a, i);
      if a.Work? && a.i == i {
        assert PredictorShape(s.workers[i]) by { assert WorkerInv(c, s.workers[i]); }
        HealthyNext(c, s.workers[i], s.handles == {}, CanceledIds(s), a.a);
      }
    }
  }

  ghost predicate NoPanic(t: Trace) {
    forall k | 0 <= k < |t.acts| :: !IsPanic(t.acts[k])
  }

  lemma {:induction false} HealthyAlong(c: Config, t: Trace, k: nat)
    requires ValidConfig(c) && IsRun(c, t) && Initial(t.states[0]) && NoPanic(t) && k < |t.states|
    ensures AllHealthy(t.states[k])
  {
    if k > 0 {
      HealthyAlong(c, t, k - 1);
      KeptAlong(c, t, k - 1);
      HealthyStep(c, t.states[k - 1], t.acts[k - 1]);
    }
  }

  /** Healthy workers drain nothing and strand nothing. */
  lemma HealthyMeansSound(c: Config, s: Sys, a: Act)
    requires SysShape(c, s) && AllHealthy(s)
    ensures !OverlappedDrain(s, a)
    ensures forall i | 0 <= i < |s.workers| :: !Stranded(s.workers[i])
  {
    forall i | 0 <= i < |s.workers|
      ensures !Stranded(s.workers[i])
    {
      assert WorkerInv(c, s.workers[i]);
    }
  }

  ghost predicate NeverPanics(acts: nat -> Act) {
    forall n: nat :: !IsPanic(acts(n))
  }

  lemma {:induction false} StaysHealthy(c: Config, states: nat -> Sys, acts: nat -> Act, n: nat)
    requires ValidConfig(c) && Unattended(c, states, acts) && NeverPanics(acts)
    requires Kept(c, states(0)) && AllHealthy(states(0))
    ensures Kept(c, states(n)) && AllHealthy(states(n))
  {
    if n > 0 {
      StaysHealthy(c, states, acts, n - 1);
      assert Moves(c, states(n - 1), acts(n - 1), states(n - 1 + 1));
      if !Quiet(c, states(n - 1)) {
        KeptStep(c, states(n - 1), acts(n - 1));
        HealthyStep(c, states(n - 1), acts(n - 1));
      }
    }
  }

  /** With a predictor that never panics, everybody who ever called is answered or has given up
      once the system has come to rest, which it does under every schedule: after any run, for
      any number of workers and callers, waiting for room or failing fast, cancelling or not. */
  lemma EverybodyIsAnswered(c: Config, t: Trace, states: nat -> Sys, acts: nat -> Act)
    requires ValidConfig(c) && IsRun(c, t) && Initial(t.states[0]) && NoPanic(t)
    requires states(0) == t.states[|t.acts|] && Unattended(c, states, acts) && NeverPanics(acts)
    ensures exists m :: Quiet(c, states(m)) && forall id | id in states(m).callers :: Over(states(m).callers[id])
  {
    KeptAlong(c, t, |t.acts|);
    HealthyAlong(c, t, |t.acts|);
    forall k | 0 <= k < |t.acts|
      ensures !OverlappedDrain(t.states[k], t.acts[k])
    {
      HealthyAlong(c, t, k);
      KeptAlong(c, t, k);
      HealthyMeansSound(c, t.states[k], t.acts[k]);
    }
    forall n: nat
      ensures !OverlappedDrain(states(n), acts(n)) && forall i | 0 <= i < |states(n).workers| :: !Stranded(states(n).workers[i])
    {
      StaysHealthy(c, states, acts, n);
      HealthyMeansSound(c, states(n), acts(n));
    }
    EveryCallerIsAnswered(c, t, states, acts);
  }
}

/** A batch sent to an inference thread that has gone: when exactly it happens, that its callers are
    then never answered, and that without it, and without an overlapped drain, every call ends. */
module Stranding {
  import opened StatusWord
  import opened Worker
  import opened WorkerShape
  import opened WorkerHistory
  import opened WorkerProgress
  import opened WorkerInvariant
  import opened System
  import opened SystemShape
  import opened Custody
  import opened Wakeup
  import opened Liveness

  // ---- When a batch is stranded ----

  /** `permit.send` while the receiver is already gone: the permit was taken, and the predictor seen
      alive, before the thread panicked, failed to rebuild and returned. */
  predicate LateSend(w: Worker, a: WorkerAct) {
    a == Acc(AccGo) && w.acc.Send? && w.run.RunGone?
  }

  lemma StrandedExactlyByLateSend(c: Config, w: Worker, closed: bool, canceled: set<nat>, a: WorkerAct)
    requires Shape(c, w) && WorkerEnabled(c, w, closed, a) && !Stranded(w)
    ensures Stranded(WorkerNext(c, w, closed, canceled, a)) <==> LateSend(w, a)
  {
  }

  /** What the accumulator can still be doing once a batch is stranded: it never reaches the
      hand-off again, where it would have found out. */
  predicate StrandShape(w: Worker) {
    Stranded(w) ==>
      w.predictor == Dead && !w.acc.MarkRunning? && !w.acc.Reserve? && !w.acc.LoadPermitted? && !w.acc.Send? && !w.acc.Crashing?
  }

  lemma StrandShapeNext(c: Config, w: Worker, closed: bool, canceled: set<nat>, a: WorkerAct)
    requires Shape(c, w) && StrandShape(w) && WorkerEnabled(c, w, closed, a)
    ensures StrandShape(WorkerNext(c, w, closed, canceled, a))
  {
    match a {
      case Acc(a) => StrandShapeAcc(c, w, closed, a);
      case Run(a) => RunFrame(c, w, canceled, a);
    }
  }

  lemma StrandShapeAcc(c: Config, w: Worker, closed: bool, a: AccAct)
    requires AccShape(c, w) && PredictorShape(w) && StrandShape(w) && AccEnabled(w, closed, a)
    ensures StrandShape(AccNext(c, w, closed, a))
  {
    AccFrame(c, w, closed, a);
  }

  ghost predicate StrandShapes(s: Sys) {
    forall i | 0 <= i < |s.workers| :: StrandShape(s.workers[i])
  }

  lemma StrandShapesStep(c: Config, s: Sys, a: Act)
    requires ValidConfig(c) && SysShape(c, s) && StrandShapes(s) && Enabled(c, s, a)
    ensures StrandShapes(Step(c, s, a))
  {
    forall i | 0 <= i < |Step(c, s, a).workers|
      ensures StrandShape(Step(c, s, a).workers[i])
    {
      assert |Step(c, s, a).workers| == |s.workers| by { WorkerAfter(c, s, a, 0); }
      WorkerAfter(c, s, a, i);
      if a.Work? && a.i == i {
        assert Shape(c, s.workers[i]) by { assert WorkerInv(c, s.workers[i]); }
        StrandShapeNext(c, s.workers[i], s.handles == {}, CanceledIds(s), a.a);
      }
    }
  }

  lemma {:induction false} StrandShapesAlong(c: Config, t: Trace, k: nat)
    requires ValidConfig(c) && IsRun(c, t) && Initial(t.states[0]) && k < |t.states|
    ensures StrandShapes(t.states[k])
  {
    if k > 0 {
      StrandShapesAlong(c, t, k - 1);
      KeptAlong(c, t, k - 1);
      StrandShapesStep(c, t.states[k - 1], t.acts[k - 1]);
    }
  }

  // ---- What becomes of its callers ----

  /** A caller awaits the reply to a request in a job channel nobody receives from. */
  predicate Stuck(s: Sys, id: nat) {
    && id in s.callers && s.callers[id].pc.Awaiting? && s.callers[id].home.At?
    && var i := s.callers[id].home.worker;
       i < |s.workers| && Stranded(s.workers[i]) && Request(id, s.callers[id].input) in Flat(s.workers[i].slot)
  }

  lemma StuckHasNoReply(c: Config, s: Sys, id: nat, outcome: Outcome)
    requires Kept(c, s) && Stuck(s, id)
    ensures !Resolved(s, id, outcome)
  {
    var i := s.callers[id].home.worker;
    var w := s.workers[i];
    var r := Request(id, s.callers[id].input);
    assert Count(w.accepted, r) == 1 by { assert QueuedWith(s, r, i); }
    assert ConservedAt(w, r) by { assert WorkerInv(c, w); }
    CountMember(Flat(w.slot), r);
    if Resolved(s, id, outcome) {
      ResolvedCounts(w, Resolution(r, outcome));
    }
  }

  lemma StuckWorkerStays(c: Config, w: Worker, canceled: set<nat>, a: WorkerAct)
    requires StrandShape(w) && Stranded(w) && !w.acc.Exiting? && WorkerEnabled(c, w, false, a)
    ensures Stranded(WorkerNext(c, w, false, canceled, a)) && WorkerNext(c, w, false, canceled, a).slot == w.slot
  {
  }

  // Somebody else's step leaves an awaiting caller where it is.
  lemma AwaitingStays(c: Config, s: Sys, a: Act, id: nat)
    requires WaitList(s) && CallersShape(s) && |s.workers| >= 1 && Enabled(c, s, a)
    requires id in s.callers && s.callers[id].pc.Awaiting? && !(a.Receive? && a.id == id) && a != Cancel(id)
    ensures id in Step(c, s, a).callers && Nudged(s.callers[id], Step(c, s, a).callers[id])
  {
    StepFrame(c, s, a);
  }

  lemma StuckSlotStays(c: Config, s: Sys, a: Act, id: nat)
    requires SysShape(c, s) && StrandShapes(s) && Stuck(s, id) && Enabled(c, s, a)
    ensures var (i, s') := (s.callers[id].home.worker, Step(c, s, a));
            i < |s'.workers| && Stranded(s'.workers[i]) && s'.workers[i].slot == s.workers[i].slot
  {
    var i := s.callers[id].home.worker;
    InFlightKeepsOpen(c, s, id, i);
    WorkerAfter(c, s, a, i);
    if a.Work? && a.i == i {
      StuckWorkerStays(c, s.workers[i], CanceledIds(s), a.a);
    }
  }

  /** No step answers a stuck caller, whoever takes it; only the caller can give up. */
  lemma StuckStep(c: Config, s: Sys, a: Act, id: nat)
    requires ValidConfig(c) && Kept(c, s) && StrandShapes(s) && Stuck(s, id) && Enabled(c, s, a) && a != Cancel(id)
    ensures Stuck(Step(c, s, a), id)
  {
    if a.Receive? && a.id == id {
      StuckHasNoReply(c, s, id, a.outcome);
    }
    AwaitingStays(c, s, a, id);
    StuckSlotStays(c, s, a, id);
  }

  /** For ever: from the late send on, whatever happens, a caller of the batch is still waiting
      unless it has given up. */
  lemma {:induction false} StuckForEver(c: Config, t: Trace, j: nat, k: nat, id: nat)
    requires ValidConfig(c) && IsRun(c, t) && Initial(t.states[0]) && j <= k < |t.states|
    requires Stuck(t.states[j], id) && forall n | j <= n < k :: t.acts[n] != Cancel(id)
    ensures Stuck(t.states[k], id)
  {
    if j < k {
      StuckForEver(c, t, j, k - 1, id);
      KeptAlong(c, t, k - 1);
      StrandShapesAlong(c, t, k - 1);
      StuckStep(c, t.states[k - 1], t.acts[k - 1], id);
    }
  }

  // ---- Without a late send ----

  predicate SendsLate(s: Sys, a: Act) {
    a.Work? && a.i < |s.workers| && LateSend(s.workers[a.i], a.a)
  }

  ghost predicate NoneStranded(s: Sys) {
    forall i | 0 <= i < |s.workers| :: !Stranded(s.workers[i])
  }

  lemma NoneStrandedStep(c: Config, s: Sys, a: Act)
    requires ValidConfig(c) && SysShape(c, s) && NoneStranded(s) && Enabled(c, s, a) && !SendsLate(s, a)
    ensures NoneStranded(Step(c, s, a))
  {
    forall i | 0 <= i < |Step(c, s, a).workers|
      ensures !Stranded(Step(c, s, a).workers[i])
    {
      assert |Step(c, s, a).workers| == |s.workers| by { WorkerAfter(c, s, a, 0); }
      WorkerAfter(c, s, a, i);
      if a.Work? && a.i == i {
        assert Shape(c, s.workers[i]) by { assert WorkerInv(c, s.workers[i]); }
        StrandedExactlyByLateSend(c, s.workers[i], s.handles == {}, CanceledIds(s), a.a);
      }
    }
  }

  ghost predicate NoLateSend(t: Trace)
    requires |t.states| == |t.acts| + 1
  {
    forall k | 0 <= k < |t.acts| :: !SendsLate(t.states[k], t.acts[k])
  }

  ghost predicate NeverLate(states: nat -> Sys, acts: nat -> Act) {
    forall n: nat :: !SendsLate(states(n), acts(n))
  }

  lemma {:induction false} NoneStrandedAlong(c: Config, t: Trace, k: nat)
    requires ValidConfig(c) && IsRun(c, t) && Initial(t.states[0]) && NoLateSend(t) && k < |t.states|
    ensures NoneStranded(t.states[k])
  {
    if k > 0 {
      NoneStrandedAlong(c, t, k - 1);
      KeptAlong(c, t, k - 1);
      NoneStrandedStep(c, t.states[k - 1], t.acts[k - 1]);
    }
  }

  lemma {:induction false} StaysUnstranded(c: Config, states: nat -> Sys, acts: nat -> Act, n: nat)
    requires ValidConfig(c) && Unattended(c, states, acts) && NeverLate(states, acts)
    requires Kept(c, states(0)) && NoneStranded(states(0))
    ensures Kept(c, states(n)) && NoneStranded(states(n))
  {
    if n > 0 {
      StaysUnstranded(c, states, acts, n - 1);
      assert Moves(c, states(n - 1), acts(n - 1), states(n - 1 + 1));
      if !Quiet(c, states(n - 1)) {
        KeptStep(c, states(n - 1), acts(n - 1));
        NoneStrandedStep(c, states(n - 1), acts(n - 1));
      }
    }
  }

  /** Panics, rebuilds and deaths included: if no batch is sent late and no drain overlaps the end
      of a rebuild, every call is over once the system has come to rest. */
  lemma EverybodyIsAnsweredUnless(c: Config, t: Trace, states: nat -> Sys, acts: nat -> Act)
    requires ValidConfig(c) && IsRun(c, t) && Initial(t.states[0]) && NoOverlappedDrain(t) && NoLateSend(t)
    requires states(0) == t.states[|t.acts|] && Unattended(c, states, acts)
    requires NeverOverlapped(states, acts) && NeverLate(states, acts)
    ensures exists m :: Quiet(c, states(m)) && forall id | id in states(m).callers :: Over(states(m).callers[id])
  {
    KeptAlong(c, t, |t.acts|);
    NoneStrandedAlong(c, t, |t.acts|);
    forall n: nat
      ensures NoneStranded(states(n))
    {
      StaysUnstranded(c, states, acts, n);
    }
    EveryCallerIsAnswered(c, t, states, acts);
  }
}

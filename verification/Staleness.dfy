/** The walks that can leave a parked caller short: those that end with every queue found full while
    a slot is free. Some worker dequeued a request after this very pass had looked at it. */
module Staleness {
  import opened Worker
  import opened System
  import opened SystemShape
  import opened PanicFree
  import opened Accounting
  import opened Walks
  import Router

  /** Step `m` takes a request off the queue of worker `i`. */
  predicate Dequeues(t: Trace, m: nat, i: nat) {
    m < |t.acts| && m < |t.states| && i < |t.states[m].workers|
    && t.acts[m] == Work(i, Acc(AccRecv)) && t.states[m].workers[i].chan != []
  }

  /** Worker `i` is among the first `probes` of the walk. */
  predicate Probed(start: nat, probes: nat, n: nat, i: nat)
    requires n > 0
  {
    probes > 0 && (Router.Ring(start, probes - 1, n) == i || Probed(start, probes - 1, n, i))
  }

  lemma {:induction false} ProbedByThen(start: nat, j: nat, probes: nat, n: nat)
    requires n > 0 && j < probes
    ensures Probed(start, probes, n, Router.Ring(start, j, n))
  {
    if j < probes - 1 {
      ProbedByThen(start, j, probes - 1, n);
    }
  }

  /** A whole pass has probed every worker. */
  lemma AllProbed(start: nat, n: nat, i: nat)
    requires i < n
    ensures Probed(start, n, n, i)
  {
    Router.RingVisitsEachOnce(start, n, i);
    var j :| 0 <= j < n && Router.Ring(start, j, n) == i;
    ProbedByThen(start, j, n, n);
  }

  /** The caller is in its second pass, and has looked at worker `i` in it. */
  predicate Behind(t: Trace, m: nat, id: nat, i: nat) {
    Walking(t, m, id) && |t.states[m].workers| > 0
    && var scan := ScanAt(t, m, id);
       !scan.primary && Probed(scan.start, scan.probes, |t.states[m].workers|, i)
  }

  /** A request was taken off the queue of worker `i`, since `b`, behind the caller's back. */
  ghost predicate MissedDequeue(t: Trace, b: nat, k: nat, id: nat, i: nat) {
    exists m :: b <= m < k && Dequeues(t, m, i) && Behind(t, m, id, i)
  }

  ghost predicate SeenFull(c: Config, t: Trace, b: nat, k: nat, id: nat, i: nat)
    requires k < |t.states| && i < |t.states[k].workers|
  {
    |t.states[k].workers[i].chan| >= c.queueSize || MissedDequeue(t, b, k, id, i)
  }

  /** What a second pass has seen. */
  ghost predicate PassFull(c: Config, t: Trace, b: nat, k: nat, id: nat)
    requires Walking(t, k, id) && |t.states[k].workers| > 0
  {
    var (n, scan) := (|t.states[k].workers|, ScanAt(t, k, id));
    !scan.primary ==> FullSoFar(c, t, b, k, id, scan.start, scan.probes)
  }

  ghost predicate FullSoFar(c: Config, t: Trace, b: nat, k: nat, id: nat, start: nat, probes: nat)
    requires k < |t.states| && |t.states[k].workers| > 0
  {
    forall i | 0 <= i < |t.states[k].workers| && Probed(start, probes, |t.states[k].workers|, i) :: SeenFull(c, t, b, k, id, i)
  }

  // Only a dequeue shortens the queue of a healthy worker that is open.
  lemma QueueNext(c: Config, w: Worker, closed: bool, canceled: set<nat>, a: WorkerAct)
    requires Healthy(w) && !w.acc.Exiting? && WorkerEnabled(c, w, closed, a)
    ensures |WorkerNext(c, w, closed, canceled, a).chan| < |w.chan| ==> a == Acc(AccRecv) && w.chan != []
  {
    if a.Run? {
      WorkerShape.RunFrame(c, w, canceled, a.run);
    }
  }

  lemma QueueStep(c: Config, s: Sys, a: Act, i: nat, id: nat)
    requires Calm(c, s) && Enabled(c, s, a) && i < |s.workers| && id in s.callers && InFlight(s.callers[id])
    ensures |Step(c, s, a).workers| == |s.workers|
    ensures |Step(c, s, a).workers[i].chan| < |s.workers[i].chan| ==> a == Work(i, Acc(AccRecv)) && s.workers[i].chan != []
  {
    WorkerAfter(c, s, a, i);
    assert CallerShape(|s.workers|, s.handles, s.callers[id]);
    if a.Work? && a.i == i {
      QueueNext(c, s.workers[i], s.handles == {}, CanceledIds(s), a.a);
    }
  }

  lemma SeenFullStays(c: Config, t: Trace, b: nat, k: nat, id: nat, i: nat)
    requires IsRun(c, t) && b <= k < |t.acts| && Calm(c, t.states[k]) && i < |t.states[k].workers|
    requires SeenFull(c, t, b, k, id, i) && Behind(t, k, id, i)
    ensures i < |t.states[k + 1].workers| && SeenFull(c, t, b, k + 1, id, i)
  {
    QueueStep(c, t.states[k], t.acts[k], i, id);
    if MissedDequeue(t, b, k, id, i) {
      var m :| b <= m < k && Dequeues(t, m, i) && Behind(t, m, id, i);
      assert MissedDequeue(t, b, k + 1, id, i);
    } else if |t.states[k + 1].workers[i].chan| < c.queueSize {
      assert Dequeues(t, k, i);
      assert MissedDequeue(t, b, k + 1, id, i);
    }
  }

  lemma FullStays(c: Config, t: Trace, b: nat, k: nat, id: nat)
    requires IsRun(c, t) && b <= k < |t.acts| && Calm(c, t.states[k])
    requires Walking(t, k, id) && !ScanAt(t, k, id).primary && PassFull(c, t, b, k, id)
    ensures |t.states[k + 1].workers| == |t.states[k].workers|
    ensures FullSoFar(c, t, b, k + 1, id, ScanAt(t, k, id).start, ScanAt(t, k, id).probes)
  {
    var (n, scan) := (|t.states[k].workers|, ScanAt(t, k, id));
    PoolKeepsSize(c, t.states[k], t.acts[k]);
    forall i | 0 <= i < n && Probed(scan.start, scan.probes, n, i)
      ensures SeenFull(c, t, b, k + 1, id, i)
    {
      SeenFullStays(c, t, b, k, id, i);
    }
  }

  // A probe more has seen one queue more.
  lemma FullWithOwn(c: Config, t: Trace, b: nat, k: nat, id: nat, start: nat, probes: nat)
    requires k < |t.states| && |t.states[k].workers| > 0 && FullSoFar(c, t, b, k, id, start, probes)
    requires |t.states[k].workers[Router.Ring(start, probes, |t.states[k].workers|)].chan| >= c.queueSize
    ensures FullSoFar(c, t, b, k, id, start, probes + 1)
  {
  }

  lemma OwnFullStep(c: Config, t: Trace, b: nat, k: nat, id: nat)
    requires IsRun(c, t) && b <= k < |t.acts| && Calm(c, t.states[k])
    requires Walking(t, k, id) && Walking(t, k + 1, id) && PassFull(c, t, b, k, id)
    requires t.acts[k].Probe? && t.acts[k].id == id
    ensures |t.states[k + 1].workers| > 0 && PassFull(c, t, b, k + 1, id)
  {
    var (s, scan) := (t.states[k], ScanAt(t, k, id));
    OwnProbe(c, s, id, t.acts[k].early);
    HealthyProbe(c, s, id, t.acts[k].early);
    PoolKeepsSize(c, s, t.acts[k]);
    if !scan.primary {
      FullStays(c, t, b, k, id);
      QueueStep(c, s, t.acts[k], Sink(s, scan), id);
      if scan.stage == TrySend {
        FullWithOwn(c, t, b, k + 1, id, scan.start, scan.probes);
      }
    }
  }

  lemma OthersFullStep(c: Config, t: Trace, b: nat, k: nat, id: nat)
    requires IsRun(c, t) && b <= k < |t.acts| && Calm(c, t.states[k])
    requires Walking(t, k, id) && Walking(t, k + 1, id) && PassFull(c, t, b, k, id)
    requires !(t.acts[k].Probe? && t.acts[k].id == id)
    ensures |t.states[k + 1].workers| > 0 && PassFull(c, t, b, k + 1, id)
  {
    OthersKeepScan(c, t.states[k], t.acts[k], id);
    if !ScanAt(t, k, id).primary {
      FullStays(c, t, b, k, id);
    }
  }

  lemma CalmOnly(c: Config, t: Trace, k: nat)
    requires ValidConfig(c) && IsRun(c, t) && Initial(t.states[0]) && NoPanic(t) && k < |t.states|
    ensures Calm(c, t.states[k]) && |t.states[k].workers| > 0
  {
    CalmAlong(c, t, k);
  }

  lemma {:induction false} PassFullAlong(c: Config, t: Trace, b: nat, k: nat, id: nat)
    requires ValidConfig(c) && IsRun(c, t) && Initial(t.states[0]) && NoPanic(t) && k < |t.states| && OnWalk(t, b, k, id)
    ensures Walking(t, k, id) && |t.states[k].workers| > 0 && PassFull(c, t, b, k, id)
    decreases k
  {
    CalmOnly(c, t, k);
    if b < k {
      OneStepEarlier(t, b, k, id);
      CalmOnly(c, t, k - 1);
      PassFullAlong(c, t, b, k - 1, id);
      if t.acts[k - 1].Probe? && t.acts[k - 1].id == id {
        OwnFullStep(c, t, b, k - 1, id);
      } else {
        OthersFullStep(c, t, b, k - 1, id);
      }
    }
  }

  /** A walk that ends with every queue found full while the pool has a free slot has missed a
      dequeue: at a worker this pass had already looked at, between that look and its end. */
  lemma StaleWalkMissedDequeue(c: Config, t: Trace, b: nat, k: nat, id: nat)
    requires ValidConfig(c) && IsRun(c, t) && Initial(t.states[0]) && NoPanic(t) && k < |t.acts| && OnWalk(t, b, k, id)
    requires t.acts[k].Probe? && t.acts[k].id == id && EndsWalk(c, t.states[k], t.acts[k])
    requires OccupiedAll(t.states[k].workers) < Slots(c, t.states[k])
    ensures exists i :: 0 <= i < |t.states[k].workers| && MissedDequeue(t, b, k, id, i)
  {
    var (s, scan) := (t.states[k], ScanAt(t, k, id));
    PassFullAlong(c, t, b, k, id);
    assert |s.workers[Sink(s, scan)].chan| >= c.queueSize by {
      CalmOnly(c, t, k);
      HealthyProbe(c, s, id, t.acts[k].early);
    }
    SomeHasRoom(s.workers, c.queueSize);
    var i :| 0 <= i < |s.workers| && Occupied(s.workers[i]) < c.queueSize;
    FullEverywhere(c, t, b, k, id, i);
  }

  lemma FullEverywhere(c: Config, t: Trace, b: nat, k: nat, id: nat, i: nat)
    requires Walking(t, k, id) && i < |t.states[k].workers| && PassFull(c, t, b, k, id)
    requires var (s, scan) := (t.states[k], ScanAt(t, k, id));
             !scan.primary && scan.probes + 1 == |s.workers| && |s.workers[Sink(s, scan)].chan| >= c.queueSize
    ensures SeenFull(c, t, b, k, id, i)
  {
    var scan := ScanAt(t, k, id);
    FullWithOwn(c, t, b, k, id, scan.start, scan.probes);
    AllProbed(scan.start, |t.states[k].workers|, i);
  }

  /** Hence no walk leaves anybody short unless a worker has dequeued a request behind its back. */
  lemma ShortOnlyBehindItsBack(c: Config, t: Trace, k: nat, held: bool)
    requires ValidConfig(c) && IsRun(c, t) && Initial(t.states[0]) && NoPanic(t) && k < |t.acts|
    requires Balanced(c, t.states[k], held) && LeavesShort(c, t.states[k], t.acts[k], held)
    ensures t.acts[k].Probe?
    ensures exists b, i :: OnWalk(t, b, k, t.acts[k].id) && MissedDequeue(t, b, k, t.acts[k].id, i)
  {
    CalmAlong(c, t, k);
    ShortMeansStale(c, t.states[k], t.acts[k], held);
    WalkBegan(c, t, k, t.acts[k].id);
    var b :| OnWalk(t, b, k, t.acts[k].id);
    StaleWalkMissedDequeue(c, t, b, k, t.acts[k].id);
  }
}

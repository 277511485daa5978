/** When a caller is told that no worker is left although one is: exactly when that worker's rebuild
    has ended between the caller's two looks at it. */
module Denial {
  import opened StatusWord
  import opened Worker
  import opened WorkerShape
  import opened WorkerInvariant
  import opened System
  import opened SystemShape
  import opened Custody
  import opened Wakeup
  import opened Walks
  import Router

  /** Step `m` stores Alive for worker `i`: its rebuild ends. */
  predicate EndsRebuild(t: Trace, m: nat, i: nat) {
    m < |t.acts| && m < |t.states| && i < |t.states[m].workers|
    && t.acts[m] == Work(i, Run(RunGo)) && t.states[m].workers[i].run.StoreAlive?
  }

  /** Step `m` stores Dead for worker `i`. */
  predicate Dies(t: Trace, m: nat, i: nat) {
    m < |t.acts| && m < |t.states| && i < |t.states[m].workers|
    && t.acts[m] == Work(i, Run(RunGo)) && t.states[m].workers[i].run.StoreDead?
  }

  /** In state `m` the caller has had its first look at worker `i` in the second pass, and not its
      second. */
  predicate BetweenLooks(t: Trace, m: nat, id: nat, i: nat) {
    Walking(t, m, id) && |t.states[m].workers| > 0
    && ScanAt(t, m, id).stage == LoadRebuilding && Sink(t.states[m], ScanAt(t, m, id)) == i
  }

  /** The rebuild of worker `i` has ended, since `b`, between the caller's two looks at it. */
  ghost predicate MissedRebuild(t: Trace, b: nat, k: nat, id: nat, i: nat) {
    exists m :: b <= m < k && EndsRebuild(t, m, i) && BetweenLooks(t, m, id, i)
  }

  /** As far as the caller can know, worker `i` is gone. */
  ghost predicate SeenGone(t: Trace, b: nat, k: nat, id: nat, i: nat)
    requires k < |t.states| && i < |t.states[k].workers|
  {
    t.states[k].workers[i].predictor == Dead || MissedRebuild(t, b, k, id, i)
  }

  /** What a second pass without hope has seen. */
  ghost predicate PassSeen(t: Trace, b: nat, k: nat, id: nat)
    requires Walking(t, k, id) && |t.states[k].workers| > 0
  {
    var (s, scan) := (t.states[k], ScanAt(t, k, id));
    !scan.primary && !scan.hope ==>
      && (forall j | 0 <= j < scan.probes :: SeenGone(t, b, k, id, Router.Ring(scan.start, j, |s.workers|)))
      && (scan.stage == LoadRebuilding ==>
            s.workers[Sink(s, scan)].predictor == Rebuilding || SeenGone(t, b, k, id, Sink(s, scan)))
  }

  /** What a worker's step does to its predictor: death is for good, and only the end of a rebuild
      leaves Rebuilding for Alive. */
  ghost predicate Turns(w: Worker, mine: bool, a: WorkerAct, w': Worker) {
    && (w.predictor == Dead ==> w'.predictor == Dead)
    && (w.predictor != Dead && w'.predictor == Dead <==> mine && a == Run(RunGo) && w.run.StoreDead?)
    && (w.predictor == Rebuilding && w'.predictor == Alive ==> mine && a == Run(RunGo) && w.run.StoreAlive?)
    && (mine && a == Run(RunGo) && w.run.StoreAlive? ==> w'.predictor == Alive)
  }

  lemma PredictorNext(c: Config, w: Worker, closed: bool, canceled: set<nat>, a: WorkerAct)
    requires PredictorShape(w) && WorkerEnabled(c, w, closed, a)
    ensures Turns(w, true, a, WorkerNext(c, w, closed, canceled, a))
  {
    if a.Acc? {
      AccFrame(c, w, closed, a.acc);
    }
  }

  lemma PredictorStep(c: Config, s: Sys, a: Act, i: nat)
    requires ValidConfig(c) && SysShape(c, s) && Enabled(c, s, a) && i < |s.workers|
    ensures |Step(c, s, a).workers| == |s.workers|
    ensures Turns(s.workers[i], a.Work? && a.i == i, if a.Work? then a.a else Run(RunGo), Step(c, s, a).workers[i])
  {
    WorkerAfter(c, s, a, i);
    if a.Work? && a.i == i {
      assert PredictorShape(s.workers[i]) by { assert WorkerInv(c, s.workers[i]); }
      PredictorNext(c, s.workers[i], s.handles == {}, CanceledIds(s), a.a);
    }
  }

  /** What has been seen stays seen. */
  lemma SeenGoneStays(c: Config, t: Trace, b: nat, k: nat, id: nat, i: nat)
    requires ValidConfig(c) && IsRun(c, t) && k < |t.acts| && SysShape(c, t.states[k]) && i < |t.states[k].workers|
    requires SeenGone(t, b, k, id, i)
    ensures i < |t.states[k + 1].workers| && SeenGone(t, b, k + 1, id, i)
  {
    PredictorStep(c, t.states[k], t.acts[k], i);
    if MissedRebuild(t, b, k, id, i) {
      var m :| b <= m < k && EndsRebuild(t, m, i) && BetweenLooks(t, m, id, i);
      assert MissedRebuild(t, b, k + 1, id, i);
    }
  }

  /** Between the looks a worker that was being rebuilt still is, or is dead, or its rebuild has been
      missed. */
  lemma LooksStay(c: Config, t: Trace, b: nat, k: nat, id: nat)
    requires ValidConfig(c) && IsRun(c, t) && b <= k < |t.acts| && SysShape(c, t.states[k]) && Walking(t, k, id)
    requires ScanAt(t, k, id).stage == LoadRebuilding
    requires var (s, scan) := (t.states[k], ScanAt(t, k, id));
             s.workers[Sink(s, scan)].predictor == Rebuilding || SeenGone(t, b, k, id, Sink(s, scan))
    ensures var (i, s') := (Sink(t.states[k], ScanAt(t, k, id)), t.states[k + 1]);
            i < |s'.workers| && (s'.workers[i].predictor == Rebuilding || SeenGone(t, b, k + 1, id, i))
  {
    var i := Sink(t.states[k], ScanAt(t, k, id));
    PredictorStep(c, t.states[k], t.acts[k], i);
    if SeenGone(t, b, k, id, i) {
      SeenGoneStays(c, t, b, k, id, i);
    } else if t.states[k + 1].workers[i].predictor == Alive {
      assert EndsRebuild(t, k, i) && BetweenLooks(t, k, id, i);
      assert MissedRebuild(t, b, k + 1, id, i);
    }
  }

  /** A look that finds a worker not live finds its predictor not alive. */
  lemma FirstLook(c: Config, s: Sys, id: nat, i: nat)
    requires Ground(s) && id in s.callers && InFlight(s.callers[id]) && i < |s.workers| && !Ready(c, s.workers[i], false)
    ensures s.workers[i].predictor != Alive
  {
    assert Shut(s.workers[i]) ==> s.workers[i].predictor == Dead;
  }

  /** A probe without hope that is over has seen its worker gone. */
  lemma ProbeOver(c: Config, t: Trace, b: nat, k: nat, id: nat, early: bool)
    requires ValidConfig(c) && IsRun(c, t) && k < |t.acts| && SysShape(c, t.states[k]) && t.acts[k] == Probe(id, early)
    requires Walking(t, k, id) && PassSeen(t, b, k, id) && !Sends(c, t.states[k], id, early)
    requires var (s, scan) := (t.states[k], ScanAt(t, k, id));
             var w := s.workers[Sink(s, scan)];
             !Stays(c, w, scan) && !Judged(c, w, scan, early).primary && !Judged(c, w, scan, early).hope
    ensures !ScanAt(t, k, id).primary && !ScanAt(t, k, id).hope
    ensures SeenGone(t, b, k, id, Sink(t.states[k], ScanAt(t, k, id)))
  {
    var s := t.states[k];
    ShapeIsGround(c, s);
    assert InFlight(s.callers[id]);
    assert Shut(s.workers[Sink(s, ScanAt(t, k, id))]) ==> s.workers[Sink(s, ScanAt(t, k, id))].predictor == Dead;
  }

  lemma SeenUpTo(c: Config, t: Trace, b: nat, k: nat, id: nat, n: nat, start: nat, probes: nat)
    requires ValidConfig(c) && IsRun(c, t) && k < |t.acts| && SysShape(c, t.states[k]) && n == |t.states[k].workers| > 0
    requires forall j | 0 <= j < probes :: SeenGone(t, b, k, id, Router.Ring(start, j, n))
    ensures |t.states[k + 1].workers| == n
    ensures forall j | 0 <= j < probes :: SeenGone(t, b, k + 1, id, Router.Ring(start, j, n))
  {
    PredictorStep(c, t.states[k], t.acts[k], 0);
    forall j | 0 <= j < probes
      ensures SeenGone(t, b, k + 1, id, Router.Ring(start, j, n))
    {
      SeenGoneStays(c, t, b, k, id, Router.Ring(start, j, n));
    }
  }

  // The probe goes on with the same worker.
  lemma StayingPassStep(c: Config, t: Trace, b: nat, k: nat, id: nat)
    requires ValidConfig(c) && IsRun(c, t) && b <= k < |t.acts| && SysShape(c, t.states[k])
    requires Walking(t, k, id) && Walking(t, k + 1, id) && PassSeen(t, b, k, id) && t.states[k + 1].workers == t.states[k].workers
    requires var (s, scan) := (t.states[k], ScanAt(t, k, id));
             var w := s.workers[Sink(s, scan)];
             Stays(c, w, scan) && ScanAt(t, k + 1, id) == scan.(stage := if Ready(c, w, scan.primary) then TrySend else LoadRebuilding)
    ensures PassSeen(t, b, k + 1, id)
  {
    var (s, scan) := (t.states[k], ScanAt(t, k, id));
    if !scan.primary && !scan.hope {
      SeenUpTo(c, t, b, k, id, |s.workers|, scan.start, scan.probes);
      if !Ready(c, s.workers[Sink(s, scan)], false) {
        ShapeIsGround(c, s);
        FirstLook(c, s, id, Sink(s, scan));
      }
    }
  }

  /** Once a probe is over without hope, all workers up to its own have been seen gone. */
  lemma SeenWithOwn(c: Config, t: Trace, b: nat, k: nat, id: nat, early: bool)
    requires ValidConfig(c) && IsRun(c, t) && k < |t.acts| && SysShape(c, t.states[k]) && t.acts[k] == Probe(id, early)
    requires Walking(t, k, id) && PassSeen(t, b, k, id) && !Sends(c, t.states[k], id, early)
    requires var (s, scan) := (t.states[k], ScanAt(t, k, id));
             var w := s.workers[Sink(s, scan)];
             !Stays(c, w, scan) && !Judged(c, w, scan, early).primary && !Judged(c, w, scan, early).hope
    ensures var scan := ScanAt(t, k, id);
            forall j | 0 <= j < scan.probes + 1 :: SeenGone(t, b, k, id, Router.Ring(scan.start, j, |t.states[k].workers|))
  {
    ProbeOver(c, t, b, k, id, early);
    OwnSeen(t, b, k, id);
  }

  lemma OwnSeen(t: Trace, b: nat, k: nat, id: nat)
    requires Walking(t, k, id) && |t.states[k].workers| > 0 && PassSeen(t, b, k, id)
    requires !ScanAt(t, k, id).primary && !ScanAt(t, k, id).hope && SeenGone(t, b, k, id, Sink(t.states[k], ScanAt(t, k, id)))
    ensures var scan := ScanAt(t, k, id);
            forall j | 0 <= j < scan.probes + 1 :: SeenGone(t, b, k, id, Router.Ring(scan.start, j, |t.states[k].workers|))
  {
  }

  // A new probe knows what the last one has seen.
  lemma NextPassSeen(t: Trace, b: nat, k: nat, id: nat, after: Scan)
    requires Walking(t, k, id) && |t.states[k].workers| > 0 && ScanAt(t, k, id) == NextScan(|t.states[k].workers|, after)
    requires after.probes + 1 < |t.states[k].workers| || after.primary
    requires !after.primary && !after.hope ==>
               forall j | 0 <= j < after.probes + 1 :: SeenGone(t, b, k, id, Router.Ring(after.start, j, |t.states[k].workers|))
    ensures PassSeen(t, b, k, id)
  {
  }

  // The probe is over.
  lemma JudgedPassStep(c: Config, t: Trace, b: nat, k: nat, id: nat, early: bool)
    requires ValidConfig(c) && IsRun(c, t) && b <= k < |t.acts| && SysShape(c, t.states[k]) && t.acts[k] == Probe(id, early)
    requires Walking(t, k, id) && PassSeen(t, b, k, id) && !Sends(c, t.states[k], id, early)
    requires !Stays(c, t.states[k].workers[Sink(t.states[k], ScanAt(t, k, id))], ScanAt(t, k, id))
    ensures |t.states[k + 1].workers| == |t.states[k].workers|
    ensures var (s, scan) := (t.states[k], ScanAt(t, k, id));
            var after := Judged(c, s.workers[Sink(s, scan)], scan, early);
            !after.primary && !after.hope ==>
              forall j | 0 <= j < after.probes + 1 :: SeenGone(t, b, k + 1, id, Router.Ring(after.start, j, |s.workers|))
  {
    var (s, scan) := (t.states[k], ScanAt(t, k, id));
    var after := Judged(c, s.workers[Sink(s, scan)], scan, early);
    PredictorStep(c, s, t.acts[k], 0);
    if !after.primary && !after.hope {
      SeenWithOwn(c, t, b, k, id, early);
      SeenUpTo(c, t, b, k, id, |s.workers|, scan.start, scan.probes + 1);
    }
  }

  lemma OwnPassStep(c: Config, t: Trace, b: nat, k: nat, id: nat)
    requires ValidConfig(c) && IsRun(c, t) && b <= k < |t.acts| && SysShape(c, t.states[k])
    requires Walking(t, k, id) && Walking(t, k + 1, id) && PassSeen(t, b, k, id)
    requires t.acts[k].Probe? && t.acts[k].id == id
    ensures |t.states[k + 1].workers| > 0 && PassSeen(t, b, k + 1, id)
  {
    var (s, scan) := (t.states[k], ScanAt(t, k, id));
    OwnProbe(c, s, id, t.acts[k].early);
    assert t.states[k + 1].workers == s.workers by { ProbeStays(c, s, id, t.acts[k].early); }
    if Stays(c, s.workers[Sink(s, scan)], scan) {
      StayingPassStep(c, t, b, k, id);
    } else {
      JudgedPassStep(c, t, b, k, id, t.acts[k].early);
      NextPassSeen(t, b, k + 1, id, Judged(c, s.workers[Sink(s, scan)], scan, t.acts[k].early));
    }
  }

  lemma OthersPassStep(c: Config, t: Trace, b: nat, k: nat, id: nat)
    requires ValidConfig(c) && IsRun(c, t) && b <= k < |t.acts| && SysShape(c, t.states[k])
    requires Walking(t, k, id) && Walking(t, k + 1, id) && PassSeen(t, b, k, id)
    requires !(t.acts[k].Probe? && t.acts[k].id == id)
    ensures |t.states[k + 1].workers| > 0 && PassSeen(t, b, k + 1, id)
  {
    var (s, a, scan) := (t.states[k], t.acts[k], ScanAt(t, k, id));
    OthersKeepScan(c, s, a, id);
    if !scan.primary && !scan.hope {
      SeenUpTo(c, t, b, k, id, |s.workers|, scan.start, scan.probes);
      if scan.stage == LoadRebuilding {
        LooksStay(c, t, b, k, id);
      }
    }
  }

  lemma {:induction false} PassSeenAlong(c: Config, t: Trace, b: nat, k: nat, id: nat)
    requires ValidConfig(c) && IsRun(c, t) && Initial(t.states[0]) && k < |t.states| && OnWalk(t, b, k, id)
    ensures SysShape(c, t.states[k]) && |t.states[k].workers| > 0 && PassSeen(t, b, k, id)
    decreases k
  {
    KeptAlong(c, t, k);
    if b < k {
      OneStepEarlier(t, b, k, id);
      PassSeenAlong(c, t, b, k - 1, id);
      if t.acts[k - 1].Probe? && t.acts[k - 1].id == id {
        OwnPassStep(c, t, b, k - 1, id);
      } else {
        OthersPassStep(c, t, b, k - 1, id);
      }
    }
  }

  /** Step `k` tells the caller that no worker is left. */
  predicate Denies(t: Trace, k: nat, id: nat) {
    k + 1 < |t.states| && k < |t.acts| && t.acts[k].Probe? && t.acts[k].id == id
    && id in t.states[k + 1].callers && t.states[k + 1].callers[id].pc == Done(NoAvailableWorkersError)
  }

  /** It is the last probe of a second pass without hope. */
  lemma DenialIs(c: Config, s: Sys, id: nat, early: bool)
    requires Ground(s) && Enabled(c, s, Probe(id, early)) && id in Step(c, s, Probe(id, early)).callers
    requires Step(c, s, Probe(id, early)).callers[id].pc == Done(NoAvailableWorkersError)
    ensures var scan := s.callers[id].pc.scan;
            var w := s.workers[Sink(s, scan)];
            && !Sends(c, s, id, early) && !Stays(c, w, scan)
            && !Judged(c, w, scan, early).primary && !Judged(c, w, scan, early).hope && scan.probes + 1 == |s.workers|
  {
    assert CallerShape(|s.workers|, s.handles, s.callers[id]);
    if Sends(c, s, id, early) {
      ProbeSends(c, s, id, early);
    }
    ProbeCases(c, s, id, early);
    AdvanceDenies(s, id, Judged(c, s.workers[Sink(s, s.callers[id].pc.scan)], s.callers[id].pc.scan, early));
  }

  lemma DenialSeen(c: Config, t: Trace, b: nat, k: nat, id: nat, i: nat)
    requires ValidConfig(c) && IsRun(c, t) && Initial(t.states[0]) && k < |t.acts| && OnWalk(t, b, k, id) && Denies(t, k, id)
    requires i < |t.states[k].workers|
    ensures SeenGone(t, b, k, id, i)
  {
    var early := t.acts[k].early;
    PassSeenAlong(c, t, b, k, id);
    assert Ground(t.states[k]) by { ShapeIsGround(c, t.states[k]); }
    DenialIs(c, t.states[k], id, early);
    SeenWithOwn(c, t, b, k, id, early);
    OnRing(t, b, k, id, i);
  }

  lemma OnRing(t: Trace, b: nat, k: nat, id: nat, i: nat)
    requires Walking(t, k, id) && i < |t.states[k].workers| && ScanAt(t, k, id).probes + 1 == |t.states[k].workers|
    requires var scan := ScanAt(t, k, id);
             forall j | 0 <= j < scan.probes + 1 :: SeenGone(t, b, k, id, Router.Ring(scan.start, j, |t.states[k].workers|))
    ensures SeenGone(t, b, k, id, i)
  {
    Router.RingVisitsEachOnce(ScanAt(t, k, id).start, |t.states[k].workers|, i);
  }

  /** The rebuild of worker `i` has ended between the caller's two looks at it, and the worker has
      not died since. */
  ghost predicate MissedAlive(t: Trace, b: nat, k: nat, id: nat, i: nat) {
    exists m :: b <= m < k && EndsRebuild(t, m, i) && BetweenLooks(t, m, id, i) && forall d | m < d < k :: !Dies(t, d, i)
  }

  lemma {:induction false} NotDeadUntil(c: Config, t: Trace, m: nat, k: nat, i: nat)
    requires ValidConfig(c) && IsRun(c, t) && Initial(t.states[0]) && m < k < |t.states| && EndsRebuild(t, m, i)
    requires forall d | m < d < k :: !Dies(t, d, i)
    ensures i < |t.states[k].workers| && t.states[k].workers[i].predictor != Dead
    decreases k
  {
    KeptAlong(c, t, k - 1);
    if m < k - 1 {
      NotDeadUntil(c, t, m, k - 1, i);
      assert !Dies(t, k - 1, i);
    }
    PredictorStep(c, t.states[k - 1], t.acts[k - 1], i);
  }

  lemma {:induction false} DeadSince(c: Config, t: Trace, d: nat, k: nat, i: nat)
    requires ValidConfig(c) && IsRun(c, t) && Initial(t.states[0]) && d < k < |t.states| && Dies(t, d, i)
    ensures i < |t.states[k].workers| && t.states[k].workers[i].predictor == Dead
    decreases k
  {
    KeptAlong(c, t, k - 1);
    if d < k - 1 {
      DeadSince(c, t, d, k - 1, i);
    } else {
      assert PredictorShape(t.states[d].workers[i]) by { assert WorkerInv(c, t.states[d].workers[i]); }
    }
    PredictorStep(c, t.states[k - 1], t.acts[k - 1], i);
  }

  /** For any caller, registered or not, waiting or failing fast, in any run and any pool: when it is
      told that no worker is left, a worker is not dead if and only if its rebuild has ended between
      the two looks of this very walk at it, and it has not died since. */
  lemma DeniedAliveExactlyWhenMissed(c: Config, t: Trace, b: nat, k: nat, id: nat, i: nat)
    requires ValidConfig(c) && IsRun(c, t) && Initial(t.states[0]) && k < |t.acts| && OnWalk(t, b, k, id) && Denies(t, k, id)
    requires i < |t.states[k].workers|
    ensures t.states[k].workers[i].predictor != Dead <==> MissedAlive(t, b, k, id, i)
  {
    DenialSeen(c, t, b, k, id, i);
    if MissedAlive(t, b, k, id, i) {
      var m :| b <= m < k && EndsRebuild(t, m, i) && BetweenLooks(t, m, id, i) && forall d | m < d < k :: !Dies(t, d, i);
      NotDeadUntil(c, t, m, k, i);
    } else if t.states[k].workers[i].predictor != Dead {
      var m :| b <= m < k && EndsRebuild(t, m, i) && BetweenLooks(t, m, id, i);
      var d :| m < d < k && Dies(t, d, i);
      DeadSince(c, t, d, k, i);
    }
  }

  /** So the answer is true, all workers having died, exactly if no such rebuild was missed. */
  lemma DenialIsTrueExactly(c: Config, t: Trace, b: nat, k: nat, id: nat)
    requires ValidConfig(c) && IsRun(c, t) && Initial(t.states[0]) && k < |t.acts| && OnWalk(t, b, k, id) && Denies(t, k, id)
    ensures (forall i | 0 <= i < |t.states[k].workers| :: t.states[k].workers[i].predictor == Dead)
            <==> forall i | 0 <= i < |t.states[k].workers| :: !MissedAlive(t, b, k, id, i)
  {
    forall i | 0 <= i < |t.states[k].workers|
      ensures t.states[k].workers[i].predictor == Dead <==> !MissedAlive(t, b, k, id, i)
    {
      DeniedAliveExactlyWhenMissed(c, t, b, k, id, i);
    }
  }
}

/** One caller's walk over the pool as a stretch of a run: where it began, and how its scan moves on
    while everybody else moves as well. */
module Walks {
  import opened Worker
  import opened System
  import opened SystemShape
  import opened Custody
  import opened Wakeup

  /** The caller is on its walk in state `m`. */
  predicate Walking(t: Trace, m: nat, id: nat) {
    m < |t.states| && id in t.states[m].callers && t.states[m].callers[id].pc.Scanning?
  }

  function ScanAt(t: Trace, m: nat, id: nat): Scan
    requires Walking(t, m, id)
  {
    t.states[m].callers[id].pc.scan
  }

  /** Its walk began in state `b` and is still going on in state `k`. */
  ghost predicate OnWalk(t: Trace, b: nat, k: nat, id: nat) {
    && b <= k && (forall m | b <= m <= k :: Walking(t, m, id))
    && ScanAt(t, b, id) == StartScan(|t.states[b].workers|, ScanAt(t, b, id).start)
  }

  /** The next worker of the pass, or the first of the second pass. */
  function NextScan(n: nat, scan: Scan): Scan {
    if scan.probes + 1 < n then scan.(stage := LoadState, probes := scan.probes + 1)
    else scan.(stage := LoadState, probes := 0, primary := false)
  }

  /** How its own probe changes the scan of a caller that walks on. */
  ghost predicate ScanStep(c: Config, s: Sys, early: bool, scan: Scan, scan': Scan)
    requires |s.workers| > 0
  {
    var w := s.workers[Sink(s, scan)];
    if Stays(c, w, scan) then
      scan' == scan.(stage := if Ready(c, w, scan.primary) then TrySend else LoadRebuilding)
    else
      var after := Judged(c, w, scan, early);
      (after.probes + 1 < |s.workers| || after.primary) && scan' == NextScan(|s.workers|, after)
  }

  lemma AdvanceScan(s: Sys, id: nat, scan: Scan)
    requires WaitList(s) && id in s.callers && |s.workers| > 0
    ensures WaitersKnown(s) && id in Advance(s, id, scan).callers
    ensures var pc := Advance(s, id, scan).callers[id].pc;
            pc.Scanning? ==> (scan.probes + 1 < |s.workers| || scan.primary) && pc.scan == NextScan(|s.workers|, scan)
  {
    if scan.probes + 1 >= |s.workers| && !scan.primary {
      LeaveKeeps(s, id, Done(NoAvailableWorkersError));
      LeaveKeeps(s, id, Done(QueueFullError));
    }
  }

  lemma OwnProbe(c: Config, s: Sys, id: nat, early: bool)
    requires WaitList(s) && CallersShape(s) && |s.workers| > 0 && Enabled(c, s, Probe(id, early))
    requires var s' := Step(c, s, Probe(id, early)); id in s'.callers && s'.callers[id].pc.Scanning?
    ensures !Sends(c, s, id, early)
    ensures ScanStep(c, s, early, s.callers[id].pc.scan, Step(c, s, Probe(id, early)).callers[id].pc.scan)
  {
    var scan := s.callers[id].pc.scan;
    if Sends(c, s, id, early) {
      ProbeSends(c, s, id, early);
    }
    ProbeCases(c, s, id, early);
    AdvanceScan(s, id, Judged(c, s.workers[Sink(s, scan)], scan, early));
  }

  /** Somebody else's step leaves the scan where it is. */
  lemma OthersKeepScan(c: Config, s: Sys, a: Act, id: nat)
    requires WaitList(s) && CallersShape(s) && |s.workers| > 0 && Enabled(c, s, a)
    requires id in s.callers && s.callers[id].pc.Scanning? && !(a.Probe? && a.id == id)
    ensures |Step(c, s, a).workers| == |s.workers|
    ensures id in Step(c, s, a).callers && Step(c, s, a).callers[id].pc == s.callers[id].pc
  {
    WorkerAfter(c, s, a, 0);
    match a {
      case Work(i, wa) => WorkKeeps(c, s, i, wa);
      case CloneHandle(_, _) =>
      case DropHandle(_) =>
      case _ =>
        assert a.id != id;
        assert OthersKept(s, Step(c, s, a), a.id) by { ActorKeeps(c, s, a, a.id); }
    }
  }

  lemma OneStepEarlier(t: Trace, b: nat, k: nat, id: nat)
    requires OnWalk(t, b, k, id) && b < k
    ensures OnWalk(t, b, k - 1, id) && Walking(t, k - 1, id) && Walking(t, k, id)
  {
  }

  /** A walk that was not on before starts at its beginning. */
  lemma WalkStarts(c: Config, s: Sys, a: Act, id: nat)
    requires WaitList(s) && CallersShape(s) && |s.workers| > 0 && Enabled(c, s, a)
    requires !(id in s.callers && s.callers[id].pc.Scanning?)
    requires id in Step(c, s, a).callers && Step(c, s, a).callers[id].pc.Scanning?
    ensures var scan := Step(c, s, a).callers[id].pc.scan;
            |Step(c, s, a).workers| == |s.workers| && scan == StartScan(|s.workers|, scan.start)
  {
    StepFrame(c, s, a);
    assert IsActor(a, id);
    match a {
      case Receive(_, outcome) => LeaveKeeps(s, id, Done(Replied(outcome)));
      case Cancel(_) => LeaveKeeps(s, id, Canceled);
      case _ =>
    }
  }

  lemma OneStepLater(t: Trace, b: nat, k: nat, id: nat)
    requires OnWalk(t, b, k, id) && Walking(t, k + 1, id)
    ensures OnWalk(t, b, k + 1, id)
  {
  }

  /** What a walk takes for granted. */
  lemma LinesAlong(c: Config, t: Trace, k: nat)
    requires ValidConfig(c) && IsRun(c, t) && Initial(t.states[0]) && k < |t.states|
    ensures WaitList(t.states[k]) && CallersShape(t.states[k]) && |t.states[k].workers| > 0
  {
    KeptAlong(c, t, k);
  }

  /** Every walk has a beginning. */
  lemma {:induction false} WalkBegan(c: Config, t: Trace, k: nat, id: nat)
    requires ValidConfig(c) && IsRun(c, t) && Initial(t.states[0]) && Walking(t, k, id)
    ensures exists b :: OnWalk(t, b, k, id)
  {
    LinesAlong(c, t, k - 1);
    if Walking(t, k - 1, id) {
      WalkBegan(c, t, k - 1, id);
      var b :| OnWalk(t, b, k - 1, id);
      OneStepLater(t, b, k - 1, id);
    } else {
      WalkStarts(c, t.states[k - 1], t.acts[k - 1], id);
      assert OnWalk(t, k, k, id);
    }
  }
}

/** What a caller is told that no worker has taken: for any caller and any interleaving, it depends
    exactly on what the looks of the second pass of this very walk have found. */
module Refusal {
  import opened StatusWord
  import opened Worker
  import opened System
  import opened SystemShape
  import opened Custody
  import opened Wakeup
  import opened Walks
  import B = Batchinf
  import Router

  /** Step `m` is a look of the caller's second pass at the worker its ticket and its probes name, and
      finds an open queue full, or the predictor being rebuilt. */
  predicate FindsHope(c: Config, t: Trace, m: nat, id: nat) {
    && m < |t.acts| && Walking(t, m, id) && |t.states[m].workers| > 0
    && t.acts[m].Probe? && t.acts[m].id == id
    && var scan := ScanAt(t, m, id);
       var w := t.states[m].workers[Sink(t.states[m], scan)];
       !scan.primary &&
       match scan.stage
       case LoadState => false
       case TrySend => !w.acc.AccGone? && !(t.acts[m].early && w.status in {Exit, Crashed}) && |w.chan| >= c.queueSize
       case LoadRebuilding => w.predictor == Rebuilding
  }

  ghost predicate FoundHope(c: Config, t: Trace, b: nat, k: nat, id: nat) {
    exists m: nat :: b <= m < k && FindsHope(c, t, m, id)
  }

  lemma FoundHopeStep(c: Config, t: Trace, b: nat, k: nat, id: nat)
    requires b <= k
    ensures FoundHope(c, t, b, k + 1, id) <==> FoundHope(c, t, b, k, id) || FindsHope(c, t, k, id)
  {
    if FoundHope(c, t, b, k, id) {
      var m: nat :| b <= m < k && FindsHope(c, t, m, id);
      assert b <= m < k + 1;
    }
  }

  /** What one own probe that places nothing adds to the hope of a walk. */
  lemma LookAdds(c: Config, t: Trace, k: nat, id: nat)
    requires IsRun(c, t) && k < |t.acts| && Walking(t, k, id) && |t.states[k].workers| > 0
    requires t.acts[k].Probe? && t.acts[k].id == id && !Sends(c, t.states[k], id, t.acts[k].early)
    requires ScanShape(|t.states[k].workers|, ScanAt(t, k, id))
    ensures var (scan, early) := (ScanAt(t, k, id), t.acts[k].early);
            var w := t.states[k].workers[Sink(t.states[k], scan)];
            && (Stays(c, w, scan) ==> !FindsHope(c, t, k, id))
            && (!Stays(c, w, scan) ==> (Judged(c, w, scan, early).hope <==> scan.hope || FindsHope(c, t, k, id)))
  {
  }

  lemma HopeStep(c: Config, t: Trace, k: nat, id: nat)
    requires ValidConfig(c) && IsRun(c, t) && Initial(t.states[0]) && k < |t.acts| && Walking(t, k, id) && Walking(t, k + 1, id)
    ensures ScanAt(t, k + 1, id).hope <==> ScanAt(t, k, id).hope || FindsHope(c, t, k, id)
  {
    var s := t.states[k];
    LinesAlong(c, t, k);
    assert CallerShape(|s.workers|, s.handles, s.callers[id]);
    if t.acts[k].Probe? && t.acts[k].id == id {
      OwnProbe(c, s, id, t.acts[k].early);
      LookAdds(c, t, k, id);
    } else {
      OthersKeepScan(c, s, t.acts[k], id);
    }
  }

  lemma {:induction false} HopeAlong(c: Config, t: Trace, b: nat, k: nat, id: nat)
    requires ValidConfig(c) && IsRun(c, t) && Initial(t.states[0]) && k < |t.states| && OnWalk(t, b, k, id)
    ensures ScanAt(t, k, id).hope <==> FoundHope(c, t, b, k, id)
    decreases k
  {
    if b < k {
      OneStepEarlier(t, b, k, id);
      HopeAlong(c, t, b, k - 1, id);
      HopeStep(c, t, k - 1, id);
      FoundHopeStep(c, t, b, k - 1, id);
    }
  }

  /** Step `k` ends the caller's walk without placing its request. */
  predicate TurnsAway(t: Trace, k: nat, id: nat) {
    && k < |t.acts| && k + 1 < |t.states| && t.acts[k].Probe? && t.acts[k].id == id && id in t.states[k + 1].callers
    && !t.states[k + 1].callers[id].pc.Scanning? && !t.states[k + 1].callers[id].pc.Awaiting?
  }

  // The last probe of a walk that places nothing.
  lemma LastProbe(c: Config, s: Sys, id: nat, early: bool)
    requires WaitList(s) && CallersShape(s) && |s.workers| > 0 && Enabled(c, s, Probe(id, early))
    requires var s' := Step(c, s, Probe(id, early)); id in s'.callers && !s'.callers[id].pc.Scanning? && !s'.callers[id].pc.Awaiting?
    ensures !Sends(c, s, id, early)
    ensures var (k, k') := (s.callers[id], Step(c, s, Probe(id, early)).callers[id]);
            var w := s.workers[Sink(s, k.pc.scan)];
            !Stays(c, w, k.pc.scan)
            && k'.pc == B.TurnedAway(k.mode, k.node != NoNode, Judged(c, w, k.pc.scan, early).hope)
  {
    if Sends(c, s, id, early) {
      ProbeSends(c, s, id, early);
    }
    ProbeCases(c, s, id, early);
    B.AdvancePc(s, id, Judged(c, s.workers[Sink(s, s.callers[id].pc.scan)], s.callers[id].pc.scan, early));
  }

  /** A walk that places nothing ends with NoAvailableWorkersError exactly if none of the looks of its
      second pass has found an open queue full or a rebuild; if one has, a caller that does not wait is
      told QueueFullError, and one that does waits for room. */
  lemma TurnedAwayAsFound(c: Config, t: Trace, b: nat, k: nat, id: nat)
    requires ValidConfig(c) && IsRun(c, t) && Initial(t.states[0]) && OnWalk(t, b, k, id) && TurnsAway(t, k, id)
    ensures var (mode, pc) := (t.states[k].callers[id].mode, t.states[k + 1].callers[id].pc);
            if exists m: nat :: b <= m <= k && FindsHope(c, t, m, id)
            then if mode == FailsFast then pc == Done(QueueFullError) else pc.Registering? || pc.Parked?
            else pc == Done(NoAvailableWorkersError)
  {
    var s := t.states[k];
    LinesAlong(c, t, k);
    assert CallerShape(|s.workers|, s.handles, s.callers[id]);
    LastProbe(c, s, id, t.acts[k].early);
    LookAdds(c, t, k, id);
    HopeAlong(c, t, b, k, id);
    FoundHopeStep(c, t, b, k, id);
    assert FoundHope(c, t, b, k + 1, id) <==> exists m: nat :: b <= m <= k && FindsHope(c, t, m, id);
  }
}

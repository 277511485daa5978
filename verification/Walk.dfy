/** A caller's walk over the pool, when nobody else moves meanwhile, does what the router is proved
    to do for a fixed pool. */
module Walk {
  import opened StatusWord
  import opened Worker
  import opened System
  import R = Router

  /** What the router sees of a worker. */
  function Look(c: Config, w: Worker): R.View<Request> {
    R.View(w.status, w.predictor, w.len, c.batchSize, w.chan, c.queueSize, w.acc.AccGone?)
  }

  function Views(c: Config, s: Sys): (views: seq<R.View<Request>>) {
    seq(|s.workers|, i requires 0 <= i < |s.workers| => Look(c, s.workers[i]))
  }

  /** The caller's next `n` steps, as long as it is on its walk. */
  function After(c: Config, s: Sys, id: nat, n: nat): Sys
    decreases n
  {
    if n > 0 && Enabled(c, s, Probe(id, true)) then After(c, Step(c, s, Probe(id, true)), id, n - 1) else s
  }

  /** Left alone, the caller gets there. */
  ghost predicate LeadsTo(c: Config, s: Sys, id: nat, s': Sys) {
    exists n: nat :: LeadsIn(c, s, id, n, s')
  }

  ghost predicate LeadsIn(c: Config, s: Sys, id: nat, n: nat, s': Sys) {
    After(c, s, id, n) == s'
  }

  lemma {:induction false} AfterSum(c: Config, s: Sys, id: nat, m: nat, n: nat)
    ensures After(c, After(c, s, id, m), id, n) == After(c, s, id, m + n)
    decreases m
  {
    if m > 0 && Enabled(c, s, Probe(id, true)) {
      AfterSum(c, Step(c, s, Probe(id, true)), id, m - 1, n);
    } else if m > 0 {
      assert After(c, s, id, n) == s;
    }
  }

  lemma LeadsOn(c: Config, s: Sys, id: nat, s1: Sys, s2: Sys)
    requires LeadsTo(c, s, id, s1) && LeadsTo(c, s1, id, s2)
    ensures LeadsTo(c, s, id, s2)
  {
    var m: nat :| LeadsIn(c, s, id, m, s1);
    var n: nat :| LeadsIn(c, s1, id, n, s2);
    AfterSum(c, s, id, m, n);
    assert LeadsIn(c, s, id, m + n, s2);
  }

  /** A walk has one end. */
  lemma OneEnd(c: Config, s: Sys, id: nat, s1: Sys, s2: Sys)
    requires LeadsTo(c, s, id, s1) && !Enabled(c, s1, Probe(id, true))
    requires LeadsTo(c, s, id, s2) && !Enabled(c, s2, Probe(id, true))
    ensures s1 == s2
  {
    var m: nat :| LeadsIn(c, s, id, m, s1);
    var n: nat :| LeadsIn(c, s, id, n, s2);
    if m <= n {
      AfterSum(c, s, id, m, n - m);
    } else {
      AfterSum(c, s, id, n, m - n);
    }
  }

  lemma OneStep(c: Config, s: Sys, id: nat)
    requires Enabled(c, s, Probe(id, true))
    ensures LeadsTo(c, s, id, Step(c, s, Probe(id, true)))
  {
    assert After(c, Step(c, s, Probe(id, true)), id, 0) == Step(c, s, Probe(id, true));
    assert LeadsIn(c, s, id, 1, Step(c, s, Probe(id, true)));
  }

  // ---- One probe ----

  /** The caller at this point of its walk. */
  function On(s: Sys, id: nat, scan: Scan): Sys
    requires id in s.callers
  {
    SetCaller(s, id, s.callers[id].(pc := Scanning(scan)))
  }

  function Queued(s: Sys, id: nat, i: nat): Sys
    requires id in s.callers && i < |s.workers|
  {
    var k := s.callers[id];
    SetCaller(SetWorker(s, i, PushRequest(s.workers[i], Request(id, k.input))), id,
              k.(pc := Awaiting, home := At(i), woken := false))
  }

  function Found(c: Config, s: Sys, scan: Scan): R.View<Request>
    requires |s.workers| > 0
  {
    Look(c, s.workers[Sink(s, scan)])
  }

  lemma OnTwice(s: Sys, id: nat, scan: Scan, next: Scan)
    requires WaitersKnown(s) && id in s.callers
    ensures On(On(s, id, scan), id, next) == On(s, id, next)
    ensures WaitersKnown(On(s, id, scan))
  {
    var s1 := On(s, id, scan);
    assert s1.callers[id := s.callers[id].(pc := Scanning(next))] == s.callers[id := s.callers[id].(pc := Scanning(next))];
  }

  lemma AdvanceOn(s: Sys, id: nat, scan: Scan, next: Scan)
    requires WaitersKnown(s) && id in s.callers && |s.workers| > 0
    ensures WaitersKnown(On(s, id, scan)) && Advance(On(s, id, scan), id, next) == Advance(s, id, next)
  {
    var s1 := On(s, id, scan);
    assert forall k: Caller {:trigger s.callers[id := k]} :: s1.callers[id := k] == s.callers[id := k];
  }

  lemma QueuedOn(s: Sys, id: nat, scan: Scan, i: nat)
    requires id in s.callers && i < |s.workers|
    ensures Queued(On(s, id, scan), id, i) == Queued(s, id, i)
  {
    var k := s.callers[id].(pc := Awaiting, home := At(i), woken := false);
    assert On(s, id, scan).callers[id := k] == s.callers[id := k];
  }

  /** A probe puts the request in the queue if the router would, and otherwise goes on with what the
      router would have learned. */
  lemma ProbeWhole(c: Config, s: Sys, id: nat, scan: Scan)
    requires WaitersKnown(s) && id in s.callers && |s.workers| > 0 && scan.stage == LoadState
    ensures var v := Found(c, s, scan);
            LeadsTo(c, On(s, id, scan), id,
                    if R.Takes(v, scan.primary) then Queued(s, id, Sink(s, scan))
                    else Advance(s, id, scan.(hope := scan.hope || (!scan.primary && R.HasHope(v)))))
  {
    var s0 := On(s, id, scan);
    var w := s.workers[Sink(s, scan)];
    OneStep(c, s0, id);
    AdvanceOn(s, id, scan, scan);
    if Ready(c, w, scan.primary) {
      ProbeReady(c, s, id, scan);
    } else if !scan.primary {
      ProbeNotReady(c, s, id, scan);
    }
  }

  lemma ProbeReady(c: Config, s: Sys, id: nat, scan: Scan)
    requires WaitersKnown(s) && id in s.callers && |s.workers| > 0 && scan.stage == LoadState
    requires Ready(c, s.workers[Sink(s, scan)], scan.primary)
    ensures var v := Found(c, s, scan);
            LeadsTo(c, On(s, id, scan), id,
                    if R.Takes(v, scan.primary) then Queued(s, id, Sink(s, scan))
                    else Advance(s, id, scan.(hope := scan.hope || (!scan.primary && R.HasHope(v)))))
  {
    var s0 := On(s, id, scan);
    var next := scan.(stage := TrySend);
    var s1 := On(s, id, next);
    var w := s.workers[Sink(s, scan)];
    OneStep(c, s0, id);
    OnTwice(s, id, scan, next);
    OneStep(c, s1, id);
    QueuedOn(s, id, next, Sink(s, scan));
    var after := if R.IsOpen(Look(c, w)) then next.(hope := scan.hope || !scan.primary) else next;
    AdvanceOn(s, id, next, after);
    assert Advance(s, id, after) == Advance(s, id, after.(stage := LoadState));
    LeadsOn(c, s0, id, s1, Step(c, s1, Probe(id, true)));
  }

  lemma ProbeNotReady(c: Config, s: Sys, id: nat, scan: Scan)
    requires WaitersKnown(s) && id in s.callers && |s.workers| > 0 && scan.stage == LoadState && !scan.primary
    requires !Ready(c, s.workers[Sink(s, scan)], false)
    ensures LeadsTo(c, On(s, id, scan), id, Advance(s, id, scan.(hope := scan.hope || R.HasHope(Found(c, s, scan)))))
  {
    var s0 := On(s, id, scan);
    var next := scan.(stage := LoadRebuilding);
    var s1 := On(s, id, next);
    OneStep(c, s0, id);
    OnTwice(s, id, scan, next);
    OneStep(c, s1, id);
    var after := next.(hope := scan.hope || R.HasHope(Found(c, s, scan)));
    AdvanceOn(s, id, next, after);
    assert Advance(s, id, after) == Advance(s, id, after.(stage := LoadState));
    LeadsOn(c, s0, id, s1, Step(c, s1, Probe(id, true)));
  }

  // ---- A pass, and the whole walk ----

  /** Where the caller is once its second pass has found no room. */
  function Refusal(s: Sys, id: nat, hope: bool): Sys
    requires WaitersKnown(s) && id in s.callers
  {
    var k := s.callers[id];
    if !hope then Leave(s, id, Done(NoAvailableWorkersError))
    else if k.mode == FailsFast then Leave(s, id, Done(QueueFullError))
    else SetCaller(s, id, k.(pc := if k.node == NoNode then Registering else Parked, woken := false))
  }

  // A probe that finds no room, with others to come in the same pass.
  lemma GoesOn(c: Config, s: Sys, id: nat, scan: Scan)
    requires WaitersKnown(s) && id in s.callers && scan.probes + 1 < |s.workers| && scan.stage == LoadState
    requires !R.Takes(Found(c, s, scan), scan.primary)
    ensures LeadsTo(c, On(s, id, scan), id,
                    On(s, id, scan.(probes := scan.probes + 1, hope := scan.hope || (!scan.primary && R.HasHope(Found(c, s, scan))))))
  {
    ProbeWhole(c, s, id, scan);
  }

  // The last probe of a pass finds no room.
  lemma PassEnds(c: Config, s: Sys, id: nat, scan: Scan)
    requires WaitersKnown(s) && id in s.callers && scan.probes + 1 == |s.workers| && scan.stage == LoadState
    requires !R.Takes(Found(c, s, scan), scan.primary)
    ensures LeadsTo(c, On(s, id, scan), id,
                    if scan.primary then On(s, id, scan.(probes := 0, primary := false))
                    else Refusal(s, id, scan.hope || R.HasHope(Found(c, s, scan))))
  {
    ProbeWhole(c, s, id, scan);
  }

  lemma {:induction false} FirstPass(c: Config, s: Sys, id: nat, start: nat, k: nat)
    requires WaitersKnown(s) && id in s.callers && k < |s.workers|
    ensures var n := |s.workers|;
            var first := R.FirstProbe(Views(c, s), start, true, k);
            LeadsTo(c, On(s, id, Scan(start, k, true, LoadState, false)), id,
                    if first < n then Queued(s, id, R.Ring(start, first, n))
                    else On(s, id, Scan(start, 0, false, LoadState, false)))
    decreases |s.workers| - k
  {
    var n := |s.workers|;
    var scan := Scan(start, k, true, LoadState, false);
    assert Found(c, s, scan) == Views(c, s)[R.Ring(start, k, n)];
    if R.Takes(Found(c, s, scan), true) {
      ProbeWhole(c, s, id, scan);
    } else if k + 1 < n {
      GoesOn(c, s, id, scan);
      FirstPass(c, s, id, start, k + 1);
      var first := R.FirstProbe(Views(c, s), start, true, k + 1);
      LeadsOn(c, On(s, id, scan), id, On(s, id, scan.(probes := k + 1)),
              if first < n then Queued(s, id, R.Ring(start, first, n)) else On(s, id, Scan(start, 0, false, LoadState, false)));
    } else {
      PassEnds(c, s, id, scan);
    }
  }

  /** Where the second pass ends, from its `first` probe with room, if there is one. */
  function SecondEnd(s: Sys, id: nat, start: nat, first: nat, hope: bool): Sys
    requires WaitersKnown(s) && id in s.callers && |s.workers| > 0
  {
    if first < |s.workers| then Queued(s, id, R.Ring(start, first, |s.workers|)) else Refusal(s, id, hope)
  }

  lemma {:induction false} SecondPass(c: Config, s: Sys, views: seq<R.View<Request>>, id: nat, start: nat, k: nat)
    requires WaitersKnown(s) && id in s.callers && k < |s.workers| && views == Views(c, s)
    ensures LeadsTo(c, On(s, id, Scan(start, k, false, LoadState, R.HopeWithin(views, start, k))), id,
                    SecondEnd(s, id, start, R.FirstProbe(views, start, false, k), R.HopeWithin(views, start, |s.workers|)))
    decreases |s.workers| - k
  {
    var n := |s.workers|;
    var scan := Scan(start, k, false, LoadState, R.HopeWithin(views, start, k));
    assert Found(c, s, scan) == views[R.Ring(start, k, n)];
    if R.Takes(views[R.Ring(start, k, n)], false) {
      ProbeWhole(c, s, id, scan);
    } else if k + 1 < n {
      GoesOn(c, s, id, scan);
      SecondPass(c, s, views, id, start, k + 1);
      LeadsOn(c, On(s, id, scan), id, On(s, id, scan.(probes := k + 1, hope := R.HopeWithin(views, start, k + 1))),
              SecondEnd(s, id, start, R.FirstProbe(views, start, false, k + 1), R.HopeWithin(views, start, n)));
    } else {
      PassEnds(c, s, id, scan);
    }
  }

  /** The end of the walk, by the router's own account of where the request goes. */
  ghost function Routed(c: Config, s: Sys, id: nat, start: nat): Sys
    requires WaitersKnown(s) && id in s.callers && |s.workers| > 0
  {
    match R.RouteOf(Views(c, s), start)
    case To(i) => Queued(s, id, i)
    case Nowhere(error) => Refusal(s, id, error.QueueFullError?)
  }

  /** A walk that nobody disturbs ends exactly as one `try_push` on the same pool does: the request
      in the same queue, or the same error; the fast path of a pool of one included. */
  lemma WalkIsTryPush(c: Config, s: Sys, id: nat, start: nat)
    requires WaitersKnown(s) && id in s.callers && |s.workers| > 0
    ensures LeadsTo(c, On(s, id, StartScan(|s.workers|, start)), id, Routed(c, s, id, start))
  {
    var (n, views) := (|s.workers|, Views(c, s));
    SecondPass(c, s, views, id, start, 0);
    R.HopeWithinAll(views, start);
    if n == 1 {
      R.RoutedToOnly(views, start, Request(id, s.callers[id].input));
      assert R.Ring(start, 0, 1) == 0;
    } else {
      FirstPass(c, s, id, start, 0);
      var first := R.FirstProbe(views, start, true, 0);
      if first == n {
        LeadsOn(c, On(s, id, StartScan(n, start)), id, On(s, id, Scan(start, 0, false, LoadState, false)), Routed(c, s, id, start));
      }
    }
  }
}

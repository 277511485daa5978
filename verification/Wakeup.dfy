/** The wakeups `predict` relies on: while a caller is parked, something is still going to wake it,
    as long as no drain of a request channel overlaps the end of a rebuild. */
module Wakeup {
  import opened StatusWord
  import opened Worker
  import opened WorkerShape
  import opened WorkerInvariant
  import opened System
  import opened SystemShape
  import Router

  // ---- What can still wake somebody ----

  /** The inference thread owes a notify_waiters: it is rebuilding, or about to send it. */
  predicate WillWake(w: Worker) {
    w.predictor == Rebuilding || w.run.WakeAlive? || w.run.WakeDead?
  }

  /** A queued request whose dequeue will send a notify_one, unless a crash sends more. */
  predicate LiveQueue(w: Worker) {
    w.chan != [] && w.predictor != Dead
  }

  /** A request has been dequeued and its notify_one not been sent yet. */
  predicate Signals(w: Worker) {
    w.acc.SignalFirst? || w.acc.SignalNext?
  }

  predicate WorkerHope(w: Worker) {
    WillWake(w) || LiveQueue(w) || Signals(w)
  }

  /** A wakeup given to a caller that has not used it, or a caller about to try again. */
  predicate CallerHope(k: Caller) {
    k.node == NotifiedOne || k.pc.Registering? || (k.pc.Scanning? && k.node == Queued && !k.pc.scan.hope)
  }

  ghost predicate Hope(s: Sys) {
    || (exists i | 0 <= i < |s.workers| :: WorkerHope(s.workers[i]))
    || (exists id | id in s.callers :: CallerHope(s.callers[id]))
  }

  /** Parked and not notified, or bound to park unless notified before. */
  predicate Needy(k: Caller) {
    k.node == Queued && (k.pc.Parked? || (k.pc.Scanning? && k.pc.scan.hope))
  }

  ghost predicate NeedyHope(s: Sys) {
    forall id | id in s.callers && Needy(s.callers[id]) :: Hope(s)
  }

  // ---- Whether anybody is left to serve ----

  predicate Warm(w: Worker) {
    w.predictor != Dead || WillWake(w)
  }

  predicate Cold(w: Worker) {
    w.predictor == Dead || WillWake(w)
  }

  ghost predicate SomeWarm(s: Sys) {
    exists i | 0 <= i < |s.workers| :: Warm(s.workers[i])
  }

  /** Nobody is left waiting by dead predictors alone: one is not dead, or has yet to tell. */
  ghost predicate NeedyServed(s: Sys) {
    forall id | id in s.callers && Needy(s.callers[id]) :: SomeWarm(s)
  }

  // ---- What a walk has seen, while its caller has not been notified since ----

  ghost predicate WalkSeen(s: Sys, scan: Scan)
    requires |s.workers| > 0
  {
    && (scan.stage == TrySend ==> Warm(s.workers[Sink(s, scan)]))
    && (!scan.primary && !scan.hope ==>
          && (forall j | 0 <= j < scan.probes :: Cold(s.workers[Router.Ring(scan.start, j, |s.workers|)]))
          && (scan.stage == LoadRebuilding ==> Cold(s.workers[Sink(s, scan)])))
  }

  ghost predicate WalksSeen(s: Sys)
    requires |s.workers| > 0
  {
    forall id | id in s.callers && s.callers[id].pc.Scanning? && s.callers[id].node == Queued ::
      WalkSeen(s, s.callers[id].pc.scan)
  }

  /** What holds whatever is drained when. */
  ghost predicate Attended(s: Sys) {
    |s.workers| > 0 && WalksSeen(s) && NeedyServed(s)
  }

  /** A drain about to take a request, and send nobody a wakeup, while the predictor is alive. */
  predicate DrainsAlive(w: Worker) {
    (w.acc.DrainBuffer? || w.acc.DrainHanded?) && w.chan != [] && w.predictor == Alive
  }

  predicate OverlappedDrain(s: Sys, a: Act) {
    a.Work? && a.i < |s.workers| && a.a.Acc? && DrainsAlive(s.workers[a.i])
  }

  // ---- A worker's step ----

  predicate Wakes(w: Worker, a: WorkerAct) {
    (a.Acc? && Signals(w)) || (a.Run? && (w.run.WakeAlive? || w.run.WakeDead?))
  }

  /** Warmth and coldness outlast every step but a notify_waiters. */
  lemma WarmthOutlasts(c: Config, w: Worker, closed: bool, canceled: set<nat>, a: WorkerAct)
    requires PredictorShape(w) && WorkerEnabled(c, w, closed, a)
    requires !(a.Run? && (w.run.WakeAlive? || w.run.WakeDead?))
    ensures var w' := WorkerNext(c, w, closed, canceled, a);
            (Warm(w) ==> Warm(w')) && (Cold(w) ==> Cold(w'))
  {
    if a.Acc? {
      AccFrame(c, w, closed, a.acc);
    }
  }

  /** Hope outlasts every step that sends no wakeup, but for a shutdown and an overlapped drain. */
  lemma HopeOutlasts(c: Config, w: Worker, closed: bool, canceled: set<nat>, a: WorkerAct)
    requires Shape(c, w) && WorkerEnabled(c, w, closed, a) && !Wakes(w, a) && WorkerHope(w)
    requires a.Acc? ==> !w.acc.Exiting? && !DrainsAlive(w)
    ensures WorkerHope(WorkerNext(c, w, closed, canceled, a))
  {
    match a {
      case Acc(a) => AccFrame(c, w, closed, a);
      case Run(a) => RunFrame(c, w, canceled, a);
    }
  }

  // ---- What one step changes for the callers it is not about ----

  ghost predicate WarmthKept(s: Sys, s': Sys) {
    && |s'.workers| == |s.workers|
    && forall i | 0 <= i < |s.workers| ::
         (Warm(s.workers[i]) ==> Warm(s'.workers[i])) && (Cold(s.workers[i]) ==> Cold(s'.workers[i]))
  }

  lemma WalkSeenKept(s: Sys, s': Sys, scan: Scan)
    requires |s.workers| > 0 && WarmthKept(s, s') && WalkSeen(s, scan)
    ensures WalkSeen(s', scan)
  {
  }

  lemma SomeWarmKept(s: Sys, s': Sys)
    requires WarmthKept(s, s') && SomeWarm(s)
    ensures SomeWarm(s')
  {
    var i :| 0 <= i < |s.workers| && Warm(s.workers[i]);
    assert Warm(s'.workers[i]);
  }

  /** This caller's walk has seen what it should, and it is served if it is needy. */
  ghost predicate CallerServed(s: Sys, k: Caller)
    requires |s.workers| > 0
  {
    && (k.pc.Scanning? && k.node == Queued ==> WalkSeen(s, k.pc.scan))
    && (Needy(k) ==> SomeWarm(s))
  }

  lemma AttendedKept(s: Sys, s': Sys)
    requires Attended(s) && WarmthKept(s, s')
    requires forall id | id in s'.callers ::
               (id in s.callers && Nudged(s.callers[id], s'.callers[id])) || CallerServed(s', s'.callers[id])
    ensures Attended(s')
  {
    forall id | id in s'.callers
      ensures CallerServed(s', s'.callers[id])
    {
      var k' := s'.callers[id];
      if !CallerServed(s', k') && k'.node == Queued {
        assert s.callers[id] == k';
        if k'.pc.Scanning? {
          WalkSeenKept(s, s', k'.pc.scan);
        }
        SomeWarmKept(s, s');
      }
    }
  }

  // ---- A worker's step, seen by the callers ----

  ghost predicate NobodyQueued(s: Sys) {
    forall id | id in s.callers :: s.callers[id].node != Queued
  }

  lemma NotifyWaitersLeavesNone(s: Sys)
    requires WaitList(s)
    ensures NobodyQueued(NotifyWaiters(s))
  {
  }

  lemma NotifyOneHope(s: Sys)
    requires WaitList(s)
    ensures NobodyQueued(NotifyOne(s)) || Hope(NotifyOne(s))
  {
    if s.waiters != [] {
      assert CallerHope(NotifyOne(s).callers[s.waiters[0]]);
    }
  }

  // A worker's step comes in three kinds: it wakes one caller, wakes all, or touches none.
  function Stepped(c: Config, s: Sys, i: nat, a: WorkerAct): Sys
    requires Enabled(c, s, Work(i, a))
  {
    SetWorker(s, i, WorkerNext(c, s.workers[i], s.handles == {}, CanceledIds(s), a))
  }

  lemma WorkServes(c: Config, s: Sys, i: nat, a: WorkerAct)
    requires WaitList(s) && Attended(s) && Enabled(c, s, Work(i, a)) && PredictorShape(s.workers[i])
    ensures Attended(Step(c, s, Work(i, a)))
  {
    var s1 := Stepped(c, s, i, a);
    WorkKeeps(c, s, i, a);
    if a.Run? && (s.workers[i].run.WakeAlive? || s.workers[i].run.WakeDead?) {
      NotifyWaitersLeavesNone(s1);
    } else {
      WarmthOutlasts(c, s.workers[i], s.handles == {}, CanceledIds(s), a);
      AttendedKept(s, Step(c, s, Work(i, a)));
    }
  }

  // Somebody in flight holds a handle, so no worker is exiting.
  lemma InFlightKeepsOpen(c: Config, s: Sys, id: nat, i: nat)
    requires SysShape(c, s) && id in s.callers && InFlight(s.callers[id]) && i < |s.workers|
    ensures s.handles != {} && s.workers[i].status != Exit && !s.workers[i].acc.Exiting?
  {
    assert WorkerInv(c, s.workers[i]);
    assert CallerShape(|s.workers|, s.handles, s.callers[id]);
  }

  // Without a wakeup, whatever held hope goes on holding it.
  lemma QuietWorkKeepsHope(c: Config, s: Sys, i: nat, a: WorkerAct)
    requires Enabled(c, s, Work(i, a)) && Hope(s) && Shape(c, s.workers[i]) && !Wakes(s.workers[i], a)
    requires a.Acc? ==> !s.workers[i].acc.Exiting? && !DrainsAlive(s.workers[i])
    ensures Hope(Stepped(c, s, i, a))
  {
    var s' := Stepped(c, s, i, a);
    if k :| k in s.callers && CallerHope(s.callers[k]) {
      assert CallerHope(s'.callers[k]);
    } else {
      var j :| 0 <= j < |s.workers| && WorkerHope(s.workers[j]);
      if j == i {
        HopeOutlasts(c, s.workers[i], s.handles == {}, CanceledIds(s), a);
      }
      assert WorkerHope(s'.workers[j]);
    }
  }

  lemma WorkKeepsHope(c: Config, s: Sys, i: nat, a: WorkerAct)
    requires ValidConfig(c) && SysShape(c, s) && NeedyHope(s) && Enabled(c, s, Work(i, a)) && !OverlappedDrain(s, Work(i, a))
    ensures NeedyHope(Step(c, s, Work(i, a)))
  {
    var s' := Step(c, s, Work(i, a));
    var s1 := Stepped(c, s, i, a);
    WorkKeeps(c, s, i, a);
    assert WaitList(s1);
    if a.Acc? && Signals(s.workers[i]) {
      NotifyOneHope(s1);
    } else if Wakes(s.workers[i], a) {
      NotifyWaitersLeavesNone(s1);
    } else {
      forall id | id in s'.callers && Needy(s'.callers[id])
        ensures Hope(s')
      {
        InFlightKeepsOpen(c, s, id, i);
        assert WorkerInv(c, s.workers[i]);
        assert Needy(s.callers[id]);
        QuietWorkKeepsHope(c, s, i, a);
      }
    }
  }

  // ---- A probe ----

  /** An accumulator that has set Exit or Crashed, or is gone. */
  predicate Shut(w: Worker) {
    w.acc.AccGone? || w.status in {Exit, Crashed}
  }

  /** What the walks need of the rest of the state: while anybody is in flight, a worker that is
      shut has a dead predictor. */
  ghost predicate Ground(s: Sys) {
    && |s.workers| >= 1 && WaitList(s) && CallersShape(s)
    && forall id, i | id in s.callers && InFlight(s.callers[id]) && 0 <= i < |s.workers| && Shut(s.workers[i]) ::
         s.workers[i].predictor == Dead
  }

  lemma ShapeIsGround(c: Config, s: Sys)
    requires SysShape(c, s)
    ensures Ground(s)
  {
    forall id, i | id in s.callers && InFlight(s.callers[id]) && 0 <= i < |s.workers| && Shut(s.workers[i])
      ensures s.workers[i].predictor == Dead
    {
      InFlightKeepsOpen(c, s, id, i);
      assert WorkerInv(c, s.workers[i]);
    }
  }

  /** The probe goes on with the same worker. */
  predicate Stays(c: Config, w: Worker, scan: Scan) {
    scan.stage == LoadState && (Ready(c, w, scan.primary) || !scan.primary)
  }

  /** What the walk knows once this probe is over. */
  function Judged(c: Config, w: Worker, scan: Scan, early: bool): Scan {
    match scan.stage
    case LoadState => scan
    case TrySend =>
      if w.acc.AccGone? || (early && w.status in {Exit, Crashed}) then scan
      else scan.(hope := scan.hope || !scan.primary)
    case LoadRebuilding => scan.(hope := scan.hope || w.predictor == Rebuilding)
  }

  lemma ProbeCases(c: Config, s: Sys, id: nat, early: bool)
    requires Enabled(c, s, Probe(id, early)) && !Sends(c, s, id, early)
    ensures var k := s.callers[id];
            var (scan, w) := (k.pc.scan, s.workers[Sink(s, k.pc.scan)]);
            Step(c, s, Probe(id, early)) ==
            if Stays(c, w, scan) then
              SetCaller(s, id, k.(pc := Scanning(scan.(stage := if Ready(c, w, scan.primary) then TrySend else LoadRebuilding))))
            else Advance(s, id, Judged(c, w, scan, early))
  {
  }

  /** With hope, the probe has just seen a worker that is warm and will wake somebody; without it
      in the second pass, one that is cold. */
  ghost predicate Verdict(w: Worker, before: Scan, after: Scan) {
    && (after.hope && !before.hope ==> Warm(w) && WorkerHope(w))
    && (!after.primary && !after.hope ==> Cold(w))
  }

  lemma JudgedWell(c: Config, s: Sys, id: nat, early: bool)
    requires ValidConfig(c) && Ground(s) && Enabled(c, s, Probe(id, early)) && !Sends(c, s, id, early)
    requires WalkSeen(s, s.callers[id].pc.scan)
    ensures var scan := s.callers[id].pc.scan;
            var w := s.workers[Sink(s, scan)];
            !Stays(c, w, scan) ==> Verdict(w, scan, Judged(c, w, scan, early))
  {
    var scan := s.callers[id].pc.scan;
    assert InFlight(s.callers[id]);
    assert Shut(s.workers[Sink(s, scan)]) ==> s.workers[Sink(s, scan)].predictor == Dead;
  }

  // ---- What a walk has seen, step by step ----

  /** A probe over: with the worker just probed, everything up to it has been seen cold. */
  ghost predicate Probed(s: Sys, scan: Scan)
    requires |s.workers| > 0
  {
    !scan.primary && !scan.hope ==>
      forall j | 0 <= j <= scan.probes :: Cold(s.workers[Router.Ring(scan.start, j, |s.workers|)])
  }

  lemma AdvanceServed(s: Sys, id: nat, scan: Scan)
    requires WaitList(s) && CallersShape(s) && id in s.callers && s.callers[id].pc.Scanning?
    requires |s.workers| >= 1 && ScanShape(|s.workers|, scan)
    requires s.callers[id].node == Queued ==> Probed(s, scan) && (scan.hope ==> SomeWarm(s))
    ensures WaitersKnown(s)
    ensures CallerServed(Advance(s, id, scan), Advance(s, id, scan).callers[id])
  {
    AdvanceKeeps(s, id, scan);
    var s' := Advance(s, id, scan);
    if s'.callers[id].node == Queued && s'.callers[id].pc.Scanning? {
      assert WalkSeen(s, s'.callers[id].pc.scan);
    }
  }

  lemma StaysServed(c: Config, s: Sys, id: nat, early: bool)
    requires Ground(s) && Attended(s) && Enabled(c, s, Probe(id, early)) && !Sends(c, s, id, early)
    requires Stays(c, s.workers[Sink(s, s.callers[id].pc.scan)], s.callers[id].pc.scan)
    ensures var s' := Step(c, s, Probe(id, early));
            s'.workers == s.workers && id in s'.callers && CallerServed(s', s'.callers[id])
  {
    var k := s.callers[id];
    var w := s.workers[Sink(s, k.pc.scan)];
    var s' := Step(c, s, Probe(id, early));
    ProbeCases(c, s, id, early);
    assert InFlight(k);
    assert !Ready(c, w, false) ==> Cold(w);
    if k.node == Queued {
      assert WalkSeen(s, k.pc.scan);
      assert WalkSeen(s, s'.callers[id].pc.scan);
    }
  }

  lemma ProbedAll(c: Config, s: Sys, id: nat, early: bool)
    requires ValidConfig(c) && Ground(s) && Attended(s) && Enabled(c, s, Probe(id, early)) && !Sends(c, s, id, early)
    requires !Stays(c, s.workers[Sink(s, s.callers[id].pc.scan)], s.callers[id].pc.scan)
    requires s.callers[id].node == Queued
    ensures var scan := s.callers[id].pc.scan;
            var after := Judged(c, s.workers[Sink(s, scan)], scan, early);
            Probed(s, after) && (after.hope ==> SomeWarm(s))
  {
    var scan := s.callers[id].pc.scan;
    assert WalkSeen(s, scan);
    JudgedWell(c, s, id, early);
    assert scan.hope ==> Needy(s.callers[id]);
  }

  lemma ProbeServed(c: Config, s: Sys, id: nat, early: bool)
    requires ValidConfig(c) && Ground(s) && Attended(s) && Enabled(c, s, Probe(id, early)) && !Sends(c, s, id, early)
    ensures var s' := Step(c, s, Probe(id, early));
            s'.workers == s.workers && id in s'.callers && CallerServed(s', s'.callers[id])
  {
    var k := s.callers[id];
    var scan := k.pc.scan;
    var w := s.workers[Sink(s, scan)];
    if Stays(c, w, scan) {
      StaysServed(c, s, id, early);
    } else {
      ProbeCases(c, s, id, early);
      ProbeStays(c, s, id, early);
      assert CallerShape(|s.workers|, s.handles, k);
      if k.node == Queued {
        ProbedAll(c, s, id, early);
      }
      AdvanceServed(s, id, Judged(c, w, scan, early));
    }
  }

  lemma ActorServed(c: Config, s: Sys, a: Act, id: nat)
    requires ValidConfig(c) && Ground(s) && Attended(s) && Enabled(c, s, a) && IsActor(a, id)
    ensures var s' := Step(c, s, a);
            |s'.workers| == |s.workers| && id in s'.callers && CallerServed(s', s'.callers[id])
  {
    ActorKeeps(c, s, a, id);
    match a {
      case Probe(_, early) => if Sends(c, s, id, early) { ProbeSends(c, s, id, early); } else { ProbeServed(c, s, id, early); }
      case Receive(_, outcome) => LeaveKeeps(s, id, Done(Replied(outcome)));
      case Cancel(_) => LeaveKeeps(s, id, Canceled);
      case _ =>
    }
  }

  lemma StepKeepsWarmth(c: Config, s: Sys, a: Act)
    requires Ground(s) && Enabled(c, s, a) && !a.Work?
    ensures WarmthKept(s, Step(c, s, a))
  {
    StepFrame(c, s, a);
  }

  lemma OthersServed(c: Config, s: Sys, a: Act)
    requires ValidConfig(c) && Ground(s) && Attended(s) && Enabled(c, s, a) && !a.Work?
    ensures Attended(Step(c, s, a))
  {
    var s' := Step(c, s, a);
    StepKeepsWarmth(c, s, a);
    if a.CloneHandle? || a.DropHandle? {
      AttendedKept(s, s');
    } else {
      assert OthersKept(s, s', a.id) by { ActorKeeps(c, s, a, a.id); }
      ActorServed(c, s, a, a.id);
      AttendedKept(s, s');
    }
  }

  /** What dead predictors can take from nobody is kept by every step. */
  lemma AttendedStep(c: Config, s: Sys, a: Act)
    requires ValidConfig(c) && SysShape(c, s) && Attended(s) && Enabled(c, s, a)
    ensures Attended(Step(c, s, a))
  {
    if a.Work? {
      assert WorkerInv(c, s.workers[a.i]);
      WorkServes(c, s, a.i, a.a);
    } else {
      ShapeIsGround(c, s);
      OthersServed(c, s, a);
    }
  }

  // ---- Hope, for a caller's own step ----

  ghost predicate OthersSame(s: Sys, s': Sys, id: nat) {
    && s'.callers.Keys <= s.callers.Keys + {id}
    && forall k | k in s.callers && k != id :: k in s'.callers && s'.callers[k] == s.callers[k]
  }

  ghost predicate WorkersHope(s: Sys) {
    exists i | 0 <= i < |s.workers| :: WorkerHope(s.workers[i])
  }

  ghost predicate WorkersNoWorse(s: Sys, s': Sys) {
    |s'.workers| == |s.workers| && forall i | 0 <= i < |s.workers| && WorkerHope(s.workers[i]) :: WorkerHope(s'.workers[i])
  }

  lemma WorkersHopeKept(s: Sys, s': Sys)
    requires WorkersNoWorse(s, s') && WorkersHope(s)
    ensures WorkersHope(s') && Hope(s')
  {
    var i :| 0 <= i < |s.workers| && WorkerHope(s.workers[i]);
    assert WorkerHope(s'.workers[i]);
  }

  lemma NeedyHopeKept(s: Sys, s': Sys, id: nat)
    requires NeedyHope(s) && OthersSame(s, s', id) && WorkersNoWorse(s, s')
    requires id in s'.callers && Needy(s'.callers[id]) ==> Hope(s') || (id in s.callers && Needy(s.callers[id]))
    requires id in s.callers && CallerHope(s.callers[id]) ==> Hope(s')
    ensures NeedyHope(s')
  {
    forall k | k in s'.callers && Needy(s'.callers[k])
      ensures Hope(s')
    {
      if k in s.callers && Needy(s.callers[k]) {
        if j :| j in s.callers && CallerHope(s.callers[j]) {
          assert j == id || CallerHope(s'.callers[j]);
        } else {
          WorkersHopeKept(s, s');
        }
      }
    }
  }

  /** A caller may leave: a wakeup it holds is passed on, and its own retry is not the last hope. */
  lemma LeaveKeepsHope(s: Sys, id: nat, pc: CallerPc)
    requires WaitList(s) && NeedyHope(s) && id in s.callers && (pc.Done? || pc.Canceled?)
    requires s.callers[id].pc.Registering? ==> s.callers[id].node == NotifiedOne
    requires s.callers[id].node == Queued && CallerHope(s.callers[id]) ==> WorkersHope(s)
    ensures WaitersKnown(s) && NeedyHope(Leave(s, id, pc))
  {
    var k := s.callers[id];
    var s' := Leave(s, id, pc);
    if k.node == NotifiedOne {
      assert WaitList(SetCaller(s, id, k.(pc := pc, node := NoNode)));
      NotifyOneHope(SetCaller(s, id, k.(pc := pc, node := NoNode)));
    } else {
      if WorkersHope(s) {
        WorkersHopeKept(s, s');
      }
      NeedyHopeKept(s, s', id);
    }
  }

  /** Nobody waits on a pool that a whole walk has found cold, unless a wakeup is still owed. */
  lemma ColdPoolHope(s: Sys, scan: Scan, id: nat)
    requires Attended(s) && scan.probes + 1 == |s.workers| && !scan.primary && !scan.hope && Probed(s, scan)
    requires id in s.callers && Needy(s.callers[id])
    ensures WorkersHope(s)
  {
    var i :| 0 <= i < |s.workers| && Warm(s.workers[i]);
    Router.RingVisitsEachOnce(scan.start, |s.workers|, i);
    assert Cold(s.workers[i]);
    assert WorkerHope(s.workers[i]);
  }

  ghost predicate NobodyNeedy(s: Sys) {
    forall id | id in s.callers :: !Needy(s.callers[id])
  }

  lemma AdvanceKeepsHope(s: Sys, id: nat, before: Scan, after: Scan)
    requires Ground(s) && Attended(s) && NeedyHope(s)
    requires id in s.callers && s.callers[id].pc == Scanning(before) && ScanShape(|s.workers|, after)
    requires after.probes == before.probes && after.primary == before.primary && (before.hope ==> after.hope)
    requires s.callers[id].node == Queued ==> Probed(s, after) && (after.hope && !before.hope ==> WorkersHope(s))
    ensures WaitersKnown(s) && NeedyHope(Advance(s, id, after))
  {
    var k := s.callers[id];
    var s' := Advance(s, id, after);
    if after.probes + 1 == |s.workers| && !after.primary && (!after.hope || k.mode == FailsFast) {
      var pc := Done(if after.hope then QueueFullError else NoAvailableWorkersError);
      assert s' == Leave(s, id, pc);
      assert CallerShape(|s.workers|, s.handles, k);
      if k.node == Queued && !after.hope && NobodyNeedy(s) {
        assert OthersSame(s, s', id);
      } else {
        if k.node == Queued && !after.hope {
          var j :| j in s.callers && Needy(s.callers[j]);
          ColdPoolHope(s, after, j);
        }
        LeaveKeepsHope(s, id, pc);
      }
    } else {
      if k.node == Queued && after.hope && !before.hope {
        WorkersHopeKept(s, s');
      }
      assert CallerHope(k) && !Hope(s') ==> CallerHope(s'.callers[id]);
      NeedyHopeKept(s, s', id);
    }
  }

  lemma ProbeKeepsHope(c: Config, s: Sys, id: nat, early: bool)
    requires ValidConfig(c) && Ground(s) && Attended(s) && NeedyHope(s)
    requires Enabled(c, s, Probe(id, early)) && !Sends(c, s, id, early)
    ensures NeedyHope(Step(c, s, Probe(id, early)))
  {
    var k := s.callers[id];
    var scan := k.pc.scan;
    var w := s.workers[Sink(s, scan)];
    ProbeCases(c, s, id, early);
    assert CallerShape(|s.workers|, s.handles, k);
    if Stays(c, w, scan) {
      var s' := Step(c, s, Probe(id, early));
      assert CallerHope(k) ==> CallerHope(s'.callers[id]);
      NeedyHopeKept(s, s', id);
    } else {
      var after := Judged(c, w, scan, early);
      if k.node == Queued {
        ProbedAll(c, s, id, early);
        JudgedWell(c, s, id, early) by { assert WalkSeen(s, scan); }
      }
      AdvanceKeepsHope(s, id, scan, after);
    }
  }

  lemma SendKeepsHope(c: Config, s: Sys, id: nat, early: bool)
    requires Ground(s) && Attended(s) && NeedyHope(s)
    requires Enabled(c, s, Probe(id, early)) && Sends(c, s, id, early)
    ensures NeedyHope(Step(c, s, Probe(id, early)))
  {
    var k := s.callers[id];
    var i := Sink(s, k.pc.scan);
    var s' := Step(c, s, Probe(id, early));
    if k.node == Queued {
      assert WalkSeen(s, k.pc.scan);
      assert WorkerHope(s'.workers[i]);
    } else {
      assert CallerHope(k) ==> CallerHope(s'.callers[id]);
    }
    NeedyHopeKept(s, s', id);
  }

  lemma RegisterKeepsHope(c: Config, s: Sys, id: nat, start: nat)
    requires Ground(s) && NeedyHope(s) && Enabled(c, s, Register(id, start))
    ensures NeedyHope(Step(c, s, Register(id, start)))
  {
    var s' := Step(c, s, Register(id, start));
    if !s.permit {
      assert CallerHope(s'.callers[id]);
    }
  }

  lemma OthersKeepHope(c: Config, s: Sys, a: Act)
    requires ValidConfig(c) && Ground(s) && Attended(s) && NeedyHope(s) && Enabled(c, s, a) && !a.Work?
    ensures NeedyHope(Step(c, s, a))
  {
    var s' := Step(c, s, a);
    match a {
      case Probe(id, early) => if Sends(c, s, id, early) { SendKeepsHope(c, s, id, early); } else { ProbeKeepsHope(c, s, id, early); }
      case Register(id, start) => RegisterKeepsHope(c, s, id, start);
      case Wake(id) =>
        assert CallerHope(s'.callers[id]);
        NeedyHopeKept(s, s', id);
      case Receive(id, outcome) => LeaveKeepsHope(s, id, Done(Replied(outcome)));
      case Cancel(id) => LeaveKeepsHope(s, id, Canceled);
      case Call(id, _, _, _, _) => NeedyHopeKept(s, s', id);
      case CloneHandle(_, _) => NeedyHopeKept(s, s', 0);
      case DropHandle(_) => NeedyHopeKept(s, s', 0);
      case Work(_, _) =>
    }
  }

  /** While a caller is parked, or bound to park, something is still going to wake it: kept by
      every step but a drain overlapping the end of a rebuild. */
  lemma NeedyHopeStep(c: Config, s: Sys, a: Act)
    requires ValidConfig(c) && SysShape(c, s) && Attended(s) && NeedyHope(s) && Enabled(c, s, a) && !OverlappedDrain(s, a)
    ensures NeedyHope(Step(c, s, a))
  {
    if a.Work? {
      WorkKeepsHope(c, s, a.i, a.a);
    } else {
      ShapeIsGround(c, s);
      OthersKeepHope(c, s, a);
    }
  }

  // ---- When hope is lost ----

  /** The request about to be drained is all the hope there is. */
  ghost predicate LastHope(s: Sys, i: nat)
    requires i < |s.workers|
  {
    && |s.workers[i].chan| == 1 && !WillWake(s.workers[i])
    && (forall j | 0 <= j < |s.workers| && j != i :: !WorkerHope(s.workers[j]))
    && (forall id | id in s.callers :: !CallerHope(s.callers[id]))
  }

  lemma DrainLeaves(c: Config, s: Sys, i: nat, a: WorkerAct)
    requires Enabled(c, s, Act.Work(i, a)) && OverlappedDrain(s, Act.Work(i, a))
    ensures var s' := Step(c, s, Act.Work(i, a));
            s'.callers == s.callers && s'.workers == s.workers[i := s'.workers[i]]
            && (WorkerHope(s'.workers[i]) <==> WillWake(s.workers[i]) || |s.workers[i].chan| > 1)
  {
  }

  lemma DrainTakesHope(c: Config, s: Sys, i: nat, a: WorkerAct)
    requires Enabled(c, s, Act.Work(i, a)) && OverlappedDrain(s, Act.Work(i, a))
    ensures Hope(Step(c, s, Act.Work(i, a))) <==> !LastHope(s, i)
  {
    var s' := Step(c, s, Act.Work(i, a));
    DrainLeaves(c, s, i, a);
    if !LastHope(s, i) {
      if j :| 0 <= j < |s.workers| && j != i && WorkerHope(s.workers[j]) {
        assert WorkerHope(s'.workers[j]);
      } else if id :| id in s.callers && CallerHope(s.callers[id]) {
        assert CallerHope(s'.callers[id]);
      } else {
        assert WorkerHope(s'.workers[i]);
      }
    }
  }

  /** A step loses it exactly when it drains, while the predictor is alive, the one queued request
      that was still going to wake anybody, and somebody is parked or bound to park. */
  lemma HopeLostExactlyByLastDrain(c: Config, s: Sys, a: Act)
    requires ValidConfig(c) && SysShape(c, s) && Attended(s) && NeedyHope(s) && Enabled(c, s, a)
    ensures NeedyHope(Step(c, s, a)) <==> !(OverlappedDrain(s, a) && LastHope(s, a.i) && !NobodyNeedy(s))
  {
    if OverlappedDrain(s, a) {
      DrainTakesHope(c, s, a.i, a.a);
      DrainLeaves(c, s, a.i, a.a);
    } else {
      NeedyHopeStep(c, s, a);
    }
  }

  // ---- Along every run ----

  lemma {:induction false} AttendedAlong(c: Config, t: Trace, k: nat)
    requires ValidConfig(c) && IsRun(c, t) && Initial(t.states[0]) && k < |t.states|
    ensures SysShape(c, t.states[k]) && Attended(t.states[k])
  {
    if k == 0 {
      SysShapeInitial(c, t.states[0]);
    } else {
      AttendedAlong(c, t, k - 1);
      SysShapeStep(c, t.states[k - 1], t.acts[k - 1]);
      AttendedStep(c, t.states[k - 1], t.acts[k - 1]);
    }
  }

  /** No drain of this run overlaps the end of a rebuild. */
  ghost predicate NoOverlappedDrain(t: Trace)
    requires |t.states| == |t.acts| + 1
  {
    forall k | 0 <= k < |t.acts| :: !OverlappedDrain(t.states[k], t.acts[k])
  }

  lemma {:induction false} NeedyHopeAlong(c: Config, t: Trace, k: nat)
    requires ValidConfig(c) && IsRun(c, t) && Initial(t.states[0]) && k < |t.states| && NoOverlappedDrain(t)
    ensures NeedyHope(t.states[k])
  {
    if k > 0 {
      NeedyHopeAlong(c, t, k - 1);
      AttendedAlong(c, t, k - 1);
      NeedyHopeStep(c, t.states[k - 1], t.acts[k - 1]);
    }
  }

  /** A caller that is parked and has not been notified. */
  predicate ParkedUnnotified(k: Caller) {
    k.pc.Parked? && k.node == Queued
  }

  /** Once every predictor is dead, nobody is parked unnotified unless a dead worker has yet to
      send its notify_waiters: in every run, whatever the drains, for any number of workers. */
  lemma NobodyStrandedByDeath(c: Config, t: Trace, k: nat, id: nat)
    requires ValidConfig(c) && IsRun(c, t) && Initial(t.states[0]) && k < |t.states|
    requires forall i | 0 <= i < |t.states[k].workers| :: t.states[k].workers[i].predictor == Dead
    requires id in t.states[k].callers && ParkedUnnotified(t.states[k].callers[id])
    ensures exists i | 0 <= i < |t.states[k].workers| :: t.states[k].workers[i].run == WakeDead
  {
    var s := t.states[k];
    AttendedAlong(c, t, k);
    assert Needy(s.callers[id]);
    var i :| 0 <= i < |s.workers| && Warm(s.workers[i]);
    assert WorkerInv(c, s.workers[i]);
    assert s.workers[i].run == WakeDead;
  }

  /** As long as no drain has overlapped the end of a rebuild, something is still going to wake
      somebody while a caller is parked unnotified. */
  lemma ParkedIsNeverForgotten(c: Config, t: Trace, k: nat, id: nat)
    requires ValidConfig(c) && IsRun(c, t) && Initial(t.states[0]) && k < |t.states| && NoOverlappedDrain(t)
    requires id in t.states[k].callers && ParkedUnnotified(t.states[k].callers[id])
    ensures Hope(t.states[k])
  {
    NeedyHopeAlong(c, t, k);
    assert Needy(t.states[k].callers[id]);
  }

  /** A registered caller that is told no worker is left, without having been notified since, has
      reason: every worker is dead, or has still to send the notify_waiters that ends a rebuild. */
  lemma DeniedMeansCold(c: Config, t: Trace, k: nat, id: nat, early: bool, i: nat)
    requires ValidConfig(c) && IsRun(c, t) && Initial(t.states[0]) && k < |t.acts| && t.acts[k] == Probe(id, early)
    requires id in t.states[k].callers && t.states[k].callers[id].node == Queued && i < |t.states[k].workers|
    requires id in t.states[k + 1].callers && t.states[k + 1].callers[id].pc == Done(NoAvailableWorkersError)
    ensures Cold(t.states[k].workers[i])
  {
    var s := t.states[k];
    AttendedAlong(c, t, k);
    ShapeIsGround(c, s);
    var scan := s.callers[id].pc.scan;
    var w := s.workers[Sink(s, scan)];
    assert CallerShape(|s.workers|, s.handles, s.callers[id]);
    ProbeCases(c, s, id, early);
    ProbedAll(c, s, id, early);
    AdvanceDenies(s, id, Judged(c, w, scan, early));
    Router.RingVisitsEachOnce(scan.start, |s.workers|, i);
  }

  lemma AdvanceDenies(s: Sys, id: nat, scan: Scan)
    requires Ground(s) && id in s.callers && s.callers[id].pc.Scanning? && ScanShape(|s.workers|, scan)
    requires WaitersKnown(s) && id in Advance(s, id, scan).callers
    requires Advance(s, id, scan).callers[id].pc == Done(NoAvailableWorkersError)
    ensures !scan.primary && !scan.hope && scan.probes + 1 == |s.workers|
  {
    LeaveKeeps(s, id, Done(QueueFullError));
  }
}

/** What every reachable state of the system keeps about its callers, its waiter list and its
    workers, and what a step leaves alone. */
module SystemShape {
  import opened StatusWord
  import opened Worker
  import opened WorkerShape
  import opened WorkerInvariant
  import opened System

  // ---- The waiter list ----

  /** The list holds exactly the callers whose node is queued, once each; a wakeup is stored only
      while nobody waits. */
  ghost predicate WaitList(s: Sys) {
    && (forall k | 0 <= k < |s.waiters| :: s.waiters[k] in s.callers && s.callers[s.waiters[k]].node == Queued)
    && (forall j, k | 0 <= j < k < |s.waiters| :: s.waiters[j] != s.waiters[k])
    && (forall id | id in s.callers && s.callers[id].node == Queued :: id in s.waiters)
    && (s.permit ==> s.waiters == [])
  }

  /** All that can happen to a caller on somebody else's step: being notified. */
  predicate Nudged(c: Caller, c': Caller) {
    || c' == c
    || (c.node == Queued && c'.node in {NotifiedOne, NotifiedAll} && c' == c.(node := c'.node))
  }

  ghost predicate OthersKept(s: Sys, s': Sys, actor: nat) {
    && s.callers.Keys <= s'.callers.Keys <= s.callers.Keys + {actor}
    && forall id | id in s.callers && id != actor :: Nudged(s.callers[id], s'.callers[id])
  }

  ghost predicate AllKept(s: Sys, s': Sys) {
    && s'.callers.Keys == s.callers.Keys
    && forall id | id in s.callers :: Nudged(s.callers[id], s'.callers[id])
  }

  lemma NotifyOneKeeps(s: Sys)
    requires WaitList(s)
    ensures WaitersKnown(s)
    ensures var s' := NotifyOne(s);
            WaitList(s') && s'.workers == s.workers && s'.handles == s.handles
            && AllKept(s, s')
  {
    if s.waiters != [] {
      var s' := NotifyOne(s);
      forall id | id in s'.callers && s'.callers[id].node == Queued
        ensures id in s'.waiters
      {
        assert id in s.waiters && id != s.waiters[0];
      }
    }
  }

  lemma NotifyWaitersKeeps(s: Sys)
    requires WaitList(s)
    ensures var s' := NotifyWaiters(s);
            WaitList(s') && s'.workers == s.workers && s'.handles == s.handles
            && AllKept(s, s')
  {
  }

  lemma {:induction false} WithoutIs(waiters: seq<nat>, id: nat)
    requires forall j, k | 0 <= j < k < |waiters| :: waiters[j] != waiters[k]
    ensures var rest := Without(waiters, id);
            && id !in rest
            && (forall x | x in waiters && x != id :: x in rest)
            && (forall j, k | 0 <= j < k < |rest| :: rest[j] != rest[k])
  {
    if waiters != [] {
      WithoutIs(waiters[1..], id);
    }
  }

  lemma WithdrawKeeps(s: Sys, id: nat, c: Caller)
    requires WaitList(s) && id in s.callers && s.callers[id].node == Queued && c.node == NoNode
    ensures WaitList(SetCaller(s, id, c).(waiters := Without(s.waiters, id)))
  {
    WithoutIs(s.waiters, id);
    var s' := SetCaller(s, id, c).(waiters := Without(s.waiters, id));
    forall k | 0 <= k < |s'.waiters|
      ensures s'.waiters[k] in s'.callers && s'.callers[s'.waiters[k]].node == Queued
    {
      assert s'.waiters[k] in s.waiters && s'.waiters[k] != id;
    }
  }

  lemma LeaveKeeps(s: Sys, id: nat, pc: CallerPc)
    requires WaitList(s) && id in s.callers
    ensures WaitersKnown(s)
    ensures var s' := Leave(s, id, pc);
            WaitList(s') && s'.workers == s.workers && s'.handles == s.handles && OthersKept(s, s', id)
            && s'.callers[id] == s.callers[id].(pc := pc, node := NoNode)
  {
    var c := s.callers[id];
    var c' := c.(pc := pc, node := NoNode);
    if c.node == Queued {
      WithdrawKeeps(s, id, c');
    } else {
      assert id !in s.waiters;
      assert WaitList(SetCaller(s, id, c'));
      NotifyOneKeeps(SetCaller(s, id, c'));
    }
  }

  // ---- The callers ----

  predicate ScanShape(n: nat, scan: Scan) {
    && scan.start < n && scan.probes < n
    && (scan.stage == LoadRebuilding ==> !scan.primary)
    && (scan.hope ==> !scan.primary)
    && (n == 1 ==> !scan.primary)
  }

  predicate CallerShape(n: nat, handles: set<nat>, c: Caller) {
    && (c.pc.Scanning? ==> ScanShape(n, c.pc.scan) && (n == 1 ==> !c.pc.scan.hope))
    && (c.mode == FailsFast || c.pc.Registering? || c.pc.Done? || c.pc.Canceled? ==> c.node == NoNode)
    && (c.pc.Parked? ==> c.node != NoNode)
    && (c.pc.Registering? ==> c.mode == Waits)
    // A request is queued before its reply is awaited, and only then.
    && (c.pc.Awaiting? || (c.pc.Done? && c.pc.answer.Replied?) ==> c.home.At?)
    && (c.home.At? ==> c.home.worker < n && (c.pc.Awaiting? || (c.pc.Done? && c.pc.answer.Replied?) || c.pc.Canceled?))
    // A call in flight borrows a live handle.
    && (InFlight(c) ==> c.handle in handles)
  }

  ghost predicate CallersShape(s: Sys) {
    forall id | id in s.callers :: CallerShape(|s.workers|, s.handles, s.callers[id])
  }

  ghost predicate SysShape(c: Config, s: Sys) {
    && |s.workers| >= 1
    && WaitList(s) && CallersShape(s)
    && (forall i | 0 <= i < |s.workers| :: WorkerInv(c, s.workers[i]))
    // The request channels are closed only by the last handle, and for good.
    && (forall i | 0 <= i < |s.workers| && s.workers[i].status == Exit :: s.handles == {})
  }

  lemma OthersKeepShape(s: Sys, s': Sys, actor: nat)
    requires CallersShape(s) && OthersKept(s, s', actor) && s'.handles == s.handles && |s'.workers| == |s.workers|
    requires actor in s'.callers ==> CallerShape(|s'.workers|, s'.handles, s'.callers[actor])
    ensures CallersShape(s')
  {
    forall id | id in s'.callers
      ensures CallerShape(|s'.workers|, s'.handles, s'.callers[id])
    {
      if id != actor {
        assert CallerShape(|s.workers|, s.handles, s.callers[id]);
      }
    }
  }

  // ---- A probe ----

  /** What one caller's step does to the rest: the workers are those of `workers`. */
  ghost predicate CallerStep(s: Sys, s': Sys, id: nat, workers: seq<Worker>) {
    && WaitList(s') && OthersKept(s, s', id) && s'.handles == s.handles && s'.workers == workers
    && id in s'.callers && CallerShape(|s.workers|, s.handles, s'.callers[id])
  }

  lemma AdvanceKeeps(s: Sys, id: nat, scan: Scan)
    requires WaitList(s) && CallersShape(s) && id in s.callers && s.callers[id].pc.Scanning?
    requires |s.workers| >= 1 && ScanShape(|s.workers|, scan)
    ensures WaitersKnown(s)
    ensures CallerStep(s, Advance(s, id, scan), id, s.workers)
    ensures var (c, c') := (s.callers[id], Advance(s, id, scan).callers[id]);
            Unsent(c, c')
  {
    if scan.probes + 1 == |s.workers| && !scan.primary {
      if !scan.hope {
        LeaveKeeps(s, id, Done(NoAvailableWorkersError));
      } else if s.callers[id].mode == FailsFast {
        LeaveKeeps(s, id, Done(QueueFullError));
      }
    }
  }

  lemma SetCallerKeeps(s: Sys, id: nat, c: Caller, workers: seq<Worker>)
    requires WaitList(s) && |workers| == |s.workers|
    requires if id in s.callers then c.node == s.callers[id].node else c.node == NoNode
    requires CallerShape(|s.workers|, s.handles, c)
    ensures CallerStep(s, SetCaller(s, id, c).(workers := workers), id, workers)
  {
  }

  /** The worker a probe's try_send gives the request to, if it does. */
  predicate Sends(c: Config, s: Sys, id: nat, early: bool)
    requires Enabled(c, s, Probe(id, early))
  {
    var scan := s.callers[id].pc.scan;
    var w := s.workers[Sink(s, scan)];
    scan.stage == TrySend && !(w.acc.AccGone? || (early && w.status in {Exit, Crashed})) && |w.chan| < c.queueSize
  }

  lemma ProbeSends(c: Config, s: Sys, id: nat, early: bool)
    requires WaitList(s) && CallersShape(s) && Enabled(c, s, Probe(id, early)) && Sends(c, s, id, early)
    ensures var scan := s.callers[id].pc.scan;
            var (k, s') := (s.callers[id], Step(c, s, Probe(id, early)));
            && CallerStep(s, s', id, s.workers[Sink(s, scan) := PushRequest(s.workers[Sink(s, scan)], Request(id, k.input))])
            && s'.callers[id] == k.(pc := Awaiting, home := At(Sink(s, scan)), woken := false)
  {
    var k := s.callers[id];
    var scan := k.pc.scan;
    var workers := s.workers[Sink(s, scan) := PushRequest(s.workers[Sink(s, scan)], Request(id, k.input))];
    assert CallerShape(|s.workers|, s.handles, k);
    SetCallerKeeps(s, id, k.(pc := Awaiting, home := At(Sink(s, scan)), woken := false), workers);
    assert Step(c, s, Probe(id, early)) == SetCaller(s, id, k.(pc := Awaiting, home := At(Sink(s, scan)), woken := false)).(workers := workers);
  }

  /** A caller that is not sending moves on with the request still its own. */
  predicate Unsent(k: Caller, k': Caller) {
    k'.home == k.home && k'.input == k.input && !k'.pc.Awaiting? && !(k'.pc.Done? && k'.pc.answer.Replied?)
  }

  lemma ProbeRefused(c: Config, s: Sys, id: nat, early: bool)
    requires WaitList(s) && CallersShape(s) && |s.workers| >= 1 && Enabled(c, s, Probe(id, early)) && !Sends(c, s, id, early)
    requires s.callers[id].pc.scan.stage == TrySend
    ensures var s' := Step(c, s, Probe(id, early));
            CallerStep(s, s', id, s.workers) && Unsent(s.callers[id], s'.callers[id])
  {
    var scan := s.callers[id].pc.scan;
    assert CallerShape(|s.workers|, s.handles, s.callers[id]);
    AdvanceKeeps(s, id, scan);
    AdvanceKeeps(s, id, scan.(hope := scan.hope || !scan.primary));
  }

  lemma ProbeLoads(c: Config, s: Sys, id: nat, early: bool)
    requires WaitList(s) && CallersShape(s) && |s.workers| >= 1 && Enabled(c, s, Probe(id, early))
    requires s.callers[id].pc.scan.stage == LoadState
    ensures var s' := Step(c, s, Probe(id, early));
            CallerStep(s, s', id, s.workers) && Unsent(s.callers[id], s'.callers[id])
  {
    var k := s.callers[id];
    var scan := k.pc.scan;
    assert CallerShape(|s.workers|, s.handles, k);
    if Ready(c, s.workers[Sink(s, scan)], scan.primary) {
      SetCallerKeeps(s, id, k.(pc := Scanning(scan.(stage := TrySend))), s.workers);
    } else if scan.primary {
      AdvanceKeeps(s, id, scan);
    } else {
      SetCallerKeeps(s, id, k.(pc := Scanning(scan.(stage := LoadRebuilding))), s.workers);
    }
  }

  lemma ProbeStays(c: Config, s: Sys, id: nat, early: bool)
    requires WaitList(s) && CallersShape(s) && |s.workers| >= 1 && Enabled(c, s, Probe(id, early)) && !Sends(c, s, id, early)
    ensures var s' := Step(c, s, Probe(id, early));
            CallerStep(s, s', id, s.workers) && Unsent(s.callers[id], s'.callers[id])
  {
    var k := s.callers[id];
    var scan := k.pc.scan;
    var w := s.workers[Sink(s, scan)];
    assert CallerShape(|s.workers|, s.handles, k);
    match scan.stage {
      case LoadState => ProbeLoads(c, s, id, early);
      case TrySend => ProbeRefused(c, s, id, early);
      case LoadRebuilding =>
        AdvanceKeeps(s, id, scan.(hope := scan.hope || w.predictor == Rebuilding));
    }
  }

  // ---- The other steps ----

  lemma RegisterKeeps(c: Config, s: Sys, id: nat, start: nat)
    requires WaitList(s) && CallersShape(s) && |s.workers| >= 1 && Enabled(c, s, Register(id, start))
    ensures var s' := Step(c, s, Register(id, start));
            && CallerStep(s, s', id, s.workers)
            && s'.callers[id].pc == Scanning(StartScan(|s.workers|, start))
            && Unsent(s.callers[id], s'.callers[id])
  {
    var k := s.callers[id];
    assert CallerShape(|s.workers|, s.handles, k);
    assert id !in s.waiters;
  }

  /** A worker's step reaches the callers only through the wakeup it sends. */
  lemma WorkKeeps(c: Config, s: Sys, i: nat, a: WorkerAct)
    requires WaitList(s) && Enabled(c, s, Work(i, a))
    ensures var s' := Step(c, s, Work(i, a));
            && WaitList(s') && AllKept(s, s') && s'.handles == s.handles
            && s'.workers == s.workers[i := WorkerNext(c, s.workers[i], s.handles == {}, CanceledIds(s), a)]
  {
    var s1 := SetWorker(s, i, WorkerNext(c, s.workers[i], s.handles == {}, CanceledIds(s), a));
    assert WaitList(s1);
    NotifyOneKeeps(s1);
    NotifyWaitersKeeps(s1);
  }

  /** The workers after a step. */
  ghost predicate WorkersStep(c: Config, s: Sys, s': Sys, a: Act)
    requires Enabled(c, s, a)
  {
    match a
    case Work(i, wa) => s'.workers == s.workers[i := WorkerNext(c, s.workers[i], s.handles == {}, CanceledIds(s), wa)]
    case Probe(id, early) =>
      if Sends(c, s, id, early) then
        var k := Sink(s, s.callers[id].pc.scan);
        s'.workers == s.workers[k := PushRequest(s.workers[k], Request(id, s.callers[id].input))]
      else s'.workers == s.workers
    case _ => s'.workers == s.workers
  }

  /** The one caller, if any, whose own step this is. */
  predicate IsActor(a: Act, id: nat) {
    (a.Probe? || a.Register? || a.Wake? || a.Receive? || a.Call? || a.Cancel?) && a.id == id
  }

  /** How the callers change: everybody but the actor is at most notified. */
  ghost predicate CallersStep(s: Sys, s': Sys, a: Act) {
    && s.callers.Keys <= s'.callers.Keys
    && (forall id | id in s'.callers && id !in s.callers :: IsActor(a, id))
    && (forall id | id in s.callers && !IsActor(a, id) :: Nudged(s.callers[id], s'.callers[id]))
  }

  /** A caller's own step, whichever it is. */
  lemma ActorKeeps(c: Config, s: Sys, a: Act, id: nat)
    requires WaitList(s) && CallersShape(s) && |s.workers| >= 1 && Enabled(c, s, a) && IsActor(a, id)
    ensures CallerStep(s, Step(c, s, a), id, Step(c, s, a).workers) && WorkersStep(c, s, Step(c, s, a), a)
  {
    match a {
      case Probe(_, early) => if Sends(c, s, id, early) { ProbeSends(c, s, id, early); } else { ProbeStays(c, s, id, early); }
      case Register(_, start) => RegisterKeeps(c, s, id, start);
      case Receive(_, outcome) => LeaveKeeps(s, id, Done(Replied(outcome)));
      case Cancel(_) => LeaveKeeps(s, id, Canceled);
      case Wake(_) => assert id !in s.waiters;
      case Call(_, _, _, _, _) =>
    }
  }

  lemma HandlesKeep(c: Config, s: Sys, a: Act)
    requires WaitList(s) && CallersShape(s) && Enabled(c, s, a) && (a.CloneHandle? || a.DropHandle?)
    ensures var s' := Step(c, s, a);
            WaitList(s') && CallersShape(s') && s'.callers == s.callers && s'.workers == s.workers
            && (s.handles == {} ==> s'.handles == {})
  {
  }

  /** What every step keeps of the list and the callers, and how it changes the rest. */
  ghost predicate Framed(c: Config, s: Sys, s': Sys, a: Act)
    requires Enabled(c, s, a)
  {
    && WaitList(s') && CallersShape(s')
    && WorkersStep(c, s, s', a) && CallersStep(s, s', a)
    && (a.CloneHandle? || a.DropHandle? || s'.handles == s.handles)
    && (s.handles == {} ==> s'.handles == {})
  }

  lemma WorkFramed(c: Config, s: Sys, i: nat, wa: WorkerAct)
    requires WaitList(s) && CallersShape(s) && Enabled(c, s, Work(i, wa))
    ensures Framed(c, s, Step(c, s, Work(i, wa)), Work(i, wa))
  {
    var s' := Step(c, s, Work(i, wa));
    WorkKeeps(c, s, i, wa);
    forall id | id in s'.callers
      ensures CallerShape(|s'.workers|, s'.handles, s'.callers[id])
    {
      assert CallerShape(|s.workers|, s.handles, s.callers[id]);
    }
  }

  lemma ActorFramed(c: Config, s: Sys, a: Act, id: nat)
    requires WaitList(s) && CallersShape(s) && |s.workers| >= 1 && Enabled(c, s, a) && IsActor(a, id)
    ensures Framed(c, s, Step(c, s, a), a)
  {
    ActorKeeps(c, s, a, id);
    OthersKeepShape(s, Step(c, s, a), id);
  }

  lemma StepFrame(c: Config, s: Sys, a: Act)
    requires WaitList(s) && CallersShape(s) && |s.workers| >= 1 && Enabled(c, s, a)
    ensures Framed(c, s, Step(c, s, a), a)
  {
    if a.Work? {
      WorkFramed(c, s, a.i, a.a);
    } else if a.CloneHandle? || a.DropHandle? {
      HandlesKeep(c, s, a);
    } else {
      ActorFramed(c, s, a, a.id);
    }
  }

  /** One worker after a step: its own step, a push, or nothing. */
  lemma WorkerAfter(c: Config, s: Sys, a: Act, i: nat)
    requires WaitList(s) && CallersShape(s) && |s.workers| >= 1 && Enabled(c, s, a) && i < |s.workers|
    ensures var s' := Step(c, s, a);
            && |s'.workers| == |s.workers|
            && var (w, w') := (s.workers[i], s'.workers[i]);
               if a.Work? && a.i == i then w' == WorkerNext(c, w, s.handles == {}, CanceledIds(s), a.a)
               else w' == w || (!w.acc.AccGone? && exists r :: w' == PushRequest(w, r))
  {
    StepFrame(c, s, a);
  }

  lemma SysShapeInitial(c: Config, s: Sys)
    requires ValidConfig(c) && Initial(s)
    ensures SysShape(c, s)
  {
    WorkerInvStarted(c);
  }

  lemma SysShapeStep(c: Config, s: Sys, a: Act)
    requires ValidConfig(c) && SysShape(c, s) && Enabled(c, s, a)
    ensures SysShape(c, Step(c, s, a))
  {
    var s' := Step(c, s, a);
    StepFrame(c, s, a);
    forall i | 0 <= i < |s'.workers|
      ensures WorkerInv(c, s'.workers[i])
      ensures s'.workers[i].status == Exit ==> s'.handles == {}
    {
      assert WorkerInv(c, s.workers[i]);
      if a.Work? && a.i == i {
        WorkerInvNext(c, s.workers[i], s.handles == {}, CanceledIds(s), a.a);
        ExitMeansClosed(c, s.workers[i], s.handles == {}, CanceledIds(s), a.a);
      } else if a.Probe? && Sends(c, s, a.id, a.early) && Sink(s, s.callers[a.id].pc.scan) == i {
        WorkerInvPush(c, s.workers[i], Request(a.id, s.callers[a.id].input));
      }
    }
  }

  lemma ExitMeansClosed(c: Config, w: Worker, closed: bool, canceled: set<nat>, a: WorkerAct)
    requires WorkerEnabled(c, w, closed, a)
    ensures WorkerNext(c, w, closed, canceled, a).status == Exit ==> closed || w.status == Exit
  {
    if a.Run? {
      RunFrame(c, w, canceled, a.run);
    }
  }
}

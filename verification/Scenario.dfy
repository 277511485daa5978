/** Stretches of a run of a pool of one whose batches and queue hold a single request: the building
    blocks of the runs that show what the program does not guarantee. */
module Scenario {
  import opened StatusWord
  import opened Worker
  import opened System
  import opened PanicFree
  import Router

  ghost predicate EndsIn(c: Config, calm: bool, t: Trace, s: Sys) {
    IsRun(c, t) && Initial(t.states[0]) && t.states[|t.acts|] == s && (calm ==> NoPanic(t))
  }

  /** Some run ends in this state; a calm one without a panic. */
  ghost predicate Reachable(c: Config, calm: bool, s: Sys) {
    exists t :: EndsIn(c, calm, t, s)
  }

  lemma Starts(c: Config, calm: bool, s: Sys)
    requires Initial(s)
    ensures Reachable(c, calm, s)
  {
    assert EndsIn(c, calm, Trace([s], []), s);
  }

  lemma Extended(c: Config, calm: bool, t: Trace, s: Sys, a: Act)
    requires EndsIn(c, calm, t, s) && Enabled(c, s, a) && (calm ==> !IsPanic(a))
    ensures EndsIn(c, calm, Trace(t.states + [Step(c, s, a)], t.acts + [a]), Step(c, s, a))
  {
    var t' := Trace(t.states + [Step(c, s, a)], t.acts + [a]);
    forall k | 0 <= k < |t'.acts|
      ensures Enabled(c, t'.states[k], t'.acts[k]) && t'.states[k + 1] == Step(c, t'.states[k], t'.acts[k])
    {
      if k < |t.acts| {
        assert t'.states[k] == t.states[k] && t'.states[k + 1] == t.states[k + 1] && t'.acts[k] == t.acts[k];
      }
    }
  }

  lemma Go(c: Config, calm: bool, s: Sys, a: Act)
    requires Reachable(c, calm, s) && Enabled(c, s, a) && (calm ==> !IsPanic(a))
    ensures Reachable(c, calm, Step(c, s, a))
  {
    var t :| EndsIn(c, calm, t, s);
    Extended(c, calm, t, s, a);
  }

  /** One worker, one request a batch, one in the queue, one attempt to build a predictor. */
  predicate Small(c: Config, s: Sys) {
    c.batchSize == 1 && c.queueSize == 1 && c.attempts == 1 && |s.workers| == 1 && s.handles != {}
  }

  function Fresh(): Scan {
    Scan(0, 0, false, LoadState, false)
  }

  // The only worker of the pool takes a step that wakes nobody.
  lemma Works(c: Config, calm: bool, s: Sys, a: WorkerAct, w': Worker)
    requires Reachable(c, calm, s) && |s.workers| == 1 && s.handles != {} && WaitersKnown(s)
    requires WorkerEnabled(c, s.workers[0], false, a) && (calm ==> !IsPanic(Act.Work(0, a)))
    requires !(a.Acc? && (s.workers[0].acc.SignalFirst? || s.workers[0].acc.SignalNext?))
    requires !(a.Run? && (s.workers[0].run.WakeAlive? || s.workers[0].run.WakeDead?))
    requires WorkerNext(c, s.workers[0], false, CanceledIds(s), a) == w'
    ensures Reachable(c, calm, s.(workers := [w']))
  {
    Go(c, calm, s, Act.Work(0, a));
    assert SetWorker(s, 0, w') == s.(workers := [w']);
  }

  lemma CanSubmit(c: Config, calm: bool, s: Sys, id: nat, k: Caller)
    requires Reachable(c, calm, s) && Small(c, s) && WaitersKnown(s) && id in s.callers && s.callers[id] == k
    requires k.pc == Scanning(Fresh()) && Ready(c, s.workers[0], false) && !s.workers[0].acc.AccGone? && s.workers[0].chan == []
    ensures Reachable(c, calm, s.(workers := [PushRequest(s.workers[0], Request(id, k.input))],
                            callers := s.callers[id := k.(pc := Awaiting, home := At(0), woken := false)]))
  {
    Go(c, calm, s, Probe(id, false));
    var s1 := s.(callers := s.callers[id := k.(pc := Scanning(Fresh().(stage := TrySend)))]);
    assert Step(c, s, Probe(id, false)) == s1;
    Go(c, calm, s1, Probe(id, false));
    assert Router.Ring(0, 0, 1) == 0;
    var s2 := s.(workers := [PushRequest(s.workers[0], Request(id, k.input))],
                 callers := s.callers[id := k.(pc := Awaiting, home := At(0), woken := false)]);
    assert Step(c, s1, Probe(id, false)) == s2;
  }

  /** A try of a registered caller, or of one that has not registered yet, finds the queue full. */
  lemma FindsFull(c: Config, calm: bool, s: Sys, id: nat, k: Caller)
    requires Reachable(c, calm, s) && Small(c, s) && WaitersKnown(s) && id in s.callers && s.callers[id] == k && k.mode == Waits
    requires k.pc == Scanning(Fresh()) && Ready(c, s.workers[0], false) && !s.workers[0].acc.AccGone? && |s.workers[0].chan| == 1
    ensures Reachable(c, calm, s.(callers := s.callers[id := k.(pc := if k.node == NoNode then Registering else Parked, woken := false)]))
  {
    Go(c, calm, s, Probe(id, false));
    var s1 := s.(callers := s.callers[id := k.(pc := Scanning(Fresh().(stage := TrySend)))]);
    assert Step(c, s, Probe(id, false)) == s1;
    Go(c, calm, s1, Probe(id, false));
    assert Router.Ring(0, 0, 1) == 0;
    var s2 := s.(callers := s.callers[id := k.(pc := if k.node == NoNode then Registering else Parked, woken := false)]);
    assert Step(c, s1, Probe(id, false)) == s2;
  }

  lemma Calls(c: Config, calm: bool, s: Sys, id: nat, input: int, handle: nat, mode: Mode)
    requires Reachable(c, calm, s) && |s.workers| == 1 && id !in s.callers && handle in s.handles
    ensures Reachable(c, calm, s.(callers := s.callers[id := Caller(input, handle, mode, Scanning(Fresh()), NoNode, Nowhere, false)]))
  {
    Go(c, calm, s, Call(id, input, handle, mode, 0));
  }

  /** A new call finds room and is queued. */
  lemma Submits(c: Config, calm: bool, s: Sys, id: nat, input: int, handle: nat, mode: Mode)
    requires Reachable(c, calm, s) && Small(c, s) && WaitersKnown(s) && id !in s.callers && handle in s.handles
    requires Ready(c, s.workers[0], false) && !s.workers[0].acc.AccGone? && s.workers[0].chan == []
    ensures Reachable(c, calm, s.(workers := [PushRequest(s.workers[0], Request(id, input))],
                            callers := s.callers[id := Caller(input, handle, mode, Awaiting, NoNode, At(0), false)]))
  {
    var k := Caller(input, handle, mode, Scanning(Fresh()), NoNode, Nowhere, false);
    Calls(c, calm, s, id, input, handle, mode);
    var s1 := s.(callers := s.callers[id := k]);
    CanSubmit(c, calm, s1, id, k);
    assert s1.callers[id := k.(pc := Awaiting, home := At(0), woken := false)] ==
           s.callers[id := Caller(input, handle, mode, Awaiting, NoNode, At(0), false)];
  }

  /** A caller registers when no wakeup is stored. */
  lemma Registers(c: Config, calm: bool, s: Sys, id: nat, k: Caller)
    requires Reachable(c, calm, s) && |s.workers| == 1 && !s.permit && id in s.callers && s.callers[id] == k && k.pc.Registering?
    ensures Reachable(c, calm, s.(callers := s.callers[id := k.(pc := Scanning(Fresh()), node := Queued)], waiters := s.waiters + [id]))
  {
    Go(c, calm, s, Register(id, 0));
  }

  /** The accumulator takes the only request queued, and sends a notify_one. */
  lemma Dequeues(c: Config, calm: bool, s: Sys, r: Request)
    requires Reachable(c, calm, s) && Small(c, s) && WaitersKnown(s)
    requires s.workers[0].acc.AwaitFirst? && s.workers[0].chan == [r] && s.workers[0].buf == []
    ensures var w := s.workers[0];
            Reachable(c, calm, NotifyOne(s.(workers := [w.(chan := [], buf := [r], len := w.len + 1, acc := CheckAlive(Capacity))])))
  {
    var w := s.workers[0];
    var w1 := w.(chan := [], acc := SignalFirst(r));
    Works(c, calm, s, Acc(AccRecv), w1);
    var s1 := s.(workers := [w1]);
    Go(c, calm, s1, Act.Work(0, Acc(AccGo)));
    var w2 := w.(chan := [], buf := [r], len := w.len + 1, acc := CheckAlive(Capacity));
    assert [] + [r] == [r];
    assert PushTaken(c, w1, r) == w2;
    assert SetWorker(s1, 0, w2) == s.(workers := [w2]);
  }

  /** A worker that has cut a batch, with the predictor alive and the job channel free, gets as far
      as holding the permit with the predictor seen alive. */
  function Permitted(w: Worker): Worker {
    w.(buf := [], hand := w.buf, status := Running, credits := 0, acc := Send(Capacity))
  }

  lemma GetsPermit(c: Config, calm: bool, s: Sys)
    requires Reachable(c, calm, s) && Small(c, s) && WaitersKnown(s)
    requires var w := s.workers[0];
             w.acc == CheckAlive(Capacity) && w.predictor == Alive && w.buf != [] && w.credits == 1 && !w.run.RunGone?
    ensures Reachable(c, calm, s.(workers := [Permitted(s.workers[0])]))
  {
    var w := s.workers[0];
    var w1 := w.(hand := w.buf, buf := [], acc := MarkRunning(Capacity));
    Works(c, calm, s, Acc(AccGo), w1);
    var w2 := w1.(status := Running, acc := Reserve(Capacity));
    Works(c, calm, s.(workers := [w1]), Acc(AccGo), w2);
    var w3 := w2.(credits := 0, acc := LoadPermitted(Capacity));
    Works(c, calm, s.(workers := [w2]), Acc(AccGo), w3);
    Works(c, calm, s.(workers := [w3]), Acc(AccGo), Permitted(w));
  }

  /** It sends the batch and is ready for the next. */
  function Sent(w: Worker): Worker {
    w.(slot := w.slot + [w.hand], hand := [], segments := w.segments + [Handed(w.hand, Capacity)],
       late := if w.predictor == Alive then w.late else w.late + 1, status := Waiting, len := 0, acc := AwaitFirst)
  }

  lemma SendsBatch(c: Config, calm: bool, s: Sys)
    requires Reachable(c, calm, s) && Small(c, s) && WaitersKnown(s) && s.workers[0].acc == Send(Capacity)
    ensures Reachable(c, calm, s.(workers := [Sent(s.workers[0])]))
  {
    var w := s.workers[0];
    var w1 := SendStep(w, Capacity);
    Works(c, calm, s, Acc(AccGo), w1);
    var w2 := w1.(status := Running, acc := ResetLen);
    Works(c, calm, s.(workers := [w1]), Acc(AccGo), w2);
    Works(c, calm, s.(workers := [w2]), Acc(AccGo), Sent(w));
  }

  /** The inference thread takes the only batch and calls the predictor. */
  function Predicting(w: Worker, r: Request): Worker {
    w.(slot := [], credits := w.credits + 1, receipts := w.receipts + [Served([r])], job := [r], run := Predict)
  }

  lemma StartsPredicting(c: Config, calm: bool, s: Sys, r: Request)
    requires Reachable(c, calm, s) && Small(c, s) && WaitersKnown(s) && r.id !in CanceledIds(s)
    requires s.workers[0].run.Idle? && s.workers[0].slot == [[r]]
    ensures Reachable(c, calm, s.(workers := [Predicting(s.workers[0], r)]))
  {
    var w := s.workers[0];
    var w1 := Predicting(w, r).(run := Filter(0));
    Works(c, calm, s, Run(RunGo), w1);
    var w2 := w1.(run := Filter(1));
    Works(c, calm, s.(workers := [w1]), Run(RunGo), w2);
    Works(c, calm, s.(workers := [w2]), Run(RunGo), Predicting(w, r));
  }

  /** The predictor panics with nothing in the job channel, and its batch is failed. */
  function Rebuilds(w: Worker, r: Request): Worker {
    w.(job := [], predictor := Rebuilding, late := 0, resolved := w.resolved + [Resolution(r, Failed(InternalError))],
       run := Build(1))
  }

  lemma PanicsThenRebuilds(c: Config, calm: bool, s: Sys, r: Request)
    requires Reachable(c, calm, s) && Small(c, s) && WaitersKnown(s)
    requires !calm && s.workers[0].run.Predict? && s.workers[0].job == [r] && s.workers[0].slot == []
    ensures Reachable(c, calm, s.(workers := [Rebuilds(s.workers[0], r)]))
  {
    var w := s.workers[0];
    var w1 := w.(run := Panicked);
    assert w.doomed + Flat([]) == w.doomed;
    Works(c, calm, s, Run(PredictPanic), w1);
    var w2 := w1.(predictor := Rebuilding, late := 0, run := FailJob(InPanic));
    Works(c, calm, s.(workers := [w1]), Run(RunGo), w2);
    var w3 := w2.(job := [], resolved := w.resolved + [Resolution(r, Failed(InternalError))]);
    Works(c, calm, s.(workers := [w2]), Run(RunGo), w3);
    var w4 := w3.(run := FlushQueued);
    Works(c, calm, s.(workers := [w3]), Run(RunGo), w4);
    Works(c, calm, s.(workers := [w4]), Run(RunGo), Rebuilds(w, r));
  }

  /** The rebuild succeeds: the predictor is alive again, and the waiters are still to be told. */
  lemma ComesBack(c: Config, calm: bool, s: Sys)
    requires Reachable(c, calm, s) && Small(c, s) && WaitersKnown(s)
    requires s.workers[0].run.Build? && s.workers[0].slot == []
    ensures Reachable(c, calm, s.(workers := [s.workers[0].(predictor := Alive, run := WakeAlive)]))
  {
    var w := s.workers[0];
    var w1 := w.(run := FlushRebuilt);
    Works(c, calm, s, Run(BuildOk), w1);
    var w2 := w.(run := StoreAlive);
    Works(c, calm, s.(workers := [w1]), Run(RunGo), w2);
    Works(c, calm, s.(workers := [w2]), Run(RunGo), w.(predictor := Alive, run := WakeAlive));
  }

  /** A notify_waiters with nobody waiting. */
  lemma TellsNobody(c: Config, calm: bool, s: Sys, w': Worker)
    requires Reachable(c, calm, s) && |s.workers| == 1 && s.handles != {} && s.waiters == []
    requires s.workers[0].run.WakeAlive? || s.workers[0].run.WakeDead?
    requires w' == s.workers[0].(run := if s.workers[0].run.WakeAlive? then Idle else Drop)
    ensures Reachable(c, calm, s.(workers := [w']))
  {
    var s1 := s.(workers := [w']);
    assert SetWorker(s, 0, w') == s1;
    assert NotifyWaiters(s1).callers == s1.callers;
    Go(c, calm, s, Act.Work(0, Run(RunGo)));
  }

  /** The rebuild fails with nobody waiting, and the thread is gone. */
  lemma FailsToRebuild(c: Config, calm: bool, s: Sys)
    requires Reachable(c, calm, s) && Small(c, s) && s.waiters == [] && s.workers[0].run == Build(1)
    ensures Reachable(c, calm, s.(workers := [s.workers[0].(predictor := Dead, run := Drop)]))
  {
    var w := s.workers[0];
    var w1 := w.(run := StoreDead);
    Works(c, calm, s, Run(BuildErr), w1);
    var w2 := w.(predictor := Dead, run := WakeDead);
    Works(c, calm, s.(workers := [w1]), Run(RunGo), w2);
    TellsNobody(c, calm, s.(workers := [w2]), w2.(run := Drop));
  }

  lemma Dies(c: Config, calm: bool, s: Sys)
    requires Reachable(c, calm, s) && Small(c, s) && s.waiters == []
    requires s.workers[0].run == Build(1) && s.workers[0].slot == []
    ensures Reachable(c, calm, s.(workers := [s.workers[0].(predictor := Dead, run := RunGone)]))
  {
    var w := s.workers[0];
    FailsToRebuild(c, calm, s);
    assert w.credits + |w.slot| == w.credits && w.resolved + AllResolved(Flat([]), SenderDropped) == w.resolved;
    Works(c, calm, s.(workers := [w.(predictor := Dead, run := Drop)]), Run(RunGo), w.(predictor := Dead, run := RunGone));
  }

  /** A new call finds the queue full, and registers. */
  lemma LinesUp(c: Config, calm: bool, s: Sys, id: nat, input: int, handle: nat)
    requires Reachable(c, calm, s) && Small(c, s) && WaitersKnown(s) && !s.permit && id !in s.callers && handle in s.handles
    requires Ready(c, s.workers[0], false) && !s.workers[0].acc.AccGone? && |s.workers[0].chan| == 1
    ensures Reachable(c, calm, s.(callers := s.callers[id := Caller(input, handle, Waits, Scanning(Fresh()), Queued, Nowhere, false)],
                                  waiters := s.waiters + [id]))
  {
    var k := Caller(input, handle, Waits, Scanning(Fresh()), NoNode, Nowhere, false);
    Calls(c, calm, s, id, input, handle, Waits);
    var s1 := s.(callers := s.callers[id := k]);
    FindsFull(c, calm, s1, id, k);
    var s2 := s.(callers := s.callers[id := k.(pc := Registering)]);
    assert s2.callers == s1.callers[id := k.(pc := Registering)];
    Registers(c, calm, s2, id, k.(pc := Registering));
    assert s2.callers[id := k.(node := Queued)] == s.callers[id := k.(node := Queued)];
  }

  /** A caller notified while parked wakes up and registers anew. */
  lemma WakesUp(c: Config, calm: bool, s: Sys, id: nat, k: Caller)
    requires Reachable(c, calm, s) && |s.workers| == 1 && !s.permit && id in s.callers && s.callers[id] == k
    requires k.pc.Parked? && k.node == NotifiedOne
    ensures Reachable(c, calm, s.(callers := s.callers[id := k.(pc := Scanning(Fresh()), node := Queued, woken := true)],
                                  waiters := s.waiters + [id]))
  {
    Go(c, calm, s, Wake(id));
    var k1 := k.(pc := Registering, node := NoNode, woken := true);
    var s1 := s.(callers := s.callers[id := k1]);
    Registers(c, calm, s1, id, k1);
    var k2 := k1.(pc := Scanning(Fresh()), node := Queued);
    assert s1.callers[id := k2] == s.callers[id := k2];
  }
}

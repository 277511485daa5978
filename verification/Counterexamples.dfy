/** Runs of a pool of one that end where the program's own documentation, or its comments, would not
    have them end. Each starts from the initial state. */
module Counterexamples {
  import opened StatusWord
  import opened Worker
  import opened System
  import opened Wakeup
  import opened Liveness
  import opened Stranding
  import opened Scenario
  import Router
  import WorkerHistory

  function Tiny(f: int -> int): Config {
    Config(1, 1, 1, f)
  }

  function R(id: nat): Request {
    Request(id, 0)
  }

  function Beginning(): Sys {
    Sys([Started()], map[], [], false, {0})
  }

  /** A caller whose request has been queued, and one that is still trying. */
  function QueuedAt(i: nat, node: Node): Caller {
    Caller(0, 0, Waits, Awaiting, node, At(i), false)
  }

  function Trying(pc: CallerPc, node: Node, woken: bool): Caller {
    Caller(0, 0, Waits, pc, node, Nowhere, woken)
  }

  function Cut(w: Worker, r: Request): Worker {
    w.(chan := [], buf := [r], len := w.len + 1, acc := CheckAlive(Capacity))
  }

  // The first request is with the predictor; the wakeup of its dequeue is stored.
  function FirstRunning(): Worker {
    Predicting(Sent(Permitted(Cut(PushRequest(Started(), R(1)), R(1)))), R(1))
  }

  function OneRunning(): Sys {
    Sys([FirstRunning()], map[1 := QueuedAt(0, NoNode)], [], true, {0})
  }

  function OneTaken(w: Worker): Sys {
    Sys([w], map[1 := QueuedAt(0, NoNode)], [], true, {0})
  }

  lemma ReachesOneTaken(f: int -> int, calm: bool)
    ensures Reachable(Tiny(f), calm, OneTaken(Cut(PushRequest(Started(), R(1)), R(1))))
  {
    var c := Tiny(f);
    Starts(c, calm, Beginning());
    Submits(c, calm, Beginning(), 1, 0, 0, Waits);
    var s1 := Sys([PushRequest(Started(), R(1))], map[1 := QueuedAt(0, NoNode)], [], false, {0});
    Dequeues(c, calm, s1, R(1));
  }

  lemma ReachesOneRunning(f: int -> int, calm: bool)
    ensures Reachable(Tiny(f), calm, OneRunning())
  {
    var c := Tiny(f);
    var w := Cut(PushRequest(Started(), R(1)), R(1));
    ReachesOneTaken(f, calm);
    GetsPermit(c, calm, OneTaken(w));
    SendsBatch(c, calm, OneTaken(Permitted(w)));
    StartsPredicting(c, calm, OneTaken(Sent(Permitted(w))), R(1));
  }

  // The second request has been dequeued as well.
  function SecondCut(): Worker {
    Cut(PushRequest(FirstRunning(), R(2)), R(2))
  }

  function TwoTaken(w: Worker): Sys {
    Sys([w], map[1 := QueuedAt(0, NoNode), 2 := QueuedAt(0, NoNode)], [], true, {0})
  }

  lemma ReachesTwoTaken(f: int -> int, calm: bool)
    ensures Reachable(Tiny(f), calm, TwoTaken(SecondCut()))
  {
    var c := Tiny(f);
    ReachesOneRunning(f, calm);
    Submits(c, calm, OneRunning(), 2, 0, 0, Waits);
    var s1 := TwoTaken(PushRequest(FirstRunning(), R(2)));
    assert s1.callers == OneRunning().callers[2 := QueuedAt(0, NoNode)];
    Dequeues(c, calm, s1, R(2));
  }

  // ---- A batch is stranded ----

  function Stranded2(): Worker {
    Sent(Rebuilds(Permitted(SecondCut()), R(1)).(predictor := Dead, run := RunGone))
  }

  /** The accumulator has a permit and has seen the predictor alive; then the thread panics, fails
      to rebuild and is gone; then the batch is sent. Its caller is stuck. */
  lemma ABatchCanBeStranded(f: int -> int)
    ensures Reachable(Tiny(f), false, TwoTaken(Stranded2())) && Stuck(TwoTaken(Stranded2()), 2)
  {
    var c := Tiny(f);
    ReachesTwoTaken(f, false);
    GetsPermit(c, false, TwoTaken(SecondCut()));
    var w1 := Permitted(SecondCut());
    PanicsThenRebuilds(c, false, TwoTaken(w1), R(1));
    var w2 := Rebuilds(w1, R(1));
    Dies(c, false, TwoTaken(w2));
    var w3 := w2.(predictor := Dead, run := RunGone);
    SendsBatch(c, false, TwoTaken(w3));
    WorkerHistory.FlatOne([R(2)]);
    assert Sent(w3).slot == [[R(2)]];
  }
  // ---- A wakeup is lost to a drain ----

  // The accumulator has seen the predictor rebuilding and is about to drain; meanwhile the rebuild
  // has ended and told the waiters, of which there were none.
  function Draining(): Worker {
    Rebuilds(SecondCut(), R(1)).(acc := DrainBuffer, predictor := Alive, run := Idle)
  }

  lemma ReachesDraining(f: int -> int)
    ensures Reachable(Tiny(f), false, TwoTaken(Draining()))
  {
    var c := Tiny(f);
    ReachesTwoTaken(f, false);
    PanicsThenRebuilds(c, false, TwoTaken(SecondCut()), R(1));
    var w1 := Rebuilds(SecondCut(), R(1));
    var w2 := w1.(acc := DrainBuffer);
    Works(c, false, TwoTaken(w1), Acc(AccGo), w2);
    ComesBack(c, false, TwoTaken(w2));
    var w3 := w2.(predictor := Alive, run := WakeAlive);
    TellsNobody(c, false, TwoTaken(w3), Draining());
  }

  function WithFourth(w: Worker, k: Caller, waiters: seq<nat>, permit: bool): Sys {
    Sys([w], map[1 := QueuedAt(0, NoNode), 2 := QueuedAt(0, NoNode), 3 := QueuedAt(0, NoNode), 4 := k], waiters, permit, {0})
  }

  // A third request fills the queue, and a fourth caller finds it full and uses up the stored
  // wakeup.
  lemma ReachesThreeQueued(f: int -> int)
    ensures Reachable(Tiny(f), false, WithFourth(PushRequest(Draining(), R(3)), Trying(Scanning(Fresh()), NoNode, false), [], true))
  {
    var c := Tiny(f);
    var w := PushRequest(Draining(), R(3));
    ReachesDraining(f);
    Submits(c, false, TwoTaken(Draining()), 3, 0, 0, Waits);
    var s1 := Sys([w], map[1 := QueuedAt(0, NoNode), 2 := QueuedAt(0, NoNode), 3 := QueuedAt(0, NoNode)], [], true, {0});
    assert s1.callers == TwoTaken(w).callers[3 := QueuedAt(0, NoNode)];
    Calls(c, false, s1, 4, 0, 0, Waits);
    assert WithFourth(w, Trying(Scanning(Fresh()), NoNode, false), [], true).callers ==
           s1.callers[4 := Trying(Scanning(Fresh()), NoNode, false)];
  }

  lemma ReachesFourthRegistered(f: int -> int)
    ensures Reachable(Tiny(f), false, WithFourth(PushRequest(Draining(), R(3)), Trying(Scanning(Fresh()), Consumed, false), [], false))
  {
    var c := Tiny(f);
    var w := PushRequest(Draining(), R(3));
    var k := Trying(Scanning(Fresh()), NoNode, false);
    ReachesThreeQueued(f);
    var s2 := WithFourth(w, k, [], true);
    FindsFull(c, false, s2, 4, k);
    var s3 := WithFourth(w, k.(pc := Registering), [], true);
    assert s3.callers == s2.callers[4 := k.(pc := Registering)];
    Go(c, false, s3, Register(4, 0));
    assert WithFourth(w, k.(node := Consumed), [], false).callers == s3.callers[4 := k.(node := Consumed)];
  }

  lemma ReachesFourthWoken(f: int -> int)
    ensures Reachable(Tiny(f), false, WithFourth(PushRequest(Draining(), R(3)), Trying(Registering, NoNode, true), [], false))
  {
    var c := Tiny(f);
    var w := PushRequest(Draining(), R(3));
    var k4 := Trying(Scanning(Fresh()), Consumed, false);
    ReachesFourthRegistered(f);
    var s4 := WithFourth(w, k4, [], false);
    FindsFull(c, false, s4, 4, k4);
    var s5 := WithFourth(w, k4.(pc := Parked), [], false);
    assert s5.callers == s4.callers[4 := k4.(pc := Parked)];
    Go(c, false, s5, Wake(4));
    assert WithFourth(w, Trying(Registering, NoNode, true), [], false).callers ==
           s5.callers[4 := Trying(Registering, NoNode, true)];
  }

  lemma ReachesFourthParked(f: int -> int)
    ensures Reachable(Tiny(f), false, WithFourth(PushRequest(Draining(), R(3)), Trying(Parked, Queued, false), [4], false))
  {
    var c := Tiny(f);
    var w := PushRequest(Draining(), R(3));
    ReachesFourthWoken(f);
    var s1 := WithFourth(w, Trying(Registering, NoNode, true), [], false);
    Registers(c, false, s1, 4, Trying(Registering, NoNode, true));
    var k := Trying(Scanning(Fresh()), Queued, true);
    var s2 := WithFourth(w, k, [4], false);
    assert s2.callers == s1.callers[4 := k] && s1.waiters + [4] == [4];
    FindsFull(c, false, s2, 4, k);
    assert WithFourth(w, Trying(Parked, Queued, false), [4], false).callers ==
           s2.callers[4 := Trying(Parked, Queued, false)];
  }

  // The drain takes the third request as well, and fails both.
  function Drained3(): Worker {
    var w := PushRequest(Draining(), R(3));
    w.(chan := [], buf := [], hand := [], segments := w.segments + [Drained([R(2), R(3)])],
       resolved := w.resolved + [Resolution(R(2), Failed(InternalError))] + [Resolution(R(3), Failed(InternalError))],
       status := Waiting, len := 0, acc := AwaitFirst)
  }

  lemma ReachesDrained(f: int -> int)
    ensures Reachable(Tiny(f), false, WithFourth(Drained3(), Trying(Parked, Queued, false), [4], false))
  {
    var c := Tiny(f);
    var s := WithFourth(PushRequest(Draining(), R(3)), Trying(Parked, Queued, false), [4], false);
    ReachesFourthParked(f);
    var w := s.workers[0];
    assert w.chan == [R(3)] && w.buf == [R(2)];
    var w1 := w.(chan := [], buf := [R(2), R(3)]);
    assert [R(3)][1..] == [] && [R(2)] + [R(3)] == [R(2), R(3)];
    Works(c, false, s, Acc(AccGo), w1);
    var w2 := w1.(hand := w1.buf, buf := [], segments := w.segments + [Drained(w1.buf)], acc := FailBuffer);
    Works(c, false, s.(workers := [w1]), Acc(AccGo), w2);
    var w3 := w2.(hand := [R(3)], resolved := w.resolved + [Resolution(R(2), Failed(InternalError))]);
    Works(c, false, s.(workers := [w2]), Acc(AccGo), w3);
    var w4 := w3.(hand := [], resolved := w3.resolved + [Resolution(R(3), Failed(InternalError))]);
    Works(c, false, s.(workers := [w3]), Acc(AccGo), w4);
    Works(c, false, s.(workers := [w4]), Acc(AccGo), Drained3());
  }

  function Failed1(): Caller {
    QueuedAt(0, NoNode).(pc := Done(Replied(Failed(InternalError))))
  }

  function FourthLeft(w: Worker, k1: Caller, k2: Caller, k3: Caller): Sys {
    Sys([w], map[1 := k1, 2 := k2, 3 := k3, 4 := Trying(Parked, Queued, false)], [4], false, {0})
  }

  function OnlyFourthLeft(): Sys {
    FourthLeft(Drained3(), Failed1(), Failed1(), Failed1())
  }

  lemma Fails(c: Config, s: Sys, id: nat)
    requires Reachable(c, false, s) && WaitersKnown(s) && id in s.callers && s.callers[id] == QueuedAt(0, NoNode)
    requires |s.workers| == 1 && Resolution(R(id), Failed(InternalError)) in s.workers[0].resolved
    ensures Reachable(c, false, s.(callers := s.callers[id := Failed1()]))
  {
    Go(c, false, s, Receive(id, Failed(InternalError)));
  }

  lemma FirstFails(c: Config, w: Worker)
    requires Reachable(c, false, FourthLeft(w, QueuedAt(0, NoNode), QueuedAt(0, NoNode), QueuedAt(0, NoNode)))
    requires Resolution(R(1), Failed(InternalError)) in w.resolved
    ensures Reachable(c, false, FourthLeft(w, Failed1(), QueuedAt(0, NoNode), QueuedAt(0, NoNode)))
  {
    var s := FourthLeft(w, QueuedAt(0, NoNode), QueuedAt(0, NoNode), QueuedAt(0, NoNode));
    Fails(c, s, 1);
    assert s.callers[1 := Failed1()] == FourthLeft(w, Failed1(), QueuedAt(0, NoNode), QueuedAt(0, NoNode)).callers;
  }

  lemma SecondFails(c: Config, w: Worker)
    requires Reachable(c, false, FourthLeft(w, Failed1(), QueuedAt(0, NoNode), QueuedAt(0, NoNode)))
    requires Resolution(R(2), Failed(InternalError)) in w.resolved
    ensures Reachable(c, false, FourthLeft(w, Failed1(), Failed1(), QueuedAt(0, NoNode)))
  {
    var s := FourthLeft(w, Failed1(), QueuedAt(0, NoNode), QueuedAt(0, NoNode));
    Fails(c, s, 2);
    assert s.callers[2 := Failed1()] == FourthLeft(w, Failed1(), Failed1(), QueuedAt(0, NoNode)).callers;
  }

  lemma ThirdFails(c: Config, w: Worker)
    requires Reachable(c, false, FourthLeft(w, Failed1(), Failed1(), QueuedAt(0, NoNode)))
    requires Resolution(R(3), Failed(InternalError)) in w.resolved
    ensures Reachable(c, false, FourthLeft(w, Failed1(), Failed1(), Failed1()))
  {
    var s := FourthLeft(w, Failed1(), Failed1(), QueuedAt(0, NoNode));
    Fails(c, s, 3);
    assert s.callers[3 := Failed1()] == FourthLeft(w, Failed1(), Failed1(), Failed1()).callers;
  }

  lemma ReachesOnlyFourthLeft(f: int -> int)
    ensures Reachable(Tiny(f), false, OnlyFourthLeft())
  {
    var w := Rebuilds(SecondCut(), R(1));
    assert Drained3().resolved == w.resolved + [Resolution(R(2), Failed(InternalError))] + [Resolution(R(3), Failed(InternalError))];
    ReachesDrained(f);
    FirstFails(Tiny(f), Drained3());
    SecondFails(Tiny(f), Drained3());
    ThirdFails(Tiny(f), Drained3());
  }

  /** A drain that overlaps the end of a rebuild takes a request without a notify_one. The caller
      that was waiting for its place stays parked, with nothing left to happen and an idle worker
      that would take its request at once. */
  lemma AWakeupCanBeLost(f: int -> int)
    ensures Reachable(Tiny(f), false, OnlyFourthLeft()) && Quiet(Tiny(f), OnlyFourthLeft())
    ensures ParkedUnnotified(OnlyFourthLeft().callers[4]) && Idles(Tiny(f), OnlyFourthLeft().workers[0])
  {
    ReachesOnlyFourthLeft(f);
  }

  // ---- A live worker is reported as gone ----

  function Recovered(): Worker {
    Rebuilds(FirstRunning(), R(1)).(predictor := Alive, run := WakeAlive)
  }

  function ToldNobodyIsLeft(): Sys {
    WithSecond(Recovered(), Trying(Done(NoAvailableWorkersError), NoNode, false))
  }

  function Rebuilding1(): Worker {
    Rebuilds(FirstRunning(), R(1))
  }

  function WithSecond(w: Worker, k: Caller): Sys {
    Sys([w], map[1 := QueuedAt(0, NoNode), 2 := k], [], true, {0})
  }

  lemma ReachesSecondCalling(f: int -> int)
    ensures Reachable(Tiny(f), false, WithSecond(Rebuilding1(), Trying(Scanning(Fresh()), NoNode, false)))
  {
    var c := Tiny(f);
    ReachesOneRunning(f, false);
    PanicsThenRebuilds(c, false, OneRunning(), R(1));
    Calls(c, false, OneTaken(Rebuilding1()), 2, 0, 0, Waits);
    assert WithSecond(Rebuilding1(), Trying(Scanning(Fresh()), NoNode, false)).callers ==
           OneTaken(Rebuilding1()).callers[2 := Trying(Scanning(Fresh()), NoNode, false)];
  }

  lemma ReachesSecondHalfway(f: int -> int)
    ensures Reachable(Tiny(f), false, WithSecond(Rebuilding1(), Trying(Scanning(Fresh().(stage := LoadRebuilding)), NoNode, false)))
  {
    var k := Trying(Scanning(Fresh()), NoNode, false);
    var s2 := WithSecond(Rebuilding1(), k);
    ReachesSecondCalling(f);
    Go(Tiny(f), false, s2, Probe(2, false));
    assert Router.Ring(0, 0, 1) == 0;
    var k3 := k.(pc := Scanning(Fresh().(stage := LoadRebuilding)));
    assert WithSecond(Rebuilding1(), k3).callers == s2.callers[2 := k3];
  }

  /** A router reads the predictor's state twice. A rebuild that ends between the two reads is seen
      as neither alive nor rebuilding, and the caller is told that no worker is left, by a pool
      whose only worker was never dead and is ready for its request. */
  lemma ALiveWorkerCanBeDenied(f: int -> int)
    ensures Reachable(Tiny(f), false, ToldNobodyIsLeft()) && Ready(Tiny(f), ToldNobodyIsLeft().workers[0], true)
  {
    var c := Tiny(f);
    var k3 := Trying(Scanning(Fresh().(stage := LoadRebuilding)), NoNode, false);
    ReachesSecondHalfway(f);
    ComesBack(c, false, WithSecond(Rebuilding1(), k3));
    var s4 := WithSecond(Recovered(), k3);
    Go(c, false, s4, Probe(2, false));
    assert Router.Ring(0, 0, 1) == 0;
    assert ToldNobodyIsLeft().callers == s4.callers[2 := Trying(Done(NoAvailableWorkersError), NoNode, false)];
  }
}

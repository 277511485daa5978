/** A run without panics of a pool of two in which a slot is free and a caller is parked, and no
    wakeup is on its way to anybody: the caller had looked at the free worker before the slot was
    freed, and the one that was woken for it found room elsewhere. */
module TwoWorkers {
  import opened StatusWord
  import opened Worker
  import opened System
  import opened Wakeup
  import opened Ranking
  import opened Accounting
  import opened Scenario
  import opened Counterexamples
  import Router

  /** A caller that has found nothing at its present probe, with hope or without. */
  function Onward(n: nat, k: Caller, scan: Scan): Caller {
    var next := scan.(stage := LoadState);
    if scan.probes + 1 < n then k.(pc := Scanning(next.(probes := scan.probes + 1)))
    else if scan.primary then k.(pc := Scanning(next.(probes := 0, primary := false)))
    else k.(pc := if k.node == NoNode then Registering else Parked, woken := false)
  }

  predicate MayGoOn(n: nat, k: Caller, scan: Scan) {
    scan.probes + 1 < n || scan.primary || (scan.hope && k.mode == Waits)
  }

  // A worker that is ready turns out to be full.
  lemma TriesFull(c: Config, s: Sys, id: nat, k: Caller, scan: Scan)
    requires Reachable(c, true, s) && WaitersKnown(s) && |s.workers| > 0 && id in s.callers && s.callers[id] == k
    requires k.pc == Scanning(scan) && scan.stage == LoadState
    requires var w := s.workers[Sink(s, scan)];
             Ready(c, w, scan.primary) && !w.acc.AccGone? && |w.chan| == c.queueSize
    requires MayGoOn(|s.workers|, k, scan.(hope := scan.hope || !scan.primary))
    ensures Reachable(c, true, s.(callers := s.callers[id := Onward(|s.workers|, k, scan.(hope := scan.hope || !scan.primary))]))
  {
    Go(c, true, s, Probe(id, false));
    var k1 := k.(pc := Scanning(scan.(stage := TrySend)));
    var s1 := s.(callers := s.callers[id := k1]);
    Go(c, true, s1, Probe(id, false));
    var k2 := Onward(|s.workers|, k, scan.(hope := scan.hope || !scan.primary));
    assert Step(c, s1, Probe(id, false)) == SetCaller(s1, id, k2);
    assert s1.callers[id := k2] == s.callers[id := k2];
  }

  // A worker that is not waiting for requests is passed over in the first pass.
  lemma PassesOver(c: Config, s: Sys, id: nat, k: Caller, scan: Scan)
    requires Reachable(c, true, s) && WaitersKnown(s) && |s.workers| > 0 && id in s.callers && s.callers[id] == k
    requires k.pc == Scanning(scan) && scan.stage == LoadState && scan.primary
    requires !Ready(c, s.workers[Sink(s, scan)], true)
    ensures Reachable(c, true, s.(callers := s.callers[id := Onward(|s.workers|, k, scan)]))
  {
    Go(c, true, s, Probe(id, false));
  }

  lemma TriesRoom(c: Config, s: Sys, id: nat, k: Caller, scan: Scan)
    requires Reachable(c, true, s) && WaitersKnown(s) && |s.workers| > 0 && id in s.callers && s.callers[id] == k
    requires k.pc == Scanning(scan) && scan.stage == LoadState
    requires var w := s.workers[Sink(s, scan)];
             Ready(c, w, scan.primary) && !w.acc.AccGone? && |w.chan| < c.queueSize
    ensures var i := Sink(s, scan);
            Reachable(c, true, s.(workers := s.workers[i := PushRequest(s.workers[i], Request(id, k.input))],
                                  callers := s.callers[id := k.(pc := Awaiting, home := At(i), woken := false)]))
  {
    Go(c, true, s, Probe(id, false));
    var i := Sink(s, scan);
    var k1 := k.(pc := Scanning(scan.(stage := TrySend)));
    var s1 := s.(callers := s.callers[id := k1]);
    Go(c, true, s1, Probe(id, false));
    var k2 := k.(pc := Awaiting, home := At(i), woken := false);
    assert s1.callers[id := k2] == s.callers[id := k2];
  }

  // ---- Two workers ----

  function From(start: nat, probes: nat, primary: bool, hope: bool): CallerPc {
    Scanning(Scan(start, probes, primary, LoadState, hope))
  }

  /** The states of the run: two workers, two requests queued first, two callers more. */
  function Two(w0: Worker, w1: Worker, k3: Caller, k4: Caller, waiters: seq<nat>): Sys {
    Sys([w0, w1], map[1 := QueuedAt(0, NoNode), 2 := QueuedAt(1, NoNode), 3 := k3, 4 := k4], waiters, false, {0})
  }

  lemma Ring2(start: nat, k: nat)
    requires start < 2 && k < 2
    ensures Router.Ring(start, k, 2) == if k == 0 then start else 1 - start
  {
    Router.RingWraps(start, k, 2);
  }

  // Some caller's whole walk over two full workers.
  lemma WalksFull(c: Config, s: Sys, id: nat, k: Caller)
    requires Reachable(c, true, s) && WaitersKnown(s) && |s.workers| == 2 && id in s.callers && s.callers[id] == k
    requires k.mode == Waits && k.pc == From(0, 0, true, false)
    requires forall i | 0 <= i < 2 :: Ready(c, s.workers[i], true) && !s.workers[i].acc.AccGone? && |s.workers[i].chan| == c.queueSize
    ensures Reachable(c, true, s.(callers := s.callers[id := k.(pc := if k.node == NoNode then Registering else Parked, woken := false)]))
  {
    TriesFull(c, s, id, k, Scan(0, 0, true, LoadState, false));
    var k1 := k.(pc := From(0, 1, true, false));
    var s1 := s.(callers := s.callers[id := k1]);
    TriesFull(c, s1, id, k1, Scan(0, 1, true, LoadState, false));
    var k2 := k.(pc := From(0, 0, false, false));
    var s2 := s.(callers := s.callers[id := k2]);
    assert s1.callers[id := k2] == s2.callers;
    WalksFullAgain(c, s2, id, k2);
    var k3 := k.(pc := if k.node == NoNode then Registering else Parked, woken := false);
    assert s2.callers[id := k3] == s.callers[id := k3];
  }

  // Its second pass.
  lemma WalksFullAgain(c: Config, s: Sys, id: nat, k: Caller)
    requires Reachable(c, true, s) && WaitersKnown(s) && |s.workers| == 2 && id in s.callers && s.callers[id] == k
    requires k.mode == Waits && k.pc == From(0, 0, false, false)
    requires forall i | 0 <= i < 2 :: Ready(c, s.workers[i], true) && !s.workers[i].acc.AccGone? && |s.workers[i].chan| == c.queueSize
    ensures Reachable(c, true, s.(callers := s.callers[id := k.(pc := if k.node == NoNode then Registering else Parked, woken := false)]))
  {
    TriesFull(c, s, id, k, Scan(0, 0, false, LoadState, false));
    var k1 := k.(pc := From(0, 1, false, true));
    var s1 := s.(callers := s.callers[id := k1]);
    TriesFull(c, s1, id, k1, Scan(0, 1, false, LoadState, true));
    var k2 := k.(pc := if k.node == NoNode then Registering else Parked, woken := false);
    assert s1.callers[id := k2] == s.callers[id := k2];
  }

  // A new caller finds both workers full, registers, finds them full again and parks.
  lemma Parks(c: Config, s: Sys, id: nat)
    requires Reachable(c, true, s) && WaitersKnown(s) && |s.workers| == 2 && !s.permit && id !in s.callers && 0 in s.handles
    requires forall i | 0 <= i < 2 :: Ready(c, s.workers[i], true) && !s.workers[i].acc.AccGone? && |s.workers[i].chan| == c.queueSize
    ensures Reachable(c, true, s.(callers := s.callers[id := Trying(Parked, Queued, false)], waiters := s.waiters + [id]))
  {
    var k := Trying(From(0, 0, true, false), NoNode, false);
    Go(c, true, s, Call(id, 0, 0, Waits, 0));
    var s1 := s.(callers := s.callers[id := k]);
    WalksFull(c, s1, id, k);
    var s2 := s.(callers := s.callers[id := k.(pc := Registering)]);
    assert s1.callers[id := k.(pc := Registering)] == s2.callers;
    Go(c, true, s2, Register(id, 0));
    var s3 := s.(callers := s.callers[id := k.(node := Queued)], waiters := s.waiters + [id]);
    assert s2.callers[id := k.(node := Queued)] == s3.callers;
    WalksFull(c, s3, id, k.(node := Queued));
    assert s3.callers[id := Trying(Parked, Queued, false)] == s.callers[id := Trying(Parked, Queued, false)];
  }

  // A worker dequeues its only request and wakes the first in line.
  lemma WakesFirst(c: Config, s: Sys, i: nat, r: Request)
    requires Reachable(c, true, s) && WaitersKnown(s) && i < |s.workers| && s.handles != {} && c.batchSize == 1
    requires s.workers[i].acc.AwaitFirst? && s.workers[i].chan == [r] && s.workers[i].buf == []
    ensures Reachable(c, true, NotifyOne(SetWorker(s, i, Cut(s.workers[i], r))))
  {
    var w := s.workers[i];
    Go(c, true, s, Act.Work(i, Acc(AccRecv)));
    var w1 := w.(chan := [], acc := SignalFirst(r));
    var s1 := SetWorker(s, i, w1);
    assert [r][1..] == [];
    assert Step(c, s, Act.Work(i, Acc(AccRecv))) == s1;
    Go(c, true, s1, Act.Work(i, Acc(AccGo)));
    assert [] + [r] == [r];
    assert PushTaken(c, w1, r) == Cut(w, r);
    assert s1.workers[i := Cut(w, r)] == s.workers[i := Cut(w, r)];
  }

  // A caller notified while parked registers anew.
  lemma RegistersAnew(c: Config, s: Sys, id: nat, start: nat)
    requires Reachable(c, true, s) && |s.workers| == 2 && !s.permit && start < 2
    requires id in s.callers && s.callers[id] == Trying(Parked, NotifiedOne, false)
    ensures Reachable(c, true, s.(callers := s.callers[id := Trying(From(start, 0, true, false), Queued, true)],
                                  waiters := s.waiters + [id]))
  {
    Go(c, true, s, Wake(id));
    var k := Trying(Registering, NoNode, true);
    var s1 := s.(callers := s.callers[id := k]);
    Go(c, true, s1, Register(id, start));
    var k2 := Trying(From(start, 0, true, false), Queued, true);
    assert s1.callers[id := k2] == s.callers[id := k2];
  }

  // ---- The run ----

  function Full(id: nat): Worker {
    PushRequest(Started(), R(id))
  }

  function Emptied(id: nat): Worker {
    Cut(Full(id), R(id))
  }

  function BothFull(): Sys {
    Sys([Full(1), Full(2)], map[1 := QueuedAt(0, NoNode), 2 := QueuedAt(1, NoNode)], [], false, {0})
  }

  lemma ReachesBothFull(f: int -> int)
    ensures Reachable(Tiny(f), true, BothFull())
  {
    var c := Tiny(f);
    var s0 := Sys([Started(), Started()], map[], [], false, {0});
    Starts(c, true, s0);
    Go(c, true, s0, Call(1, 0, 0, Waits, 0));
    var k := Trying(From(0, 0, true, false), NoNode, false);
    var s1 := s0.(callers := map[1 := k]);
    assert s1.callers == s0.callers[1 := k];
    Ring2(0, 0);
    TriesRoom(c, s1, 1, k, k.pc.scan);
    var s2 := Sys([Full(1), Started()], map[1 := QueuedAt(0, NoNode)], [], false, {0});
    assert s2.callers == s1.callers[1 := QueuedAt(0, NoNode)] && s2.workers == s1.workers[0 := Full(1)];
    ReachesSecondFull(f, s2);
  }

  lemma ReachesSecondFull(f: int -> int, s: Sys)
    requires Reachable(Tiny(f), true, s) && s == Sys([Full(1), Started()], map[1 := QueuedAt(0, NoNode)], [], false, {0})
    ensures Reachable(Tiny(f), true, BothFull())
  {
    var c := Tiny(f);
    Go(c, true, s, Call(2, 0, 0, Waits, 1));
    var k := Trying(From(1, 0, true, false), NoNode, false);
    var s1 := s.(callers := map[1 := QueuedAt(0, NoNode), 2 := k]);
    assert s1.callers == s.callers[2 := k];
    Ring2(1, 0);
    TriesRoom(c, s1, 2, k, k.pc.scan);
    assert BothFull().callers == s1.callers[2 := QueuedAt(1, NoNode)] && BothFull().workers == s1.workers[1 := Full(2)];
  }

  function Asleep(): Caller {
    Trying(Parked, Queued, false)
  }

  lemma ReachesBothParked(f: int -> int)
    ensures Reachable(Tiny(f), true, Two(Full(1), Full(2), Asleep(), Asleep(), [3, 4]))
  {
    var c := Tiny(f);
    ReachesBothFull(f);
    Parks(c, BothFull(), 3);
    var s1 := Sys([Full(1), Full(2)], map[1 := QueuedAt(0, NoNode), 2 := QueuedAt(1, NoNode), 3 := Asleep()], [3], false, {0});
    assert s1.callers == BothFull().callers[3 := Asleep()] && [] + [3] == [3];
    Parks(c, s1, 4);
    assert Two(Full(1), Full(2), Asleep(), Asleep(), [3, 4]).callers == s1.callers[4 := Asleep()] && [3] + [4] == [3, 4];
  }

  // The second worker frees its slot for the third caller, who starts with the first worker.
  lemma ReachesThirdLooking(f: int -> int)
    ensures Reachable(Tiny(f), true, Two(Full(1), Emptied(2), Trying(From(0, 0, true, false), Queued, true), Asleep(), [4, 3]))
  {
    var c := Tiny(f);
    ReachesBothParked(f);
    var s := Two(Full(1), Full(2), Asleep(), Asleep(), [3, 4]);
    WakesFirst(c, s, 1, R(2));
    var woken := Trying(Parked, NotifiedOne, false);
    var s1 := Two(Full(1), Emptied(2), woken, Asleep(), [4]);
    assert s1.callers == s.callers[3 := woken] && s1.workers == s.workers[1 := Emptied(2)] && [3, 4][1..] == [4];
    RegistersAnew(c, s1, 3, 0);
    var k := Trying(From(0, 0, true, false), Queued, true);
    assert Two(Full(1), Emptied(2), k, Asleep(), [4, 3]).callers == s1.callers[3 := k] && [4] + [3] == [4, 3];
  }

  lemma ReachesThirdHalfway(f: int -> int)
    ensures Reachable(Tiny(f), true, Two(Full(1), Emptied(2), Trying(From(0, 1, false, true), Queued, true), Asleep(), [4, 3]))
  {
    var c := Tiny(f);
    var (w0, w1) := (Full(1), Emptied(2));
    Ring2(0, 0);
    Ring2(0, 1);
    ReachesThirdLooking(f);
    var k0 := Trying(From(0, 0, true, false), Queued, true);
    var s0 := Two(w0, w1, k0, Asleep(), [4, 3]);
    TriesFull(c, s0, 3, k0, k0.pc.scan);
    var k1 := Trying(From(0, 1, true, false), Queued, true);
    var s1 := Two(w0, w1, k1, Asleep(), [4, 3]);
    assert s1.callers == s0.callers[3 := k1];
    PassesOver(c, s1, 3, k1, k1.pc.scan);
    var k2 := Trying(From(0, 0, false, false), Queued, true);
    var s2 := Two(w0, w1, k2, Asleep(), [4, 3]);
    assert s2.callers == s1.callers[3 := k2];
    TriesFull(c, s2, 3, k2, k2.pc.scan);
    var k3 := Trying(From(0, 1, false, true), Queued, true);
    assert Two(w0, w1, k3, Asleep(), [4, 3]).callers == s2.callers[3 := k3];
  }

  // Only now does the first worker free its slot, for the fourth caller.
  lemma ReachesFourthLooking(f: int -> int)
    ensures Reachable(Tiny(f), true, Two(Emptied(1), Emptied(2), Trying(From(0, 1, false, true), Queued, true),
                                         Trying(From(1, 0, true, false), Queued, true), [3, 4]))
  {
    var c := Tiny(f);
    var k3 := Trying(From(0, 1, false, true), Queued, true);
    ReachesThirdHalfway(f);
    var s := Two(Full(1), Emptied(2), k3, Asleep(), [4, 3]);
    WakesFirst(c, s, 0, R(1));
    var woken := Trying(Parked, NotifiedOne, false);
    var s1 := Two(Emptied(1), Emptied(2), k3, woken, [3]);
    assert s1.callers == s.callers[4 := woken] && s1.workers == s.workers[0 := Emptied(1)] && [4, 3][1..] == [3];
    RegistersAnew(c, s1, 4, 1);
    var k4 := Trying(From(1, 0, true, false), Queued, true);
    assert Two(Emptied(1), Emptied(2), k3, k4, [3, 4]).callers == s1.callers[4 := k4] && [3] + [4] == [3, 4];
  }

  // The fourth caller takes the slot of the second worker.
  lemma ReachesFourthQueued(f: int -> int)
    ensures Reachable(Tiny(f), true, Two(Emptied(1), PushRequest(Emptied(2), R(4)), Trying(From(0, 1, false, true), Queued, true),
                                         QueuedAt(1, Queued), [3, 4]))
  {
    var c := Tiny(f);
    var (w0, w1) := (Emptied(1), Emptied(2));
    var k3 := Trying(From(0, 1, false, true), Queued, true);
    Ring2(1, 0);
    Ring2(1, 1);
    ReachesFourthLooking(f);
    var k0 := Trying(From(1, 0, true, false), Queued, true);
    var s0 := Two(w0, w1, k3, k0, [3, 4]);
    PassesOver(c, s0, 4, k0, k0.pc.scan);
    var k1 := Trying(From(1, 1, true, false), Queued, true);
    var s1 := Two(w0, w1, k3, k1, [3, 4]);
    assert s1.callers == s0.callers[4 := k1];
    PassesOver(c, s1, 4, k1, k1.pc.scan);
    var k2 := Trying(From(1, 0, false, false), Queued, true);
    var s2 := Two(w0, w1, k3, k2, [3, 4]);
    assert s2.callers == s1.callers[4 := k2];
    TriesRoom(c, s2, 4, k2, k2.pc.scan);
    assert Two(w0, PushRequest(w1, R(4)), k3, QueuedAt(1, Queued), [3, 4]).callers == s2.callers[4 := QueuedAt(1, Queued)];
    assert [w0, w1][1 := PushRequest(w1, R(4))] == [w0, PushRequest(w1, R(4))];
  }

  function Missed(): Sys {
    Two(Emptied(1), PushRequest(Emptied(2), R(4)), Asleep(), QueuedAt(1, Queued), [3, 4])
  }

  /** The third caller parks with the first worker's slot free, while no dequeue owes a notify_one,
      no wakeup is stored, and no caller has been notified or woken without having tried since. */
  lemma ASlotCanBeMissed(f: int -> int)
    ensures Reachable(Tiny(f), true, Missed())
    ensures !Balanced(Tiny(f), Missed(), true)
    ensures ParkedUnnotified(Missed().callers[3]) && |Missed().workers[0].chan| < Tiny(f).queueSize
    ensures !Missed().permit && forall i | 0 <= i < 2 :: !Signals(Missed().workers[i])
    ensures forall id | id in Missed().callers ::
              Missed().callers[id].node in {NoNode, Queued} && !Missed().callers[id].woken && !Missed().callers[id].pc.Registering?
  {
    var k3 := Trying(From(0, 1, false, true), Queued, true);
    var s := Two(Emptied(1), PushRequest(Emptied(2), R(4)), k3, QueuedAt(1, Queued), [3, 4]);
    ReachesFourthQueued(f);
    Ring2(0, 1);
    TriesFull(Tiny(f), s, 3, k3, k3.pc.scan);
    assert Missed().callers == s.callers[3 := Asleep()];
    MissedIsOff(f);
  }

  lemma MissedIsOff(f: int -> int)
    ensures !Balanced(Tiny(f), Missed(), true)
  {
    var s := Missed();
    SumOfNothing(s.callers.Keys, id => Weight(s, 3, true, id));
    assert Wakeups(s, 3, true) == 0;
    assert s.workers[1..] == [s.workers[1]] && s.workers[1..][1..] == [];
    assert Occupied(s.workers[0]) == 0 && Occupied(s.workers[1]) == 1;
    assert OccupiedAll(s.workers) == 1;
    assert IsParked(s, 3) && !Covered(Tiny(f), s, 3, true);
  }
}

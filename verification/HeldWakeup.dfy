/** A run without panics of a pool of one in which a slot is free, a caller is parked, and no wakeup
    is on its way to anybody who will try again: the only one was given to a caller that had already
    found room and now awaits its reply. */
module HeldWakeup {
  import opened Worker
  import opened System
  import opened Wakeup
  import opened Ranking
  import opened Accounting
  import opened Scenario
  import opened Counterexamples

  // The first request fills the queue; the second and third callers line up behind it.
  function Line(w: Worker, k2: Caller, k3: Caller, waiters: seq<nat>): Sys {
    Sys([w], map[1 := QueuedAt(0, NoNode), 2 := k2, 3 := k3], waiters, false, {0})
  }

  function InQueue(id: nat): Worker {
    PushRequest(Started(), R(id))
  }

  lemma ReachesSecondInLine(f: int -> int)
    ensures Reachable(Tiny(f), true, Sys([InQueue(1)], map[1 := QueuedAt(0, NoNode), 2 := Trying(Scanning(Fresh()), Queued, false)], [2], false, {0}))
  {
    var c := Tiny(f);
    Starts(c, true, Beginning());
    Submits(c, true, Beginning(), 1, 0, 0, Waits);
    var s1 := Sys([InQueue(1)], map[1 := QueuedAt(0, NoNode)], [], false, {0});
    assert s1.callers == Beginning().callers[1 := QueuedAt(0, NoNode)];
    LinesUp(c, true, s1, 2, 0, 0);
    assert map[1 := QueuedAt(0, NoNode), 2 := Trying(Scanning(Fresh()), Queued, false)] ==
           s1.callers[2 := Trying(Scanning(Fresh()), Queued, false)];
    assert [] + [2] == [2];
  }

  lemma ReachesLine(f: int -> int)
    ensures Reachable(Tiny(f), true, Line(InQueue(1), Trying(Parked, Queued, false), Trying(Scanning(Fresh()), Queued, false), [2, 3]))
  {
    var c := Tiny(f);
    var k := Trying(Scanning(Fresh()), Queued, false);
    ReachesSecondInLine(f);
    var s1 := Sys([InQueue(1)], map[1 := QueuedAt(0, NoNode), 2 := k], [2], false, {0});
    FindsFull(c, true, s1, 2, k);
    var s2 := s1.(callers := map[1 := QueuedAt(0, NoNode), 2 := Trying(Parked, Queued, false)]);
    assert s2.callers == s1.callers[2 := Trying(Parked, Queued, false)];
    LinesUp(c, true, s2, 3, 0, 0);
    assert Line(InQueue(1), Trying(Parked, Queued, false), k, [2, 3]).callers == s2.callers[3 := k];
    assert [2] + [3] == [2, 3];
  }

  // The dequeue of the first request wakes the second caller, but the third takes the slot.
  function ThirdQueued(): Worker {
    PushRequest(Cut(InQueue(1), R(1)), R(3))
  }

  lemma ReachesThirdQueued(f: int -> int)
    ensures Reachable(Tiny(f), true, Line(ThirdQueued(), Trying(Parked, NotifiedOne, false), QueuedAt(0, Queued), [3]))
  {
    var c := Tiny(f);
    var k := Trying(Scanning(Fresh()), Queued, false);
    ReachesLine(f);
    Dequeues(c, true, Line(InQueue(1), Trying(Parked, Queued, false), k, [2, 3]), R(1));
    var s1 := Line(Cut(InQueue(1), R(1)), Trying(Parked, NotifiedOne, false), k, [3]);
    assert [2, 3][1..] == [3];
    assert s1.callers == Line(InQueue(1), Trying(Parked, Queued, false), k, [2, 3]).callers[2 := Trying(Parked, NotifiedOne, false)];
    CanSubmit(c, true, s1, 3, k);
    assert Line(ThirdQueued(), Trying(Parked, NotifiedOne, false), QueuedAt(0, Queued), [3]).callers ==
           s1.callers[3 := QueuedAt(0, Queued)];
  }

  // The second caller finds the queue full again and is back in line, behind the third, which
  // never left it.
  lemma ReachesBackInLine(f: int -> int)
    ensures Reachable(Tiny(f), true, Line(ThirdQueued(), Trying(Parked, Queued, false), QueuedAt(0, Queued), [3, 2]))
  {
    var c := Tiny(f);
    ReachesThirdQueued(f);
    var s1 := Line(ThirdQueued(), Trying(Parked, NotifiedOne, false), QueuedAt(0, Queued), [3]);
    WakesUp(c, true, s1, 2, Trying(Parked, NotifiedOne, false));
    var k := Trying(Scanning(Fresh()), Queued, true);
    var s2 := Line(ThirdQueued(), k, QueuedAt(0, Queued), [3, 2]);
    assert s2.callers == s1.callers[2 := k] && [3] + [2] == [3, 2];
    FindsFull(c, true, s2, 2, k);
    assert Line(ThirdQueued(), Trying(Parked, Queued, false), QueuedAt(0, Queued), [3, 2]).callers ==
           s2.callers[2 := Trying(Parked, Queued, false)];
  }

  // The dequeue of the third request wakes the third caller.
  function ThirdTaken(): Worker {
    Cut(Sent(Permitted(ThirdQueued())), R(3))
  }

  function Held(): Sys {
    Line(ThirdTaken(), Trying(Parked, Queued, false), QueuedAt(0, NotifiedOne), [2])
  }

  lemma ReachesFirstSent(f: int -> int)
    ensures Reachable(Tiny(f), true, Line(Sent(Permitted(ThirdQueued())), Trying(Parked, Queued, false), QueuedAt(0, Queued), [3, 2]))
  {
    var c := Tiny(f);
    ReachesBackInLine(f);
    var s1 := Line(ThirdQueued(), Trying(Parked, Queued, false), QueuedAt(0, Queued), [3, 2]);
    GetsPermit(c, true, s1);
    SendsBatch(c, true, s1.(workers := [Permitted(ThirdQueued())]));
  }

  lemma ReachesHeld(f: int -> int)
    ensures Reachable(Tiny(f), true, Held())
  {
    var c := Tiny(f);
    ReachesFirstSent(f);
    var s3 := Line(Sent(Permitted(ThirdQueued())), Trying(Parked, Queued, false), QueuedAt(0, Queued), [3, 2]);
    Dequeues(c, true, s3, R(3));
    assert [3, 2][1..] == [2];
    assert Held().callers == s3.callers[3 := QueuedAt(0, NotifiedOne)];
  }

  /** The free slots can outnumber the wakeups that anybody will use, in a run without panics. */
  lemma AWakeupCanBeHeld(f: int -> int)
    ensures Reachable(Tiny(f), true, Held()) && ParkedUnnotified(Held().callers[2])
    ensures !Balanced(Tiny(f), Held(), false)
  {
    ReachesHeld(f);
    assert Wakeups(Held(), 2, false) == 0 by {
      SumOfNothing(Held().callers.Keys, id => Weight(Held(), 2, false, id));
    }
    assert Occupied(Held().workers[0]) == 0;
    assert IsParked(Held(), 2) && !Covered(Tiny(f), Held(), 2, false);
  }
}

/** Free slots against wakeups, for a pool of any size whose predictors do not panic: while a caller
    is parked unnotified, each free slot of a request channel has a wakeup on its way to a caller
    that has not tried again yet, or one held by a caller that already awaits its reply; and exactly
    which steps end that. */
module Accounting {
  import opened Worker
  import opened WorkerShape
  import opened WorkerInvariant
  import opened System
  import opened SystemShape
  import opened Wakeup
  import opened Ranking
  import opened PanicFree

  // ---- Who stands where in the line ----

  /** Those in line behind `x`. */
  function After(waiters: seq<nat>, x: nat): seq<nat> {
    if waiters == [] then [] else if waiters[0] == x then waiters[1..] else After(waiters[1..], x)
  }

  lemma {:induction false} AfterIsWithin(waiters: seq<nat>, x: nat, y: nat)
    requires y in After(waiters, x)
    ensures waiters != [] && y in waiters[1..]
  {
    if waiters[0] != x {
      AfterIsWithin(waiters[1..], x, y);
    }
  }

  lemma {:induction false} AfterAppend(waiters: seq<nat>, x: nat, y: nat)
    requires x in waiters
    ensures After(waiters + [y], x) == After(waiters, x) + [y]
  {
    assert (waiters + [y])[1..] == waiters[1..] + [y];
    if waiters[0] != x {
      AfterAppend(waiters[1..], x, y);
    }
  }

  lemma {:induction false} WithoutKeeps(waiters: seq<nat>, id: nat, y: nat)
    requires y != id
    ensures y in Without(waiters, id) <==> y in waiters
  {
    if waiters != [] {
      WithoutKeeps(waiters[1..], id, y);
    }
  }

  lemma {:induction false} AfterWithout(waiters: seq<nat>, id: nat, x: nat, y: nat)
    requires x != id && y != id
    ensures y in After(Without(waiters, id), x) <==> y in After(waiters, x)
  {
    if waiters != [] {
      if waiters[0] == x {
        assert Without(waiters, id) == [x] + Without(waiters[1..], id);
        assert Without(waiters, id)[1..] == Without(waiters[1..], id);
        WithoutKeeps(waiters[1..], id, y);
      } else {
        AfterWithout(waiters[1..], id, x, y);
        if waiters[0] != id {
          assert Without(waiters, id)[1..] == Without(waiters[1..], id);
        }
      }
    }
  }

  // ---- The account ----

  /** A wakeup this caller has and has not used, seen from a caller `x` parked in the line: one it
      was given, or one it is about to use; `held` counts those given to a caller that already
      awaits its reply. */
  function Weight(s: Sys, x: nat, held: bool, id: nat): nat {
    if id !in s.callers then 0
    else
      var k := s.callers[id];
      if k.node == NotifiedOne then (if k.pc.Awaiting? && !held then 0 else 1)
      else if k.woken && (k.pc.Registering? || (k.pc.Scanning? && (k.node == Queued ==> id in After(s.waiters, x)))) then 1
      else 0
  }

  ghost function Wakeups(s: Sys, x: nat, held: bool): nat {
    Sum(s.callers.Keys, id => Weight(s, x, held, id))
  }

  /** The queued requests, and one dequeued whose notify_one has yet to be sent. */
  function Occupied(w: Worker): nat {
    |w.chan| + if Signals(w) then 1 else 0
  }

  function OccupiedAll(workers: seq<Worker>): nat {
    if workers == [] then 0 else Occupied(workers[0]) + OccupiedAll(workers[1..])
  }

  function Slots(c: Config, s: Sys): nat {
    |s.workers| * c.queueSize
  }

  /** The free slots are no more than the wakeups in flight. */
  ghost predicate Covered(c: Config, s: Sys, x: nat, held: bool) {
    Slots(c, s) <= OccupiedAll(s.workers) + Wakeups(s, x, held)
  }

  predicate IsParked(s: Sys, x: nat) {
    x in s.callers && ParkedUnnotified(s.callers[x])
  }

  ghost predicate Balanced(c: Config, s: Sys, held: bool) {
    forall x | IsParked(s, x) :: Covered(c, s, x, held)
  }

  lemma {:induction false} OccupiedUpdate(workers: seq<Worker>, i: nat, w: Worker)
    requires i < |workers|
    ensures OccupiedAll(workers[i := w]) + Occupied(workers[i]) == OccupiedAll(workers) + Occupied(w)
  {
    if i == 0 {
      assert workers[0 := w][1..] == workers[1..];
    } else {
      assert workers[i := w][1..] == workers[1..][i - 1 := w];
      OccupiedUpdate(workers[1..], i - 1, w);
    }
  }

  /** With a slot free somewhere in the pool, some worker has one. */
  lemma {:induction false} SomeHasRoom(workers: seq<Worker>, size: nat)
    requires OccupiedAll(workers) < |workers| * size
    ensures exists i | 0 <= i < |workers| :: Occupied(workers[i]) < size
  {
    if Occupied(workers[0]) >= size {
      assert |workers| * size == size + (|workers| - 1) * size;
      SomeHasRoom(workers[1..], size);
      var i :| 0 <= i < |workers[1..]| && Occupied(workers[1..][i]) < size;
      assert Occupied(workers[i + 1]) < size;
    }
  }

  // ---- How the sum changes ----

  lemma WakeupsChange(s: Sys, s': Sys, x: nat, held: bool, id: nat)
    requires id in s.callers && s'.callers.Keys == s.callers.Keys
    requires forall y | y in s.callers && y != id :: Weight(s', x, held, y) == Weight(s, x, held, y)
    ensures Wakeups(s', x, held) + Weight(s, x, held, id) == Wakeups(s, x, held) + Weight(s', x, held, id)
  {
    SumChanges(s.callers.Keys, y => Weight(s, x, held, y), y => Weight(s', x, held, y), id);
  }

  /** A notify_one that reaches somebody else than `x` is a wakeup more, unless it reaches a caller
      that awaits its reply and those are not counted. */
  lemma NotifyOneCounts(s: Sys, x: nat, held: bool)
    requires WaitList(s) && IsParked(s, x)
    requires forall y | y in s.callers && s.callers[y].node == Queued :: !s.callers[y].pc.Registering?
    ensures WaitersKnown(s) && s.waiters != []
    ensures IsParked(NotifyOne(s), x) <==> s.waiters[0] != x
    ensures s.waiters[0] != x ==>
              Wakeups(NotifyOne(s), x, held) ==
              Wakeups(s, x, held) + if s.callers[s.waiters[0]].pc.Awaiting? && !held then 0 else 1
  {
    assert x in s.waiters;
    var id := s.waiters[0];
    var s' := NotifyOne(s);
    if id != x {
      if id in After(s.waiters, x) {
        AfterIsWithin(s.waiters, x, id);
      }
      assert id !in After(s.waiters, x);
      assert s'.callers.Keys == s.callers.Keys;
      WakeupsChange(s, s', x, held, id);
    }
  }

  lemma QueuedIsNotRegistering(s: Sys)
    requires CallersShape(s)
    ensures forall y | y in s.callers && s.callers[y].node == Queued :: !s.callers[y].pc.Registering?
  {
    forall y | y in s.callers && s.callers[y].node == Queued
      ensures !s.callers[y].pc.Registering?
    {
      assert CallerShape(|s.workers|, s.handles, s.callers[y]);
    }
  }

  /** A caller that has not been notified leaves with nothing. */
  lemma LeaveCounts(s: Sys, x: nat, held: bool, id: nat, pc: CallerPc)
    requires WaitList(s) && IsParked(s, x) && id in s.callers && id != x && s.callers[id].node != NotifiedOne
    requires pc.Done? || pc.Canceled?
    ensures WaitersKnown(s)
    ensures var s' := Leave(s, id, pc);
            IsParked(s', x) && Wakeups(s', x, held) + Weight(s, x, held, id) == Wakeups(s, x, held)
  {
    var s' := Leave(s, id, pc);
    forall y | y in s.callers && y != id
      ensures Weight(s', x, held, y) == Weight(s, x, held, y)
    {
      AfterWithout(s.waiters, id, x, y);
    }
    WakeupsChange(s, s', x, held, id);
  }

  /** One that has passes its wakeup on. */
  lemma LeaveForwards(s: Sys, x: nat, held: bool, id: nat, pc: CallerPc)
    requires WaitList(s) && CallersShape(s) && IsParked(s, x) && id in s.callers && s.callers[id].node == NotifiedOne
    requires pc.Done? || pc.Canceled?
    ensures WaitersKnown(s) && s.waiters != []
    ensures var s' := Leave(s, id, pc);
            && (IsParked(s', x) <==> s.waiters[0] != x)
            && (s.waiters[0] != x ==>
                  Wakeups(s', x, held) + Weight(s, x, held, id) ==
                  Wakeups(s, x, held) + if s.callers[s.waiters[0]].pc.Awaiting? && !held then 0 else 1)
  {
    var left := SetCaller(s, id, s.callers[id].(pc := pc, node := NoNode));
    assert WaitList(left);
    assert IsParked(left, x);
    assert s.waiters != [] && s.waiters[0] != id;
    QueuedIsNotRegistering(s);
    WakeupsChange(s, left, x, held, id);
    NotifyOneCounts(left, x, held);
  }

  // ---- A pool in good health ----

  /** What a panic-free run keeps. */
  ghost predicate Calm(c: Config, s: Sys) {
    && Ground(s) && AllHealthy(s) && FoundLive(s)
    && (forall i | 0 <= i < |s.workers| && s.workers[i].acc.Exiting? :: s.handles == {})
  }

  /** No walk under way has found its worker anything but live. */
  ghost predicate FoundLive(s: Sys) {
    forall id | id in s.callers && s.callers[id].pc.Scanning? :: s.callers[id].pc.scan.stage != LoadRebuilding
  }

  /** A notify_one about to reach a caller that already awaits its reply. */
  predicate Misdelivers(s: Sys, a: Act) {
    && s.waiters != [] && s.waiters[0] in s.callers && s.callers[s.waiters[0]].pc.Awaiting?
    && match a
       case Work(i, wa) => i < |s.workers| && wa.Acc? && Signals(s.workers[i])
       case Cancel(id) => id in s.callers && s.callers[id].pc.Parked? && s.callers[id].node == NotifiedOne
       case _ => false
  }

  lemma WakeupsSame(s: Sys, s': Sys, x: nat, held: bool)
    requires s'.callers == s.callers && s'.waiters == s.waiters
    ensures Wakeups(s', x, held) == Wakeups(s, x, held)
  {
    SumSame(s.callers.Keys, y => Weight(s, x, held, y), y => Weight(s', x, held, y));
  }

  // Whatever a healthy worker does, a slot it frees comes with a wakeup it owes.
  lemma WorkerCounts(c: Config, w: Worker, canceled: set<nat>, a: WorkerAct)
    requires Healthy(w) && !w.acc.Exiting? && WorkerEnabled(c, w, false, a)
    ensures Occupied(WorkerNext(c, w, false, canceled, a)) + (if a.Acc? && Signals(w) then 1 else 0) == Occupied(w)
  {
    if a.Run? {
      RunFrame(c, w, canceled, a.run);
    }
  }

  lemma WorkCounts(c: Config, s: Sys, i: nat, a: WorkerAct, x: nat, held: bool)
    requires Calm(c, s) && Enabled(c, s, Act.Work(i, a)) && IsParked(s, x)
    requires IsParked(Step(c, s, Act.Work(i, a)), x)
    ensures var s' := Step(c, s, Act.Work(i, a));
            OccupiedAll(s'.workers) + Wakeups(s', x, held) + (if Misdelivers(s, Act.Work(i, a)) && !held then 1 else 0)
              == OccupiedAll(s.workers) + Wakeups(s, x, held)
  {
    var s1 := Stepped(c, s, i, a);
    assert s.handles != {} by { assert CallerShape(|s.workers|, s.handles, s.callers[x]); }
    WorkerCounts(c, s.workers[i], CanceledIds(s), a);
    OccupiedUpdate(s.workers, i, s1.workers[i]);
    WakeupsSame(s, s1, x, held);
    if a.Acc? && Signals(s.workers[i]) {
      assert WaitList(s1);
      QueuedIsNotRegistering(s);
      NotifyOneCounts(s1, x, held);
    }
  }

  // ---- A probe ----

  /** The last probe of a second pass, which places nothing. */
  predicate EndsWalk(c: Config, s: Sys, a: Act)
    requires Enabled(c, s, a)
  {
    a.Probe? && !Sends(c, s, a.id, a.early)
    && var scan := s.callers[a.id].pc.scan;
       scan.stage == TrySend && !scan.primary && scan.probes + 1 == |s.workers|
  }

  /** In a healthy pool a probe finds its worker live in the second pass, and a send that fails
      finds the channel full. */
  lemma HealthyProbe(c: Config, s: Sys, id: nat, early: bool)
    requires Calm(c, s) && Enabled(c, s, Probe(id, early)) && !Sends(c, s, id, early)
    ensures var scan := s.callers[id].pc.scan;
            var w := s.workers[Sink(s, scan)];
            && ScanShape(|s.workers|, scan) && scan.stage != LoadRebuilding
            && Ready(c, w, false)
            && (scan.stage == TrySend ==> |w.chan| >= c.queueSize && Judged(c, w, scan, early) == scan.(hope := scan.hope || !scan.primary))
  {
    var k := s.callers[id];
    assert CallerShape(|s.workers|, s.handles, k);
    assert InFlight(k) && Healthy(s.workers[Sink(s, k.pc.scan)]);
    assert !Shut(s.workers[Sink(s, k.pc.scan)]);
  }

  /** A walk that goes on leaves its caller's wakeup with it. */
  lemma ProbeGoesOn(c: Config, s: Sys, id: nat, early: bool)
    requires Calm(c, s) && Enabled(c, s, Probe(id, early)) && !Sends(c, s, id, early) && !EndsWalk(c, s, Probe(id, early))
    ensures var (k, s') := (s.callers[id], Step(c, s, Probe(id, early)));
            && id in s'.callers && s'.callers[id].pc.Scanning? && s'.callers[id].pc.scan.stage != LoadRebuilding
            && s' == SetCaller(s, id, k.(pc := s'.callers[id].pc))
  {
    HealthyProbe(c, s, id, early);
    ProbeCases(c, s, id, early);
  }

  /** One that ends is a try: the caller is out, about to register, or parked. */
  lemma WalkEnds(c: Config, s: Sys, id: nat, early: bool)
    requires Calm(c, s) && Enabled(c, s, Probe(id, early)) && EndsWalk(c, s, Probe(id, early))
    ensures var (k, s') := (s.callers[id], Step(c, s, Probe(id, early)));
            && id in s'.callers && s' == SetCaller(s, id, s'.callers[id])
            && s'.callers[id].node == k.node
            && (s'.callers[id].pc.Done? || (!s'.callers[id].woken && (s'.callers[id].pc.Registering? || s'.callers[id].pc.Parked?)))
            && (s'.callers[id].pc.Parked? <==> k.node != NoNode)
  {
    HealthyProbe(c, s, id, early);
    ProbeCases(c, s, id, early);
    assert CallerShape(|s.workers|, s.handles, s.callers[id]);
  }

  /** The wakeup a caller uses up with its walk. */
  function GivesUp(s: Sys, x: nat, held: bool, id: nat): nat
    requires id in s.callers
  {
    if s.callers[id].node == NotifiedOne then 0 else Weight(s, x, held, id)
  }

  lemma WalkEndCounts(c: Config, s: Sys, id: nat, early: bool, x: nat, held: bool)
    requires Calm(c, s) && Enabled(c, s, Probe(id, early)) && EndsWalk(c, s, Probe(id, early))
    ensures var s' := Step(c, s, Probe(id, early));
            && s'.workers == s.workers
            && (IsParked(s', x) <==> IsParked(s, x) || (x == id && s.callers[id].node == Queued))
            && Wakeups(s', x, held) + GivesUp(s, x, held, id) == Wakeups(s, x, held)
  {
    WalkEnds(c, s, id, early);
    WakeupsChange(s, Step(c, s, Probe(id, early)), x, held, id);
  }

  lemma SendCounts(c: Config, s: Sys, id: nat, early: bool, x: nat, held: bool)
    requires Calm(c, s) && Enabled(c, s, Probe(id, early)) && Sends(c, s, id, early) && IsParked(s, x)
    ensures var s' := Step(c, s, Probe(id, early));
            OccupiedAll(s'.workers) + Wakeups(s', x, held) >= OccupiedAll(s.workers) + Wakeups(s, x, held)
  {
    var s' := Step(c, s, Probe(id, early));
    var i := Sink(s, s.callers[id].pc.scan);
    assert s'.callers == s.callers[id := s'.callers[id]] && s'.waiters == s.waiters;
    assert s'.workers == s.workers[i := s'.workers[i]] && Occupied(s'.workers[i]) == Occupied(s.workers[i]) + 1;
    OccupiedUpdate(s.workers, i, s'.workers[i]);
    WakeupsChange(s, s', x, held, id);
  }

  lemma ProbeCounts(c: Config, s: Sys, id: nat, early: bool, x: nat, held: bool)
    requires Calm(c, s) && Enabled(c, s, Probe(id, early)) && !EndsWalk(c, s, Probe(id, early)) && IsParked(s, x)
    ensures var s' := Step(c, s, Probe(id, early));
            OccupiedAll(s'.workers) + Wakeups(s', x, held) >= OccupiedAll(s.workers) + Wakeups(s, x, held)
  {
    if Sends(c, s, id, early) {
      SendCounts(c, s, id, early, x, held);
    } else {
      ProbeGoesOn(c, s, id, early);
      WakeupsChange(s, Step(c, s, Probe(id, early)), x, held, id);
    }
  }

  lemma RegisterCounts(c: Config, s: Sys, id: nat, start: nat, x: nat, held: bool)
    requires Calm(c, s) && Enabled(c, s, Register(id, start)) && IsParked(s, x)
    ensures var s' := Step(c, s, Register(id, start));
            s'.workers == s.workers && IsParked(s', x) && Wakeups(s', x, held) == Wakeups(s, x, held)
  {
    var s' := Step(c, s, Register(id, start));
    assert x in s.waiters;
    assert CallerShape(|s.workers|, s.handles, s.callers[id]);
    AfterAppend(s.waiters, x, id);
    WakeupsChange(s, s', x, held, id);
  }

  lemma CallCounts(c: Config, s: Sys, a: Act, x: nat, held: bool)
    requires Enabled(c, s, a) && a.Call? && IsParked(s, x)
    ensures var s' := Step(c, s, a);
            s'.workers == s.workers && IsParked(s', x) && Wakeups(s', x, held) == Wakeups(s, x, held)
  {
    var s' := Step(c, s, a);
    SumTakes(s'.callers.Keys, y => Weight(s', x, held, y), a.id);
    assert s'.callers.Keys - {a.id} == s.callers.Keys;
    SumSame(s.callers.Keys, y => Weight(s, x, held, y), y => Weight(s', x, held, y));
  }

  lemma DepartureCounts(c: Config, s: Sys, a: Act, x: nat, held: bool)
    requires Calm(c, s) && Enabled(c, s, a) && (a.Receive? || a.Cancel?) && IsParked(s, x) && IsParked(Step(c, s, a), x)
    ensures var s' := Step(c, s, a);
            s'.workers == s.workers &&
            Wakeups(s', x, held) + (if Misdelivers(s, a) && !held then 1 else 0)
              == Wakeups(s, x, held)
              + if s.callers[a.id].node == NotifiedOne && s.callers[a.id].pc.Awaiting? && !held
                   && !s.callers[s.waiters[0]].pc.Awaiting? then 1 else 0
  {
    var k := s.callers[a.id];
    var pc := if a.Cancel? then Canceled else Done(Replied(a.outcome));
    LeaveKeeps(s, a.id, pc);
    assert a.id != x;
    if k.node == NotifiedOne {
      LeaveForwards(s, x, held, a.id, pc);
    } else {
      LeaveCounts(s, x, held, a.id, pc);
    }
  }

  // ---- Any step ----

  /** Every step but the end of a walk keeps what covers the free slots, a misdelivery apart. */
  lemma StepCounts(c: Config, s: Sys, a: Act, x: nat, held: bool)
    requires Calm(c, s) && Enabled(c, s, a) && !EndsWalk(c, s, a)
    requires IsParked(s, x) && IsParked(Step(c, s, a), x)
    ensures var s' := Step(c, s, a);
            if Misdelivers(s, a) && !held then
              OccupiedAll(s'.workers) + Wakeups(s', x, held) + 1 == OccupiedAll(s.workers) + Wakeups(s, x, held)
            else
              OccupiedAll(s'.workers) + Wakeups(s', x, held) >= OccupiedAll(s.workers) + Wakeups(s, x, held)
  {
    match a {
      case Work(i, wa) => WorkCounts(c, s, i, wa, x, held);
      case Probe(id, early) => ProbeCounts(c, s, id, early, x, held);
      case Register(id, start) => RegisterCounts(c, s, id, start, x, held);
      case Wake(id) => WakeupsChange(s, Step(c, s, a), x, held, id);
      case Receive(_, _) => DepartureCounts(c, s, a, x, held);
      case Cancel(_) => DepartureCounts(c, s, a, x, held);
      case Call(_, _, _, _, _) => CallCounts(c, s, a, x, held);
      case CloneHandle(_, _) => WakeupsSame(s, Step(c, s, a), x, held);
      case DropHandle(_) => WakeupsSame(s, Step(c, s, a), x, held);
    }
  }

  lemma ActorParks(c: Config, s: Sys, a: Act, x: nat)
    requires Calm(c, s) && Enabled(c, s, a) && IsActor(a, x) && IsParked(Step(c, s, a), x)
    ensures a.Probe? && !Sends(c, s, x, a.early)
  {
    match a {
      case Receive(_, outcome) => LeaveKeeps(s, x, Done(Replied(outcome)));
      case Cancel(_) => LeaveKeeps(s, x, Canceled);
      case _ =>
    }
  }

  /** A caller parks only at the end of a walk. */
  lemma ParksAtWalkEnd(c: Config, s: Sys, a: Act, x: nat)
    requires Calm(c, s) && Enabled(c, s, a) && !IsParked(s, x) && IsParked(Step(c, s, a), x)
    ensures EndsWalk(c, s, a) && a.id == x
  {
    assert IsActor(a, x) by { StepFrame(c, s, a); }
    ActorParks(c, s, a, x);
    if !EndsWalk(c, s, a) {
      ProbeGoesOn(c, s, x, a.early);
    }
  }

  lemma PoolKeepsSize(c: Config, s: Sys, a: Act)
    requires Ground(s) && Enabled(c, s, a)
    ensures |Step(c, s, a).workers| == |s.workers|
  {
    StepFrame(c, s, a);
  }

  // ---- Exactly when the balance is lost ----

  /** A notify_one is wasted: it goes to a caller that already awaits its reply, while another is
      parked with every free slot needing the wakeups there are. */
  ghost predicate Wasted(c: Config, s: Sys, a: Act) {
    Misdelivers(s, a)
    && exists x :: IsParked(s, x) && Slots(c, s) == OccupiedAll(s.workers) + Wakeups(s, x, false)
  }

  /** A walk ends, using up its caller's wakeup or parking its caller, and somebody is parked then
      for whom the wakeups that remain do not cover the free slots. */
  ghost predicate LeavesShort(c: Config, s: Sys, a: Act, held: bool)
    requires Enabled(c, s, a)
  {
    EndsWalk(c, s, a)
    && exists x :: (IsParked(s, x) || (x == a.id && s.callers[x].node == Queued)) && ShortBy(c, s, x, held, a.id)
  }

  ghost predicate ShortBy(c: Config, s: Sys, x: nat, held: bool, id: nat)
    requires id in s.callers
  {
    OccupiedAll(s.workers) + Wakeups(s, x, held) < Slots(c, s) + GivesUp(s, x, held, id)
  }

  ghost predicate LosesBalance(c: Config, s: Sys, a: Act, held: bool)
    requires Enabled(c, s, a)
  {
    (Wasted(c, s, a) && !held) || LeavesShort(c, s, a, held)
  }

  lemma MisdeliveredKeepsParked(c: Config, s: Sys, a: Act, x: nat)
    requires Calm(c, s) && Enabled(c, s, a) && Misdelivers(s, a) && IsParked(s, x)
    ensures IsParked(Step(c, s, a), x)
  {
    if a.Cancel? {
      LeaveForwards(s, x, false, a.id, Canceled);
    } else {
      var s1 := Stepped(c, s, a.i, a.a);
      assert WaitList(s1);
      QueuedIsNotRegistering(s);
      NotifyOneCounts(s1, x, false);
    }
  }

  lemma WalkEndBalance(c: Config, s: Sys, a: Act, held: bool)
    requires Calm(c, s) && Balanced(c, s, held) && Enabled(c, s, a) && EndsWalk(c, s, a)
    ensures Balanced(c, Step(c, s, a), held) <==> !LeavesShort(c, s, a, held)
  {
    var s' := Step(c, s, a);
    forall x
      ensures IsParked(s', x) <==> IsParked(s, x) || (x == a.id && s.callers[x].node == Queued)
      ensures IsParked(s', x) ==> (Covered(c, s', x, held) <==> !ShortBy(c, s, x, held, a.id))
    {
      WalkEndCounts(c, s, a.id, a.early, x, held);
    }
    if LeavesShort(c, s, a, held) {
      var x :| (IsParked(s, x) || (x == a.id && s.callers[x].node == Queued)) && ShortBy(c, s, x, held, a.id);
      assert IsParked(s', x) && !Covered(c, s', x, held);
    }
  }

  /** For any number of workers: with the wakeups held by callers that await their reply counted or
      not, a step loses the balance if and only if it wastes a notify_one, where those are not
      counted, or ends a walk that leaves somebody short. */
  lemma BalanceLostExactly(c: Config, s: Sys, a: Act, held: bool)
    requires Calm(c, s) && Balanced(c, s, held) && Enabled(c, s, a)
    ensures Balanced(c, Step(c, s, a), held) <==> !LosesBalance(c, s, a, held)
  {
    var s' := Step(c, s, a);
    PoolKeepsSize(c, s, a);
    if EndsWalk(c, s, a) {
      WalkEndBalance(c, s, a, held);
    } else if Wasted(c, s, a) && !held {
      var x :| IsParked(s, x) && Slots(c, s) == OccupiedAll(s.workers) + Wakeups(s, x, false);
      MisdeliveredKeepsParked(c, s, a, x);
      StepCounts(c, s, a, x, false);
      assert !Covered(c, s', x, false);
    } else {
      forall x | IsParked(s', x)
        ensures Covered(c, s', x, held)
      {
        if IsParked(s, x) {
          assert Covered(c, s, x, held);
          StepCounts(c, s, a, x, held);
        } else {
          ParksAtWalkEnd(c, s, a, x);
        }
      }
    }
  }

  // ---- When a walk can leave somebody short ----

  /** Only when it is stale: it has found every queue full, and there is a free slot. */
  lemma ShortMeansStale(c: Config, s: Sys, a: Act, held: bool)
    requires Calm(c, s) && Balanced(c, s, held) && Enabled(c, s, a) && LeavesShort(c, s, a, held)
    ensures OccupiedAll(s.workers) < Slots(c, s)
  {
    var x :| (IsParked(s, x) || (x == a.id && s.callers[x].node == Queued)) && ShortBy(c, s, x, held, a.id);
    SumTakes(s.callers.Keys, y => Weight(s, x, held, y), a.id);
  }

  /** A pool of one is never left short: its only queue has just been found full. */
  lemma OneIsNeverShort(c: Config, s: Sys, a: Act, held: bool)
    requires Calm(c, s) && Balanced(c, s, held) && Enabled(c, s, a) && |s.workers| == 1
    ensures !LeavesShort(c, s, a, held)
  {
    if LeavesShort(c, s, a, held) {
      ShortMeansStale(c, s, a, held);
      SomeHasRoom(s.workers, c.queueSize);
      HealthyProbe(c, s, a.id, a.early);
    }
  }

  // ---- Along panic-free runs ----

  lemma ActorStage(c: Config, s: Sys, a: Act, id: nat)
    requires Calm(c, s) && Enabled(c, s, a) && IsActor(a, id)
    ensures id in Step(c, s, a).callers
    ensures var pc := Step(c, s, a).callers[id].pc; pc.Scanning? ==> pc.scan.stage != LoadRebuilding
  {
    match a {
      case Probe(_, early) =>
        if Sends(c, s, id, early) {
          ProbeSends(c, s, id, early);
        } else if EndsWalk(c, s, a) {
          WalkEnds(c, s, id, early);
        } else {
          ProbeGoesOn(c, s, id, early);
        }
      case Receive(_, outcome) => LeaveKeeps(s, id, Done(Replied(outcome)));
      case Cancel(_) => LeaveKeeps(s, id, Canceled);
      case _ =>
    }
  }

  lemma ActorFoundLive(c: Config, s: Sys, a: Act, id: nat)
    requires Calm(c, s) && Enabled(c, s, a) && IsActor(a, id)
    ensures FoundLive(Step(c, s, a))
  {
    assert OthersKept(s, Step(c, s, a), id) by { ActorKeeps(c, s, a, id); }
    ActorStage(c, s, a, id);
  }

  lemma FoundLiveStep(c: Config, s: Sys, a: Act)
    requires Calm(c, s) && Enabled(c, s, a)
    ensures FoundLive(Step(c, s, a))
  {
    match a {
      case Work(i, wa) => assert AllKept(s, Step(c, s, a)) by { WorkKeeps(c, s, i, wa); }
      case CloneHandle(_, _) =>
      case DropHandle(_) =>
      case _ => ActorFoundLive(c, s, a, a.id);
    }
  }

  lemma CalmStep(c: Config, s: Sys, a: Act)
    requires ValidConfig(c) && SysShape(c, s) && Calm(c, s) && Enabled(c, s, a) && !IsPanic(a)
    ensures Calm(c, Step(c, s, a))
  {
    FoundLiveStep(c, s, a);
    HealthyStep(c, s, a);
    SysShapeStep(c, s, a);
    CalmAgain(c, Step(c, s, a));
  }

  // A healthy worker exits only when its channel is closed.
  lemma CalmAgain(c: Config, s: Sys)
    requires SysShape(c, s) && AllHealthy(s) && FoundLive(s)
    ensures Calm(c, s)
  {
    ShapeIsGround(c, s);
    forall i | 0 <= i < |s.workers| && s.workers[i].acc.Exiting?
      ensures s.handles == {}
    {
      assert WorkerInv(c, s.workers[i]);
    }
  }

  lemma {:induction false} CalmAlong(c: Config, t: Trace, k: nat)
    requires ValidConfig(c) && IsRun(c, t) && Initial(t.states[0]) && NoPanic(t) && k < |t.states|
    ensures SysShape(c, t.states[k]) && Calm(c, t.states[k]) && |t.states[k].workers| == |t.states[0].workers|
  {
    if k == 0 {
      SysShapeInitial(c, t.states[0]);
      CalmAgain(c, t.states[0]);
    } else {
      CalmAlong(c, t, k - 1);
      SysShapeStep(c, t.states[k - 1], t.acts[k - 1]);
      CalmStep(c, t.states[k - 1], t.acts[k - 1]);
      PoolKeepsSize(c, t.states[k - 1], t.acts[k - 1]);
    }
  }

  ghost predicate LosesAt(c: Config, t: Trace, m: nat, held: bool)
    requires IsRun(c, t) && m < |t.acts|
  {
    LosesBalance(c, t.states[m], t.acts[m], held)
  }

  /** Free slots and wakeups are out of balance in a state of a panic-free run only if one of its
      steps up to then, taken in balance, was such a step. */
  lemma {:induction false} OutOfBalanceSince(c: Config, t: Trace, k: nat, held: bool)
    requires ValidConfig(c) && IsRun(c, t) && Initial(t.states[0]) && NoPanic(t) && k < |t.states|
    requires !Balanced(c, t.states[k], held)
    ensures exists m | 0 <= m < k :: Balanced(c, t.states[m], held) && LosesAt(c, t, m, held)
  {
    if k > 0 {
      if Balanced(c, t.states[k - 1], held) {
        CalmAlong(c, t, k - 1);
        BalanceLostExactly(c, t.states[k - 1], t.acts[k - 1], held);
        assert LosesAt(c, t, k - 1, held);
      } else {
        OutOfBalanceSince(c, t, k - 1, held);
      }
    }
  }

  // ---- In terms of free slots ----

  function QueuedAll(workers: seq<Worker>): nat {
    if workers == [] then 0 else |workers[0].chan| + QueuedAll(workers[1..])
  }

  /** Dequeues whose notify_one is still to come. */
  function OwedAll(workers: seq<Worker>): nat {
    if workers == [] then 0 else (if Signals(workers[0]) then 1 else 0) + OwedAll(workers[1..])
  }

  lemma {:induction false} OccupiedIs(workers: seq<Worker>)
    ensures OccupiedAll(workers) == QueuedAll(workers) + OwedAll(workers)
  {
    if workers != [] {
      OccupiedIs(workers[1..]);
    }
  }

  /** In every panic-free run without such a step, for any number of workers, while a caller is
      parked unnotified the free slots of the pool are no more than the wakeups in flight: dequeues
      whose notify_one is still to come, callers notified or woken that have not tried again, and,
      where they are counted, callers that were notified while they already awaited their reply,
      who pass the wakeup on when they leave. */
  lemma FreeSlotsHaveWakeups(c: Config, t: Trace, k: nat, x: nat, held: bool)
    requires ValidConfig(c) && IsRun(c, t) && Initial(t.states[0]) && NoPanic(t)
    requires k < |t.states| && IsParked(t.states[k], x)
    requires forall m | 0 <= m < k :: !LosesAt(c, t, m, held)
    ensures var s := t.states[k];
            Slots(c, s) - QueuedAll(s.workers) <= OwedAll(s.workers) + Wakeups(s, x, held)
  {
    if !Balanced(c, t.states[k], held) {
      OutOfBalanceSince(c, t, k, held);
    }
    assert Covered(c, t.states[k], x, held);
    OccupiedIs(t.states[k].workers);
  }

  lemma {:induction false} OneIsBalancedAlong(c: Config, t: Trace, k: nat)
    requires ValidConfig(c) && IsRun(c, t) && Initial(t.states[0]) && |t.states[0].workers| == 1 && NoPanic(t)
    requires k < |t.states|
    ensures Balanced(c, t.states[k], true)
  {
    if k > 0 {
      OneIsBalancedAlong(c, t, k - 1);
      CalmAlong(c, t, k - 1);
      OneIsNeverShort(c, t.states[k - 1], t.acts[k - 1], true);
      BalanceLostExactly(c, t.states[k - 1], t.acts[k - 1], true);
    }
  }

  /** In every panic-free run of a pool of one, whatever its steps, the free slots of its queue are
      no more than the wakeups in flight, the held ones included, while anybody is parked. */
  lemma FreeSlotsOfOneHaveWakeups(c: Config, t: Trace, k: nat, x: nat)
    requires ValidConfig(c) && IsRun(c, t) && Initial(t.states[0]) && |t.states[0].workers| == 1 && NoPanic(t)
    requires k < |t.states| && IsParked(t.states[k], x)
    ensures |t.states[k].workers| == 1
    ensures var s := t.states[k];
            c.queueSize - |s.workers[0].chan| <= (if Signals(s.workers[0]) then 1 else 0) + Wakeups(s, x, true)
  {
    OneIsBalancedAlong(c, t, k);
    CalmAlong(c, t, k);
    assert Covered(c, t.states[k], x, true);
    assert OccupiedAll(t.states[k].workers[1..]) == 0;
  }
}

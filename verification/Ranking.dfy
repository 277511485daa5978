/** What is left to do, for the whole system: every step it takes on its own lowers a pair of
    numbers, and the number of worker steps is bounded by the number of requests accepted. */
module Ranking {
  import opened Worker
  import opened WorkerShape
  import opened WorkerProgress
  import opened WorkerInvariant
  import opened System
  import opened SystemShape
  import opened Wakeup

  // ---- Sums ----

  ghost function Sum(ids: set<nat>, f: nat -> nat): nat {
    if ids == {} then 0
    else
      var x :| x in ids;
      f(x) + Sum(ids - {x}, f)
  }

  lemma {:induction false} SumTakes(ids: set<nat>, f: nat -> nat, x: nat)
    requires x in ids
    ensures Sum(ids, f) == f(x) + Sum(ids - {x}, f)
    decreases ids
  {
    var y :| y in ids && Sum(ids, f) == f(y) + Sum(ids - {y}, f);
    if y != x {
      SumTakes(ids - {y}, f, x);
      SumTakes(ids - {x}, f, y);
      assert ids - {y} - {x} == ids - {x} - {y};
    }
  }

  lemma {:induction false} SumSame(ids: set<nat>, f: nat -> nat, g: nat -> nat)
    requires forall x | x in ids :: f(x) == g(x)
    ensures Sum(ids, f) == Sum(ids, g)
    decreases ids
  {
    if ids != {} {
      var x :| x in ids;
      SumTakes(ids, f, x);
      SumTakes(ids, g, x);
      SumSame(ids - {x}, f, g);
    }
  }

  lemma {:induction false} SumOfNothing(ids: set<nat>, g: nat -> nat)
    requires forall x | x in ids :: g(x) == 0
    ensures Sum(ids, g) == 0
    decreases ids
  {
    if ids != {} {
      var x :| x in ids;
      SumTakes(ids, g, x);
      SumOfNothing(ids - {x}, g);
    }
  }

  lemma SumChanges(ids: set<nat>, f: nat -> nat, g: nat -> nat, x: nat)
    requires x in ids && forall y | y in ids && y != x :: f(y) == g(y)
    ensures Sum(ids, g) + f(x) == Sum(ids, f) + g(x)
  {
    SumTakes(ids, f, x);
    SumTakes(ids, g, x);
    SumSame(ids - {x}, f, g);
  }

  // ---- The workers ----

  function WorkLeft(c: Config, workers: seq<Worker>): int {
    if workers == [] then 0 else Measure(c, workers[0]) + WorkLeft(c, workers[1..])
  }

  lemma {:induction false} WorkLeftUpdate(c: Config, workers: seq<Worker>, i: nat, w: Worker)
    requires i < |workers|
    ensures WorkLeft(c, workers[i := w]) == WorkLeft(c, workers) - Measure(c, workers[i]) + Measure(c, w)
  {
    if i == 0 {
      assert workers[0 := w][1..] == workers[1..];
    } else {
      assert workers[i := w][1..] == workers[1..][i - 1 := w];
      WorkLeftUpdate(c, workers[1..], i - 1, w);
    }
  }

  lemma {:induction false} WorkLeftIsNatural(c: Config, workers: seq<Worker>)
    requires forall i | 0 <= i < |workers| :: RunShape(c, workers[i])
    ensures WorkLeft(c, workers) >= 0
  {
    if workers != [] {
      MeasureIsNatural(c, workers[0]);
      WorkLeftIsNatural(c, workers[1..]);
    }
  }

  /** A request given to a worker is paid for once. */
  lemma PushCosts(c: Config, w: Worker, r: Request)
    ensures Measure(c, PushRequest(w, r)) == Measure(c, w) + 400
  {
  }

  // ---- The callers ----

  /** A request not yet queued still has its way through a worker to go. */
  function Unserved(k: Caller): nat {
    match k.pc
    case Scanning(_) => 402
    case Registering => 402
    case Parked => 402
    case Awaiting => 1
    case _ => 0
  }

  function WalkLeft(n: nat, scan: Scan): int {
    2 * ((if scan.primary then n else 0) + n - scan.probes) - if scan.stage == LoadState then 0 else 1
  }

  /** How far a caller is from waiting on the list with its last retry behind it. */
  function RetryLeft(n: nat, k: Caller): nat {
    match k.pc
    case Scanning(scan) =>
      var walk := if WalkLeft(n, scan) < 0 then 0 else WalkLeft(n, scan);
      walk + (if k.node == Queued then 0 else if k.node == NoNode then 4 * n + 1 else 4 * n + 2)
    case Registering => 4 * n + 1
    case Parked => if k.node == Queued then 0 else 4 * n + 2
    case _ => 0
  }

  function UnservedAt(s: Sys, id: nat): nat {
    if id in s.callers then Unserved(s.callers[id]) else 0
  }

  function RetryLeftAt(s: Sys, id: nat): nat {
    if id in s.callers then RetryLeft(|s.workers|, s.callers[id]) else 0
  }

  ghost function Outstanding(c: Config, s: Sys): int {
    WorkLeft(c, s.workers) + Sum(s.callers.Keys, id => UnservedAt(s, id))
  }

  ghost function Retries(s: Sys): nat {
    Sum(s.callers.Keys, id => RetryLeftAt(s, id)) + if s.permit then 4 * |s.workers| + 2 else 0
  }

  lemma OutstandingIsNatural(c: Config, s: Sys)
    requires SysShape(c, s)
    ensures Outstanding(c, s) >= 0
  {
    forall i | 0 <= i < |s.workers|
      ensures RunShape(c, s.workers[i])
    {
      assert WorkerInv(c, s.workers[i]);
    }
    WorkLeftIsNatural(c, s.workers);
  }

  // ---- Steps ----

  /** Lower first in the work left, then in the retries left. */
  ghost predicate Lower(c: Config, s': Sys, s: Sys) {
    Outstanding(c, s') < Outstanding(c, s) || (Outstanding(c, s') == Outstanding(c, s) && Retries(s') < Retries(s))
  }

  lemma NudgedUnserved(s: Sys, s': Sys)
    requires AllKept(s, s')
    ensures Sum(s'.callers.Keys, id => UnservedAt(s', id)) == Sum(s.callers.Keys, id => UnservedAt(s, id))
  {
    SumSame(s.callers.Keys, id => UnservedAt(s, id), id => UnservedAt(s', id));
  }

  lemma WorkerStepLowers(c: Config, s: Sys, i: nat, a: WorkerAct)
    requires ValidConfig(c) && WaitList(s) && Enabled(c, s, Act.Work(i, a)) && Shape(c, s.workers[i])
    ensures Outstanding(c, Step(c, s, Act.Work(i, a))) < Outstanding(c, s)
    ensures WorkLeft(c, Step(c, s, Act.Work(i, a)).workers) < WorkLeft(c, s.workers)
  {
    var s' := Step(c, s, Act.Work(i, a));
    WorkKeeps(c, s, i, a);
    NudgedUnserved(s, s');
    StepLowersMeasure(c, s.workers[i], s.handles == {}, CanceledIds(s), a);
    WorkLeftUpdate(c, s.workers, i, s'.workers[i]);
  }

  lemma ActorUnserved(s: Sys, s': Sys, id: nat)
    requires OthersKept(s, s', id) && id in s.callers
    ensures Sum(s'.callers.Keys, x => UnservedAt(s', x)) + Unserved(s.callers[id]) ==
            Sum(s.callers.Keys, x => UnservedAt(s, x)) + UnservedAt(s', id)
  {
    assert s'.callers.Keys == s.callers.Keys;
    SumChanges(s.callers.Keys, x => UnservedAt(s, x), x => UnservedAt(s', x), id);
  }

  lemma ActorRetries(s: Sys, s': Sys, id: nat)
    requires id in s.callers && id in s'.callers && s'.callers == s.callers[id := s'.callers[id]] && |s'.workers| == |s.workers|
    ensures Sum(s'.callers.Keys, x => RetryLeftAt(s', x)) + RetryLeftAt(s, id) ==
            Sum(s.callers.Keys, x => RetryLeftAt(s, x)) + RetryLeftAt(s', id)
  {
    assert s'.callers.Keys == s.callers.Keys;
    SumChanges(s.callers.Keys, x => RetryLeftAt(s, x), x => RetryLeftAt(s', x), id);
  }

  /** Lower for one caller is lower for the system. */
  lemma CallerStepLowers(c: Config, s: Sys, s': Sys, id: nat)
    requires id in s.callers && OthersKept(s, s', id) && s'.workers == s.workers
    requires || UnservedAt(s', id) < Unserved(s.callers[id])
             || (&& UnservedAt(s', id) == Unserved(s.callers[id])
                 && s'.callers == s.callers[id := s'.callers[id]]
                 && RetryLeftAt(s', id) + (if s'.permit then 4 * |s.workers| + 2 else 0)
                      < RetryLeftAt(s, id) + if s.permit then 4 * |s.workers| + 2 else 0)
    ensures Lower(c, s', s)
  {
    ActorUnserved(s, s', id);
    if UnservedAt(s', id) == Unserved(s.callers[id]) {
      ActorRetries(s, s', id);
    }
  }

  lemma SendLowers(c: Config, s: Sys, id: nat, early: bool)
    requires WaitList(s) && CallersShape(s) && Enabled(c, s, Probe(id, early)) && Sends(c, s, id, early)
    ensures Lower(c, Step(c, s, Probe(id, early)), s)
  {
    var i := Sink(s, s.callers[id].pc.scan);
    var s' := Step(c, s, Probe(id, early));
    ProbeSends(c, s, id, early);
    ActorUnserved(s, s', id);
    WorkLeftUpdate(c, s.workers, i, s'.workers[i]);
    PushCosts(c, s.workers[i], Request(id, s.callers[id].input));
  }

  /** A caller that leaves has nothing left to do. */
  lemma LeaveLowers(c: Config, s: Sys, id: nat, pc: CallerPc)
    requires WaitList(s) && id in s.callers && Unserved(s.callers[id]) > 0 && (pc.Done? || pc.Canceled?)
    ensures WaitersKnown(s) && Lower(c, Leave(s, id, pc), s)
  {
    LeaveKeeps(s, id, pc);
    CallerStepLowers(c, s, Leave(s, id, pc), id);
  }

  // A walk that goes on has less of it left.
  lemma AdvanceLowers(c: Config, s: Sys, id: nat, before: Scan, after: Scan)
    requires WaitList(s) && CallersShape(s) && id in s.callers && s.callers[id].pc == Scanning(before)
    requires |s.workers| >= 1 && ScanShape(|s.workers|, after)
    requires WalkLeft(|s.workers|, after) == WalkLeft(|s.workers|, before)
    ensures WaitersKnown(s) && Lower(c, Advance(s, id, after), s)
  {
    var k := s.callers[id];
    var s' := Advance(s, id, after);
    if after.probes + 1 == |s.workers| && !after.primary && (!after.hope || k.mode == FailsFast) {
      LeaveLowers(c, s, id, Done(if after.hope then QueueFullError else NoAvailableWorkersError));
    } else {
      assert Unserved(s'.callers[id]) == 402;
      assert RetryLeftAt(s', id) < RetryLeftAt(s, id);
      CallerStepLowers(c, s, s', id);
    }
  }

  lemma StaysLowers(c: Config, s: Sys, id: nat, early: bool)
    requires WaitList(s) && CallersShape(s) && |s.workers| >= 1
    requires Enabled(c, s, Probe(id, early)) && !Sends(c, s, id, early)
    requires Stays(c, s.workers[Sink(s, s.callers[id].pc.scan)], s.callers[id].pc.scan)
    ensures Lower(c, Step(c, s, Probe(id, early)), s)
  {
    ProbeCases(c, s, id, early);
    assert CallerShape(|s.workers|, s.handles, s.callers[id]);
    CallerStepLowers(c, s, Step(c, s, Probe(id, early)), id);
  }

  lemma ProbeLowers(c: Config, s: Sys, id: nat, early: bool)
    requires WaitList(s) && CallersShape(s) && |s.workers| >= 1
    requires Enabled(c, s, Probe(id, early)) && !Sends(c, s, id, early)
    ensures Lower(c, Step(c, s, Probe(id, early)), s)
  {
    var scan := s.callers[id].pc.scan;
    var w := s.workers[Sink(s, scan)];
    if Stays(c, w, scan) {
      StaysLowers(c, s, id, early);
    } else {
      ProbeCases(c, s, id, early);
      assert CallerShape(|s.workers|, s.handles, s.callers[id]);
      AdvanceLowers(c, s, id, scan, Judged(c, w, scan, early));
    }
  }

  /** Every step the system takes on its own lowers the pair, whoever takes it. */
  lemma InternalStepLowers(c: Config, s: Sys, a: Act)
    requires ValidConfig(c) && SysShape(c, s) && Enabled(c, s, a) && Internal(a)
    ensures Lower(c, Step(c, s, a), s)
  {
    match a {
      case Work(i, wa) =>
        assert WorkerInv(c, s.workers[i]);
        WorkerStepLowers(c, s, i, wa);
      case Probe(id, early) => if Sends(c, s, id, early) { SendLowers(c, s, id, early); } else { ProbeLowers(c, s, id, early); }
      case Register(id, start) =>
        RegisterKeeps(c, s, id, start);
        CallerStepLowers(c, s, Step(c, s, a), id);
      case Wake(id) => CallerStepLowers(c, s, Step(c, s, a), id);
      case Receive(id, outcome) => LeaveLowers(c, s, id, Done(Replied(outcome)));
    }
  }
}

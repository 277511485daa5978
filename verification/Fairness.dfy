/** The order in which parked callers are woken: the one in which they began to wait. A single wakeup
    never overtakes. */
module Fairness {
  import opened Worker
  import opened System
  import opened SystemShape
  import opened Custody
  import opened Walks
  import Wakeup

  /** `x` has been waiting for longer than `y`. */
  ghost predicate Before(waiters: seq<nat>, x: nat, y: nat) {
    exists p, q :: 0 <= p < q < |waiters| && waiters[p] == x && waiters[q] == y
  }

  lemma BeforeInTail(waiters: seq<nat>, x: nat, y: nat)
    requires waiters != [] && Before(waiters, x, y) && waiters[0] != x
    ensures Before(waiters[1..], x, y)
  {
    var p, q :| 0 <= p < q < |waiters| && waiters[p] == x && waiters[q] == y;
    assert waiters[1..][p - 1] == x && waiters[1..][q - 1] == y;
  }

  lemma BeforeInWhole(waiters: seq<nat>, x: nat, y: nat)
    requires waiters != [] && Before(waiters[1..], x, y)
    ensures Before(waiters, x, y)
  {
    var p, q :| 0 <= p < q < |waiters| - 1 && waiters[1..][p] == x && waiters[1..][q] == y;
    assert waiters[p + 1] == x && waiters[q + 1] == y;
  }

  lemma {:induction false} WithoutHas(waiters: seq<nat>, id: nat, x: nat)
    requires x in waiters && x != id
    ensures x in Without(waiters, id)
  {
    if waiters[0] != x {
      WithoutHas(waiters[1..], id, x);
    }
  }

  lemma {:induction false} WithoutKeepsOrder(waiters: seq<nat>, id: nat, x: nat, y: nat)
    requires Before(waiters, x, y) && x != id && y != id
    ensures Before(Without(waiters, id), x, y)
  {
    var rest := Without(waiters[1..], id);
    if waiters[0] == x {
      var q :| 0 < q < |waiters| && waiters[q] == y;
      assert waiters[1..][q - 1] == y;
      WithoutHas(waiters[1..], id, y);
      var j :| 0 <= j < |rest| && rest[j] == y;
      assert ([x] + rest)[0] == x && ([x] + rest)[j + 1] == y;
    } else {
      BeforeInTail(waiters, x, y);
      WithoutKeepsOrder(waiters[1..], id, x, y);
      if waiters[0] != id {
        assert ([waiters[0]] + rest)[1..] == rest;
        BeforeInWhole([waiters[0]] + rest, x, y);
      }
    }
  }

  /** What a step makes of the list: it loses its head, or one who leaves, or everybody, or somebody
      joins at its end. */
  ghost predicate ListStep(waiters: seq<nat>, after: seq<nat>) {
    || after == waiters || after == []
    || (waiters != [] && after == waiters[1..])
    || (exists id :: after == Without(waiters, id))
    || (exists id :: id !in waiters && after == waiters + [id])
  }

  lemma LeaveListStep(s: Sys, id: nat, pc: CallerPc)
    requires WaitList(s) && id in s.callers
    ensures WaitersKnown(s) && ListStep(s.waiters, Leave(s, id, pc).waiters)
  {
    assert Without(s.waiters, id) == Without(s.waiters, id);
  }

  lemma ProbeListStep(c: Config, s: Sys, id: nat, early: bool)
    requires WaitList(s) && |s.workers| >= 1 && Enabled(c, s, Probe(id, early))
    ensures ListStep(s.waiters, Step(c, s, Probe(id, early)).waiters)
  {
    var scan := s.callers[id].pc.scan;
    if !Sends(c, s, id, early) {
      Wakeup.ProbeCases(c, s, id, early);
      AdvanceListStep(s, id, Wakeup.Judged(c, s.workers[Sink(s, scan)], scan, early));
    }
  }

  lemma AdvanceListStep(s: Sys, id: nat, scan: Scan)
    requires WaitList(s) && |s.workers| >= 1 && id in s.callers
    ensures WaitersKnown(s) && ListStep(s.waiters, Advance(s, id, scan).waiters)
  {
    LeaveListStep(s, id, Done(NoAvailableWorkersError));
    LeaveListStep(s, id, Done(QueueFullError));
  }

  lemma StepsTheList(c: Config, s: Sys, a: Act)
    requires WaitList(s) && CallersShape(s) && |s.workers| >= 1 && Enabled(c, s, a)
    ensures ListStep(s.waiters, Step(c, s, a).waiters)
  {
    match a {
      case Probe(id, early) => ProbeListStep(c, s, id, early);
      case Register(id, _) => assert CallerShape(|s.workers|, s.handles, s.callers[id]) && id !in s.waiters;
      case Receive(id, outcome) => LeaveListStep(s, id, Done(Replied(outcome)));
      case Cancel(id) => LeaveListStep(s, id, Canceled);
      case _ =>
    }
  }

  lemma OrderKept(waiters: seq<nat>, after: seq<nat>, x: nat, y: nat)
    requires ListStep(waiters, after) && Before(waiters, x, y) && x in after && y in after
    requires forall j, k | 0 <= j < k < |waiters| :: waiters[j] != waiters[k]
    ensures Before(after, x, y)
  {
    if after == waiters {
    } else if waiters != [] && after == waiters[1..] {
      assert waiters[0] != x;
      BeforeInTail(waiters, x, y);
    } else if exists id :: after == Without(waiters, id) {
      var id :| after == Without(waiters, id);
      WithoutIs(waiters, id);
      WithoutKeepsOrder(waiters, id, x, y);
    } else {
      var id :| after == waiters + [id];
      var p, q :| 0 <= p < q < |waiters| && waiters[p] == x && waiters[q] == y;
      assert after[p] == x && after[q] == y;
    }
  }

  // ---- Who a notify_one chooses ----

  lemma LeaveNotifies(s: Sys, id: nat, pc: CallerPc, y: nat)
    requires WaitList(s) && id in s.callers && y in s.waiters
    requires WaitersKnown(s) && y in Leave(s, id, pc).callers && Leave(s, id, pc).callers[y].node == NotifiedOne
    ensures s.waiters[0] == y
  {
    assert s.callers[y].node == Queued;
  }

  lemma ProbeNotifies(c: Config, s: Sys, id: nat, early: bool, y: nat)
    requires WaitList(s) && |s.workers| >= 1 && Enabled(c, s, Probe(id, early)) && y in s.waiters
    requires y in Step(c, s, Probe(id, early)).callers && Step(c, s, Probe(id, early)).callers[y].node == NotifiedOne
    ensures s.waiters[0] == y
  {
    assert s.callers[y].node == Queued;
    var scan := s.callers[id].pc.scan;
    if !Sends(c, s, id, early) {
      Wakeup.ProbeCases(c, s, id, early);
      AdvanceNotifies(s, id, Wakeup.Judged(c, s.workers[Sink(s, scan)], scan, early), y);
    }
  }

  lemma AdvanceNotifies(s: Sys, id: nat, scan: Scan, y: nat)
    requires WaitList(s) && |s.workers| >= 1 && id in s.callers && y in s.waiters && WaitersKnown(s)
    ensures y in Advance(s, id, scan).callers && (Advance(s, id, scan).callers[y].node == NotifiedOne ==> s.waiters[0] == y)
  {
    assert s.callers[y].node == Queued;
  }

  /** A single wakeup goes to the caller that has waited longest, whoever sends it: a worker's dequeue,
      or a caller that leaves with a wakeup it has not used. */
  lemma OldestIsNotified(c: Config, s: Sys, a: Act, y: nat)
    requires WaitList(s) && CallersShape(s) && |s.workers| >= 1 && Enabled(c, s, a) && y in s.waiters
    requires y in Step(c, s, a).callers && Step(c, s, a).callers[y].node == NotifiedOne
    ensures s.waiters[0] == y
  {
    assert s.callers[y].node == Queued;
    assert CallerShape(|s.workers|, s.handles, s.callers[y]);
    match a {
      case Probe(id, early) => ProbeNotifies(c, s, id, early, y);
      case Receive(id, outcome) => LeaveNotifies(s, id, Done(Replied(outcome)), y);
      case Cancel(id) => LeaveNotifies(s, id, Canceled, y);
      case _ =>
    }
  }

  lemma NotTheOldest(waiters: seq<nat>, x: nat, y: nat)
    requires Before(waiters, x, y) && forall j, k | 0 <= j < k < |waiters| :: waiters[j] != waiters[k]
    ensures waiters[0] != y
  {
  }

  // ---- Where wakeups come from ----

  /** A worker's dequeue, about to send its notify_one. */
  predicate Dequeues(s: Sys, a: Act) {
    a.Work? && a.a.Acc? && a.i < |s.workers| && (s.workers[a.i].acc.SignalFirst? || s.workers[a.i].acc.SignalNext?)
  }

  /** The end of a rebuild, about to send its notify_waiters. */
  predicate EndsRebuilding(s: Sys, a: Act) {
    a.Work? && a.a.Run? && a.i < |s.workers| && (s.workers[a.i].run.WakeAlive? || s.workers[a.i].run.WakeDead?)
  }

  /** Its caller's call ends here, by an answer or because its future is dropped. */
  predicate CallEnds(s: Sys, s': Sys, a: Act) {
    (a.Probe? || a.Receive? || a.Cancel?) && a.id in s.callers && a.id in s'.callers
    && (s'.callers[a.id].pc.Done? || s'.callers[a.id].pc.Canceled?)
  }

  /** One wakeup is sent in this step: by a dequeue, or by a caller that goes with one it was given and
      has not used. */
  predicate SendsOne(s: Sys, s': Sys, a: Act) {
    Dequeues(s, a) || (CallEnds(s, s', a) && s.callers[a.id].node == NotifiedOne)
  }

  /** What becomes of the list and the stored permit: one wakeup sent goes to the head, or is stored;
      the end of a rebuild empties the list and stores nothing; a caller that registers takes what is
      stored, or the last place; one that goes leaves its place; and nothing else changes either. */
  ghost predicate WakeupsStep(s: Sys, s': Sys, a: Act) {
    if SendsOne(s, s', a) then
      if s.waiters == [] then s'.waiters == [] && s'.permit
      else
        && s'.waiters == s.waiters[1..] && s'.permit == s.permit
        && s.waiters[0] in s'.callers && s'.callers[s.waiters[0]].node == NotifiedOne
    else if EndsRebuilding(s, a) then
      && s'.waiters == [] && s'.permit == s.permit
      && forall id | id in s.waiters :: id in s'.callers && s'.callers[id].node == NotifiedAll
    else if a.Register? then
      && !s'.permit && a.id in s'.callers
      && (if s.permit then s'.waiters == s.waiters && s'.callers[a.id].node == Consumed
          else s'.waiters == s.waiters + [a.id] && s'.callers[a.id].node == Queued)
    else if CallEnds(s, s', a) then
      && s'.permit == s.permit
      && (forall id | id in s'.waiters :: id in s.waiters && id != a.id)
      && (forall id | id in s.waiters && id != a.id :: id in s'.waiters)
    else s'.waiters == s.waiters && s'.permit == s.permit
  }

  lemma LeaveWakes(s: Sys, id: nat, pc: CallerPc)
    requires WaitList(s) && id in s.callers
    ensures WaitersKnown(s)
    ensures var s' := Leave(s, id, pc);
            if s.callers[id].node == NotifiedOne then
              if s.waiters == [] then s'.waiters == [] && s'.permit
              else
                && s'.waiters == s.waiters[1..] && s'.permit == s.permit
                && s.waiters[0] in s'.callers && s'.callers[s.waiters[0]].node == NotifiedOne
            else
              && s'.permit == s.permit
              && (forall x | x in s'.waiters :: x in s.waiters && x != id)
              && (forall x | x in s.waiters && x != id :: x in s'.waiters)
  {
    if s.callers[id].node == Queued {
      WithoutIs(s.waiters, id);
    } else {
      assert id !in s.waiters;
    }
  }

  lemma ProbeWakes(c: Config, s: Sys, id: nat, early: bool)
    requires WaitList(s) && CallersShape(s) && |s.workers| >= 1 && Enabled(c, s, Probe(id, early))
    ensures WakeupsStep(s, Step(c, s, Probe(id, early)), Probe(id, early))
  {
    var s' := Step(c, s, Probe(id, early));
    var scan := s.callers[id].pc.scan;
    if Sends(c, s, id, early) {
      ProbeSends(c, s, id, early);
    } else {
      Wakeup.ProbeCases(c, s, id, early);
      if !Wakeup.Stays(c, s.workers[Sink(s, scan)], scan) {
        AdvanceWakes(s, id, Wakeup.Judged(c, s.workers[Sink(s, scan)], scan, early), early);
      }
    }
  }

  lemma EndWakes(s: Sys, id: nat, answer: Answer, early: bool)
    requires WaitList(s) && id in s.callers
    ensures WaitersKnown(s) && WakeupsStep(s, Leave(s, id, Done(answer)), Probe(id, early))
  {
    LeaveWakes(s, id, Done(answer));
    LeaveKeeps(s, id, Done(answer));
  }

  lemma AdvanceWakes(s: Sys, id: nat, scan: Scan, early: bool)
    requires WaitList(s) && |s.workers| >= 1 && id in s.callers
    ensures WaitersKnown(s) && WakeupsStep(s, Advance(s, id, scan), Probe(id, early))
  {
    if scan.probes + 1 >= |s.workers| && !scan.primary {
      if !scan.hope {
        EndWakes(s, id, NoAvailableWorkersError, early);
      } else if s.callers[id].mode == FailsFast {
        EndWakes(s, id, QueueFullError, early);
      }
    }
  }

  lemma StepWakes(c: Config, s: Sys, a: Act)
    requires WaitList(s) && CallersShape(s) && |s.workers| >= 1 && Enabled(c, s, a)
    ensures WakeupsStep(s, Step(c, s, a), a)
  {
    match a {
      case Probe(id, early) => ProbeWakes(c, s, id, early);
      case Receive(id, outcome) =>
        LeaveWakes(s, id, Done(Replied(outcome)));
        LeaveKeeps(s, id, Done(Replied(outcome)));
      case Cancel(id) =>
        LeaveWakes(s, id, Canceled);
        LeaveKeeps(s, id, Canceled);
      case _ =>
    }
  }

  /** Along every run wakeups come from nowhere else and go nowhere else: none is made up or doubled,
      and a stored one is taken once. */
  lemma WakeupsAreConserved(c: Config, t: Trace, k: nat)
    requires ValidConfig(c) && IsRun(c, t) && Initial(t.states[0]) && k < |t.acts|
    ensures WakeupsStep(t.states[k], t.states[k + 1], t.acts[k])
  {
    LinesAlong(c, t, k);
    assert Enabled(c, t.states[k], t.acts[k]);
    StepWakes(c, t.states[k], t.acts[k]);
  }

  // ---- Along a run ----

  /** Both wait from state `m` on, up to state `k`, `x` first. */
  ghost predicate WaitBoth(t: Trace, m: nat, k: nat, x: nat, y: nat) {
    && m <= k < |t.states| && Before(t.states[m].waiters, x, y)
    && forall j | m <= j <= k :: x in t.states[j].waiters && y in t.states[j].waiters
  }

  lemma {:induction false} StaysBefore(c: Config, t: Trace, m: nat, k: nat, x: nat, y: nat)
    requires ValidConfig(c) && IsRun(c, t) && Initial(t.states[0]) && WaitBoth(t, m, k, x, y)
    ensures Before(t.states[k].waiters, x, y)
    decreases k
  {
    if m < k {
      StaysBefore(c, t, m, k - 1, x, y);
      LinesAlong(c, t, k - 1);
      assert Enabled(c, t.states[k - 1], t.acts[k - 1]);
      StepsTheList(c, t.states[k - 1], t.acts[k - 1]);
      OrderKept(t.states[k - 1].waiters, t.states[k].waiters, x, y);
    }
  }

  /** So as long as `x`, which began to wait before `y`, still waits, no single wakeup goes to `y`. */
  lemma NobodyOvertakes(c: Config, t: Trace, m: nat, k: nat, x: nat, y: nat)
    requires ValidConfig(c) && IsRun(c, t) && Initial(t.states[0]) && k < |t.acts| && WaitBoth(t, m, k, x, y)
    ensures y in t.states[k + 1].callers && t.states[k + 1].callers[y].node != NotifiedOne
  {
    StaysBefore(c, t, m, k, x, y);
    LinesAlong(c, t, k);
    var (s, a) := (t.states[k], t.acts[k]);
    assert Enabled(c, s, a);
    assert y in Step(c, s, a).callers by { StepFrame(c, s, a); }
    NotTheOldest(s.waiters, x, y);
    if Step(c, s, a).callers[y].node == NotifiedOne {
      OldestIsNotified(c, s, a, y);
    }
  }

  /** And whoever begins to wait later is behind all who wait already. */
  lemma NewcomersWaitLast(c: Config, t: Trace, k: nat, x: nat, y: nat)
    requires ValidConfig(c) && IsRun(c, t) && Initial(t.states[0]) && k < |t.acts|
    requires x in t.states[k].waiters && x in t.states[k + 1].waiters
    requires y !in t.states[k].waiters && y in t.states[k + 1].waiters
    ensures Before(t.states[k + 1].waiters, x, y)
  {
    LinesAlong(c, t, k);
    assert Enabled(c, t.states[k], t.acts[k]);
    StepsTheList(c, t.states[k], t.acts[k]);
    var (waiters, after) := (t.states[k].waiters, t.states[k + 1].waiters);
    if exists id :: id !in waiters && after == waiters + [id] {
      var id :| id !in waiters && after == waiters + [id];
      var p :| 0 <= p < |waiters| && waiters[p] == x;
      assert after[p] == x && after[|waiters|] == y;
    }
  }
}

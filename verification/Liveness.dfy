/** The system always comes to rest, and at rest everybody has been answered, with two exceptions
    that are described exactly: a batch sent to an inference thread that is gone, and a wakeup lost
    to a drain that overlaps the end of a rebuild. */
module Liveness {
  import opened Worker
  import opened WorkerShape
  import opened WorkerHistory
  import opened WorkerProgress
  import opened WorkerInvariant
  import opened System
  import opened SystemShape
  import opened Custody
  import opened Wakeup
  import opened Ranking

  // ---- Bounded work ----

  function WorkSteps(acts: seq<Act>): nat {
    if acts == [] then 0 else WorkSteps(acts[..|acts| - 1]) + if acts[|acts| - 1].Work? then 1 else 0
  }

  function Accepted(workers: seq<Worker>): nat {
    if workers == [] then 0 else |workers[0].accepted| + Accepted(workers[1..])
  }

  lemma {:induction false} AcceptedUpdate(workers: seq<Worker>, i: nat, w: Worker)
    requires i < |workers|
    ensures Accepted(workers[i := w]) + |workers[i].accepted| == Accepted(workers) + |w.accepted|
  {
    if i == 0 {
      assert workers[0 := w][1..] == workers[1..];
    } else {
      assert workers[i := w][1..] == workers[1..][i - 1 := w];
      AcceptedUpdate(workers[1..], i - 1, w);
    }
  }

  lemma {:induction false} InitialWork(c: Config, workers: seq<Worker>)
    requires forall i | 0 <= i < |workers| :: workers[i] == Started()
    ensures WorkLeft(c, workers) == 4 * |workers| && Accepted(workers) == 0
  {
    if workers != [] {
      InitialWork(c, workers[1..]);
    }
  }

  // A request accepted pays for 400 worker steps; every worker step is paid for.
  lemma WorkPaidFor(c: Config, s: Sys, a: Act)
    requires ValidConfig(c) && SysShape(c, s) && Enabled(c, s, a)
    ensures var s' := Step(c, s, a);
            WorkLeft(c, s'.workers) + (if a.Work? then 1 else 0) + 400 * Accepted(s.workers)
              <= WorkLeft(c, s.workers) + 400 * Accepted(s'.workers)
  {
    var s' := Step(c, s, a);
    StepFrame(c, s, a);
    if a.Work? {
      assert WorkerInv(c, s.workers[a.i]);
      WorkerStepLowers(c, s, a.i, a.a);
      WorkerRemembers(c, s.workers[a.i], s.handles == {}, CanceledIds(s), a.a);
      AcceptedUpdate(s.workers, a.i, s'.workers[a.i]);
    } else if a.Probe? && Sends(c, s, a.id, a.early) {
      var i := Sink(s, s.callers[a.id].pc.scan);
      WorkLeftUpdate(c, s.workers, i, s'.workers[i]);
      PushCosts(c, s.workers[i], Request(a.id, s.callers[a.id].input));
      AcceptedUpdate(s.workers, i, s'.workers[i]);
    }
  }

  lemma {:induction false} WorkPaidForAlong(c: Config, t: Trace, k: nat)
    requires ValidConfig(c) && IsRun(c, t) && Initial(t.states[0]) && k < |t.states|
    ensures WorkSteps(t.acts[..k]) + WorkLeft(c, t.states[k].workers)
              <= 4 * |t.states[0].workers| + 400 * Accepted(t.states[k].workers)
  {
    if k == 0 {
      InitialWork(c, t.states[0].workers);
    } else {
      WorkPaidForAlong(c, t, k - 1);
      KeptAlong(c, t, k - 1);
      WorkPaidFor(c, t.states[k - 1], t.acts[k - 1]);
      assert t.acts[..k][..k - 1] == t.acts[..k - 1];
    }
  }

  /** However long a run, and whatever panics, fails and is rebuilt in it, its workers take no more
      than four steps each and four hundred for every request accepted so far. */
  lemma WorkIsBounded(c: Config, t: Trace, k: nat)
    requires ValidConfig(c) && IsRun(c, t) && Initial(t.states[0]) && k < |t.states|
    ensures WorkSteps(t.acts[..k]) <= 4 * |t.states[0].workers| + 400 * Accepted(t.states[k].workers)
  {
    WorkPaidForAlong(c, t, k);
    KeptAlong(c, t, k);
    forall i | 0 <= i < |t.states[k].workers|
      ensures RunShape(c, t.states[k].workers[i])
    {
      assert WorkerInv(c, t.states[k].workers[i]);
    }
    WorkLeftIsNatural(c, t.states[k].workers);
  }

  // ---- At rest ----

  /** Nothing is left that the system could do on its own. */
  ghost predicate Quiet(c: Config, s: Sys) {
    forall a | Internal(a) :: !Enabled(c, s, a)
  }

  /** A worker that is busy, or that owes somebody a wakeup, can take a step. */
  lemma RestlessCanStep(c: Config, w: Worker, closed: bool)
    requires Shape(c, w) && (Busy(w) || WorkerHope(w))
    ensures WorkerEnabled(c, w, closed, if Busy(w) then SomeStep(w) else SomeRunStep(w))
  {
    if Busy(w) {
      BusyCanStep(c, w, closed);
    }
  }

  lemma QuietWorker(c: Config, s: Sys, i: nat)
    requires SysShape(c, s) && Quiet(c, s) && i < |s.workers|
    ensures !Busy(s.workers[i]) && !WorkerHope(s.workers[i])
  {
    var w := s.workers[i];
    assert WorkerInv(c, w);
    if Busy(w) || WorkerHope(w) {
      RestlessCanStep(c, w, s.handles == {});
      var a := if Busy(w) then SomeStep(w) else SomeRunStep(w);
      assert Enabled(c, s, Act.Work(i, a)) && Internal(Act.Work(i, a));
    }
  }

  /** In flight at rest is either awaiting a reply or parked unnotified. */
  lemma QuietCaller(c: Config, s: Sys, id: nat)
    requires SysShape(c, s) && Quiet(c, s) && id in s.callers && InFlight(s.callers[id])
    ensures s.callers[id].pc.Awaiting? || ParkedUnnotified(s.callers[id])
  {
    assert CallerShape(|s.workers|, s.handles, s.callers[id]);
    assert !Enabled(c, s, Probe(id, false)) by { assert Internal(Probe(id, false)); }
    assert !Enabled(c, s, Register(id, 0)) by { assert Internal(Register(id, 0)); }
    assert !Enabled(c, s, Wake(id)) by { assert Internal(Wake(id)); }
  }

  lemma SenderOf(w: Worker, r: Request)
    requires Count(RequestsOf(w.resolved), r) > 0
    ensures exists outcome :: Resolution(r, outcome) in w.resolved
  {
    CountMember(RequestsOf(w.resolved), r);
    var k :| 0 <= k < |w.resolved| && RequestsOf(w.resolved)[k] == r;
    assert w.resolved[k] == Resolution(r, w.resolved[k].outcome);
  }

  // Idle but for the job channel, a worker holds nothing anywhere else.
  lemma IdleHolds(w: Worker, r: Request)
    requires !Busy(w)
    ensures Accumulating(w, r) == 0 && Inferring(w, r) == Count(Flat(w.slot), r)
  {
  }

  /** At rest, a reply that is still awaited is that of a request stranded in a job channel whose
      receiver is gone. */
  lemma QuietAwaitsStranded(c: Config, s: Sys, id: nat)
    requires Kept(c, s) && Quiet(c, s) && id in s.callers && s.callers[id].pc.Awaiting?
    ensures var k := s.callers[id];
            && k.home.At? && k.home.worker < |s.workers| && Stranded(s.workers[k.home.worker])
            && Request(id, k.input) in Flat(s.workers[k.home.worker].slot)
  {
    var k := s.callers[id];
    assert CallerShape(|s.workers|, s.handles, k);
    forall outcome
      ensures !Resolved(s, id, outcome)
    {
      assert Internal(Receive(id, outcome)) && !Enabled(c, s, Receive(id, outcome));
    }
    UnresolvedIsHeld(c, s, id);
    var w := s.workers[k.home.worker];
    QuietWorker(c, s, k.home.worker);
    IdleHolds(w, Request(id, k.input));
    CountMember(Flat(w.slot), Request(id, k.input));
  }

  /** In any state of any run, a request still unresolved is stranded, or its worker has a step to
      take. */
  lemma UnresolvedIsWorkedOn(c: Config, t: Trace, k: nat, id: nat)
    requires ValidConfig(c) && IsRun(c, t) && Initial(t.states[0]) && k < |t.states|
    requires id in t.states[k].callers && t.states[k].callers[id].home.At?
    requires forall outcome :: !Resolved(t.states[k], id, outcome)
    ensures var s := t.states[k];
            var i := s.callers[id].home.worker;
            && i < |s.workers|
            && ((Stranded(s.workers[i]) && Request(id, s.callers[id].input) in Flat(s.workers[i].slot))
                || (exists a :: Enabled(c, s, Act.Work(i, a))))
  {
    KeptAlong(c, t, k);
    var s := t.states[k];
    var i := s.callers[id].home.worker;
    assert CallerShape(|s.workers|, s.handles, s.callers[id]);
    UnresolvedIsHeld(c, s, id);
    var w := s.workers[i];
    assert Shape(c, w) by { assert WorkerInv(c, w); }
    if Busy(w) {
      BusyCanStep(c, w, s.handles == {});
      assert Enabled(c, s, Act.Work(i, SomeStep(w)));
    } else {
      IdleHolds(w, Request(id, s.callers[id].input));
      CountMember(Flat(w.slot), Request(id, s.callers[id].input));
    }
  }

  lemma UnresolvedIsHeld(c: Config, s: Sys, id: nat)
    requires Kept(c, s) && id in s.callers && s.callers[id].home.At? && s.callers[id].home.worker < |s.workers|
    requires forall outcome :: !Resolved(s, id, outcome)
    ensures var (w, r) := (s.workers[s.callers[id].home.worker], Request(id, s.callers[id].input));
            Accumulating(w, r) + Inferring(w, r) == 1
  {
    var k := s.callers[id];
    var r := Request(id, k.input);
    var w := s.workers[k.home.worker];
    assert Count(w.accepted, r) == 1 by { assert QueuedWith(s, r, k.home.worker); }
    assert ConservedAt(w, r) by { assert WorkerInv(c, w); }
    if Count(RequestsOf(w.resolved), r) > 0 {
      SenderOf(w, r);
      var outcome :| Resolution(r, outcome) in w.resolved;
      assert Resolved(s, id, outcome);
    }
  }

  /** A worker the router would give a request to at once. */
  predicate Idles(c: Config, w: Worker) {
    w.acc.AwaitFirst? && w.chan == [] && Ready(c, w, true)
  }

  /** At rest, a caller still parked has missed its wakeup: a worker is waiting for requests, with
      nothing in its queue. */
  lemma QuietParkedMissed(c: Config, s: Sys, id: nat)
    requires ValidConfig(c) && SysShape(c, s) && Attended(s) && Quiet(c, s)
    requires id in s.callers && ParkedUnnotified(s.callers[id])
    ensures exists i | 0 <= i < |s.workers| :: Idles(c, s.workers[i])
  {
    assert Needy(s.callers[id]);
    var i :| 0 <= i < |s.workers| && Warm(s.workers[i]);
    QuietWorker(c, s, i);
    assert WorkerInv(c, s.workers[i]);
    ShapeIsGround(c, s);
    assert !Shut(s.workers[i]) by { assert InFlight(s.callers[id]); }
    assert !s.workers[i].acc.Fill? by {
      assert Internal(Act.Work(i, Acc(AccTimer))) && !Enabled(c, s, Act.Work(i, Acc(AccTimer)));
    }
    assert !Enabled(c, s, Act.Work(i, Acc(AccGo))) by { assert Internal(Act.Work(i, Acc(AccGo))); }
    assert Idles(c, s.workers[i]);
  }

  /** At rest, all the hope left is a wakeup given to a caller that awaits a stranded request. */
  lemma QuietHopeIsStranded(c: Config, s: Sys)
    requires Kept(c, s) && Quiet(c, s) && Hope(s)
    ensures exists i | 0 <= i < |s.workers| :: Stranded(s.workers[i])
  {
    forall i | 0 <= i < |s.workers|
      ensures !WorkerHope(s.workers[i])
    {
      QuietWorker(c, s, i);
    }
    var id :| id in s.callers && CallerHope(s.callers[id]);
    assert CallerShape(|s.workers|, s.handles, s.callers[id]);
    QuietCaller(c, s, id);
    QuietAwaitsStranded(c, s, id);
  }

  /** A call that is over: answered, or given up by its caller. */
  predicate Over(k: Caller) {
    k.pc.Done? || k.pc.Canceled?
  }

  /** At rest everybody has been answered, unless a batch is stranded, or there was a drain
      overlapping the end of a rebuild. */
  lemma QuietMeansAnswered(c: Config, s: Sys, id: nat)
    requires ValidConfig(c) && Kept(c, s) && Attended(s) && NeedyHope(s) && Quiet(c, s)
    requires forall i | 0 <= i < |s.workers| :: !Stranded(s.workers[i])
    requires id in s.callers
    ensures Over(s.callers[id])
  {
    if InFlight(s.callers[id]) {
      QuietCaller(c, s, id);
      if s.callers[id].pc.Awaiting? {
        QuietAwaitsStranded(c, s, id);
      } else {
        assert Needy(s.callers[id]);
        QuietHopeIsStranded(c, s);
      }
    }
  }

  // ---- Coming to rest ----

  /** An infinite history: as long as the system can do something on its own it does, in any order,
      and its users do nothing. */
  ghost predicate Unattended(c: Config, states: nat -> Sys, acts: nat -> Act) {
    forall n: nat :: Moves(c, states(n), acts(n), states(n + 1))
  }

  ghost predicate Moves(c: Config, s: Sys, a: Act, s': Sys) {
    if Quiet(c, s) then s' == s else Internal(a) && Enabled(c, s, a) && s' == Step(c, s, a)
  }

  ghost function WorkRank(c: Config, s: Sys): nat {
    if Outstanding(c, s) < 0 then 0 else Outstanding(c, s)
  }

  ghost predicate NeverOverlapped(states: nat -> Sys, acts: nat -> Act) {
    forall n: nat :: !OverlappedDrain(states(n), acts(n))
  }

  /** Whoever is scheduled when, it comes to rest. */
  lemma {:induction false} ComesToRest(c: Config, states: nat -> Sys, acts: nat -> Act, n: nat)
    requires ValidConfig(c) && Unattended(c, states, acts) && Kept(c, states(n)) && Attended(states(n))
    ensures exists m :: && Quiet(c, states(m)) && Kept(c, states(m)) && Attended(states(m))
                        && (NeverOverlapped(states, acts) && NeedyHope(states(n)) ==> NeedyHope(states(m)))
    decreases WorkRank(c, states(n)), Retries(states(n))
  {
    if !Quiet(c, states(n)) {
      var (s, a) := (states(n), acts(n));
      assert Moves(c, s, a, states(n + 1));
      InternalStepLowers(c, s, a);
      KeptStep(c, s, a);
      AttendedStep(c, s, a);
      if NeverOverlapped(states, acts) && NeedyHope(s) {
        NeedyHopeStep(c, s, a);
      }
      OutstandingIsNatural(c, s);
      OutstandingIsNatural(c, states(n + 1));
      ComesToRest(c, states, acts, n + 1);
    }
  }

  /** Every accepted caller is answered: when users do nothing more, the system comes to rest
      however its steps are interleaved, whatever panics, and then every reply still awaited is
      that of a request stranded in a job channel nobody receives from. */
  lemma EveryAcceptedCallerIsAnswered(c: Config, t: Trace, states: nat -> Sys, acts: nat -> Act)
    requires ValidConfig(c) && IsRun(c, t) && Initial(t.states[0])
    requires states(0) == t.states[|t.acts|] && Unattended(c, states, acts)
    ensures exists m :: && Quiet(c, states(m))
              && forall id | id in states(m).callers && states(m).callers[id].pc.Awaiting? ::
                   var k := states(m).callers[id];
                   && k.home.At? && k.home.worker < |states(m).workers| && Stranded(states(m).workers[k.home.worker])
                   && Request(id, k.input) in Flat(states(m).workers[k.home.worker].slot)
  {
    KeptAlong(c, t, |t.acts|);
    AttendedAlong(c, t, |t.acts|);
    ComesToRest(c, states, acts, 0);
    var m :| Quiet(c, states(m)) && Kept(c, states(m)) && Attended(states(m));
    forall id | id in states(m).callers && states(m).callers[id].pc.Awaiting?
      ensures var k := states(m).callers[id];
              && k.home.At? && k.home.worker < |states(m).workers| && Stranded(states(m).workers[k.home.worker])
              && Request(id, k.input) in Flat(states(m).workers[k.home.worker].slot)
    {
      QuietAwaitsStranded(c, states(m), id);
    }
  }

  /** And callers waiting for room are served as well, as long as no drain overlaps the end of a
      rebuild: at rest every call is over, unless a batch is stranded. */
  lemma EveryCallerIsAnswered(c: Config, t: Trace, states: nat -> Sys, acts: nat -> Act)
    requires ValidConfig(c) && IsRun(c, t) && Initial(t.states[0]) && NoOverlappedDrain(t)
    requires states(0) == t.states[|t.acts|] && Unattended(c, states, acts) && NeverOverlapped(states, acts)
    ensures exists m :: && Quiet(c, states(m))
              && ((forall i | 0 <= i < |states(m).workers| :: !Stranded(states(m).workers[i])) ==>
                    forall id | id in states(m).callers :: Over(states(m).callers[id]))
  {
    KeptAlong(c, t, |t.acts|);
    AttendedAlong(c, t, |t.acts|);
    NeedyHopeAlong(c, t, |t.acts|);
    ComesToRest(c, states, acts, 0);
    var m :| Quiet(c, states(m)) && Kept(c, states(m)) && Attended(states(m)) && NeedyHope(states(m));
    if forall i | 0 <= i < |states(m).workers| :: !Stranded(states(m).workers[i]) {
      forall id | id in states(m).callers
        ensures Over(states(m).callers[id])
      {
        QuietMeansAnswered(c, states(m), id);
      }
    }
  }
}

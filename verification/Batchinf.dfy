/** `predict` and `try_predict` of src/batcher/mod.rs, with the two routing passes of `try_push`
    under them, in the form they are written in. Every access to shared state is one step of the
    state machine, with any steps of the workers, of other callers and of the handles' owners in
    between. */
module Batchinf {
  import opened StatusWord
  import opened Worker
  import opened System
  import opened SystemShape
  import opened Custody
  import opened Ranking

  // ---- Runs of the system ----

  ghost predicate Follows(c: Config, s: Sys, acts: seq<Act>, s': Sys)
    decreases |acts|
  {
    if acts == [] then s' == s else Enabled(c, s, acts[0]) && Follows(c, Step(c, s, acts[0]), acts[1..], s')
  }

  ghost predicate RunsTo(c: Config, s: Sys, s': Sys) {
    exists acts :: Follows(c, s, acts, s')
  }

  lemma RunsToSelf(c: Config, s: Sys)
    ensures RunsTo(c, s, s)
  {
    assert Follows(c, s, [], s);
  }

  lemma {:induction false} FollowsOn(c: Config, s: Sys, a: seq<Act>, s1: Sys, b: seq<Act>, s2: Sys)
    requires Follows(c, s, a, s1) && Follows(c, s1, b, s2)
    ensures Follows(c, s, a + b, s2)
    decreases |a|
  {
    if a == [] {
      assert a + b == b;
    } else {
      FollowsOn(c, Step(c, s, a[0]), a[1..], s1, b, s2);
      assert (a + b)[1..] == a[1..] + b;
    }
  }

  lemma RunsOn(c: Config, s: Sys, s1: Sys, s2: Sys)
    requires RunsTo(c, s, s1) && RunsTo(c, s1, s2)
    ensures RunsTo(c, s, s2)
  {
    var a :| Follows(c, s, a, s1);
    var b :| Follows(c, s1, b, s2);
    FollowsOn(c, s, a, s1, b, s2);
  }

  lemma RunsByOne(c: Config, s: Sys, a: Act)
    requires Enabled(c, s, a)
    ensures RunsTo(c, s, Step(c, s, a))
  {
    assert Follows(c, Step(c, s, a), [], Step(c, s, a));
    assert [a][1..] == [];
    assert Follows(c, s, [a], Step(c, s, a));
  }

  lemma {:induction false} FollowsKeeps(c: Config, s: Sys, acts: seq<Act>, s': Sys)
    requires ValidConfig(c) && Kept(c, s) && Follows(c, s, acts, s')
    ensures Kept(c, s')
    decreases |acts|
  {
    if acts != [] {
      KeptStep(c, s, acts[0]);
      FollowsKeeps(c, Step(c, s, acts[0]), acts[1..], s');
    }
  }

  /** The system is in a state of some run. */
  ghost predicate Reached(c: Config, s: Sys) {
    exists s0 :: Initial(s0) && RunsTo(c, s0, s)
  }

  lemma ReachedKept(c: Config, s: Sys)
    requires ValidConfig(c) && Reached(c, s)
    ensures Kept(c, s)
  {
    var s0 :| Initial(s0) && RunsTo(c, s0, s);
    var acts :| Follows(c, s0, acts, s);
    KeptInitial(c, s0);
    FollowsKeeps(c, s0, acts, s);
  }

  lemma ReachedOn(c: Config, s: Sys, s': Sys)
    requires Reached(c, s) && RunsTo(c, s, s')
    ensures Reached(c, s')
  {
    var s0 :| Initial(s0) && RunsTo(c, s0, s);
    RunsOn(c, s0, s, s');
  }

  /** So a program that takes only steps of the state machine has its guarantees: in particular a
      successful answer is `f` of the caller's own input. */
  lemma AnswerIsOwnResult(c: Config, s: Sys, id: nat, value: int)
    requires ValidConfig(c) && Reached(c, s)
    requires id in s.callers && s.callers[id].pc == Done(Replied(Output(value)))
    ensures value == c.f(s.callers[id].input)
  {
    ReachedKept(c, s);
    OwnResult(c, s, id);
  }

  ghost function WorkLeftOf(c: Config, s: Sys): nat {
    if Outstanding(c, s) < 0 then 0 else Outstanding(c, s)
  }

  /** Less is left to do: in the work, or in the retries. */
  ghost predicate LessLeft(c: Config, s: Sys, s': Sys) {
    WorkLeftOf(c, s') < WorkLeftOf(c, s) || (WorkLeftOf(c, s') == WorkLeftOf(c, s) && Retries(s') < Retries(s))
  }

  lemma StepIsSound(c: Config, s: Sys, a: Act)
    requires ValidConfig(c) && Reached(c, s) && Enabled(c, s, a)
    ensures Reached(c, Step(c, s, a)) && RunsTo(c, s, Step(c, s, a)) && |Step(c, s, a).workers| == |s.workers|
    ensures Internal(a) ==> LessLeft(c, s, Step(c, s, a))
  {
    RunsByOne(c, s, a);
    ReachedOn(c, s, Step(c, s, a));
    assert |Step(c, s, a).workers| == |s.workers| by {
      ReachedKept(c, s);
      WorkerAfter(c, s, a, 0);
    }
    if Internal(a) {
      StepLeavesLess(c, s, a);
    }
  }

  lemma StepLeavesLess(c: Config, s: Sys, a: Act)
    requires ValidConfig(c) && Reached(c, s) && Enabled(c, s, a) && Internal(a) && Reached(c, Step(c, s, a))
    ensures LessLeft(c, s, Step(c, s, a))
  {
    ReachedKept(c, s);
    ReachedKept(c, Step(c, s, a));
    InternalStepLowers(c, s, a);
    OutstandingIsNatural(c, s);
    OutstandingIsNatural(c, Step(c, s, a));
  }

  /** Somebody else's step at most notifies a caller. */
  lemma OthersNudge(c: Config, s: Sys, a: Act, id: nat)
    requires ValidConfig(c) && Reached(c, s) && Enabled(c, s, a) && !IsActor(a, id)
    ensures id in s.callers ==> id in Step(c, s, a).callers && Nudged(s.callers[id], Step(c, s, a).callers[id])
    ensures id !in s.callers ==> id !in Step(c, s, a).callers
  {
    ReachedKept(c, s);
    StepFrame(c, s, a);
  }

  // ---- Where a walk goes on ----

  /** After a probe that placed nothing. */
  function NextPc(n: nat, mode: Mode, registered: bool, scan: Scan): CallerPc {
    var next := scan.(stage := LoadState);
    if scan.probes + 1 < n then Scanning(next.(probes := scan.probes + 1))
    else if scan.primary then Scanning(next.(probes := 0, primary := false))
    else TurnedAway(mode, registered, scan.hope)
  }

  /** After a walk that placed nothing. */
  function TurnedAway(mode: Mode, registered: bool, hope: bool): CallerPc {
    if !hope then Done(NoAvailableWorkersError)
    else if mode == FailsFast then Done(QueueFullError)
    else if registered then Parked else Registering
  }

  lemma AdvancePc(s: Sys, id: nat, scan: Scan)
    requires WaitList(s) && id in s.callers && |s.workers| > 0
    ensures WaitersKnown(s) && id in Advance(s, id, scan).callers
    ensures var (k, k') := (s.callers[id], Advance(s, id, scan).callers[id]);
            && k'.pc == NextPc(|s.workers|, k.mode, k.node != NoNode, scan)
            && k'.mode == k.mode && (!k'.pc.Done? ==> k'.node == k.node)
  {
    if scan.probes + 1 >= |s.workers| && !scan.primary {
      LeaveKeeps(s, id, Done(NoAvailableWorkersError));
      LeaveKeeps(s, id, Done(QueueFullError));
    }
  }

  /** Where one probe leaves its caller. */
  ghost predicate Leads(s: Sys, s': Sys, id: nat, pc: CallerPc) {
    && id in s.callers && id in s'.callers && s'.callers[id].pc == pc && s'.callers[id].mode == s.callers[id].mode
    && (!pc.Done? ==> s'.callers[id].node == s.callers[id].node)
  }

  lemma LoadLeads(c: Config, s: Sys, id: nat, scan: Scan, early: bool)
    requires WaitList(s) && id in s.callers && s.callers[id].pc == Scanning(scan) && |s.workers| > 0 && scan.stage == Stage.LoadState
    ensures var k := s.callers[id];
            Enabled(c, s, Probe(id, early)) &&
            Leads(s, Step(c, s, Probe(id, early)), id,
                  if Ready(c, s.workers[Sink(s, scan)], scan.primary) then Scanning(scan.(stage := TrySend))
                  else if scan.primary then NextPc(|s.workers|, k.mode, k.node != NoNode, scan)
                  else Scanning(scan.(stage := LoadRebuilding)))
  {
    AdvancePc(s, id, scan);
  }

  /** What a try_send comes to. */
  function SendOf(c: Config, w: Worker, early: bool): SendResult {
    if w.acc.AccGone? || (early && w.status in {Exit, Crashed}) then SendClosed
    else if |w.chan| < c.queueSize then Sent else SendFull
  }

  /** What the walk knows after one that placed nothing. */
  function AfterSend(scan: Scan, result: SendResult): Scan {
    Scan(scan.start, scan.probes, scan.primary, Stage.LoadState, scan.hope || (result.SendFull? && !scan.primary))
  }

  lemma SendLeads(c: Config, s: Sys, id: nat, scan: Scan, early: bool)
    requires WaitList(s) && id in s.callers && s.callers[id].pc == Scanning(scan) && |s.workers| > 0 && scan.stage == TrySend
    ensures var (k, result) := (s.callers[id], SendOf(c, s.workers[Sink(s, scan)], early));
            Enabled(c, s, Probe(id, early)) &&
            Leads(s, Step(c, s, Probe(id, early)), id,
                  if result.Sent? then Awaiting
                  else NextPc(|s.workers|, k.mode, k.node != NoNode, AfterSend(scan, result)))
  {
    var result := SendOf(c, s.workers[Sink(s, scan)], early);
    AdvancePc(s, id, if result.SendFull? then scan.(hope := scan.hope || !scan.primary) else scan);
  }

  lemma RebuildingLeads(c: Config, s: Sys, id: nat, scan: Scan, early: bool)
    requires WaitList(s) && id in s.callers && s.callers[id].pc == Scanning(scan) && |s.workers| > 0 && scan.stage == LoadRebuilding
    ensures var (k, w) := (s.callers[id], s.workers[Sink(s, scan)]);
            Enabled(c, s, Probe(id, early)) &&
            Leads(s, Step(c, s, Probe(id, early)), id,
                  NextPc(|s.workers|, k.mode, k.node != NoNode,
                         Scan(scan.start, scan.probes, scan.primary, Stage.LoadState, scan.hope || w.predictor == Rebuilding)))
  {
    AdvancePc(s, id, scan.(hope := scan.hope || s.workers[Sink(s, scan)].predictor == Rebuilding));
  }

  /** The caller has no step of its own to take. */
  ghost predicate Blocked(c: Config, s: Sys, id: nat) {
    forall a | Internal(a) && IsActor(a, id) :: !Enabled(c, s, a)
  }

  lemma ParkedIsBlocked(c: Config, s: Sys, id: nat)
    requires id in s.callers && s.callers[id].pc.Parked? && s.callers[id].node == Queued
    ensures Blocked(c, s, id)
  {
  }

  lemma AwaitingIsBlocked(c: Config, s: Sys, id: nat)
    requires id in s.callers && s.callers[id].pc.Awaiting? && forall o :: !Resolved(s, id, o)
    ensures Blocked(c, s, id)
  {
  }

  /** What a walk comes to, its caller keeping the request unless it was pushed. */
  datatype PushOutcome = Pushed | QueueFull | NoAvailableWorkers

  datatype SendResult = Sent | SendClosed | SendFull

  datatype Ended = Returned(answer: Answer) | Suspended

  /** What others do before the next access, the start ticket drawn if one is, and whether a send
      sees a shut accumulator early. */
  datatype Turn = Turn(others: seq<Act>, start: nat, early: bool)

  class Future {
    const c: Config
    const id: nat
    const mode: Mode
    var s: Sys               // the system as the state machine sees it
    var script: seq<Turn>    // what is still to come from others

    ghost predicate Valid()
      reads this
    {
      && ValidConfig(c) && Reached(c, s) && |s.workers| > 0
      && (id in s.callers ==> s.callers[id].mode == mode)
    }

    constructor (c: Config, id: nat, mode: Mode, s: Sys, script: seq<Turn>)
      requires ValidConfig(c) && Reached(c, s) && (id in s.callers ==> s.callers[id].mode == mode)
      ensures Valid() && this.c == c && this.id == id && this.mode == mode && this.s == s && this.script == script
    {
      this.c, this.id, this.mode, this.s, this.script := c, id, mode, s, script;
      new;
      ReachedKept(c, s);
    }

    /** The system's own steps have led here from `s0`, with `left` turns of others to come then:
        fewer now, or no more left to do. */
    ghost predicate Since(s0: Sys, left: nat)
      reads this
    {
      && RunsTo(c, s0, s) && |script| <= left && |s.workers| == |s0.workers|
      && (|script| == left ==> LessLeft(c, s0, s) || (WorkLeftOf(c, s) == WorkLeftOf(c, s0) && Retries(s) == Retries(s0)))
    }

    ghost predicate Progressed(s0: Sys, left: nat)
      reads this
    {
      Since(s0, left) && (|script| == left ==> LessLeft(c, s0, s))
    }

    /** Where the caller is, and whether it has a `Notified` registered: others do not change that. */
    ghost predicate At(pc: CallerPc, registered: bool)
      reads this
    {
      id in s.callers && s.callers[id].pc == pc && (!pc.Done? ==> (s.callers[id].node != NoNode <==> registered))
    }

    method Move(a: Act)
      requires Valid()
      modifies this`s
      ensures Valid() && RunsTo(c, old(s), s) && |s.workers| == |old(s).workers|
      ensures id in old(s).callers ==> id in s.callers && Nudged(old(s).callers[id], s.callers[id])
      ensures id !in old(s).callers ==> id !in s.callers
    {
      RunsToSelf(c, s);
      if Enabled(c, s, a) && !IsActor(a, id) {
        StepIsSound(c, s, a);
        OthersNudge(c, s, a, id);
        s := Step(c, s, a);
      }
    }

    /** Others take their steps; at most they notify this caller. */
    method Wait() returns (turn: Turn)
      requires Valid()
      modifies this`s, this`script
      ensures Valid() && Since(old(s), |old(script)|)
      ensures script == if old(script) == [] then [] else old(script)[1..]
      ensures id in old(s).callers ==> id in s.callers && Nudged(old(s).callers[id], s.callers[id])
      ensures id !in old(s).callers ==> id !in s.callers
    {
      RunsToSelf(c, s);
      if script == [] {
        return Turn([], 0, false);
      }
      turn := script[0];
      for k := 0 to |turn.others|
        invariant Valid() && RunsTo(c, old(s), s) && |s.workers| == |old(s).workers| && script == old(script)
        invariant id in old(s).callers ==> id in s.callers && Nudged(old(s).callers[id], s.callers[id])
        invariant id !in old(s).callers ==> id !in s.callers
      {
        ghost var s1 := s;
        Move(turn.others[k]);
        RunsOn(c, old(s), s1, s);
      }
      script := script[1..];
    }

    /** The caller's own step, in the state the others have left. */
    method Take(a: Act)
      requires Valid() && Enabled(c, s, a) && IsActor(a, id) && Internal(a)
      modifies this`s
      ensures s == Step(c, old(s), a) && Progressed(old(s), |script|)
      ensures id in s.callers && s.callers[id].mode == mode ==> Valid()
    {
      StepIsSound(c, s, a);
      s := Step(c, s, a);
    }

    /** A probe of its own, by stage. */
    method TakeLoad(scan: Scan, early: bool)
      requires Valid() && id in s.callers && s.callers[id].pc == Scanning(scan) && scan.stage == Stage.LoadState
      modifies this`s
      ensures Valid() && Progressed(old(s), |script|)
      ensures var k := old(s).callers[id];
              Leads(old(s), s, id,
                    if Ready(c, old(s).workers[Sink(old(s), scan)], scan.primary) then Scanning(scan.(stage := TrySend))
                    else if scan.primary then NextPc(|s.workers|, k.mode, k.node != NoNode, scan)
                    else Scanning(scan.(stage := LoadRebuilding)))
    {
      LoadLeads(c, s, id, scan, early) by { ReachedKept(c, s); }
      Take(Probe(id, early));
    }

    method TakeSend(scan: Scan, early: bool)
      requires Valid() && id in s.callers && s.callers[id].pc == Scanning(scan) && scan.stage == TrySend
      modifies this`s
      ensures Valid() && Progressed(old(s), |script|)
      ensures var (k, result) := (old(s).callers[id], SendOf(c, old(s).workers[Sink(old(s), scan)], early));
              Leads(old(s), s, id,
                    if result.Sent? then Awaiting
                    else NextPc(|s.workers|, k.mode, k.node != NoNode, AfterSend(scan, result)))
    {
      SendLeads(c, s, id, scan, early) by { ReachedKept(c, s); }
      Take(Probe(id, early));
    }

    method TakeRebuilding(scan: Scan, early: bool)
      requires Valid() && id in s.callers && s.callers[id].pc == Scanning(scan) && scan.stage == LoadRebuilding
      modifies this`s
      ensures Valid() && Progressed(old(s), |script|)
      ensures var (k, w) := (old(s).callers[id], old(s).workers[Sink(old(s), scan)]);
              Leads(old(s), s, id,
                    NextPc(|s.workers|, k.mode, k.node != NoNode,
                           Scan(scan.start, scan.probes, scan.primary, Stage.LoadState, scan.hope || w.predictor == Rebuilding)))
    {
      RebuildingLeads(c, s, id, scan, early) by { ReachedKept(c, s); }
      Take(Probe(id, early));
    }

    /** And the receipt of its reply. */
    method TakeReply(outcome: Outcome)
      requires Valid() && id in s.callers && s.callers[id].pc.Awaiting? && Resolved(s, id, outcome)
      modifies this`s
      ensures Valid() && Progressed(old(s), |script|)
      ensures id in s.callers && s.callers[id].pc == Done(Replied(outcome))
    {
      LeaveKeeps(s, id, Done(Replied(outcome))) by { ReachedKept(c, s); }
      Take(Receive(id, outcome));
    }

    // ---- The accesses, one by one ----

    /** The look at a worker's state: `can_accept_primary` or `can_accept_secondary`. */
    method LoadState(scan: Scan, ghost registered: bool) returns (ready: bool)
      requires Valid() && At(Scanning(scan), registered) && scan.stage == Stage.LoadState
      modifies this`s, this`script
      ensures Valid() && Progressed(old(s), |old(script)|)
      ensures At(if ready then Scanning(scan.(stage := TrySend))
                 else if scan.primary then NextPc(|s.workers|, mode, registered, scan)
                 else Scanning(scan.(stage := Stage.LoadRebuilding)), registered)
    {
      ghost var s0 := s;
      var turn := Wait();
      ghost var s1 := s;
      ready := Ready(c, s.workers[Sink(s, scan)], scan.primary);
      TakeLoad(scan, turn.early);
      RunsOn(c, s0, s1, s);
    }

    /** `try_send`. */
    method Send(scan: Scan, ghost registered: bool) returns (result: SendResult)
      requires Valid() && At(Scanning(scan), registered) && scan.stage == TrySend
      modifies this`s, this`script
      ensures Valid() && Progressed(old(s), |old(script)|)
      ensures At(if result.Sent? then Awaiting
                 else NextPc(|s.workers|, mode, registered, AfterSend(scan, result)), registered)
    {
      ghost var s0 := s;
      var turn := Wait();
      ghost var s1 := s;
      result := SendOf(c, s.workers[Sink(s, scan)], turn.early);
      TakeSend(scan, turn.early);
      RunsOn(c, s0, s1, s);
    }

    /** `is_rebuilding`. */
    method IsRebuilding(scan: Scan, ghost registered: bool) returns (rebuilding: bool)
      requires Valid() && At(Scanning(scan), registered) && scan.stage == LoadRebuilding
      modifies this`s, this`script
      ensures Valid() && Progressed(old(s), |old(script)|)
      ensures At(NextPc(|s.workers|, mode, registered,
                        Scan(scan.start, scan.probes, scan.primary, Stage.LoadState, scan.hope || rebuilding)), registered)
    {
      ghost var s0 := s;
      var turn := Wait();
      ghost var s1 := s;
      rebuilding := s.workers[Sink(s, scan)].predictor == Rebuilding;
      TakeRebuilding(scan, turn.early);
      RunsOn(c, s0, s1, s);
    }

    /** A new `Notified`, created and enabled. */
    method Register() returns (start: nat)
      requires Valid() && At(Registering, false) && |s.workers| > 0
      modifies this`s, this`script
      ensures Valid() && Progressed(old(s), |old(script)|)
      ensures start < |s.workers| && At(Scanning(StartScan(|s.workers|, start)), true)
    {
      ghost var s0 := s;
      var turn := Wait();
      ghost var s1 := s;
      start := turn.start % |s.workers|;
      Take(Act.Register(id, start));
      RunsOn(c, s0, s1, s);
    }

    /** Others take their turns while the caller is parked and not notified. */
    method WaitNotified()
      requires Valid() && At(Parked, true)
      modifies this`s, this`script
      ensures Valid() && Since(old(s), |old(script)|) && At(Parked, true)
      ensures s.callers[id].node == Queued ==> script == []
    {
      ghost var (s0, left) := (s, |script|);
      var _ := Wait();
      while s.callers[id].node == Queued && script != []
        invariant Valid() && At(Parked, true) && Since(s0, left)
        decreases |script|
      {
        ghost var s1 := s;
        var _ := Wait();
        RunsOn(c, s0, s1, s);
      }
    }

    /** `notification.await`: it is still waiting only when nothing more is to come from others. */
    method AwaitNotification() returns (ok: bool)
      requires Valid() && At(Parked, true)
      modifies this`s, this`script
      ensures Valid() && Since(old(s), |old(script)|) && (ok ==> Progressed(old(s), |old(script)|))
      ensures if ok then At(Registering, false) else At(Parked, true) && script == [] && Blocked(c, s, id)
    {
      ghost var s0 := s;
      WaitNotified();
      ghost var s1 := s;
      ok := s.callers[id].node != Queued;
      if ok {
        Take(Wake(id));
        RunsOn(c, s0, s1, s);
      } else {
        ParkedIsBlocked(c, s, id);
      }
    }

    /** Looks for the reply among what the worker has resolved. */
    method FindReply() returns (found: bool, outcome: Outcome)
      requires Valid() && id in s.callers && s.callers[id].pc.Awaiting?
      ensures found ==> Resolved(s, id, outcome)
      ensures !found ==> forall o :: !Resolved(s, id, o)
    {
      var k := s.callers[id];
      assert k.home.At? && k.home.worker < |s.workers| by {
        ReachedKept(c, s);
        assert CallerShape(|s.workers|, s.handles, k);
      }
      var resolved := s.workers[k.home.worker].resolved;
      found, outcome := false, SenderDropped;
      for j := 0 to |resolved|
        invariant forall i | 0 <= i < j :: resolved[i].request != Request(id, k.input)
      {
        if resolved[j].request == Request(id, k.input) {
          return true, resolved[j].outcome;
        }
      }
    }

    /** Others take their turns until the reply is there. */
    method WaitReply(ghost registered: bool) returns (found: bool, outcome: Outcome)
      requires Valid() && At(Awaiting, registered)
      modifies this`s, this`script
      ensures Valid() && Since(old(s), |old(script)|) && At(Awaiting, registered)
      ensures if found then Resolved(s, id, outcome) else script == [] && forall o :: !Resolved(s, id, o)
    {
      ghost var (s0, left) := (s, |script|);
      var _ := Wait();
      found, outcome := FindReply();
      while !found && script != []
        invariant Valid() && At(Awaiting, registered) && Since(s0, left)
        invariant if found then Resolved(s, id, outcome) else forall o :: !Resolved(s, id, o)
        decreases |script|
      {
        ghost var s1 := s;
        var _ := Wait();
        RunsOn(c, s0, s1, s);
        found, outcome := FindReply();
      }
    }

    /** `rx.await`: it is still waiting only when nothing more is to come from others. */
    method AwaitReply(ghost registered: bool) returns (ended: Ended)
      requires Valid() && At(Awaiting, registered)
      modifies this`s, this`script
      ensures Valid() && Since(old(s), |old(script)|)
      ensures if ended.Returned? then ended.answer.Replied? && At(Done(ended.answer), registered)
              else At(Awaiting, registered) && script == [] && Blocked(c, s, id)
    {
      ghost var s0 := s;
      var found, outcome := WaitReply(registered);
      if !found {
        AwaitingIsBlocked(c, s, id);
        return Suspended;
      }
      ghost var s1 := s;
      TakeReply(outcome);
      RunsOn(c, s0, s1, s);
      ended := Returned(Replied(outcome));
    }

    // ---- The program ----

    /** One probe of the first pass. */
    method ProbePrimary(start: nat, k: nat, ghost registered: bool) returns (pushed: bool)
      requires Valid() && At(Scanning(Scan(start, k, true, Stage.LoadState, false)), registered)
      modifies this`s, this`script
      ensures Valid() && Progressed(old(s), |old(script)|)
      ensures At(if pushed then Awaiting
                 else NextPc(|s.workers|, mode, registered, Scan(start, k, true, Stage.LoadState, false)), registered)
    {
      ghost var s0 := s;
      pushed := false;
      var ready := LoadState(Scan(start, k, true, Stage.LoadState, false), registered);
      if ready {
        ghost var s1 := s;
        var result := Send(Scan(start, k, true, TrySend, false), registered);
        RunsOn(c, s0, s1, s);
        pushed := result.Sent?;
      }
    }

    /** One probe of the second pass, or of the fast path: `hope` when the queue is full or the
        worker rebuilding. */
    method ProbeSecondary(start: nat, k: nat, before: bool, ghost registered: bool) returns (pushed: bool, hope: bool)
      requires Valid() && At(Scanning(Scan(start, k, false, Stage.LoadState, before)), registered)
      modifies this`s, this`script
      ensures Valid() && Progressed(old(s), |old(script)|)
      ensures At(if pushed then Awaiting
                 else NextPc(|s.workers|, mode, registered, Scan(start, k, false, Stage.LoadState, before || hope)), registered)
    {
      ghost var s0 := s;
      pushed, hope := false, false;
      var ready := LoadState(Scan(start, k, false, Stage.LoadState, before), registered);
      ghost var s1 := s;
      if ready {
        var result := Send(Scan(start, k, false, TrySend, before), registered);
        pushed, hope := result.Sent?, result.SendFull?;
      } else {
        hope := IsRebuilding(Scan(start, k, false, LoadRebuilding, before), registered);
      }
      RunsOn(c, s0, s1, s);
    }

    /** The first pass over the workers. */
    method FirstPass(start: nat, ghost registered: bool) returns (pushed: bool)
      requires Valid() && |s.workers| > 1 && At(Scanning(Scan(start, 0, true, Stage.LoadState, false)), registered)
      modifies this`s, this`script
      ensures Valid() && Progressed(old(s), |old(script)|)
      ensures At(if pushed then Awaiting else Scanning(Scan(start, 0, false, Stage.LoadState, false)), registered)
    {
      ghost var (s0, left) := (s, |script|);
      var n := |s.workers|;
      RunsToSelf(c, s);
      for k := 0 to n
        invariant Valid() && |s.workers| == n && Since(s0, left) && (k > 0 ==> Progressed(s0, left))
        invariant At(Scanning(if k < n then Scan(start, k, true, Stage.LoadState, false)
                              else Scan(start, 0, false, Stage.LoadState, false)), registered)
      {
        ghost var s1 := s;
        pushed := ProbePrimary(start, k, registered);
        RunsOn(c, s0, s1, s);
        if pushed {
          return;
        }
      }
      pushed := false;
    }

    /** The second pass, and what to tell the caller. */
    method SecondPass(start: nat, ghost registered: bool) returns (pushed: bool, hope: bool)
      requires Valid() && At(Scanning(Scan(start, 0, false, Stage.LoadState, false)), registered)
      modifies this`s, this`script
      ensures Valid() && Progressed(old(s), |old(script)|)
      ensures At(if pushed then Awaiting else TurnedAway(mode, registered, hope), registered)
    {
      ghost var (s0, left) := (s, |script|);
      var n := |s.workers|;
      RunsToSelf(c, s);
      hope := false;
      for k := 0 to n
        invariant Valid() && |s.workers| == n && Since(s0, left) && (k > 0 ==> Progressed(s0, left))
        invariant At(if k < n then Scanning(Scan(start, k, false, Stage.LoadState, hope)) else TurnedAway(mode, registered, hope), registered)
      {
        ghost var s1 := s;
        var more;
        pushed, more := ProbeSecondary(start, k, hope, registered);
        RunsOn(c, s0, s1, s);
        if pushed {
          return;
        }
        hope := hope || more;
      }
      pushed := false;
    }

    /** `try_push`: a pool of one takes only the second pass. */
    method TryPush(start: nat, ghost registered: bool) returns (result: PushOutcome)
      requires Valid() && At(Scanning(StartScan(|s.workers|, start)), registered)
      modifies this`s, this`script
      ensures Valid() && Progressed(old(s), |old(script)|)
      ensures At(match result
                 case Pushed => Awaiting
                 case QueueFull => TurnedAway(mode, registered, true)
                 case NoAvailableWorkers => Done(NoAvailableWorkersError), registered)
    {
      ghost var s0 := s;
      var pushed, hope := false, false;
      RunsToSelf(c, s);
      if |s.workers| > 1 {
        pushed := FirstPass(start, registered);
      }
      if !pushed {
        ghost var s1 := s;
        pushed, hope := SecondPass(start, registered);
        RunsOn(c, s0, s1, s);
      }
      result := if pushed then Pushed else if hope then QueueFull else NoAvailableWorkers;
    }

    /** `predict`: it never answers QueueFull. If it does not return, nothing more is to come from
        others and it still waits, for its reply or for room. */
    method Predict(start: nat) returns (ended: Ended)
      requires Valid() && mode == Waits && At(Scanning(StartScan(|s.workers|, start)), false)
      modifies this`s, this`script
      ensures Valid() && RunsTo(c, old(s), s) && id in s.callers
      ensures match ended
              case Returned(answer) => s.callers[id].pc == Done(answer) && !answer.QueueFullError?
              case Suspended => (s.callers[id].pc.Awaiting? || s.callers[id].pc.Parked?) && script == [] && Blocked(c, s, id)
    {
      ghost var s0 := s;
      var result := TryPush(start, false);
      ghost var s1 := s;
      if result.Pushed? {
        ended := AwaitReply(false);
        RunsOn(c, s0, s1, s);
        return;
      }
      if result.NoAvailableWorkers? {
        return Returned(NoAvailableWorkersError);
      }
      while true
        invariant Valid() && RunsTo(c, s0, s) && At(Registering, false)
        decreases |script|, WorkLeftOf(c, s), Retries(s)
      {
        ghost var s2 := s;
        result := RetryOnce();
        RunsOn(c, s0, s2, s);
        ghost var s3 := s;
        if result.NoAvailableWorkers? {
          return Returned(NoAvailableWorkersError);
        }
        if result.Pushed? {
          ended := AwaitReply(true);
          RunsOn(c, s0, s3, s);
          return;
        }
        var ok := AwaitNotification();
        RunsOn(c, s0, s3, s);
        if !ok {
          return Suspended;
        }
      }
    }

    /** Registering first, and only then trying again. */
    method RetryOnce() returns (result: PushOutcome)
      requires Valid() && mode == Waits && At(Registering, false)
      modifies this`s, this`script
      ensures Valid() && Progressed(old(s), |old(script)|)
      ensures At(match result
                 case Pushed => Awaiting
                 case QueueFull => Parked
                 case NoAvailableWorkers => Done(NoAvailableWorkersError), true)
    {
      ghost var s0 := s;
      var start := Register();
      ghost var s1 := s;
      result := TryPush(start, true);
      RunsOn(c, s0, s1, s);
    }

    /** `try_predict`: it waits only for a reply. */
    method TryPredict(start: nat) returns (ended: Ended)
      requires Valid() && mode == FailsFast && At(Scanning(StartScan(|s.workers|, start)), false)
      modifies this`s, this`script
      ensures Valid() && RunsTo(c, old(s), s) && id in s.callers
      ensures s.callers[id].pc == if ended.Returned? then Done(ended.answer) else Awaiting
      ensures ended.Suspended? ==> script == [] && Blocked(c, s, id)
    {
      ghost var s0 := s;
      var result := TryPush(start, false);
      ghost var s1 := s;
      match result {
        case Pushed =>
          ended := AwaitReply(false);
          RunsOn(c, s0, s1, s);
        case QueueFull => ended := Returned(QueueFullError);
        case NoAvailableWorkers => ended := Returned(NoAvailableWorkersError);
      }
    }
  }
}

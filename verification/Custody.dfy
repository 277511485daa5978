/** Who has each request, in every reachable state: a refused request is with no worker, an
    accepted one is in exactly one place, it is resolved at most once, its result is that of its
    own input, and nobody still waiting is dropped when the pool shuts down. */
module Custody {
  import opened Worker
  import opened WorkerShape
  import opened WorkerHistory
  import opened WorkerInvariant
  import opened System
  import opened SystemShape

  /** This very request was queued with worker `i`. */
  predicate QueuedWith(s: Sys, r: Request, i: nat) {
    r.id in s.callers && s.callers[r.id].home == At(i) && s.callers[r.id].input == r.input
  }

  /** Each worker accepted exactly the requests queued with it, once each. */
  ghost predicate AcceptedOnce(s: Sys) {
    forall i, r | 0 <= i < |s.workers| :: Count(s.workers[i].accepted, r) == if QueuedWith(s, r, i) then 1 else 0
  }

  /** An answered caller's reply was sent by the worker it was queued with. */
  ghost predicate RepliesSent(s: Sys) {
    forall id | id in s.callers && s.callers[id].pc.Done? && s.callers[id].pc.answer.Replied? ::
      Resolved(s, id, s.callers[id].pc.answer.outcome)
  }

  ghost predicate Kept(c: Config, s: Sys) {
    SysShape(c, s) && AcceptedOnce(s) && RepliesSent(s)
  }

  lemma WorkerRemembers(c: Config, w: Worker, closed: bool, canceled: set<nat>, a: WorkerAct)
    requires WorkerEnabled(c, w, closed, a)
    ensures WorkerNext(c, w, closed, canceled, a).accepted == w.accepted
    ensures w.resolved <= WorkerNext(c, w, closed, canceled, a).resolved
  {
    match a {
      case Acc(a) => AccFrame(c, w, closed, a);
      case Run(a) => RunFrame(c, w, canceled, a);
    }
  }

  lemma KeptInitial(c: Config, s: Sys)
    requires ValidConfig(c) && Initial(s)
    ensures Kept(c, s)
  {
    SysShapeInitial(c, s);
  }

  predicate IsReplied(k: Caller) {
    k.pc.Done? && k.pc.answer.Replied?
  }

  /** What a step does to one caller's request: only a send gives it a home, only a receive a
      reply. */
  ghost predicate RequestStep(c: Config, s: Sys, s': Sys, a: Act, id: nat)
    requires id in s'.callers && Enabled(c, s, a)
  {
    var k' := s'.callers[id];
    if id in s.callers then
      var k := s.callers[id];
      && k'.input == k.input
      && k'.home == (if a.Probe? && a.id == id && Sends(c, s, id, a.early) then At(Sink(s, k.pc.scan)) else k.home)
      && (IsReplied(k') ==> k' == k || (a.Receive? && a.id == id && k'.pc.answer.outcome == a.outcome))
    else k'.home == Nowhere && !IsReplied(k')
  }

  lemma RequestsStep(c: Config, s: Sys, a: Act, id: nat)
    requires ValidConfig(c) && SysShape(c, s) && Enabled(c, s, a) && id in Step(c, s, a).callers
    ensures RequestStep(c, s, Step(c, s, a), a, id)
  {
    if IsActor(a, id) {
      match a {
        case Probe(_, early) => if Sends(c, s, id, early) { ProbeSends(c, s, id, early); } else { ProbeStays(c, s, id, early); }
        case Register(_, start) => RegisterKeeps(c, s, id, start);
        case Receive(_, outcome) => LeaveKeeps(s, id, Done(Replied(outcome)));
        case Cancel(_) => LeaveKeeps(s, id, Canceled);
        case _ =>
      }
    } else {
      StepFrame(c, s, a);
      assert id in s.callers ==> CallerShape(|s.workers|, s.handles, s.callers[id]);
    }
  }

  // One worker's log after a step: longer by the request sent to it, if one was.
  lemma AcceptedStep(c: Config, s: Sys, a: Act, i: nat)
    requires ValidConfig(c) && SysShape(c, s) && Enabled(c, s, a) && i < |s.workers|
    ensures |Step(c, s, a).workers| == |s.workers|
    ensures Step(c, s, a).workers[i].accepted ==
            if a.Probe? && Sends(c, s, a.id, a.early) && Sink(s, s.callers[a.id].pc.scan) == i
            then s.workers[i].accepted + [Request(a.id, s.callers[a.id].input)]
            else s.workers[i].accepted
    ensures s.workers[i].resolved <= Step(c, s, a).workers[i].resolved
  {
    StepFrame(c, s, a);
    if a.Work? && a.i == i {
      WorkerRemembers(c, s.workers[i], s.handles == {}, CanceledIds(s), a.a);
    }
  }

  lemma AcceptedOnceAt(c: Config, s: Sys, a: Act, i: nat, r: Request)
    requires ValidConfig(c) && SysShape(c, s) && Enabled(c, s, a) && i < |s.workers| && i < |Step(c, s, a).workers|
    requires Count(s.workers[i].accepted, r) == if QueuedWith(s, r, i) then 1 else 0
    ensures Count(Step(c, s, a).workers[i].accepted, r) == if QueuedWith(Step(c, s, a), r, i) then 1 else 0
  {
    AcceptedStep(c, s, a, i);
    if r.id in Step(c, s, a).callers {
      RequestsStep(c, s, a, r.id);
    }
    assert r.id in s.callers ==> r.id in Step(c, s, a).callers by { StepFrame(c, s, a); }
    if a.Probe? && Sends(c, s, a.id, a.early) {
      assert CallerShape(|s.workers|, s.handles, s.callers[a.id]);
      CountAppend(s.workers[i].accepted, Request(a.id, s.callers[a.id].input), r);
    }
  }

  lemma AcceptedOnceStep(c: Config, s: Sys, a: Act)
    requires ValidConfig(c) && SysShape(c, s) && AcceptedOnce(s) && Enabled(c, s, a)
    ensures AcceptedOnce(Step(c, s, a))
  {
    var s' := Step(c, s, a);
    assert |s'.workers| == |s.workers| by { AcceptedStep(c, s, a, 0); }
    forall i, r | 0 <= i < |s'.workers|
      ensures Count(s'.workers[i].accepted, r) == if QueuedWith(s', r, i) then 1 else 0
    {
      AcceptedOnceAt(c, s, a, i, r);
    }
  }

  lemma RepliesSentStep(c: Config, s: Sys, a: Act)
    requires ValidConfig(c) && SysShape(c, s) && RepliesSent(s) && Enabled(c, s, a)
    ensures RepliesSent(Step(c, s, a))
  {
    var s' := Step(c, s, a);
    forall id | id in s'.callers && IsReplied(s'.callers[id])
      ensures Resolved(s', id, s'.callers[id].pc.answer.outcome)
    {
      RequestsStep(c, s, a, id);
      assert Resolved(s, id, s'.callers[id].pc.answer.outcome);
      AcceptedStep(c, s, a, s.callers[id].home.worker);
    }
  }

  lemma KeptStep(c: Config, s: Sys, a: Act)
    requires ValidConfig(c) && Kept(c, s) && Enabled(c, s, a)
    ensures Kept(c, Step(c, s, a))
  {
    SysShapeStep(c, s, a);
    AcceptedOnceStep(c, s, a);
    RepliesSentStep(c, s, a);
  }

  /** Every state of every run keeps custody. */
  lemma {:induction false} KeptAlong(c: Config, t: Trace, k: nat)
    requires ValidConfig(c) && IsRun(c, t) && Initial(t.states[0]) && k < |t.states|
    ensures Kept(c, t.states[k])
  {
    if k == 0 {
      KeptInitial(c, t.states[0]);
    } else {
      KeptAlong(c, t, k - 1);
      KeptStep(c, t.states[k - 1], t.acts[k - 1]);
    }
  }

  // ---- What it comes to ----

  /** How often worker `i` holds or has resolved a request. */
  function Held(w: Worker, r: Request): nat {
    Accumulating(w, r) + Inferring(w, r) + Count(RequestsOf(w.resolved), r)
  }

  /** In any state of any run: a request that was queued is in exactly one place, of exactly one
      worker, where being resolved is one such place; a request that was not is nowhere. */
  lemma EachRequestInOnePlace(c: Config, t: Trace, k: nat, i: nat, r: Request)
    requires ValidConfig(c) && IsRun(c, t) && Initial(t.states[0]) && k < |t.states|
    requires i < |t.states[k].workers|
    ensures Held(t.states[k].workers[i], r) == if QueuedWith(t.states[k], r, i) then 1 else 0
  {
    KeptAlong(c, t, k);
    assert WorkerInv(c, t.states[k].workers[i]);
    assert ConservedAt(t.states[k].workers[i], r);
  }

  /** A caller told that the queues are full, or that no worker is left, has its request nowhere. */
  lemma RefusedIsNowhere(c: Config, t: Trace, k: nat, id: nat, i: nat, input: int)
    requires ValidConfig(c) && IsRun(c, t) && Initial(t.states[0]) && k < |t.states|
    requires var s := t.states[k];
             id in s.callers && s.callers[id].pc.Done? && !s.callers[id].pc.answer.Replied? && i < |s.workers|
    ensures Held(t.states[k].workers[i], Request(id, input)) == 0
  {
    KeptAlong(c, t, k);
    assert CallerShape(|t.states[k].workers|, t.states[k].handles, t.states[k].callers[id]);
    EachRequestInOnePlace(c, t, k, i, Request(id, input));
  }

  lemma OwnResult(c: Config, s: Sys, id: nat)
    requires Kept(c, s) && id in s.callers
    requires s.callers[id].pc.Done? && s.callers[id].pc.answer.Replied? && s.callers[id].pc.answer.outcome.Output?
    ensures s.callers[id].pc.answer.outcome == Output(c.f(s.callers[id].input))
  {
    assert CallerShape(|s.workers|, s.handles, s.callers[id]);
    assert Resolved(s, id, s.callers[id].pc.answer.outcome);
    assert WorkerInv(c, s.workers[s.callers[id].home.worker]);
  }

  /** Batching refines the unbatched function: whatever was cancelled, reordered, panicked or
      rebuilt on the way, a successful call returns `f` of the input it was made with. */
  lemma SuccessIsOwnResult(c: Config, t: Trace, k: nat, id: nat)
    requires ValidConfig(c) && IsRun(c, t) && Initial(t.states[0]) && k < |t.states|
    requires var s := t.states[k];
             id in s.callers && s.callers[id].pc.Done? && s.callers[id].pc.answer.Replied? && s.callers[id].pc.answer.outcome.Output?
    ensures t.states[k].callers[id].pc.answer.outcome == Output(c.f(t.states[k].callers[id].input))
  {
    KeptAlong(c, t, k);
    OwnResult(c, t.states[k], id);
  }

  lemma {:induction false} CountMember(s: seq<Request>, r: Request)
    ensures Count(s, r) > 0 <==> r in s
  {
    if s != [] {
      CountMember(s[1..], r);
    }
  }

  lemma ResolvedCounts(w: Worker, x: Resolution)
    requires x in w.resolved
    ensures Count(RequestsOf(w.resolved), x.request) > 0
  {
    var k :| 0 <= k < |w.resolved| && w.resolved[k] == x;
    assert RequestsOf(w.resolved)[k] == x.request;
    CountMember(RequestsOf(w.resolved), x.request);
  }

  /** A request a worker still holds belongs to a caller that awaits it or has cancelled. */
  lemma HeldIsAwaitedOrCanceled(c: Config, s: Sys, i: nat, r: Request)
    requires Kept(c, s) && i < |s.workers|
    requires Accumulating(s.workers[i], r) + Inferring(s.workers[i], r) > 0
    ensures QueuedWith(s, r, i) && (s.callers[r.id].pc.Awaiting? || s.callers[r.id].pc.Canceled?)
  {
    assert WorkerInv(c, s.workers[i]);
    assert ConservedAt(s.workers[i], r);
    assert Count(s.workers[i].accepted, r) == if QueuedWith(s, r, i) then 1 else 0;
    assert CallerShape(|s.workers|, s.handles, s.callers[r.id]);
    if s.callers[r.id].pc.Done? {
      assert Resolved(s, r.id, s.callers[r.id].pc.answer.outcome);
      ResolvedCounts(s.workers[i], Resolution(r, s.callers[r.id].pc.answer.outcome));
    }
  }

  /** When a worker exits because its request channel has closed, the requests it holds, which it
      drops, were all cancelled before: a caller still waiting would hold a handle. */
  lemma ExitDropsOnlyCanceled(c: Config, t: Trace, k: nat, i: nat, r: Request)
    requires ValidConfig(c) && IsRun(c, t) && Initial(t.states[0]) && k < |t.states|
    requires i < |t.states[k].workers| && t.states[k].workers[i].acc.Exiting?
    requires Accumulating(t.states[k].workers[i], r) + Inferring(t.states[k].workers[i], r) > 0
    ensures r.id in t.states[k].callers && t.states[k].callers[r.id].pc.Canceled?
  {
    KeptAlong(c, t, k);
    HeldIsAwaitedOrCanceled(c, t.states[k], i, r);
    assert WorkerInv(c, t.states[k].workers[i]);
    assert CallerShape(|t.states[k].workers|, t.states[k].handles, t.states[k].callers[r.id]);
  }

  /** A request caught in the job channel by a panic can only ever be answered InternalError. */
  lemma DoomedNeverSucceeds(c: Config, t: Trace, k: nat, i: nat, r: Request, outcome: Outcome)
    requires ValidConfig(c) && IsRun(c, t) && Initial(t.states[0]) && k < |t.states|
    requires i < |t.states[k].workers| && r in t.states[k].workers[i].doomed
    requires Resolution(r, outcome) in t.states[k].workers[i].resolved
    ensures outcome == Failed(InternalError)
  {
    var w := t.states[k].workers[i];
    KeptAlong(c, t, k);
    assert WorkerInv(c, w);
    EachRequestInOnePlace(c, t, k, i, r);
    ResolvedCounts(w, Resolution(r, outcome));
    CountMember(Flat(w.slot), r);
    CountMember(w.job, r);
    assert Resolution(r, Failed(InternalError)) in w.resolved;
    if outcome != Failed(InternalError) {
      TwoResolutions(w.resolved, r, outcome, Failed(InternalError));
    }
  }

  lemma TwoResolutions(resolved: seq<Resolution>, r: Request, a: Outcome, b: Outcome)
    requires Resolution(r, a) in resolved && Resolution(r, b) in resolved && a != b
    ensures Count(RequestsOf(resolved), r) >= 2
  {
    var j :| 0 <= j < |resolved| && resolved[j] == Resolution(r, a);
    var k :| 0 <= k < |resolved| && resolved[k] == Resolution(r, b);
    var (lo, hi) := if j < k then (j, k) else (k, j);
    var ids := RequestsOf(resolved);
    assert ids == ids[..hi] + ids[hi..];
    CountConcat(ids[..hi], ids[hi..], r);
    assert ids[..hi][lo] == r && ids[hi..][0] == r;
    CountMember(ids[..hi], r);
    CountMember(ids[hi..], r);
  }
}

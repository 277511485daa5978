/** What a worker's run has done with the requests it was given: none is lost, none is resolved
    twice, each leaves in order, and every result is its own input's. */
module WorkerHistory {
  import opened Buffer
  import opened Worker
  import opened WorkerShape

  // ---- Conservation ----

  /** The request an accumulator has taken off the channel but not yet put in its buffer. */
  function Taken(acc: AccPc): seq<Request> {
    match acc
    case SignalFirst(r) => [r]
    case SignalNext(r) => [r]
    case _ => []
  }

  function RequestsOf(resolved: seq<Resolution>): seq<Request> {
    seq(|resolved|, i requires 0 <= i < |resolved| => resolved[i].request)
  }

  function Count(s: seq<Request>, r: Request): nat {
    if s == [] then 0 else (if s[0] == r then 1 else 0) + Count(s[1..], r)
  }

  lemma {:induction false} CountConcat(s: seq<Request>, t: seq<Request>, r: Request)
    ensures Count(s + t, r) == Count(s, r) + Count(t, r)
  {
    if s == [] {
      assert s + t == t;
    } else {
      assert (s + t)[1..] == s[1..] + t;
      CountConcat(s[1..], t, r);
    }
  }

  lemma CountAppend(s: seq<Request>, x: Request, r: Request)
    ensures Count([x], r) == if x == r then 1 else 0
    ensures Count(s + [x], r) == Count(s, r) + Count([x], r)
  {
    assert [x][1..] == [];
    CountConcat(s, [x], r);
  }

  lemma {:induction false} CountIs(s: seq<Request>, r: Request)
    ensures Count(s, r) == multiset(s)[r]
  {
    if s != [] {
      assert s == [s[0]] + s[1..];
      CountIs(s[1..], r);
    }
  }

  /** How often a request is held by the accumulator. */
  function Accumulating(w: Worker, r: Request): nat {
    Count(w.chan, r) + Count(Taken(w.acc), r) + Count(w.buf, r) + Count(w.hand, r)
  }

  /** How often it is held on the inference thread's side. */
  function Inferring(w: Worker, r: Request): nat {
    Count(Flat(w.slot), r) + Count(w.job, r)
  }

  /** Each time a request was accepted it is in exactly one place: the request channel, the
      accumulator, the job channel or the inference thread, or among the resolved ones. */
  predicate ConservedAt(w: Worker, r: Request) {
    Count(w.accepted, r) == Accumulating(w, r) + Inferring(w, r) + Count(RequestsOf(w.resolved), r)
  }

  lemma ResolvedMore(resolved: seq<Resolution>, batch: seq<Request>, outcome: Outcome, r: Request)
    ensures Count(RequestsOf(resolved + AllResolved(batch, outcome)), r) == Count(RequestsOf(resolved), r) + Count(batch, r)
  {
    assert RequestsOf(resolved + AllResolved(batch, outcome)) == RequestsOf(resolved) + batch;
    CountConcat(RequestsOf(resolved), batch, r);
  }

  lemma ResolvedOne(resolved: seq<Resolution>, x: Request, outcome: Outcome, r: Request)
    ensures Count(RequestsOf(resolved + [Resolution(x, outcome)]), r) == Count(RequestsOf(resolved), r) + (if x == r then 1 else 0)
  {
    assert RequestsOf(resolved + [Resolution(x, outcome)]) == RequestsOf(resolved) + [x];
    CountAppend(RequestsOf(resolved), x, r);
  }

  lemma FlatOne(batch: seq<Request>)
    ensures Flat([batch]) == batch
  {
    assert [batch][1..] == [];
  }

  /** Requests on the accumulator's side of the job channel, in it, and resolved. */
  function AccBalance(w: Worker, r: Request): nat {
    Accumulating(w, r) + Count(Flat(w.slot), r) + Count(RequestsOf(w.resolved), r)
  }

  lemma PushTakenConserves(c: Config, w: Worker, x: Request, r: Request)
    requires Taken(w.acc) == [x]
    ensures AccBalance(PushTaken(c, w, x), r) == AccBalance(w, r)
  {
    CountAppend(w.buf, x, r);
  }

  lemma DrainConserves(w: Worker, r: Request)
    requires Taken(w.acc) == []
    ensures w.hand == [] ==> AccBalance(DrainBufferStep(w), r) == AccBalance(w, r)
    ensures AccBalance(DrainHandedStep(w), r) == AccBalance(w, r)
  {
    if w.chan != [] {
      CountAppend(w.buf, w.chan[0], r);
      CountAppend(w.hand, w.chan[0], r);
    }
  }

  lemma FailConserves(w: Worker, r: Request)
    requires w.hand != []
    ensures AccBalance(FailHead(w), r) == AccBalance(w, r)
  {
    ResolvedOne(w.resolved, w.hand[0], Failed(InternalError), r);
  }

  lemma DropConserves(w: Worker, r: Request)
    requires Taken(w.acc) == []
    ensures AccBalance(AccDrop(w), r) == AccBalance(w, r)
  {
    var jobs := if w.run.RunGone? then Flat(w.slot) else [];
    ResolvedMore(w.resolved, w.hand + w.buf + w.chan + jobs, SenderDropped, r);
    CountConcat(w.hand, w.buf, r);
    CountConcat(w.hand + w.buf, w.chan, r);
    CountConcat(w.hand + w.buf + w.chan, jobs, r);
  }

  lemma RecvConserves(w: Worker, r: Request)
    requires Taken(w.acc) == []
    ensures AccBalance(Recv(w, x => SignalFirst(x)), r) == AccBalance(w, r)
    ensures AccBalance(Recv(w, x => SignalNext(x)), r) == AccBalance(w, r)
  {
    if w.chan != [] {
      CountAppend([], w.chan[0], r);
    }
  }

  lemma SendConserves(w: Worker, trigger: Trigger, r: Request)
    requires JobChannelShape(w) && w.acc == Send(trigger)
    ensures AccBalance(SendStep(w, trigger), r) == AccBalance(w, r)
  {
    assert w.slot == [] && w.slot + [w.hand] == [w.hand];
    FlatOne(w.hand);
  }

  lemma HandOffConserves(c: Config, w: Worker, closed: bool, a: AccAct, r: Request)
    requires AccShape(c, w) && JobChannelShape(w) && AccEnabled(w, closed, a)
    requires w.acc.DrainHanded? || w.acc.FailHanded? || w.acc.Send? || w.acc.Exiting? || w.acc.Crashing?
    ensures AccBalance(AccNext(c, w, closed, a), r) == AccBalance(w, r)
  {
    match w.acc {
      case DrainHanded => DrainConserves(w, r);
      case FailHanded => if w.hand != [] { FailConserves(w, r); }
      case Send(trigger) => SendConserves(w, trigger, r);
      case _ => DropConserves(w, r);
    }
  }

  lemma AccConserves(c: Config, w: Worker, closed: bool, a: AccAct, r: Request)
    requires AccShape(c, w) && JobChannelShape(w) && AccEnabled(w, closed, a)
    ensures AccBalance(AccNext(c, w, closed, a), r) == AccBalance(w, r)
  {
    match w.acc {
      case AwaitFirst => RecvConserves(w, r);
      case Fill => RecvConserves(w, r);
      case SignalFirst(x) => PushTakenConserves(c, w, x, r);
      case SignalNext(x) => PushTakenConserves(c, w, x, r);
      case DrainBuffer => DrainConserves(w, r);
      case FailBuffer => if w.hand != [] { FailConserves(w, r); }
      case DrainHanded => HandOffConserves(c, w, closed, a, r);
      case FailHanded => HandOffConserves(c, w, closed, a, r);
      case Send(_) => HandOffConserves(c, w, closed, a, r);
      case Exiting => HandOffConserves(c, w, closed, a, r);
      case Crashing => HandOffConserves(c, w, closed, a, r);
      case _ =>
    }
  }

  lemma ConservedAcc(c: Config, w: Worker, closed: bool, a: AccAct, r: Request)
    requires Shape(c, w) && ConservedAt(w, r) && AccEnabled(w, closed, a)
    ensures ConservedAt(AccNext(c, w, closed, a), r)
  {
    AccFrame(c, w, closed, a);
    AccConserves(c, w, closed, a, r);
  }

  lemma CountSwapRemove(s: seq<Request>, i: nat, r: Request)
    requires i < |s|
    ensures Count(s, r) == Count(SwapRemove(s, i), r) + (if s[i] == r then 1 else 0)
  {
    SwapRemoveKeeps(s, i);
    CountIs(s, r);
    CountIs(SwapRemove(s, i), r);
  }

  /** Requests on the inference thread's side, and resolved. */
  function RunBalance(w: Worker, r: Request): nat {
    Inferring(w, r) + Count(RequestsOf(w.resolved), r)
  }

  lemma FilterConserves(w: Worker, canceled: set<nat>, i: nat, r: Request)
    ensures RunBalance(FilterStep(w, canceled, i), r) == RunBalance(w, r)
  {
    if i < |w.job| && w.job[i].id in canceled {
      CountSwapRemove(w.job, i, r);
      ResolvedOne(w.resolved, w.job[i], SenderDropped, r);
    }
  }

  lemma ReplyConserves(w: Worker, outcome: Outcome, r: Request)
    requires w.job != []
    ensures RunBalance(ResolveHead(w, outcome), r) == RunBalance(w, r)
  {
    ResolvedOne(w.resolved, w.job[0], outcome, r);
  }

  lemma ReceiveConserves(w: Worker, r: Request)
    requires w.slot != []
    ensures Count(Flat(w.slot[1..]), r) + Count(w.slot[0], r) == Count(Flat(w.slot), r)
  {
    CountConcat(w.slot[0], Flat(w.slot[1..]), r);
  }

  lemma FlushConserves(w: Worker, found: RunPc, empty: RunPc, r: Request)
    requires w.job == []
    ensures RunBalance(FlushStep(w, found, empty), r) == RunBalance(w, r)
  {
    if w.slot != [] {
      ReceiveConserves(w, r);
    }
  }

  lemma RunDropConserves(w: Worker, r: Request)
    requires w.job == []
    ensures RunBalance(RunDrop(w), r) == RunBalance(w, r)
  {
    ResolvedMore(w.resolved, Flat(w.slot), SenderDropped, r);
  }

  lemma RunConserves(c: Config, w: Worker, canceled: set<nat>, a: RunAct, r: Request)
    requires RunShape(c, w) && RunEnabled(c, w, a)
    ensures RunBalance(RunNext(c, w, canceled, a), r) == RunBalance(w, r)
  {
    match w.run {
      case Idle => if w.slot != [] { ReceiveConserves(w, r); }
      case Filter(i) => FilterConserves(w, canceled, i, r);
      case ReplyOutputs(outputs) => if w.job != [] { ReplyConserves(w, Output(outputs[0]), r); }
      case ReplyError(error) => if w.job != [] { ReplyConserves(w, Failed(error), r); }
      case FailJob(_) => if w.job != [] { ReplyConserves(w, Failed(InternalError), r); }
      case FlushQueued => FlushConserves(w, FailJob(InQueue), Build(c.attempts), r);
      case FlushRebuilt => FlushConserves(w, FailJob(InRebuild), StoreAlive, r);
      case Drop => RunDropConserves(w, r);
      case _ =>
    }
  }

  lemma ConservedRun(c: Config, w: Worker, canceled: set<nat>, a: RunAct, r: Request)
    requires Shape(c, w) && ConservedAt(w, r) && RunEnabled(c, w, a)
    ensures ConservedAt(RunNext(c, w, canceled, a), r)
  {
    RunFrame(c, w, canceled, a);
    RunConserves(c, w, canceled, a, r);
  }

  lemma ConservedPush(w: Worker, x: Request, r: Request)
    requires ConservedAt(w, r)
    ensures ConservedAt(PushRequest(w, x), r)
  {
    CountAppend(w.chan, x, r);
    CountAppend(w.accepted, x, r);
  }

  // ---- Order ----

  /** The requests the segments held, in order. */
  function FlatSegments(segments: seq<Segment>): seq<Request> {
    if segments == [] then [] else FlatSegments(segments[..|segments| - 1]) + segments[|segments| - 1].requests
  }

  /** The batches among them that were handed over. */
  function HandedBatches(segments: seq<Segment>): seq<seq<Request>> {
    if segments == [] then []
    else
      var last := segments[|segments| - 1];
      HandedBatches(segments[..|segments| - 1]) + if last.Handed? then [last.requests] else []
  }

  function ReceivedBatches(receipts: seq<Receipt>): seq<seq<Request>> {
    seq(|receipts|, i requires 0 <= i < |receipts| => receipts[i].batch)
  }

  /** A batch that has left the buffer but is not yet in a segment. */
  function InHand(w: Worker): seq<Request> {
    if w.acc.MarkRunning? || w.acc.Reserve? || w.acc.LoadPermitted? || w.acc.Send? || w.acc.Crashing? then w.hand else []
  }

  /** What was pushed, in order, is what left the accumulator, then the batch in hand, then the
      batch being built, then the request channel. */
  predicate Fifo(w: Worker) {
    !w.acc.AccGone? ==> w.accepted == Log(w)
  }

  function Log(w: Worker): seq<Request> {
    FlatSegments(w.segments) + InHand(w) + w.buf + Taken(w.acc) + w.chan
  }

  /** The batches handed over are received in that order, the one in the job channel last. */
  predicate InOrder(w: Worker) {
    !w.run.RunGone? ==> HandedBatches(w.segments) == ReceivedBatches(w.receipts) + w.slot
  }

  lemma SegmentAppended(segments: seq<Segment>, s: Segment)
    ensures FlatSegments(segments + [s]) == FlatSegments(segments) + s.requests
    ensures HandedBatches(segments + [s]) == HandedBatches(segments) + if s.Handed? then [s.requests] else []
  {
    assert (segments + [s])[..|segments + [s]| - 1] == segments;
  }

  lemma RecvKeepsLog(w: Worker)
    requires Taken(w.acc) == InHand(w) == []
    ensures Log(Recv(w, x => SignalFirst(x))) == Log(w)
    ensures Log(Recv(w, x => SignalNext(x))) == Log(w)
  {
    if w.chan != [] {
      assert w.chan == [w.chan[0]] + w.chan[1..];
      assert Log(w) == FlatSegments(w.segments) + w.buf + w.chan;
      assert Log(Recv(w, x => SignalFirst(x))) == FlatSegments(w.segments) + w.buf + [w.chan[0]] + w.chan[1..];
      assert Log(Recv(w, x => SignalNext(x))) == FlatSegments(w.segments) + w.buf + [w.chan[0]] + w.chan[1..];
    }
  }

  lemma PushKeepsLog(c: Config, w: Worker, x: Request)
    requires Taken(w.acc) == [x] && InHand(w) == []
    ensures Log(PushTaken(c, w, x)) == Log(w)
  {
    assert Log(PushTaken(c, w, x)) == FlatSegments(w.segments) + (w.buf + [x]) + w.chan;
  }

  lemma DrainBufferKeepsLog(w: Worker)
    requires w.acc.DrainBuffer?
    ensures Log(DrainBufferStep(w)) == Log(w)
  {
    if w.chan != [] {
      assert w.chan == [w.chan[0]] + w.chan[1..];
      assert Log(DrainBufferStep(w)) == FlatSegments(w.segments) + (w.buf + [w.chan[0]]) + w.chan[1..];
    } else {
      SegmentAppended(w.segments, Drained(w.buf));
      assert Log(w) == FlatSegments(w.segments) + w.buf;
      assert Log(DrainBufferStep(w)) == FlatSegments(w.segments + [Drained(w.buf)]);
    }
  }

  lemma DrainHandedKeepsLog(w: Worker)
    requires w.acc.DrainHanded? && w.buf == []
    ensures Log(DrainHandedStep(w)) == Log(w)
  {
    if w.chan != [] {
      SegmentAppended(w.segments, Drained([w.chan[0]]));
      assert w.chan == [w.chan[0]] + w.chan[1..];
      assert Log(DrainHandedStep(w)) == FlatSegments(w.segments) + [w.chan[0]] + w.chan[1..];
    }
  }

  lemma PermittedKeepsLog(w: Worker, trigger: Trigger)
    requires w.acc == LoadPermitted(trigger) && w.buf == []
    ensures Log(PermittedStep(w, trigger)) == Log(w)
  {
    SegmentAppended(w.segments, Refused(w.hand, trigger));
    assert Log(w) == FlatSegments(w.segments) + w.hand + w.chan;
  }

  lemma SendKeepsLog(w: Worker, trigger: Trigger)
    requires w.acc == Send(trigger) && w.buf == []
    ensures Log(SendStep(w, trigger)) == Log(w)
  {
    SegmentAppended(w.segments, Handed(w.hand, trigger));
    assert Log(w) == FlatSegments(w.segments) + w.hand + w.chan;
  }

  lemma CheckKeepsLog(w: Worker, trigger: Trigger)
    requires w.acc == CheckAlive(trigger) && w.hand == []
    ensures Log(CheckPredictor(w, trigger)) == Log(w)
  {
    assert FlatSegments(w.segments) + [] + w.buf + [] + w.chan == FlatSegments(w.segments) + w.buf + [] + [] + w.chan;
  }

  lemma ReserveKeepsLog(w: Worker, trigger: Trigger)
    requires w.acc == Reserve(trigger) && w.buf == []
    ensures Log(ReserveStep(w, trigger)) == Log(w)
  {
  }

  lemma FifoAcc(c: Config, w: Worker, closed: bool, a: AccAct)
    requires AccShape(c, w) && Fifo(w) && AccEnabled(w, closed, a)
    ensures Fifo(AccNext(c, w, closed, a))
  {
    match w.acc {
      case AwaitFirst => RecvKeepsLog(w);
      case Fill => RecvKeepsLog(w);
      case SignalFirst(x) => PushKeepsLog(c, w, x);
      case SignalNext(x) => PushKeepsLog(c, w, x);
      case CheckAlive(trigger) => CheckKeepsLog(w, trigger);
      case DrainBuffer => DrainBufferKeepsLog(w);
      case DrainHanded => DrainHandedKeepsLog(w);
      case LoadPermitted(trigger) => PermittedKeepsLog(w, trigger);
      case Send(trigger) => SendKeepsLog(w, trigger);
      case Reserve(trigger) => ReserveKeepsLog(w, trigger);
      case _ =>
    }
  }

  lemma SendKeepsOrder(w: Worker, trigger: Trigger)
    requires InOrder(w)
    ensures InOrder(SendStep(w, trigger))
  {
    SegmentAppended(w.segments, Handed(w.hand, trigger));
  }

  lemma DrainKeepsOrder(w: Worker)
    requires InOrder(w)
    ensures InOrder(DrainBufferStep(w)) && InOrder(DrainHandedStep(w))
  {
    SegmentAppended(w.segments, Drained(w.buf));
    if w.chan != [] {
      SegmentAppended(w.segments, Drained([w.chan[0]]));
    }
  }

  lemma InOrderAcc(c: Config, w: Worker, closed: bool, a: AccAct)
    requires InOrder(w) && AccEnabled(w, closed, a)
    ensures InOrder(AccNext(c, w, closed, a))
  {
    match w.acc {
      case DrainBuffer => DrainKeepsOrder(w);
      case DrainHanded => DrainKeepsOrder(w);
      case LoadPermitted(trigger) => SegmentAppended(w.segments, Refused(w.hand, trigger));
      case Send(trigger) => SendKeepsOrder(w, trigger);
      case _ =>
    }
  }

  lemma InOrderRun(c: Config, w: Worker, canceled: set<nat>, a: RunAct)
    requires InOrder(w) && RunEnabled(c, w, a)
    ensures InOrder(RunNext(c, w, canceled, a))
  {
    if w.slot != [] {
      assert ReceivedBatches(w.receipts + [Served(w.slot[0])]) == ReceivedBatches(w.receipts) + [w.slot[0]];
      assert ReceivedBatches(w.receipts + [Flushed(w.slot[0])]) == ReceivedBatches(w.receipts) + [w.slot[0]];
    }
  }

  // ---- Batches, results and panics ----

  /** Every batch cut as ready was well cut. */
  predicate BatchesWellCut(c: Config, w: Worker) {
    forall s | s in w.segments && !s.Drained? :: WellCut(c, s.requests, s.trigger)
  }

  lemma BatchesWellCutAcc(c: Config, w: Worker, closed: bool, a: AccAct)
    requires AccShape(c, w) && BatchesWellCut(c, w) && AccEnabled(w, closed, a)
    ensures BatchesWellCut(c, AccNext(c, w, closed, a))
  {
  }

  /** Every result is `f` of the input of the very request it was sent to. */
  predicate ResultsMatch(c: Config, w: Worker) {
    forall x | x in w.resolved && x.outcome.Output? :: x.outcome.value == c.f(x.request.input)
  }

  lemma ResultsMatchAcc(c: Config, w: Worker, closed: bool, a: AccAct)
    requires ResultsMatch(c, w) && AccEnabled(w, closed, a)
    ensures ResultsMatch(c, AccNext(c, w, closed, a))
  {
  }

  lemma ResultsMatchRun(c: Config, w: Worker, canceled: set<nat>, a: RunAct)
    requires RunShape(c, w) && ResultsMatch(c, w) && RunEnabled(c, w, a)
    ensures ResultsMatch(c, RunNext(c, w, canceled, a))
  {
  }

  /** A request that was in the job channel when a panic was caught is failed with InternalError:
      until then it waits in the channel, and then with the inference thread, for its reply. */
  predicate DoomedFail(w: Worker) {
    forall r | r in w.doomed :: DoomedAt(w, r)
  }

  predicate DoomedAt(w: Worker, r: Request) {
    || (w.run in {Panicked, FailJob(InPanic), FlushQueued} && r in Flat(w.slot))
    || (w.run == FailJob(InQueue) && r in w.job)
    || Resolution(r, Failed(InternalError)) in w.resolved
  }

  lemma {:induction false} InFlat(batches: seq<seq<Request>>, more: seq<Request>, r: Request)
    requires r in Flat(batches)
    ensures r in Flat(batches + [more])
  {
    assert (batches + [more])[1..] == batches[1..] + [more];
    if r !in batches[0] {
      InFlat(batches[1..], more, r);
    }
  }

  lemma DoomedFailAcc(c: Config, w: Worker, closed: bool, a: AccAct)
    requires DoomedFail(w) && AccEnabled(w, closed, a)
    ensures DoomedFail(AccNext(c, w, closed, a))
  {
    var w' := AccNext(c, w, closed, a);
    forall r | r in w'.doomed
      ensures DoomedAt(w', r)
    {
      assert DoomedAt(w, r);
      if r in Flat(w.slot) {
        InFlat(w.slot, w.hand, r);
      }
    }
  }

  lemma DoomedFailRun(c: Config, w: Worker, canceled: set<nat>, a: RunAct)
    requires JobChannelShape(w) && DoomedFail(w) && RunEnabled(c, w, a)
    ensures DoomedFail(RunNext(c, w, canceled, a))
  {
    var w' := RunNext(c, w, canceled, a);
    forall r | r in w'.doomed
      ensures DoomedAt(w', r)
    {
      if r in w.doomed {
        assert DoomedAt(w, r);
        DoomedAtRun(c, w, canceled, a, r);
      }
    }
  }

  // Until its reply a doomed request is in the job channel, and then with the inference thread.
  lemma DoomedAtRun(c: Config, w: Worker, canceled: set<nat>, a: RunAct, r: Request)
    requires JobChannelShape(w) && DoomedAt(w, r) && RunEnabled(c, w, a)
    ensures DoomedAt(RunNext(c, w, canceled, a), r)
  {
    var w' := RunNext(c, w, canceled, a);
    assert w.resolved <= w'.resolved;
    if Resolution(r, Failed(InternalError)) in w.resolved {
      assert Resolution(r, Failed(InternalError)) in w'.resolved;
    } else if w.run.FlushQueued? {
      assert w.slot == [w.slot[0]];
      FlatOne(w.slot[0]);
    } else if w.run == FailJob(InQueue) {
      assert w.job == [w.job[0]] + w.job[1..];
      assert Resolution(w.job[0], Failed(InternalError)) in w'.resolved;
    }
  }

  lemma FifoPush(w: Worker, r: Request)
    requires Fifo(w)
    ensures Fifo(PushRequest(w, r))
  {
    assert Log(PushRequest(w, r)) == Log(w) + [r];
  }
}

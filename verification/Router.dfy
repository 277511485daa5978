/** Models src/pool/mod.rs, and `WorkerRef` of src/state/mod.rs: the two ring passes over the
    workers, for a pool whose state does not change during the call. */
module Router {
  import opened StatusWord

  datatype RouteError = QueueFullError | NoAvailableWorkersError

  /** What one push comes to; the message is handed back unless it was queued. */
  datatype PushResult<M> = Success | QueueFull(msg: M) | QueueClosed(msg: M)

  datatype TryPushResult<M> = Queued | Refused(msg: M, error: RouteError)

  /** What the router can see of a worker. */
  datatype View<M> = View(status: WorkerStatus, predictor: PredictorStatus, batchLen: nat, batchSize: nat,
                          queue: seq<M>, capacity: nat, receiverGone: bool)

  /** Waiting for a batch to complete, healthy, and with room in the batch. */
  predicate Primary<M>(v: View<M>) {
    v.status == Waiting && v.predictor == Alive && v.batchLen < v.batchSize
  }

  /** Accumulator and predictor both healthy. */
  predicate Secondary<M>(v: View<M>) {
    v.status !in {Exit, Crashed} && v.predictor == Alive
  }

  predicate IsOpen<M>(v: View<M>) {
    v.status !in {Exit, Crashed} && !v.receiverGone
  }

  predicate HasRoom<M>(v: View<M>) {
    IsOpen(v) && |v.queue| < v.capacity
  }

  predicate IsFull<M>(v: View<M>) {
    IsOpen(v) && |v.queue| >= v.capacity
  }

  /** One slot of the pool: the shared state and the sending half of the request channel. */
  class WorkerRef<M> {
    const state: WorkerState
    const capacity: nat
    var queue: seq<M>
    var receiverGone: bool

    constructor (state: WorkerState, capacity: nat)
      ensures this.state == state && this.capacity == capacity && queue == [] && !receiverGone
    {
      this.state, this.capacity := state, capacity;
      queue, receiverGone := [], false;
    }

    ghost function Look(): View<M>
      reads this, state
    {
      View(StatusOf(state.workerState), state.predictorState, Len(state.workerState), state.batchSize,
           queue, capacity, receiverGone)
    }

    /** Nothing is ever queued beyond the capacity, and a refused message comes back. */
    method Push(msg: M) returns (result: PushResult<M>)
      requires state.Valid()
      modifies this`queue
      ensures result == QueueClosed(msg) <==> StatusOf(state.workerState) in {Exit, Crashed} || receiverGone
      ensures result == QueueFull(msg) <==> StatusOf(state.workerState) in {Waiting, Running} && !receiverGone && |old(queue)| >= capacity
      ensures result == Success <==> StatusOf(state.workerState) in {Waiting, Running} && !receiverGone && |old(queue)| < capacity
      ensures queue == if result == Success then old(queue) + [msg] else old(queue)
    {
      var snapshot := state.TakeSnapshot();
      if snapshot.workerStatus in {Exit, Crashed} || receiverGone {
        return QueueClosed(msg);
      }
      if |queue| >= capacity {
        return QueueFull(msg);
      }
      queue := queue + [msg];
      result := Success;
    }
  }

  // ---- The ring ----

  /** Where the walk of a call begins, given its start ticket. */
  function StartOf(ticket: nat, n: nat): (start: nat)
    requires n > 0
    ensures start < n
  {
    ticket % n
  }

  function Next(i: nat, n: nat): (next: nat)
    requires i < n
    ensures next < n
  {
    if i + 1 == n then 0 else i + 1
  }

  lemma NextIsMod(i: nat, n: nat)
    requires i < n
    ensures (i + 1) % n == Next(i, n)
  {
  }

  /** Where the walk is after `k` steps. */
  function Ring(ticket: nat, k: nat, n: nat): (i: nat)
    requires n > 0
    ensures i < n
  {
    if k == 0 then StartOf(ticket, n) else Next(Ring(ticket, k - 1, n), n)
  }

  // Within one turn the walk wraps around at most once.
  lemma {:induction false} RingWraps(ticket: nat, k: nat, n: nat)
    requires n > 0 && k <= n
    ensures var start := StartOf(ticket, n);
            Ring(ticket, k, n) == if start + k < n then start + k else start + k - n
  {
    if k > 0 {
      RingWraps(ticket, k - 1, n);
    }
  }

  /** Each pass of `n` probes meets every worker exactly once, and leaves the walk back where it
      started. */
  lemma RingVisitsEachOnce(start: nat, n: nat, i: nat)
    requires i < n
    ensures exists k | 0 <= k < n :: Ring(start, k, n) == i
    ensures forall j, k | 0 <= j < k < n :: Ring(start, j, n) != Ring(start, k, n)
    ensures Ring(start, n, n) == Ring(start, 0, n)
  {
    var r := StartOf(start, n);
    var k := if i >= r then i - r else i + n - r;
    RingWraps(start, k, n);
    assert Ring(start, k, n) == i;
    RingWraps(start, n, n);
    forall j, k | 0 <= j < k < n
      ensures Ring(start, j, n) != Ring(start, k, n)
    {
      RingWraps(start, j, n);
      RingWraps(start, k, n);
    }
  }

  lemma MultipleIsFar(d: int, n: nat)
    ensures d >= 1 ==> d * n >= n
    ensures d <= -1 ==> d * n <= -(n as int)
  {
  }

  lemma DivisionUnique(q: int, r: int, q': int, r': int, n: nat)
    requires 0 <= r < n && 0 <= r' < n && q * n + r == q' * n + r'
    ensures r == r'
  {
    assert (q - q') * n == q * n - q' * n;
    MultipleIsFar(q - q', n);
  }

  lemma StartOfLater(ticket: nat, n: nat)
    requires 0 < n <= ticket
    ensures StartOf(ticket, n) == StartOf(ticket - n, n)
  {
    var q := (ticket - n) / n;
    assert ticket - n == q * n + (ticket - n) % n;
    assert (q + 1) * n == q * n + n;
    assert ticket == (ticket / n) * n + ticket % n;
    DivisionUnique(q + 1, (ticket - n) % n, ticket / n, ticket % n, n);
  }

  lemma {:induction false} StartOfSuccessor(ticket: nat, n: nat)
    requires n > 0
    ensures StartOf(ticket + 1, n) == Next(StartOf(ticket, n), n)
  {
    if ticket < n {
      NextIsMod(ticket, n);
    } else {
      StartOfLater(ticket, n);
      StartOfLater(ticket + 1, n);
      StartOfSuccessor(ticket - n, n);
    }
  }

  lemma {:induction false} TicketIsRing(ticket: nat, k: nat, n: nat)
    requires n > 0
    ensures StartOf(ticket + k, n) == Ring(ticket, k, n)
  {
    if k > 0 {
      TicketIsRing(ticket, k - 1, n);
      StartOfSuccessor(ticket + (k - 1), n);
    }
  }

  /** The k-th probe of a call is of the worker its ticket plus k names, counted around the pool. */
  lemma RingIsMod(ticket: nat, k: nat, n: nat)
    requires n > 0
    ensures Ring(ticket, k, n) == (ticket + k) % n
  {
    TicketIsRing(ticket, k, n);
  }

  // The starts of `n` calls holding consecutive tickets.
  function StartsFrom(ticket: nat, n: nat): seq<int> {
    seq(n, k requires 0 <= k < n => StartOf(ticket + k, n) as int)
  }

  /** Any `n` consecutive start tickets give every worker index exactly once. */
  lemma TicketsCoverPool(ticket: nat, n: nat, i: nat)
    requires i < n
    ensures i in StartsFrom(ticket, n)
    ensures |StartsFrom(ticket, n)| == n
    ensures forall j, k | 0 <= j < k < n :: StartsFrom(ticket, n)[j] != StartsFrom(ticket, n)[k]
  {
    RingVisitsEachOnce(ticket, n, i);
    var k :| 0 <= k < n && Ring(ticket, k, n) == i;
    TicketIsRing(ticket, k, n);
    assert StartsFrom(ticket, n)[k] == i;
    forall j, k | 0 <= j < k < n
      ensures StartsFrom(ticket, n)[j] != StartsFrom(ticket, n)[k]
    {
      TicketIsRing(ticket, j, n);
      TicketIsRing(ticket, k, n);
    }
  }

  // ---- Where a request goes ----

  // The readiness a pass looks for.
  predicate Takes<M>(v: View<M>, primary: bool) {
    (if primary then Primary(v) else Secondary(v)) && HasRoom(v)
  }

  /** The first probe, from the `k`-th on, whose worker takes the request in this pass. */
  function FirstProbe<M>(views: seq<View<M>>, start: nat, primary: bool, k: nat): (first: nat)
    requires |views| > 0 && k <= |views|
    ensures k <= first <= |views|
    ensures first < |views| ==> Takes(views[Ring(start, first, |views|)], primary)
    ensures forall j | k <= j < first :: !Takes(views[Ring(start, j, |views|)], primary)
    decreases |views| - k
  {
    if k == |views| || Takes(views[Ring(start, k, |views|)], primary) then k
    else FirstProbe(views, start, primary, k + 1)
  }

  datatype Route = To(worker: nat) | Nowhere(error: RouteError)

  /** Whether the request could be taken later: a live queue that is full, or a rebuild. */
  ghost predicate HasHope<M>(v: View<M>) {
    (Secondary(v) && IsFull(v)) || v.predictor == Rebuilding
  }

  ghost function RouteOf<M>(views: seq<View<M>>, start: nat): (route: Route)
    requires |views| > 0
    ensures route.To? ==> route.worker < |views| && HasRoom(views[route.worker])
  {
    var n := |views|;
    var first := FirstProbe(views, start, true, 0);
    if first < n then To(Ring(start, first, n))
    else
      var second := FirstProbe(views, start, false, 0);
      if second < n then To(Ring(start, second, n))
      else if exists i | 0 <= i < n :: HasHope(views[i]) then Nowhere(QueueFullError)
      else Nowhere(NoAvailableWorkersError)
  }

  function Enqueue<M>(views: seq<View<M>>, w: nat, msg: M): seq<View<M>>
    requires w < |views|
  {
    views[w := views[w].(queue := views[w].queue + [msg])]
  }

  /** What one pass leaves behind, and whether it placed the request. */
  function PassResult<M>(views: seq<View<M>>, ticket: nat, primary: bool, msg: M): (seq<View<M>>, bool)
    requires |views| > 0
  {
    var probe := FirstProbe(views, ticket, primary, 0);
    if probe < |views| then (Enqueue(views, Ring(ticket, probe, |views|), msg), true) else (views, false)
  }

  /** The pass is at its k-th probe, of worker `sink`, and has placed nothing so far. */
  predicate PassAt<M>(views: seq<View<M>>, ticket: nat, primary: bool, k: nat, sink: nat)
    requires |views| > 0
  {
    k <= |views| && sink == Ring(ticket, k, |views|) && FirstProbe(views, ticket, primary, 0) == FirstProbe(views, ticket, primary, k)
  }

  // It goes on to the next worker, or ends there.
  lemma PassStep<M>(views: seq<View<M>>, ticket: nat, primary: bool, msg: M, k: nat, sink: nat)
    requires k < |views| && PassAt(views, ticket, primary, k, sink)
    ensures sink < |views|
    ensures if Takes(views[sink], primary) then PassResult(views, ticket, primary, msg) == (Enqueue(views, sink, msg), true)
            else PassAt(views, ticket, primary, k + 1, (sink + 1) % |views|)
  {
    NextIsMod(sink, |views|);
  }

  lemma PassEnd<M>(views: seq<View<M>>, ticket: nat, primary: bool, msg: M, sink: nat)
    requires |views| > 0 && PassAt(views, ticket, primary, |views|, sink)
    ensures PassResult(views, ticket, primary, msg) == (views, false) && sink == StartOf(ticket, |views|)
  {
    RingWraps(ticket, |views|, |views|);
  }

  // Hope among the first `k` workers of the walk.
  ghost predicate HopeWithin<M>(views: seq<View<M>>, ticket: nat, k: nat)
    requires |views| > 0
  {
    k > 0 && (HopeWithin(views, ticket, k - 1) || HasHope(views[Ring(ticket, k - 1, |views|)]))
  }

  lemma {:induction false} HopeWithinIncludes<M>(views: seq<View<M>>, ticket: nat, j: nat, k: nat)
    requires |views| > 0 && j < k && HasHope(views[Ring(ticket, j, |views|)])
    ensures HopeWithin(views, ticket, k)
  {
    if j < k - 1 {
      HopeWithinIncludes(views, ticket, j, k - 1);
    }
  }

  lemma {:induction false} HopeWithinIsSomewhere<M>(views: seq<View<M>>, ticket: nat, k: nat)
    requires |views| > 0 && HopeWithin(views, ticket, k)
    ensures exists i | 0 <= i < |views| :: HasHope(views[i])
  {
    if HopeWithin(views, ticket, k - 1) {
      HopeWithinIsSomewhere(views, ticket, k - 1);
    }
  }

  lemma HopeWithinAll<M>(views: seq<View<M>>, ticket: nat)
    requires |views| > 0
    ensures HopeWithin(views, ticket, |views|) <==> exists i | 0 <= i < |views| :: HasHope(views[i])
  {
    var n := |views|;
    if HopeWithin(views, ticket, n) {
      HopeWithinIsSomewhere(views, ticket, n);
    }
    forall i | 0 <= i < n && HasHope(views[i])
      ensures HopeWithin(views, ticket, n)
    {
      RingVisitsEachOnce(ticket, n, i);
      var k :| 0 <= k < n && Ring(ticket, k, n) == i;
      HopeWithinIncludes(views, ticket, k, n);
    }
  }

  /** What one call leaves behind and answers: one queue longer by the request, or nothing
      changed and the request handed back. */
  ghost function Routed<M>(views: seq<View<M>>, ticket: nat, msg: M): (seq<View<M>>, TryPushResult<M>)
    requires |views| > 0
  {
    match RouteOf(views, ticket)
    case To(w) => (Enqueue(views, w, msg), Queued)
    case Nowhere(error) => (views, Refused(msg, error))
  }

  // The call's answer, pass by pass.
  lemma RoutedByPasses<M>(views: seq<View<M>>, ticket: nat, msg: M)
    requires |views| > 0
    ensures var (first, second) := (PassResult(views, ticket, true, msg), PassResult(views, ticket, false, msg));
            Routed(views, ticket, msg) ==
            if first.1 then (first.0, Queued)
            else if second.1 then (second.0, Queued)
            else (views, Refused(msg, if exists i | 0 <= i < |views| :: HasHope(views[i])
                                      then QueueFullError else NoAvailableWorkersError))
  {
  }

  /** On a pool of one the two passes come to a single look at its only worker. */
  lemma RoutedToOnly<M>(views: seq<View<M>>, ticket: nat, msg: M)
    requires |views| == 1
    ensures Routed(views, ticket, msg) ==
            if Takes(views[0], false) then (Enqueue(views, 0, msg), Queued)
            else (views, Refused(msg, if HasHope(views[0]) then QueueFullError else NoAvailableWorkersError))
  {
    assert Ring(ticket, 0, 1) == 0;
    assert FirstProbe(views, ticket, true, 0) == 0 <==> Takes(views[0], true);
    assert FirstProbe(views, ticket, false, 0) == 0 <==> Takes(views[0], false);
    assert (exists i | 0 <= i < |views| :: HasHope(views[i])) <==> HasHope(views[0]);
  }

  /** A request is refused exactly when no worker at all is live with room: no pass depends on
      where it starts to find one. */
  lemma RefusedMeansNoRoom<M>(views: seq<View<M>>, start: nat)
    requires |views| > 0
    ensures RouteOf(views, start).Nowhere? <==> forall i | 0 <= i < |views| :: !Takes(views[i], false)
  {
    var n := |views|;
    var first := FirstProbe(views, start, true, 0);
    var second := FirstProbe(views, start, false, 0);
    if first == n && second == n {
      forall i | 0 <= i < n
        ensures !Takes(views[i], false)
      {
        RingVisitsEachOnce(start, n, i);
      }
    } else if first < n {
      assert Takes(views[Ring(start, first, n)], false);
    }
  }

  /** A worker that is waiting with room in its batch and its queue is preferred to any other. */
  lemma PrimaryComesFirst<M>(views: seq<View<M>>, start: nat, i: nat)
    requires i < |views| && Takes(views[i], true)
    ensures RouteOf(views, start).To? && Takes(views[RouteOf(views, start).worker], true)
  {
    RingVisitsEachOnce(start, |views|, i);
  }

  /** What a pass takes, in terms of what there is to see of a worker. */
  lemma TakesIs<M>(v: View<M>)
    ensures Takes(v, true) <==>
              v.status == Waiting && v.predictor == Alive && v.batchLen < v.batchSize && !v.receiverGone && |v.queue| < v.capacity
    ensures Takes(v, false) <==>
              v.status in {Waiting, Running} && v.predictor == Alive && !v.receiverGone && |v.queue| < v.capacity
    ensures HasHope(v) <==>
              v.predictor == Rebuilding
              || (v.status in {Waiting, Running} && v.predictor == Alive && !v.receiverGone && |v.queue| >= v.capacity)
  {
    assert v.status.Waiting? || v.status.Exit? || v.status.Running? || v.status.Crashed?;
  }

  /** The workers in the order in which a call with this ticket probes them. */
  predicate Walk(walk: seq<nat>, ticket: nat, n: nat) {
    |walk| == n && forall k | 0 <= k < n :: walk[k] < n && walk[k] == (ticket + k) % n
  }

  function WalkFrom(ticket: nat, n: nat): (walk: seq<nat>)
    ensures Walk(walk, ticket, n)
  {
    seq(n, k requires 0 <= k < n => (ticket + k) % n)
  }

  lemma WalkIsRing(walk: seq<nat>, ticket: nat, n: nat)
    requires n > 0 && Walk(walk, ticket, n)
    ensures forall k | 0 <= k < n :: walk[k] == Ring(ticket, k, n) < n
  {
    forall k | 0 <= k < n
      ensures walk[k] == Ring(ticket, k, n)
    {
      RingIsMod(ticket, k, n);
    }
  }

  /** The first worker of a walk that takes the request in this pass is its k-th. */
  predicate FirstOf<M>(views: seq<View<M>>, walk: seq<nat>, primary: bool, k: nat)
    requires forall j | 0 <= j < |walk| :: walk[j] < |views|
  {
    k < |walk| && Takes(views[walk[k]], primary) && forall j | 0 <= j < k :: !Takes(views[walk[j]], primary)
  }

  lemma NobodyTakes<M>(views: seq<View<M>>, ticket: nat, primary: bool)
    requires |views| > 0 && forall i | 0 <= i < |views| :: !Takes(views[i], primary)
    ensures FirstProbe(views, ticket, primary, 0) == |views|
  {
  }

  /** Where a call with this ticket puts its request. Its walk begins at the ticket modulo the size of
      the pool. The first worker of it that is waiting, alive, with room in its batch and its queue
      gets the request; if there is none, the first that is open, alive, with room in its queue; if
      there is none either, nobody, and the error says whether some worker is full or rebuilding. */
  lemma PlacedInOrder<M>(views: seq<View<M>>, ticket: nat, msg: M, walk: seq<nat>, k: nat)
    requires |views| > 0 && Walk(walk, ticket, |views|)
    ensures forall j | 0 <= j < |walk| :: walk[j] < |views|
    ensures FirstOf(views, walk, true, k)
            || (FirstOf(views, walk, false, k) && forall i | 0 <= i < |views| :: !Takes(views[i], true))
            ==> Routed(views, ticket, msg) == (views[walk[k] := views[walk[k]].(queue := views[walk[k]].queue + [msg])], Queued)
    ensures (forall i | 0 <= i < |views| :: !Takes(views[i], false))
            ==> Routed(views, ticket, msg) ==
                (views, Refused(msg, if exists i | 0 <= i < |views| :: HasHope(views[i]) then QueueFullError else NoAvailableWorkersError))
  {
    WalkIsRing(walk, ticket, |views|);
    if FirstOf(views, walk, true, k) {
      assert FirstProbe(views, ticket, true, 0) == k;
    } else if (forall i | 0 <= i < |views| :: !Takes(views[i], true)) {
      NobodyTakes(views, ticket, true);
    }
    if (forall i | 0 <= i < |views| :: !Takes(views[i], false)) {
      NobodyTakes(views, ticket, true);
      NobodyTakes(views, ticket, false);
    }
  }

  /** The k-th worker of the walk is where the request belongs. */
  predicate Belongs<M>(views: seq<View<M>>, walk: seq<nat>, k: nat)
    requires forall j | 0 <= j < |walk| :: walk[j] < |views|
  {
    FirstOf(views, walk, true, k) || (FirstOf(views, walk, false, k) && forall i | 0 <= i < |views| :: !Takes(views[i], true))
  }

  /** Every request that is queued is queued there. */
  lemma QueuedInOrder<M>(views: seq<View<M>>, ticket: nat, msg: M, walk: seq<nat>) returns (k: nat)
    requires |views| > 0 && Walk(walk, ticket, |views|)
    ensures forall j | 0 <= j < |walk| :: walk[j] < |views|
    ensures Routed(views, ticket, msg).1.Queued? ==>
              Belongs(views, walk, k) && Routed(views, ticket, msg).0 == Enqueue(views, walk[k], msg)
  {
    WalkIsRing(walk, ticket, |views|);
    k := 0;
    if Routed(views, ticket, msg).1.Queued? {
      k := FirstProbe(views, ticket, true, 0);
      if k == |views| {
        k := FirstProbe(views, ticket, false, 0);
        NoneInAPass(views, ticket, true);
      }
    }
  }

  /** A call with this ticket has left the request there, and nothing else has changed. */
  ghost predicate QueuedWhereItBelongs<M>(views: seq<View<M>>, after: seq<View<M>>, ticket: nat, msg: M, k: nat)
    requires |views| > 0
  {
    Belongs(views, WalkFrom(ticket, |views|), k) && after == Enqueue(views, (ticket + k) % |views|, msg)
  }

  lemma RoutedWhereItBelongs<M>(views: seq<View<M>>, ticket: nat, msg: M) returns (k: nat)
    requires |views| > 0
    ensures Routed(views, ticket, msg).1.Queued? ==> QueuedWhereItBelongs(views, Routed(views, ticket, msg).0, ticket, msg, k)
  {
    k := QueuedInOrder(views, ticket, msg, WalkFrom(ticket, |views|));
  }

  lemma NoneInAPass<M>(views: seq<View<M>>, ticket: nat, primary: bool)
    requires |views| > 0 && FirstProbe(views, ticket, primary, 0) == |views|
    ensures forall i | 0 <= i < |views| :: !Takes(views[i], primary)
  {
    forall i | 0 <= i < |views|
      ensures !Takes(views[i], primary)
    {
      RingVisitsEachOnce(ticket, |views|, i);
    }
  }

  /** The pool: a fixed slice of workers and the shared ticket counter. */
  class WorkerPool<M(!new)> {
    const pool: seq<WorkerRef<M>>
    var start: u64

    constructor (pool: seq<WorkerRef<M>>)
      ensures this.pool == pool && start == 0
    {
      this.pool, start := pool, 0;
    }

    ghost function States(): set<object> {
      set i | 0 <= i < |pool| :: pool[i].state
    }

    ghost predicate Valid()
      reads this, States()
    {
      && |pool| > 0
      && (forall i, j | 0 <= i < j < |pool| :: pool[i] != pool[j])
      && (forall i | 0 <= i < |pool| :: pool[i].state.Valid())
    }

    ghost function Views(): (views: seq<View<M>>)
      reads this, pool, States()
      ensures |views| == |pool|
      ensures forall i | 0 <= i < |pool| :: views[i] == pool[i].Look()
    {
      seq(|pool|, i requires 0 <= i < |pool| reads this, pool, States() => pool[i].Look())
    }

    /** `get_and_increment`: the counter wraps around. */
    method GetAndIncrement() returns (sink: nat)
      requires |pool| > 0
      modifies this`start
      ensures sink == old(start) % |pool|
      ensures start == (old(start) + 1) % U64_RANGE
    {
      sink := start % |pool|;
      start := (start + 1) % U64_RANGE;
    }

    /** A push to one worker is seen in that worker's view alone. */
    method PushTo(w: nat, msg: M) returns (result: PushResult<M>)
      requires Valid() && w < |pool|
      modifies set i | 0 <= i < |pool| :: pool[i]`queue
      ensures HasRoom(old(Views())[w]) ==> result == Success && Views() == Enqueue(old(Views()), w, msg)
      ensures IsFull(old(Views())[w]) ==> result == QueueFull(msg) && Views() == old(Views())
      ensures !IsOpen(old(Views())[w]) ==> result == QueueClosed(msg) && Views() == old(Views())
    {
      result := pool[w].Push(msg);
    }

    method ProbePrimary(w: nat, msg: M) returns (queued: bool)
      requires Valid() && w < |pool|
      modifies set i | 0 <= i < |pool| :: pool[i]`queue
      ensures queued == Takes(old(Views())[w], true)
      ensures Views() == if queued then Enqueue(old(Views()), w, msg) else old(Views())
    {
      queued := false;
      var ready := pool[w].state.CanAcceptPrimary();
      if ready {
        var pushed := PushTo(w, msg);
        queued := pushed.Success?;
      }
    }

    method ProbeSecondary(w: nat, msg: M) returns (queued: bool, live: bool, rebuilding: bool)
      requires Valid() && w < |pool|
      modifies set i | 0 <= i < |pool| :: pool[i]`queue
      ensures queued == Takes(old(Views())[w], false)
      ensures Views() == if queued then Enqueue(old(Views()), w, msg) else old(Views())
      ensures live || rebuilding <==> HasHope(old(Views())[w])
    {
      queued, live, rebuilding := false, false, false;
      var ready := pool[w].state.CanAcceptSecondary();
      if ready {
        var pushed := PushTo(w, msg);
        queued, live := pushed.Success?, pushed.QueueFull?;
      } else {
        rebuilding := pool[w].state.IsRebuilding();
      }
    }

    /** Pass 1: the first worker of the walk that is waiting with room in its batch. */
    method FirstPass(msg: M, first: nat, ghost ticket: nat) returns (queued: bool, sink: nat)
      requires Valid() && first == StartOf(ticket, |pool|)
      modifies set i | 0 <= i < |pool| :: pool[i]`queue
      ensures !queued ==> sink == StartOf(ticket, |pool|)
      ensures (Views(), queued) == PassResult(old(Views()), ticket, true, msg)
    {
      ghost var views := Views();
      var size := |pool|;
      sink := first;
      for k := 0 to size
        invariant Views() == views && PassAt(views, ticket, true, k, sink)
      {
        PassStep(views, ticket, true, msg, k, sink);
        queued := ProbePrimary(sink, msg);
        if queued {
          return;
        }
        sink := (sink + 1) % size;
      }
      PassEnd(views, ticket, true, msg, sink);
      queued := false;
    }

    /** Pass 2: the first live worker of the walk, and what to tell the caller if there is none. */
    method SecondPass(msg: M, first: nat, ghost ticket: nat) returns (queued: bool, hope: bool)
      requires Valid() && first == StartOf(ticket, |pool|)
      modifies set i | 0 <= i < |pool| :: pool[i]`queue
      ensures Views() == PassResult(old(Views()), ticket, false, msg).0
      ensures queued == PassResult(old(Views()), ticket, false, msg).1
      ensures !queued ==> (hope <==> exists i | 0 <= i < |old(Views())| :: HasHope(old(Views())[i]))
    {
      ghost var views := Views();
      var size := |pool|;
      var sink: nat := first;
      var hasLiveWorker, hasRebuildingWorker := false, false;
      for k := 0 to size
        invariant Views() == views && PassAt(views, ticket, false, k, sink)
        invariant hasLiveWorker || hasRebuildingWorker <==> HopeWithin(views, ticket, k)
      {
        PassStep(views, ticket, false, msg, k, sink);
        var live, rebuilding;
        queued, live, rebuilding := ProbeSecondary(sink, msg);
        if queued {
          hope := true;
          return;
        }
        hasLiveWorker := hasLiveWorker || live;
        hasRebuildingWorker := hasRebuildingWorker || rebuilding;
        sink := (sink + 1) % size;
      }
      HopeWithinAll(views, ticket);
      PassEnd(views, ticket, false, msg, sink);
      queued, hope := false, hasLiveWorker || hasRebuildingWorker;
    }

    /** The two passes over the pool, whatever its size. */
    method TwoPasses(msg: M) returns (result: TryPushResult<M>)
      requires Valid()
      modifies this`start, set i | 0 <= i < |pool| :: pool[i]`queue
      ensures (Views(), result) == Routed(old(Views()), old(start), msg)
      ensures start == (old(start) + 1) % U64_RANGE
    {
      ghost var ticket: nat := start;
      RoutedByPasses(Views(), ticket, msg);
      var first := GetAndIncrement();
      assert Views() == old(Views());
      var queued, sink := FirstPass(msg, first, ticket);
      if queued {
        assert Views() == PassResult(old(Views()), ticket, true, msg).0;
        return Queued;
      }
      var hope;
      queued, hope := SecondPass(msg, sink, ticket);
      result := if queued then Queued
                else if hope then Refused(msg, QueueFullError)
                else Refused(msg, NoAvailableWorkersError);
    }

    /** The fast path of a pool of one: no ticket is drawn, and it answers what the two passes
        would. */
    method PushToOnly(msg: M) returns (result: TryPushResult<M>)
      requires Valid() && |pool| == 1
      modifies set i | 0 <= i < |pool| :: pool[i]`queue
      ensures (Views(), result) == Routed(old(Views()), start, msg)
    {
      ghost var views := Views();
      RoutedToOnly(views, start, msg);
      assert pool[0].Look() == views[0];
      var ready := pool[0].state.CanAcceptSecondary();
      if !ready {
        var rebuilding := pool[0].state.IsRebuilding();
        assert Views() == views && rebuilding == HasHope(views[0]);
        if rebuilding {
          return Refused(msg, QueueFullError);
        }
        return Refused(msg, NoAvailableWorkersError);
      }
      var pushed := PushTo(0, msg);
      assert HasRoom(views[0]) || IsFull(views[0]) || !IsOpen(views[0]);
      match pushed {
        case Success =>
          assert Takes(views[0], false) && Views() == Enqueue(views, 0, msg);
          result := Queued;
        case QueueFull(m) =>
          assert HasHope(views[0]) && Views() == views;
          result := Refused(m, QueueFullError);
          assert (Views(), result) == Routed(views, start, msg);
        case QueueClosed(m) =>
          assert !IsOpen(views[0]) && Views() == views;
          assert !Takes(views[0], false) && !HasHope(views[0]);
          result := Refused(m, NoAvailableWorkersError);
          assert (Views(), result) == Routed(views, start, msg);
      }
    }

    /** `try_push`: a request is queued with the worker its ticket plus k names, counted around the
        pool, for the first k that will do. */
    method TryPush(msg: M) returns (result: TryPushResult<M>, ghost k: nat)
      requires Valid()
      modifies this`start, set i | 0 <= i < |pool| :: pool[i]`queue
      ensures (Views(), result) == Routed(old(Views()), old(start), msg)
      ensures start == if |pool| == 1 then old(start) else (old(start) + 1) % U64_RANGE
      ensures result.Queued? ==> QueuedWhereItBelongs(old(Views()), Views(), old(start), msg, k)
    {
      k := RoutedWhereItBelongs(Views(), start, msg);
      if |pool| == 1 {
        result := PushToOnly(msg);
      } else {
        result := TwoPasses(msg);
      }
    }
  }
}

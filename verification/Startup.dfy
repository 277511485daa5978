/** Models src/setup/mod.rs and the start of src/worker/inf.rs: every inference thread builds its
    predictor and reports once, and `get_batcher` returns a handle only when all have reported
    success. A handle is therefore always one to a pool whose predictors are all alive. */
module Startup {
  import opened StatusWord
  import W = Worker
  import S = System

  newtype u8 = x: int | 0 <= x < 256

  datatype StartupError<E> =
    | Timeout
    | WorkerStartFailure(workerId: nat, err: E)
    | WorkerStartPanic(workerId: nat)
    | InternalError

  datatype Ack<E> = Ready | Failed(error: StartupError<E>)

  datatype Option<T> = None | Some(value: T)

  /** What `poll_acks` has returned once it has received these, if it has. */
  function Verdict<E>(acks: seq<Ack<E>>, poolSize: nat): (verdict: Option<Ack<E>>)
    decreases |acks|
  {
    if acks == [] then None
    else
      var before := Verdict(acks[..|acks| - 1], poolSize);
      if before.Some? then before
      else if acks[|acks| - 1].Failed? then Some(acks[|acks| - 1])
      else if |acks| == poolSize then Some(Ready)
      else None
  }

  /** It is the first failure among the first `poolSize` acks, or success when all those are there
      and none is a failure. */
  lemma {:induction false} VerdictIs<E>(acks: seq<Ack<E>>, poolSize: nat)
    requires poolSize > 0
    ensures var n := if |acks| < poolSize then |acks| else poolSize;
            && (Verdict(acks, poolSize) == Some(Ready) <==> |acks| >= poolSize && forall i | 0 <= i < n :: acks[i].Ready?)
            && (Verdict(acks, poolSize).None? <==> |acks| < poolSize && forall i | 0 <= i < n :: acks[i].Ready?)
            && (Verdict(acks, poolSize).Some? && Verdict(acks, poolSize).value.Failed? ==>
                  exists k :: 0 <= k < n && acks[k] == Verdict(acks, poolSize).value && forall i | 0 <= i < k :: acks[i].Ready?)
  {
    if acks != [] {
      var rest := acks[..|acks| - 1];
      VerdictIs(rest, poolSize);
      if Verdict(rest, poolSize).Some? && Verdict(rest, poolSize).value.Failed? {
        var k :| 0 <= k < |rest| && rest[k] == Verdict(rest, poolSize).value && forall i | 0 <= i < k :: rest[i].Ready?;
        assert acks[k] == rest[k] && forall i | 0 <= i < k :: acks[i] == rest[i];
      } else if Verdict(rest, poolSize).None? && acks[|acks| - 1].Failed? {
        assert forall i | 0 <= i < |acks| - 1 :: acks[i] == rest[i];
      } else {
        assert forall i | 0 <= i < |rest| :: acks[i] == rest[i];
      }
    }
  }

  lemma {:induction false} VerdictStands<E>(acks: seq<Ack<E>>, more: seq<Ack<E>>, poolSize: nat)
    requires Verdict(acks, poolSize).Some?
    ensures Verdict(acks + more, poolSize) == Verdict(acks, poolSize)
  {
    if more == [] {
      assert acks + more == acks;
    } else {
      VerdictStands(acks, more[..|more| - 1], poolSize);
      assert (acks + more)[..|acks + more| - 1] == acks + more[..|more| - 1];
    }
  }

  /** `poll_acks`, for a channel that delivers these acks and then closes. */
  method PollAcks<E>(rxs: seq<Ack<E>>, poolSize: u8) returns (result: Ack<E>)
    requires poolSize > 0
    ensures result == match Verdict(rxs, poolSize as nat) case Some(ack) => ack case None => Failed(InternalError)
  {
    var acked: u8 := 0;
    var k := 0;
    while k < |rxs|
      invariant k == acked as nat <= |rxs| && acked < poolSize
      invariant Verdict(rxs[..k], poolSize as nat).None?
    {
      var ack := rxs[k];
      assert rxs[..k + 1][..k] == rxs[..k];
      assert rxs == rxs[..k + 1] + rxs[k + 1..];
      if ack.Failed? {
        VerdictStands(rxs[..k + 1], rxs[k + 1..], poolSize as nat);
        return ack;
      }
      acked := acked + 1;
      k := k + 1;
      if acked == poolSize {
        VerdictStands(rxs[..k], rxs[k..], poolSize as nat);
        return Ready;
      }
    }
    assert rxs[..k] == rxs;
    result := Failed(InternalError);
  }

  // ---- The threads ----

  datatype ThreadPc<E> =
    | Unspawned
    | Building(left: nat)   // spawn_predictor, attempts left
    | Acking(ack: Ack<E>)   // blocking_send
    | Serving               // blocking_recv on the job channel
    | Gone

  datatype Thread<E> = Thread(pc: ThreadPc<E>, predictor: PredictorStatus)

  datatype Report<E> = Report(workerId: nat, ack: Ack<E>)

  datatype Starting<E> = Starting(
    threads: seq<Thread<E>>,
    reports: seq<Report<E>>,    // everything sent on the ack channel
    polled: nat,                // how many of them have been received
    outcome: Option<Ack<E>>)    // what get_batcher returned; its receiver is dropped then

  datatype Event<E> =
    | Spawned(i: nat)
    | SpawnFailed(i: nat)
    | Built(i: nat)
    | BuildFailed(i: nat, error: StartupError<E>)
    | BuildCancelled(i: nat)
    | Acked(i: nat)
    | Polled
    | Closed
    | TimedOut

  predicate Begins<E>(s: Starting<E>) {
    |s.threads| >= 1 && (forall i | 0 <= i < |s.threads| :: s.threads[i] == Thread(Unspawned, Alive))
    && s.reports == [] && s.polled == 0 && s.outcome.None?
  }

  function AcksOf<E>(reports: seq<Report<E>>): seq<Ack<E>> {
    seq(|reports|, i requires 0 <= i < |reports| => reports[i].ack)
  }

  predicate Can<E>(s: Starting<E>, e: Event<E>) {
    match e
    case Spawned(i) => i < |s.threads| && s.threads[i].pc.Unspawned?
    case SpawnFailed(i) => i < |s.threads| && s.threads[i].pc.Unspawned?
    case Built(i) => i < |s.threads| && s.threads[i].pc.Building?
    // The factory's error, or its panic; both name the worker.
    case BuildFailed(i, error) =>
      i < |s.threads| && s.threads[i].pc.Building? && (error.WorkerStartFailure? || error.WorkerStartPanic?) && error.workerId == i
    case BuildCancelled(i) => i < |s.threads| && s.threads[i].pc.Building? && s.outcome.Some?
    // The channel holds one ack a worker, so a send never has to wait.
    case Acked(i) => i < |s.threads| && s.threads[i].pc.Acking?
    case Polled => s.outcome.None? && s.polled < |s.reports|
    case Closed => s.outcome.None? && s.polled == |s.reports| && forall i | 0 <= i < |s.threads| :: s.threads[i].pc.Serving? || s.threads[i].pc.Gone?
    case TimedOut => s.outcome.None?
  }

  function SetThread<E>(s: Starting<E>, i: nat, t: Thread<E>): Starting<E>
    requires i < |s.threads|
  {
    s.(threads := s.threads[i := t])
  }

  function Send<E>(s: Starting<E>, i: nat, ack: Ack<E>): Starting<E> {
    if s.outcome.None? then s.(reports := s.reports + [Report(i, ack)]) else s
  }

  function Next<E>(attempts: nat, s: Starting<E>, e: Event<E>): Starting<E>
    requires Can(s, e)
  {
    match e
    case Spawned(i) => SetThread(s, i, Thread(Building(attempts), Alive))
    case SpawnFailed(i) => Send(SetThread(s, i, Thread(Gone, Alive)), i, Failed(InternalError))
    case Built(i) => SetThread(s, i, Thread(Acking(Ready), Alive))
    case BuildFailed(i, error) =>
      if s.threads[i].pc.left > 1 then SetThread(s, i, Thread(Building(s.threads[i].pc.left - 1), Alive))
      else SetThread(s, i, Thread(Acking(Failed(error)), Dead))
    case BuildCancelled(i) => SetThread(s, i, Thread(Gone, Dead))
    case Acked(i) =>
      var t := s.threads[i];
      var serves := t.pc.ack.Ready? && s.outcome.None?;
      Send(SetThread(s, i, Thread(if serves then Serving else Gone, t.predictor)), i, t.pc.ack)
    case Polled =>
      s.(polled := s.polled + 1, outcome := Verdict(AcksOf(s.reports[..s.polled + 1]), |s.threads|))
    case Closed => s.(outcome := Some(Failed(InternalError)))
    case TimedOut => s.(outcome := Some(Failed(Timeout)))
  }

  // ---- What they keep ----

  /** Each thread reports at most once, and one that has reported success serves. */
  ghost predicate Reports<E>(s: Starting<E>) {
    && (forall k | 0 <= k < |s.reports| ::
          var r := s.reports[k];
          && r.workerId < |s.threads|
          && (if r.ack.Ready? then s.threads[r.workerId] == Thread(Serving, Alive) else s.threads[r.workerId].pc == Gone))
    && (forall j, k | 0 <= j < k < |s.reports| :: s.reports[j].workerId != s.reports[k].workerId)
  }

  ghost predicate Polls<E>(s: Starting<E>) {
    && s.polled <= |s.reports|
    && (s.outcome == Some(Ready) ==> Verdict(AcksOf(s.reports[..s.polled]), |s.threads|) == Some(Ready))
  }

  ghost predicate Builds<E>(s: Starting<E>) {
    forall i | 0 <= i < |s.threads| && s.threads[i].pc == Acking(Ready) :: s.threads[i].predictor == Alive
  }

  lemma ReportsNext<E>(attempts: nat, s: Starting<E>, e: Event<E>)
    requires Reports(s) && Builds(s) && Can(s, e)
    ensures Reports(Next(attempts, s, e)) && Builds(Next(attempts, s, e))
  {
  }

  lemma PollsNext<E>(attempts: nat, s: Starting<E>, e: Event<E>)
    requires Polls(s) && Can(s, e)
    ensures Polls(Next(attempts, s, e)) && |Next(attempts, s, e).threads| == |s.threads|
  {
    var s' := Next(attempts, s, e);
    assert s'.reports[..s.polled] == s.reports[..s.polled];
  }

  ghost predicate IsStartup<E>(attempts: nat, states: seq<Starting<E>>, events: seq<Event<E>>) {
    && |states| == |events| + 1 && Begins(states[0])
    && forall k | 0 <= k < |events| :: Can(states[k], events[k]) && states[k + 1] == Next(attempts, states[k], events[k])
  }

  lemma {:induction false} StartupKeeps<E>(attempts: nat, states: seq<Starting<E>>, events: seq<Event<E>>, k: nat)
    requires IsStartup(attempts, states, events) && k < |states|
    ensures Reports(states[k]) && Builds(states[k]) && Polls(states[k]) && |states[k].threads| >= 1
  {
    if k > 0 {
      StartupKeeps(attempts, states, events, k - 1);
      ReportsNext(attempts, states[k - 1], events[k - 1]);
      PollsNext(attempts, states[k - 1], events[k - 1]);
    }
  }

  // ---- The barrier ----

  function Below(n: nat): (ids: set<nat>)
    ensures |ids| == n && forall x: nat :: x in ids <==> x < n
  {
    if n == 0 then {} else Below(n - 1) + {n - 1}
  }

  // As many different numbers below n as there are: all of them.
  lemma {:induction false} AllReported<E>(reports: seq<Report<E>>, n: nat, i: nat)
    requires |reports| == n && i < n
    requires forall k | 0 <= k < n :: reports[k].workerId < n
    requires forall j, k | 0 <= j < k < n :: reports[j].workerId != reports[k].workerId
    ensures exists k :: 0 <= k < n && reports[k].workerId == i
  {
    var ids := set k | 0 <= k < n :: reports[k].workerId;
    DistinctIds(reports, n);
    assert ids <= Below(n);
    if ids != Below(n) {
      SmallerSet(ids, Below(n));
    }
    assert i in ids;
  }

  lemma SmallerSet(a: set<nat>, b: set<nat>)
    requires a <= b && a != b
    ensures |a| < |b|
  {
    assert b == a + (b - a);
  }

  lemma {:induction false} DistinctIds<E>(reports: seq<Report<E>>, n: nat)
    requires n <= |reports| && forall j, k | 0 <= j < k < |reports| :: reports[j].workerId != reports[k].workerId
    ensures |set k | 0 <= k < n :: reports[k].workerId| == n
  {
    if n > 0 {
      DistinctIds(reports, n - 1);
      var before := set k | 0 <= k < n - 1 :: reports[k].workerId;
      assert (set k | 0 <= k < n :: reports[k].workerId) == before + {reports[n - 1].workerId};
      assert reports[n - 1].workerId !in before;
    }
  }

  /** A handle is returned only when every thread has built its predictor and serves. */
  lemma HandleMeansAllServing<E>(attempts: nat, states: seq<Starting<E>>, events: seq<Event<E>>, k: nat, i: nat)
    requires IsStartup(attempts, states, events) && k < |states| && states[k].outcome == Some(Ready)
    requires i < |states[k].threads|
    ensures states[k].threads[i] == Thread(Serving, Alive)
  {
    var s := states[k];
    var n := |s.threads|;
    StartupKeeps(attempts, states, events, k);
    VerdictIs(AcksOf(s.reports[..s.polled]), n);
    AllReported(s.reports[..n], n, i);
    var j :| 0 <= j < n && s.reports[j].workerId == i;
    assert AcksOf(s.reports[..s.polled])[j] == s.reports[j].ack;
  }

  /** The worker of a thread, while no request has been pushed. */
  function WorkerOf<E>(t: Thread<E>): W.Worker {
    W.Started().(predictor := t.predictor, run := if t.pc.Serving? then W.Idle else W.RunGone)
  }

  /** What the caller of `get_batcher` holds: the pool and one handle. */
  function BatcherOf<E>(s: Starting<E>): S.Sys {
    S.Sys(seq(|s.threads|, i requires 0 <= i < |s.threads| => WorkerOf(s.threads[i])), map[], [], false, {0})
  }

  /** So every run of the batcher begins in the state the other modules assume. */
  lemma HandleMeansInitial<E>(attempts: nat, states: seq<Starting<E>>, events: seq<Event<E>>, k: nat)
    requires IsStartup(attempts, states, events) && k < |states| && states[k].outcome == Some(Ready)
    ensures S.Initial(BatcherOf(states[k]))
  {
    StartupKeeps(attempts, states, events, k);
    forall i | 0 <= i < |states[k].threads|
      ensures BatcherOf(states[k]).workers[i] == W.Started()
    {
      HandleMeansAllServing(attempts, states, events, k, i);
    }
  }
}

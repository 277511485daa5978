/** What `get_batcher` returns, told from what has happened: which event each error goes back to, and
    when exactly it is a handle. */
module StartupOutcome {
  import opened StatusWord
  import opened Startup

  /** The failed attempts of a thread so far. */
  function Failures<E>(events: seq<Event<E>>, i: nat): (n: nat)
    ensures n <= |events|
  {
    if events == [] then 0
    else
      var e := events[|events| - 1];
      Failures(events[..|events| - 1], i) + if e.BuildFailed? && e.i == i then 1 else 0
  }

  /** The `attempts`-th failed attempt of thread `i` came to this error. */
  ghost predicate LastFailure<E>(attempts: nat, events: seq<Event<E>>, i: nat, error: StartupError<E>) {
    exists m :: 0 <= m < |events| && events[m] == BuildFailed(i, error) && Failures(events[..m + 1], i) == attempts
  }

  /** Something has happened that startup fails with this error for. */
  ghost predicate Cause<E>(attempts: nat, events: seq<Event<E>>, n: nat, error: StartupError<E>) {
    match error
    case Timeout => TimedOut in events
    case InternalError => Closed in events || exists i: nat :: i < n && SpawnFailed(i) in events
    case _ => error.workerId < n && LastFailure(attempts, events, error.workerId, error)
  }

  ghost predicate ThreadHistory<E>(attempts: nat, events: seq<Event<E>>, i: nat, t: Thread<E>) {
    var pc := t.pc;
    && (pc.Unspawned? || pc.Building? || pc == Acking(Ready) || pc.Serving? ==> BuildCancelled(i) !in events)
    && (t.predictor == Dead <==> Failures(events, i) >= attempts || BuildCancelled(i) in events)
    && (pc.Unspawned? ==> Failures(events, i) == 0)
    && (pc.Building? ==> 1 <= pc.left && Failures(events, i) + pc.left == attempts)
    && (pc == Acking(Ready) || pc.Serving? ==> Failures(events, i) < attempts)
    && (pc.Acking? && pc.ack.Failed? ==>
          pc.ack.error !in {Timeout, InternalError} && pc.ack.error.workerId == i && LastFailure(attempts, events, i, pc.ack.error))
    && (SpawnFailed(i) in events ==> pc.Gone?)
  }

  ghost predicate ReportsCaused<E>(attempts: nat, events: seq<Event<E>>, s: Starting<E>) {
    forall k | 0 <= k < |s.reports| && s.reports[k].ack.Failed? :: Cause(attempts, events, |s.threads|, s.reports[k].ack.error)
  }

  /** What is known of the outcome. */
  ghost predicate OutcomeHistory<E>(attempts: nat, events: seq<Event<E>>, s: Starting<E>) {
    && (s.outcome.Some? && s.outcome.value.Failed? ==> Cause(attempts, events, |s.threads|, s.outcome.value.error))
    && (TimedOut in events ==> s.outcome == Some(Failed(Timeout)))
    && (Closed in events ==> s.outcome == Some(Failed(InternalError)))
    && s.polled <= |s.reports|
    && (TimedOut !in events && Closed !in events ==> s.outcome == Verdict(AcksOf(s.reports[..s.polled]), |s.threads|))
  }

  ghost predicate History<E>(attempts: nat, events: seq<Event<E>>, s: Starting<E>) {
    && |s.threads| >= 1
    && (forall i | 0 <= i < |s.threads| :: ThreadHistory(attempts, events, i, s.threads[i]))
    && ReportsCaused(attempts, events, s)
    && OutcomeHistory(attempts, events, s)
  }

  // ---- Along a startup ----

  lemma FailuresGrow<E>(events: seq<Event<E>>, e: Event<E>, i: nat)
    ensures Failures(events + [e], i) == Failures(events, i) + if e.BuildFailed? && e.i == i then 1 else 0
  {
    assert (events + [e])[..|events + [e]| - 1] == events;
  }

  lemma LastFailureStays<E>(attempts: nat, events: seq<Event<E>>, e: Event<E>, i: nat, error: StartupError<E>)
    requires LastFailure(attempts, events, i, error)
    ensures LastFailure(attempts, events + [e], i, error)
  {
    var m :| 0 <= m < |events| && events[m] == BuildFailed(i, error) && Failures(events[..m + 1], i) == attempts;
    assert (events + [e])[..m + 1] == events[..m + 1];
    assert (events + [e])[m] == events[m];
  }

  lemma LastFailureNow<E>(attempts: nat, events: seq<Event<E>>, i: nat, error: StartupError<E>)
    requires Failures(events, i) + 1 == attempts
    ensures LastFailure(attempts, events + [BuildFailed(i, error)], i, error)
  {
    var all := events + [BuildFailed(i, error)];
    FailuresGrow(events, BuildFailed(i, error), i);
    assert all[..|events| + 1] == all && all[|events|] == BuildFailed(i, error);
  }

  lemma CauseStays<E>(attempts: nat, events: seq<Event<E>>, e: Event<E>, n: nat, error: StartupError<E>)
    requires Cause(attempts, events, n, error)
    ensures Cause(attempts, events + [e], n, error)
  {
    if error !in {Timeout, InternalError} {
      LastFailureStays(attempts, events, e, error.workerId, error);
    }
  }

  lemma ThreadStep<E>(attempts: nat, events: seq<Event<E>>, s: Starting<E>, e: Event<E>, i: nat)
    requires attempts >= 1 && Can(s, e) && i < |s.threads| && ThreadHistory(attempts, events, i, s.threads[i])
    ensures |Next(attempts, s, e).threads| == |s.threads|
    ensures ThreadHistory(attempts, events + [e], i, Next(attempts, s, e).threads[i])
  {
    var pc := s.threads[i].pc;
    FailuresGrow(events, e, i);
    if e.BuildFailed? && e.i == i && pc.left == 1 {
      LastFailureNow(attempts, events, i, e.error);
    } else if pc.Acking? && pc.ack.Failed? {
      LastFailureStays(attempts, events, e, i, pc.ack.error);
    }
  }

  lemma ReportsStep<E>(attempts: nat, events: seq<Event<E>>, s: Starting<E>, e: Event<E>)
    requires attempts >= 1 && Can(s, e) && History(attempts, events, s)
    ensures ReportsCaused(attempts, events + [e], Next(attempts, s, e))
  {
    var s' := Next(attempts, s, e);
    forall k | 0 <= k < |s'.reports| && s'.reports[k].ack.Failed?
      ensures Cause(attempts, events + [e], |s'.threads|, s'.reports[k].ack.error)
    {
      if k < |s.reports| {
        CauseStays(attempts, events, e, |s.threads|, s.reports[k].ack.error);
      } else if e.SpawnFailed? {
        assert e in events + [e];
      } else {
        assert ThreadHistory(attempts, events, e.i, s.threads[e.i]);
        LastFailureStays(attempts, events, e, e.i, s'.reports[k].ack.error);
      }
    }
  }

  lemma PolledCause<E>(attempts: nat, events: seq<Event<E>>, s: Starting<E>)
    requires Can(s, Polled) && History(attempts, events, s)
    ensures var verdict := Next(attempts, s, Polled).outcome;
            verdict.Some? && verdict.value.Failed? ==> Cause(attempts, events, |s.threads|, verdict.value.error)
  {
    var acks := AcksOf(s.reports[..s.polled + 1]);
    var verdict := Verdict(acks, |s.threads|);
    VerdictIs(acks, |s.threads|);
    if verdict.Some? && verdict.value.Failed? {
      var k :| 0 <= k < |acks| && acks[k] == verdict.value;
      assert acks[k] == s.reports[k].ack;
    }
  }

  lemma OutcomeStep<E>(attempts: nat, events: seq<Event<E>>, s: Starting<E>, e: Event<E>)
    requires attempts >= 1 && Can(s, e) && History(attempts, events, s)
    ensures OutcomeHistory(attempts, events + [e], Next(attempts, s, e))
  {
    var s' := Next(attempts, s, e);
    assert s'.reports[..s.polled] == s.reports[..s.polled];
    assert e in events + [e];
    if e.Polled? {
      PolledCause(attempts, events, s);
    }
    if s'.outcome.Some? && s'.outcome.value.Failed? && !e.TimedOut? && !e.Closed? {
      CauseStays(attempts, events, e, |s.threads|, s'.outcome.value.error);
    }
  }

  lemma HistoryStep<E>(attempts: nat, events: seq<Event<E>>, s: Starting<E>, e: Event<E>)
    requires attempts >= 1 && Can(s, e) && History(attempts, events, s)
    ensures History(attempts, events + [e], Next(attempts, s, e))
  {
    forall i | 0 <= i < |s.threads|
      ensures |Next(attempts, s, e).threads| == |s.threads|
      ensures ThreadHistory(attempts, events + [e], i, Next(attempts, s, e).threads[i])
    {
      ThreadStep(attempts, events, s, e, i);
    }
    assert |Next(attempts, s, e).threads| == |s.threads| by { ThreadStep(attempts, events, s, e, 0); }
    ReportsStep(attempts, events, s, e);
    OutcomeStep(attempts, events, s, e);
  }

  lemma {:induction false} HistoryAlong<E>(attempts: nat, states: seq<Starting<E>>, events: seq<Event<E>>, k: nat)
    requires attempts >= 1 && IsStartup(attempts, states, events) && k < |states|
    ensures History(attempts, events[..k], states[k])
  {
    if k > 0 {
      HistoryAlong(attempts, states, events, k - 1);
      HistoryStep(attempts, events[..k - 1], states[k - 1], events[k - 1]);
      assert events[..k] == events[..k - 1] + [events[k - 1]];
    }
  }

  // ---- The channel of acks ----

  /** While nothing has been returned, a thread that is past its ack has reported, and no verdict has
      been reached. */
  ghost predicate AllReport<E>(s: Starting<E>) {
    s.outcome.None? ==>
      && (forall i | 0 <= i < |s.threads| && (s.threads[i].pc.Serving? || s.threads[i].pc.Gone?) :: Reported(s.reports, i))
      && s.polled <= |s.reports| && Verdict(AcksOf(s.reports[..s.polled]), |s.threads|).None?
  }

  ghost predicate Reported<E>(reports: seq<Report<E>>, i: nat) {
    exists k :: 0 <= k < |reports| && reports[k].workerId == i
  }

  lemma ReportedMore<E>(reports: seq<Report<E>>, r: Report<E>, i: nat)
    requires Reported(reports, i) || r.workerId == i
    ensures Reported(reports + [r], i)
  {
    if r.workerId == i {
      assert (reports + [r])[|reports|].workerId == i;
    } else {
      var k :| 0 <= k < |reports| && reports[k].workerId == i;
      assert (reports + [r])[k].workerId == i;
    }
  }

  lemma AllReportStep<E>(attempts: nat, s: Starting<E>, e: Event<E>)
    requires AllReport(s) && Can(s, e)
    ensures AllReport(Next(attempts, s, e))
  {
    var s' := Next(attempts, s, e);
    if s'.outcome.None? {
      assert s'.reports[..s.polled] == s.reports[..s.polled];
      forall i | 0 <= i < |s'.threads| && (s'.threads[i].pc.Serving? || s'.threads[i].pc.Gone?)
        ensures Reported(s'.reports, i)
      {
        if s'.reports != s.reports {
          ReportedMore(s.reports, s'.reports[|s.reports|], i);
        }
      }
    }
  }

  lemma {:induction false} AllReportAlong<E>(attempts: nat, states: seq<Starting<E>>, events: seq<Event<E>>, k: nat)
    requires IsStartup(attempts, states, events) && k < |states|
    ensures AllReport(states[k])
  {
    if k > 0 {
      AllReportAlong(attempts, states, events, k - 1);
      AllReportStep(attempts, states[k - 1], events[k - 1]);
    }
  }

  lemma EnoughReports<E>(reports: seq<Report<E>>, n: nat)
    requires forall j, k | 0 <= j < k < |reports| :: reports[j].workerId != reports[k].workerId
    requires forall i: nat | i < n :: Reported(reports, i)
    ensures |reports| >= n
  {
    var ids := set k | 0 <= k < |reports| :: reports[k].workerId;
    DistinctIds(reports, |reports|);
    forall i | i in Below(n)
      ensures i in ids
    {
      assert Reported(reports, i);
    }
    if |ids| < n {
      NoSmaller(Below(n), ids);
    }
  }

  lemma NoSmaller(a: set<nat>, b: set<nat>)
    requires a <= b
    ensures |a| <= |b|
  {
    if a != b {
      SmallerSet(a, b);
    }
  }

  /** The channel of acks never closes with too few of them: `poll_acks` does not come to its last
      line. */
  lemma AcksNeverRunOut<E>(attempts: nat, states: seq<Starting<E>>, events: seq<Event<E>>, k: nat)
    requires IsStartup(attempts, states, events) && k < |states|
    ensures !Can(states[k], Closed)
  {
    var s := states[k];
    if Can(s, Closed) {
      AllReportAlong(attempts, states, events, k);
      StartupKeeps(attempts, states, events, k);
      EnoughReports(s.reports, |s.threads|);
      VerdictIs(AcksOf(s.reports[..s.polled]), |s.threads|);
      assert false;
    }
  }

  lemma NeverClosed<E>(attempts: nat, states: seq<Starting<E>>, events: seq<Event<E>>, k: nat)
    requires IsStartup(attempts, states, events) && k < |states|
    ensures Closed !in events[..k]
  {
    if Closed in events[..k] {
      var m :| 0 <= m < k && events[m] == Closed;
      AcksNeverRunOut(attempts, states, events, m);
    }
  }

  // ---- It comes to an end ----

  /** How many events a thread still has before it, its ack's receipt included. */
  function ThreadLeft<E>(attempts: nat, pc: ThreadPc<E>): nat {
    match pc
    case Unspawned => attempts + 3
    case Building(left) => left + 2
    case Acking(_) => 2
    case _ => 0
  }

  function AllLeft<E>(attempts: nat, threads: seq<Thread<E>>): nat {
    if threads == [] then 0
    else AllLeft(attempts, threads[..|threads| - 1]) + ThreadLeft(attempts, threads[|threads| - 1].pc)
  }

  lemma {:induction false} AllLeftChanges<E>(attempts: nat, threads: seq<Thread<E>>, i: nat, t: Thread<E>)
    requires i < |threads|
    ensures AllLeft(attempts, threads[i := t]) == AllLeft(attempts, threads) - ThreadLeft(attempts, threads[i].pc) + ThreadLeft(attempts, t.pc)
  {
    var n := |threads| - 1;
    if i < n {
      AllLeftChanges(attempts, threads[..n], i, t);
      assert threads[i := t][..n] == threads[..n][i := t];
    } else {
      assert threads[i := t][..n] == threads[..n];
    }
  }

  /** What is still to happen before `get_batcher` returns, the clock aside. */
  function StillTo<E>(attempts: nat, s: Starting<E>): int {
    AllLeft(attempts, s.threads) + |s.reports| - s.polled
  }

  /** Every event but the clock's brings the end nearer. */
  lemma EventLowers<E>(attempts: nat, s: Starting<E>, e: Event<E>)
    requires Can(s, e) && !e.TimedOut? && !e.Closed? && forall i | 0 <= i < |s.threads| && s.threads[i].pc.Building? :: s.threads[i].pc.left >= 1
    ensures StillTo(attempts, Next(attempts, s, e)) < StillTo(attempts, s)
  {
    if !e.Polled? {
      var s' := Next(attempts, s, e);
      AllLeftChanges(attempts, s.threads, e.i, s'.threads[e.i]);
      assert s'.threads == s.threads[e.i := s'.threads[e.i]];
    }
  }

  lemma {:induction false} AllLeftAtStart<E>(attempts: nat, threads: seq<Thread<E>>)
    requires forall i | 0 <= i < |threads| :: threads[i].pc.Unspawned?
    ensures AllLeft(attempts, threads) == |threads| * (attempts + 3)
  {
    if threads != [] {
      AllLeftAtStart(attempts, threads[..|threads| - 1]);
      assert |threads| * (attempts + 3) == (|threads| - 1) * (attempts + 3) + (attempts + 3);
    }
  }

  lemma {:induction false} StillToAlong<E>(attempts: nat, states: seq<Starting<E>>, events: seq<Event<E>>, k: nat)
    requires attempts >= 1 && IsStartup(attempts, states, events) && k < |states| && TimedOut !in events[..k]
    ensures k + StillTo(attempts, states[k]) <= |states[0].threads| * (attempts + 3)
  {
    if k == 0 {
      AllLeftAtStart(attempts, states[0].threads);
    } else {
      assert events[..k][..k - 1] == events[..k - 1] && events[..k][k - 1] == events[k - 1];
      StillToAlong(attempts, states, events, k - 1);
      HistoryAlong(attempts, states, events, k - 1);
      AcksNeverRunOut(attempts, states, events, k - 1);
      BuildingsLeft(attempts, events[..k - 1], states[k - 1]);
      EventLowers(attempts, states[k - 1], events[k - 1]);
    }
  }

  lemma BuildingsLeft<E>(attempts: nat, events: seq<Event<E>>, s: Starting<E>)
    requires History(attempts, events, s)
    ensures forall i | 0 <= i < |s.threads| && s.threads[i].pc.Building? :: s.threads[i].pc.left >= 1
  {
    forall i | 0 <= i < |s.threads| && s.threads[i].pc.Building?
      ensures s.threads[i].pc.left >= 1
    {
      assert ThreadHistory(attempts, events, i, s.threads[i]);
    }
  }

  /** Until the time is up startup takes a bounded number of events, and as long as nothing has been
      returned there is a next one: whatever the factory does, `get_batcher` returns. */
  lemma StartupReturns<E>(attempts: nat, states: seq<Starting<E>>, events: seq<Event<E>>, k: nat)
    requires attempts >= 1 && IsStartup(attempts, states, events) && k < |states| && TimedOut !in events[..k]
    ensures k <= |states[0].threads| * (attempts + 3)
    ensures states[k].outcome.None? ==> exists e :: Can(states[k], e) && !e.TimedOut?
  {
    StillToAlong(attempts, states, events, k);
    var s := states[k];
    StartupKeeps(attempts, states, events, k);
    if s.outcome.None? {
      AcksNeverRunOut(attempts, states, events, k);
      SomethingCan(s);
    }
    StillToNatural(attempts, s);
  }

  lemma StillToNatural<E>(attempts: nat, s: Starting<E>)
    requires s.polled <= |s.reports|
    ensures StillTo(attempts, s) >= 0
  {
  }

  lemma SomethingCan<E>(s: Starting<E>)
    requires s.outcome.None? && s.polled <= |s.reports| && !Can(s, Closed)
    ensures exists e :: Can(s, e) && !e.TimedOut?
  {
    if s.polled < |s.reports| {
      assert Can(s, Polled);
    } else {
      var i :| 0 <= i < |s.threads| && !s.threads[i].pc.Serving? && !s.threads[i].pc.Gone?;
      assert Can(s, Spawned(i)) || Can(s, Built(i)) || Can(s, Acked(i));
    }
  }

  // ---- What it comes to ----

  /** Each error is told for its own reason: Timeout because the time was up, InternalError because a
      thread could not be spawned, and an error that names a worker is that of the last of exactly
      `attempts` failed attempts of its thread. */
  lemma FailureHasItsCause<E>(attempts: nat, states: seq<Starting<E>>, events: seq<Event<E>>, k: nat, error: StartupError<E>)
    requires attempts >= 1 && IsStartup(attempts, states, events) && k < |states| && states[k].outcome == Some(Failed(error))
    ensures match error
            case Timeout => TimedOut in events[..k]
            case InternalError => exists i: nat :: i < |states[k].threads| && SpawnFailed(i) in events[..k]
            case _ => exists m :: 0 <= m < k && events[m] == BuildFailed(error.workerId, error)
                                  && Failures(events[..m + 1], error.workerId) == attempts
  {
    HistoryAlong(attempts, states, events, k);
    NeverClosed(attempts, states, events, k);
    if error !in {Timeout, InternalError} {
      var m :| 0 <= m < k && events[..k][m] == BuildFailed(error.workerId, error) && Failures(events[..k][..m + 1], error.workerId) == attempts;
      assert events[..k][..m + 1] == events[..m + 1];
    }
  }

  /** Nothing has happened that startup fails for. */
  ghost predicate NothingFailed<E>(attempts: nat, events: seq<Event<E>>, n: nat) {
    && TimedOut !in events
    && forall i: nat | i < n :: SpawnFailed(i) !in events && Failures(events, i) < attempts
  }

  lemma {:induction false} FailuresMonotone<E>(events: seq<Event<E>>, m: nat, i: nat)
    requires m <= |events|
    ensures Failures(events[..m], i) <= Failures(events, i)
  {
    if m < |events| {
      FailuresMonotone(events[..|events| - 1], m, i);
      assert events[..|events| - 1][..m] == events[..m];
    } else {
      assert events[..m] == events;
    }
  }

  lemma NoCause<E>(attempts: nat, events: seq<Event<E>>, n: nat, error: StartupError<E>)
    requires NothingFailed(attempts, events, n) && Closed !in events
    ensures !Cause(attempts, events, n, error)
  {
    if Cause(attempts, events, n, error) && error !in {Timeout, InternalError} {
      var m :| 0 <= m < |events| && events[m] == BuildFailed(error.workerId, error) && Failures(events[..m + 1], error.workerId) == attempts;
      FailuresMonotone(events, m + 1, error.workerId);
    }
  }

  /** `get_batcher` returns a handle exactly when an ack of every worker has been received and nothing
      has failed: the time was not up, every thread could be spawned and none had all its attempts fail. */
  lemma ReadyExactlyWhenAllAcked<E>(attempts: nat, states: seq<Starting<E>>, events: seq<Event<E>>, k: nat)
    requires attempts >= 1 && IsStartup(attempts, states, events) && k < |states|
    ensures var (s, n, done) := (states[k], |states[k].threads|, events[..k]);
            s.outcome == Some(Ready) <==> s.polled >= n && NothingFailed(attempts, done, n)
  {
    var (s, n, done) := (states[k], |states[k].threads|, events[..k]);
    HistoryAlong(attempts, states, events, k);
    NeverClosed(attempts, states, events, k);
    var acks := AcksOf(s.reports[..s.polled]);
    VerdictIs(acks, n);
    if s.outcome == Some(Ready) {
      forall i: nat | i < n
        ensures SpawnFailed(i) !in done && Failures(done, i) < attempts
      {
        HandleMeansAllServing(attempts, states, events, k, i);
        assert ThreadHistory(attempts, done, i, s.threads[i]);
      }
    } else if NothingFailed(attempts, done, n) && s.polled >= n {
      forall j | 0 <= j < n
        ensures acks[j].Ready?
      {
        assert acks[j] == s.reports[j].ack;
        if s.reports[j].ack.Failed? {
          NoCause(attempts, done, n, s.reports[j].ack.error);
        }
      }
    }
  }

  /** A worker whose first build fails, or is given up because startup has ended, is marked dead, and no
      other. */
  lemma DeadExactlyWhenNotBuilt<E>(attempts: nat, states: seq<Starting<E>>, events: seq<Event<E>>, k: nat, i: nat)
    requires attempts >= 1 && IsStartup(attempts, states, events) && k < |states| && i < |states[k].threads|
    ensures states[k].threads[i].predictor == Dead <==> Failures(events[..k], i) >= attempts || BuildCancelled(i) in events[..k]
  {
    HistoryAlong(attempts, states, events, k);
    assert ThreadHistory(attempts, events[..k], i, states[k].threads[i]);
  }

  /** Once `get_batcher` has returned, whatever it is, no thread starts to serve that did not before: one
      that completes its predictor too late is told so by its ack, and goes. */
  lemma {:induction false} NobodyServesLate<E>(attempts: nat, states: seq<Starting<E>>, events: seq<Event<E>>, j: nat, k: nat, i: nat)
    requires IsStartup(attempts, states, events) && j <= k < |states| && states[j].outcome.Some? && i < |states[k].threads|
    ensures |states[j].threads| == |states[k].threads| && states[k].outcome == states[j].outcome
    ensures states[k].threads[i].pc.Serving? ==> states[j].threads[i].pc.Serving?
    decreases k
  {
    if j < k {
      assert |states[k].threads| == |states[k - 1].threads| by { SameThreads(attempts, states[k - 1], events[k - 1]); }
      NobodyServesLate(attempts, states, events, j, k - 1, i);
    }
  }

  lemma SameThreads<E>(attempts: nat, s: Starting<E>, e: Event<E>)
    requires Can(s, e)
    ensures |Next(attempts, s, e).threads| == |s.threads|
  {
  }
}

/** Models the retry engine of src/worker/inf.rs: the backoff schedule, the cancellable sleep and
    the bounded factory retries. A duration is its number of nanoseconds. */
module Retry {
  import opened Bits

  // u64::MAX seconds and 999_999_999 nanoseconds.
  const DURATION_MAX: nat := 0xFFFF_FFFF_FFFF_FFFF * 1_000_000_000 + 999_999_999
  const SLICE: nat := 20_000_000

  type Duration = d: nat | d <= DURATION_MAX

  function Min(a: nat, b: nat): nat {
    if a <= b then a else b
  }

  function SaturatingDouble(d: Duration): Duration {
    if 2 * d <= DURATION_MAX then 2 * d else DURATION_MAX
  }

  // ---- The backoff schedule ----

  /** The exact wait after the i-th failure, in unbounded arithmetic. */
  function Backoff(base: nat, maxWait: nat, i: nat): (wait: nat)
    ensures wait <= maxWait
  {
    Min(base * Pow2(i), maxWait)
  }

  function Sum(s: seq<nat>): nat {
    if s == [] then 0 else Sum(s[..|s| - 1]) + s[|s| - 1]
  }

  lemma BackoffDoubles(base: Duration, maxWait: Duration, i: nat)
    ensures Backoff(base, maxWait, i + 1) == Min(SaturatingDouble(Backoff(base, maxWait, i)), maxWait)
    ensures Backoff(base, maxWait, i) <= Backoff(base, maxWait, i + 1)
  {
    assert base * Pow2(i + 1) == 2 * (base * Pow2(i));
  }

  lemma {:induction false} SumAtMost(s: seq<nat>, most: nat)
    requires forall i | 0 <= i < |s| :: s[i] <= most
    ensures Sum(s) <= |s| * most
  {
    if s != [] {
      SumAtMost(s[..|s| - 1], most);
      assert |s| * most == (|s| - 1) * most + most;
    }
  }

  /** `backoff_schedule`: one wait per attempt. Each is the base doubled once per earlier failure
      and clamped, whatever saturates on the way; nothing follows the last attempt. */
  method BackoffSchedule(attempts: nat, baseBackoff: Duration, maxWait: Duration) returns (waits: seq<Duration>)
    ensures |waits| == attempts
    ensures forall i | 0 <= i < attempts - 1 ::
              waits[i] == if baseBackoff * Pow2(i) <= maxWait then baseBackoff * Pow2(i) else maxWait
    ensures forall i | 0 <= i < attempts - 1 :: waits[i] == Backoff(baseBackoff, maxWait, i)
    ensures attempts > 0 ==> waits[attempts - 1] == 0
    ensures forall i, j | 0 <= i < j < attempts - 1 :: waits[i] <= waits[j] <= maxWait
    ensures attempts > 0 ==> Sum(waits) <= (attempts - 1) * maxWait
  {
    waits := [];
    var next := Min(baseBackoff, maxWait);
    assert baseBackoff * Pow2(0) == baseBackoff;
    for i := 0 to attempts
      invariant |waits| == i
      invariant next == Backoff(baseBackoff, maxWait, i)
      invariant forall j | 0 <= j < i && j < attempts - 1 :: waits[j] == Backoff(baseBackoff, maxWait, j) <= next
      invariant forall j, k | 0 <= j < k < i && k < attempts - 1 :: waits[j] <= waits[k]
      invariant i == attempts && i > 0 ==> waits[i - 1] == 0
    {
      var wait := next;
      BackoffDoubles(baseBackoff, maxWait, i);
      next := Min(SaturatingDouble(next), maxWait);
      var entry := if i == attempts - 1 then 0 else wait;
      waits := waits + [entry];
    }
    if attempts > 0 {
      SumAtMost(waits[..attempts - 1], maxWait);
    }
  }

  // ---- What the engine does, as a log ----

  /** What one factory call comes to: a panic is caught. */
  datatype Attempt<P, E> = Built(predictor: P) | Error(error: E) | Panic

  datatype Event<P, E> = Sleep(d: nat) | Poll(exit: bool) | Call(outcome: Attempt<P, E>)

  datatype BuildResult<P, E> = Success(predictor: P) | BuildError(error: E) | BuildPanic | Cancelled

  function Slept<P, E>(log: seq<Event<P, E>>): nat {
    if log == [] then 0
    else (if log[0].Sleep? then log[0].d else 0) + Slept(log[1..])
  }

  /** An exit condition is a channel that has been closed, which it stays. */
  ghost predicate ExitsForGood(exit: nat -> bool) {
    forall j, k | j <= k && exit(j) :: exit(k)
  }

  // ---- The cancellable sleep ----

  datatype SleepRun<P, E> = SleepRun(log: seq<Event<P, E>>, polls: nat, completed: bool)

  /** What sleeping does when the next poll is the `p`-th. */
  function Sleeping<P, E>(wait: nat, p: nat, exit: nat -> bool): SleepRun<P, E> {
    if wait == 0 then SleepRun([], p, true)
    else
      var round := [Sleep(Min(SLICE, wait)), Poll(exit(p))];
      if exit(p) then SleepRun(round, p + 1, false)
      else if wait < SLICE then SleepRun(round, p + 1, true)
      else
        var rest := Sleeping<P, E>(wait - SLICE, p + 1, exit);
        SleepRun(round + rest.log, rest.polls, rest.completed)
  }

  /** Slices of at most 20 ms, each followed by a poll; a poll that says to exit is the last. */
  predicate Sliced<P, E>(log: seq<Event<P, E>>) {
    log == []
    || (&& |log| >= 2
        && log[0].Sleep? && 0 < log[0].d <= SLICE
        && log[1].Poll? && (log[1].exit ==> |log| == 2)
        && Sliced(log[2..]))
  }

  lemma SleptOfRound<P, E>(d: nat, exit: bool, rest: seq<Event<P, E>>)
    ensures Slept([Sleep(d), Poll(exit)] + rest) == d + Slept(rest)
    ensures ([Sleep(d), Poll(exit)] + rest)[2..] == rest
  {
    var log := [Sleep(d), Poll(exit)] + rest;
    assert log[1..] == [Poll(exit)] + rest;
    assert log[1..][1..] == rest;
  }

  /** An uncancelled sleep takes exactly the time asked for; one that is cut short never takes
      more, and the poll that cut it short is the last thing it does. */
  lemma {:induction false} SleepIsExact<P, E>(wait: nat, p: nat, exit: nat -> bool)
    ensures var run := Sleeping<P, E>(wait, p, exit);
            && Sliced(run.log)
            && (run.completed ==> Slept(run.log) == wait && Poll(true) !in run.log)
            && (!run.completed ==> Slept(run.log) <= wait && run.log != [] && run.log[|run.log| - 1] == Poll(true))
  {
    if wait != 0 {
      if !exit(p) && wait >= SLICE {
        SleepIsExact<P, E>(wait - SLICE, p + 1, exit);
        SleptOfRound(SLICE, false, Sleeping<P, E>(wait - SLICE, p + 1, exit).log);
      } else {
        var round: seq<Event<P, E>> := [Sleep(Min(SLICE, wait)), Poll(exit(p))];
        SleptOfRound<P, E>(Min(SLICE, wait), exit(p), []);
        assert round == round + [];
      }
    }
  }

  /** It looks whether to exit every 20 milliseconds: the k-th slice is a whole one, or what is left
      of `wait` nanoseconds, and the next poll follows it. */
  lemma {:induction false} SleepPollsOften<P, E>(wait: nat, p: nat, exit: nat -> bool, k: nat)
    requires 2 * k < |Sleeping<P, E>(wait, p, exit).log|
    ensures var log := Sleeping<P, E>(wait, p, exit).log;
            && 2 * k + 1 < |log| && log[2 * k].Sleep? && log[2 * k + 1] == Poll(exit(p + k))
            && 0 < log[2 * k].d <= 20_000_000
            && log[2 * k].d == if wait - k * 20_000_000 < 20_000_000 then wait - k * 20_000_000 else 20_000_000
    decreases k
  {
    if k > 0 {
      var rest := Sleeping<P, E>(wait - SLICE, p + 1, exit).log;
      SleepPollsOften<P, E>(wait - SLICE, p + 1, exit, k - 1);
      var log := Sleeping<P, E>(wait, p, exit).log;
      assert log[2 * k] == rest[2 * (k - 1)] && log[2 * k + 1] == rest[2 * (k - 1) + 1];
    }
  }

  /** Sleeping calls no factory, and stops early only because the last poll said to exit. */
  lemma {:induction false} SleepOnlyPolls<P, E>(wait: nat, p: nat, exit: nat -> bool)
    ensures var run := Sleeping<P, E>(wait, p, exit);
            && (forall e | e in run.log :: !e.Call?)
            && (!run.completed ==> run.polls > 0 && exit(run.polls - 1))
  {
    if wait != 0 && !exit(p) && wait >= SLICE {
      SleepOnlyPolls<P, E>(wait - SLICE, p + 1, exit);
    }
  }

  // ---- The bounded retries ----

  function Calls<P, E>(log: seq<Event<P, E>>): seq<Attempt<P, E>> {
    if log == [] then []
    else (if log[0].Call? then [log[0].outcome] else []) + Calls(log[1..])
  }

  // One attempt's log: a poll, a call, and events that are not calls.
  lemma CallsOfRound<P, E>(outcome: Attempt<P, E>, sleep: seq<Event<P, E>>, rest: seq<Event<P, E>>)
    requires forall e | e in sleep :: !e.Call?
    ensures Calls([Poll(false), Call(outcome)] + sleep + rest) == [outcome] + Calls(rest)
  {
    var log := [Poll(false), Call(outcome)] + sleep + rest;
    assert log[1..] == [Call(outcome)] + (sleep + rest);
    assert log[1..][1..] == sleep + rest;
    CallsAfter(sleep, rest);
  }

  lemma {:induction false} CallsAfter<P, E>(sleep: seq<Event<P, E>>, rest: seq<Event<P, E>>)
    requires forall e | e in sleep :: !e.Call?
    ensures Calls(sleep + rest) == Calls(rest)
  {
    if sleep == [] {
      assert sleep + rest == rest;
    } else {
      CallsAfter(sleep[1..], rest);
      assert (sleep + rest)[1..] == sleep[1..] + rest;
    }
  }

  datatype Spawn<P, E> = Spawn(log: seq<Event<P, E>>, result: BuildResult<P, E>, calls: nat)

  function FailureOf<P, E>(outcome: Attempt<P, E>, slept: bool): BuildResult<P, E>
    requires !outcome.Built?
  {
    if !slept then Cancelled
    else if outcome.Error? then BuildError(outcome.error)
    else BuildPanic
  }

  /** What is left to do with these waits, after failure `last`, `c` calls and `p` polls. */
  function SpawnRun<P, E>(waits: seq<nat>, last: BuildResult<P, E>, c: nat, p: nat,
                          factory: nat -> Attempt<P, E>, exit: nat -> bool): Spawn<P, E>
  {
    if waits == [] then Spawn([], last, c)
    else if exit(p) then Spawn([Poll(true)], Cancelled, c)
    else
      var outcome := factory(c);
      if outcome.Built? then Spawn([Poll(false), Call(outcome)], Success(outcome.predictor), c + 1)
      else
        var sleep := Sleeping<P, E>(waits[0], p + 1, exit);
        var rest := SpawnRun(waits[1..], FailureOf(outcome, sleep.completed), c + 1, sleep.polls, factory, exit);
        Spawn([Poll(false), Call(outcome)] + sleep.log + rest.log, rest.result, rest.calls)
  }

  /** The whole of a run, seen after doing `log` with the first `i` waits used up. */
  ghost function Total<P, E>(log: seq<Event<P, E>>, waits: seq<nat>, i: nat, last: BuildResult<P, E>, c: nat, p: nat,
                             factory: nat -> Attempt<P, E>, exit: nat -> bool): Spawn<P, E>
    requires i <= |waits|
  {
    var rest := SpawnRun(waits[i..], last, c, p, factory, exit);
    Spawn(log + rest.log, rest.result, rest.calls)
  }

  // A failed attempt leaves the whole as it was.
  lemma TotalAfterFailure<P, E>(log: seq<Event<P, E>>, waits: seq<nat>, i: nat, last: BuildResult<P, E>, c: nat, p: nat,
                                factory: nat -> Attempt<P, E>, exit: nat -> bool)
    requires i < |waits| && !exit(p) && !factory(c).Built?
    ensures var sleep := Sleeping<P, E>(waits[i], p + 1, exit);
            Total(log, waits, i, last, c, p, factory, exit) ==
            Total(log + [Poll(false)] + [Call(factory(c))] + sleep.log, waits, i + 1,
                  FailureOf(factory(c), sleep.completed), c + 1, sleep.polls, factory, exit)
  {
    assert waits[i..][1..] == waits[i + 1..];
  }

  // The whole, when the next poll says to exit, the next call succeeds, or no wait is left.
  lemma TotalAtEnd<P, E>(log: seq<Event<P, E>>, waits: seq<nat>, i: nat, last: BuildResult<P, E>, c: nat, p: nat,
                         factory: nat -> Attempt<P, E>, exit: nat -> bool)
    requires i <= |waits| && (i == |waits| || exit(p) || factory(c).Built?)
    ensures Total(log, waits, i, last, c, p, factory, exit) ==
            if i == |waits| then Spawn(log, last, c)
            else if exit(p) then Spawn(log + [Poll(true)], Cancelled, c)
            else Spawn(log + [Poll(false)] + [Call(factory(c))], Success(factory(c).predictor), c + 1)
  {
    if i == |waits| {
      assert waits[i..] == [] && log + [] == log;
    } else if !exit(p) {
      assert log + [Poll(false), Call(factory(c))] == log + [Poll(false)] + [Call(factory(c))];
    }
  }

  /** The outcomes of the factory calls numbered from `c` up to `d`. */
  function Outcomes<P, E>(factory: nat -> Attempt<P, E>, c: nat, d: nat): seq<Attempt<P, E>>
    requires c <= d
  {
    seq(d - c, k requires 0 <= k < d - c => factory(c + k))
  }

  lemma OutcomesFrom<P, E>(factory: nat -> Attempt<P, E>, c: nat, d: nat)
    requires c < d
    ensures Outcomes(factory, c, d) == [factory(c)] + Outcomes(factory, c + 1, d)
  {
  }

  /** At most one call per attempt, and the calls made are the factory's next ones. */
  lemma {:induction false} SpawnCallsAreBounded<P, E>(waits: seq<nat>, last: BuildResult<P, E>, c: nat, p: nat,
                                                      factory: nat -> Attempt<P, E>, exit: nat -> bool)
    ensures var run := SpawnRun(waits, last, c, p, factory, exit);
            c <= run.calls <= c + |waits| && Calls(run.log) == Outcomes(factory, c, run.calls)
  {
    if waits != [] && !exit(p) {
      var outcome := factory(c);
      if outcome.Built? {
        CallsOfRound(outcome, [], []);
        OutcomesFrom(factory, c, c + 1);
        assert [Poll(false), Call(outcome)] == [Poll(false), Call(outcome)] + [] + [];
      } else {
        var sleep := Sleeping<P, E>(waits[0], p + 1, exit);
        var failure := FailureOf(outcome, sleep.completed);
        var rest := SpawnRun(waits[1..], failure, c + 1, sleep.polls, factory, exit);
        SpawnCallsAreBounded(waits[1..], failure, c + 1, sleep.polls, factory, exit);
        SleepOnlyPolls<P, E>(waits[0], p + 1, exit);
        CallsOfRound(outcome, sleep.log, rest.log);
        OutcomesFrom(factory, c, rest.calls);
      }
    }
  }

  /** Every call but the last failed. A success is the last call's; an error or a panic is
      reported only after every attempt has failed, and is the last one's. */
  lemma {:induction false} SpawnReportsLast<P, E>(waits: seq<nat>, last: BuildResult<P, E>, c: nat, p: nat,
                                                  factory: nat -> Attempt<P, E>, exit: nat -> bool)
    requires !last.Success?
    ensures var run := SpawnRun(waits, last, c, p, factory, exit);
            && run.calls >= c
            && (forall k | c <= k < run.calls - 1 :: !factory(k).Built?)
            && (run.result.Success? ==> run.calls > c && factory(run.calls - 1) == Built(run.result.predictor))
            && (!run.result.Success? && run.calls > c ==> !factory(run.calls - 1).Built?)
            && (waits != [] && run.result.BuildError? ==>
                  run.calls == c + |waits| && factory(run.calls - 1) == Error(run.result.error))
            && (waits != [] && run.result.BuildPanic? ==>
                  run.calls == c + |waits| && factory(run.calls - 1) == Panic)
  {
    if waits != [] && !exit(p) && !factory(c).Built? {
      var sleep := Sleeping<P, E>(waits[0], p + 1, exit);
      SpawnReportsLast(waits[1..], FailureOf(factory(c), sleep.completed), c + 1, sleep.polls, factory, exit);
    }
  }

  lemma {:induction false} SumFront(s: seq<nat>)
    requires s != []
    ensures Sum(s) == s[0] + Sum(s[1..])
  {
    if |s| > 1 {
      SumFront(s[..|s| - 1]);
      assert s[..|s| - 1][1..] == s[1..][..|s| - 2];
    } else {
      assert s[..0] == [] && s[1..] == [];
    }
  }

  lemma {:induction false} SleptOfBoth<P, E>(log: seq<Event<P, E>>, more: seq<Event<P, E>>)
    ensures Slept(log + more) == Slept(log) + Slept(more)
  {
    if log == [] {
      assert log + more == more;
    } else {
      SleptOfBoth(log[1..], more);
      assert (log + more)[1..] == log[1..] + more;
    }
  }

  lemma SleptOfAttempt<P, E>(outcome: Attempt<P, E>, sleep: seq<Event<P, E>>, rest: seq<Event<P, E>>)
    ensures Slept([Poll(false), Call(outcome)] + sleep + rest) == Slept(sleep) + Slept(rest)
  {
    var head: seq<Event<P, E>> := [Poll(false), Call(outcome)];
    assert head[1..] == [Call(outcome)] && head[1..][1..] == [];
    SleptOfBoth(head, sleep);
    SleptOfBoth(head + sleep, rest);
  }

  /** The number of calls that failed. */
  function FailedCalls<P, E>(run: Spawn<P, E>, c: nat): int {
    run.calls - c - if run.result.Success? then 1 else 0
  }

  lemma CutShortIsCancelled<P, E>(waits: seq<nat>, c: nat, p: nat, factory: nat -> Attempt<P, E>, exit: nat -> bool, wait: nat)
    requires ExitsForGood(exit) && !Sleeping<P, E>(wait, p, exit).completed
    ensures SpawnRun(waits, Cancelled, c, Sleeping<P, E>(wait, p, exit).polls, factory, exit).result.Cancelled?
  {
    SleepOnlyPolls<P, E>(wait, p, exit);
  }

  // The sleep of the first failed call, and those of the calls after it.
  lemma SleepsAdd(waits: seq<nat>, n: nat, first: nat, rest: nat)
    requires 0 < n <= |waits| && first <= waits[0] && rest <= Sum(waits[1..][..n - 1])
    ensures first + rest <= Sum(waits[..n])
    ensures first == waits[0] && rest == Sum(waits[1..][..n - 1]) ==> first + rest == Sum(waits[..n])
  {
    SumFront(waits[..n]);
    assert waits[..n][1..] == waits[1..][..n - 1];
  }

  /** What a run has slept is what the schedule says for its failed calls, or less if it was cancelled. */
  ghost predicate AsScheduled<P, E>(run: Spawn<P, E>, waits: seq<nat>, c: nat) {
    && 0 <= FailedCalls(run, c) <= |waits|
    && Slept(run.log) <= Sum(waits[..FailedCalls(run, c)])
    && (!run.result.Cancelled? ==> Slept(run.log) == Sum(waits[..FailedCalls(run, c)]))
  }

  lemma FailedAttemptSleeps<P, E>(waits: seq<nat>, c: nat, p: nat, factory: nat -> Attempt<P, E>, exit: nat -> bool)
    requires ExitsForGood(exit) && waits != [] && !exit(p) && !factory(c).Built?
    requires var sleep := Sleeping<P, E>(waits[0], p + 1, exit);
             var rest := SpawnRun(waits[1..], FailureOf(factory(c), sleep.completed), c + 1, sleep.polls, factory, exit);
             AsScheduled(rest, waits[1..], c + 1)
    ensures AsScheduled(SpawnRun(waits, Cancelled, c, p, factory, exit), waits, c)
  {
    var sleep := Sleeping<P, E>(waits[0], p + 1, exit);
    var rest := SpawnRun(waits[1..], FailureOf(factory(c), sleep.completed), c + 1, sleep.polls, factory, exit);
    SleepIsExact<P, E>(waits[0], p + 1, exit);
    if !sleep.completed {
      CutShortIsCancelled(waits[1..], c + 1, p + 1, factory, exit, waits[0]);
    }
    SleptOfAttempt(factory(c), sleep.log, rest.log);
    SleepsAdd(waits, FailedCalls(rest, c + 1) + 1, Slept(sleep.log), Slept(rest.log));
  }

  /** After each failed call the thread sleeps its entry of the schedule, no more and, unless the
      build is cancelled, no less; after a call that succeeds it does not sleep. */
  lemma {:induction false} SpawnSleepsTheSchedule<P, E>(waits: seq<nat>, last: BuildResult<P, E>, c: nat, p: nat,
                                                        factory: nat -> Attempt<P, E>, exit: nat -> bool)
    requires ExitsForGood(exit) && !last.Success?
    ensures var run := SpawnRun(waits, last, c, p, factory, exit);
            var failed := run.calls - c - if run.result.Success? then 1 else 0;
            && 0 <= failed <= |waits| && Slept(run.log) <= Sum(waits[..failed])
            && (!run.result.Cancelled? ==> Slept(run.log) == Sum(waits[..failed]))
  {
    SleepsAsScheduled(waits, last, c, p, factory, exit);
  }

  lemma {:induction false} SleepsAsScheduled<P, E>(waits: seq<nat>, last: BuildResult<P, E>, c: nat, p: nat,
                                                   factory: nat -> Attempt<P, E>, exit: nat -> bool)
    requires ExitsForGood(exit) && !last.Success?
    ensures AsScheduled(SpawnRun(waits, last, c, p, factory, exit), waits, c)
  {
    if waits != [] && !exit(p) && !factory(c).Built? {
      var sleep := Sleeping<P, E>(waits[0], p + 1, exit);
      SleepsAsScheduled(waits[1..], FailureOf(factory(c), sleep.completed), c + 1, sleep.polls, factory, exit);
      FailedAttemptSleeps(waits, c, p, factory, exit);
    } else if waits != [] && !exit(p) {
      SleptOfAttempt<P, E>(factory(c), [], []);
      assert [Poll(false), Call(factory(c))] + [] + [] == [Poll(false), Call(factory(c))];
    }
  }

  /** Right before every call the exit condition has been polled, and did not say to exit. */
  ghost predicate PolledFirst<P, E>(log: seq<Event<P, E>>) {
    forall k | 0 <= k < |log| && log[k].Call? :: k > 0 && log[k - 1] == Poll(false)
  }

  lemma PolledFirstBoth<P, E>(log: seq<Event<P, E>>, more: seq<Event<P, E>>)
    requires PolledFirst(log) && PolledFirst(more)
    ensures PolledFirst(log + more)
  {
    forall k | 0 <= k < |log + more| && (log + more)[k].Call?
      ensures k > 0 && (log + more)[k - 1] == Poll(false)
    {
      if k >= |log| {
        assert more[k - |log|].Call?;
      }
    }
  }

  lemma {:induction false} SpawnPollsFirst<P, E>(waits: seq<nat>, last: BuildResult<P, E>, c: nat, p: nat,
                                                 factory: nat -> Attempt<P, E>, exit: nat -> bool)
    ensures PolledFirst(SpawnRun(waits, last, c, p, factory, exit).log)
  {
    if waits != [] && !exit(p) && !factory(c).Built? {
      var sleep := Sleeping<P, E>(waits[0], p + 1, exit);
      var failure := FailureOf(factory(c), sleep.completed);
      var head: seq<Event<P, E>> := [Poll(false), Call(factory(c))];
      SleepOnlyPolls<P, E>(waits[0], p + 1, exit);
      SpawnPollsFirst(waits[1..], failure, c + 1, sleep.polls, factory, exit);
      PolledFirstBoth(head, sleep.log);
      PolledFirstBoth(head + sleep.log, SpawnRun(waits[1..], failure, c + 1, sleep.polls, factory, exit).log);
    }
  }

  ghost predicate NoCallAfterExit<P, E>(log: seq<Event<P, E>>) {
    forall i, j | 0 <= i < j < |log| && log[i] == Poll(true) :: !log[j].Call?
  }

  lemma NoExitBefore<P, E>(log: seq<Event<P, E>>, more: seq<Event<P, E>>)
    requires Poll(true) !in log && NoCallAfterExit(more)
    ensures NoCallAfterExit(log + more)
  {
  }

  lemma NoCallBehind<P, E>(log: seq<Event<P, E>>, more: seq<Event<P, E>>)
    requires NoCallAfterExit(log) && forall e | e in more :: !e.Call?
    ensures NoCallAfterExit(log + more)
  {
  }

  lemma CutShort<P, E>(head: seq<Event<P, E>>, slept: seq<Event<P, E>>, rest: seq<Event<P, E>>)
    requires Poll(true) !in head && (forall e | e in slept :: !e.Call?) && (forall e | e in rest :: !e.Call?)
    ensures NoCallAfterExit(head + slept + rest)
  {
    NoExitBefore(head, slept);
    NoCallBehind(head + slept, rest);
  }

  /** Once a poll has said to exit no factory call starts, and exactly then the build is
      reported as cancelled. */
  lemma {:induction false} SpawnHonoursExit<P, E>(waits: seq<nat>, last: BuildResult<P, E>, c: nat, p: nat,
                                                  factory: nat -> Attempt<P, E>, exit: nat -> bool)
    requires ExitsForGood(exit)
    ensures var run := SpawnRun(waits, last, c, p, factory, exit);
            && NoCallAfterExit(run.log)
            && (waits != [] ==> (run.result.Cancelled? <==> Poll(true) in run.log))
  {
    if waits != [] && !exit(p) && !factory(c).Built? {
      var sleep := Sleeping<P, E>(waits[0], p + 1, exit);
      var rest := SpawnRun(waits[1..], FailureOf(factory(c), sleep.completed), c + 1, sleep.polls, factory, exit);
      var head: seq<Event<P, E>> := [Poll(false), Call(factory(c))];
      SleepOnlyPolls<P, E>(waits[0], p + 1, exit);
      SleepIsExact<P, E>(waits[0], p + 1, exit);
      if sleep.completed {
        SpawnHonoursExit(waits[1..], FailureOf(factory(c), true), c + 1, sleep.polls, factory, exit);
        NoExitBefore(head + sleep.log, rest.log);
      } else {
        assert rest.log == [] || rest.log == [Poll(true)] by { assert exit(sleep.polls); }
        CutShort(head, sleep.log, rest.log);
      }
    }
  }

  /** The outside world: what the n-th factory call comes to and what the n-th poll of the exit
      condition answers, with a log of everything done so far. */
  class World<P, E> {
    const factory: nat -> Attempt<P, E>
    const exit: nat -> bool
    var calls: nat
    var polls: nat
    ghost var log: seq<Event<P, E>>

    constructor (factory: nat -> Attempt<P, E>, exit: nat -> bool)
      ensures this.factory == factory && this.exit == exit
      ensures log == [] && calls == 0 && polls == 0
    {
      this.factory, this.exit := factory, exit;
      calls, polls, log := 0, 0, [];
    }

    method ExitCondition() returns (answer: bool)
      modifies this
      ensures answer == exit(old(polls)) && polls == old(polls) + 1 && calls == old(calls)
      ensures log == old(log) + [Poll(answer)]
    {
      answer := exit(polls);
      polls := polls + 1;
      log := log + [Poll(answer)];
    }

    method ThreadSleep(d: Duration)
      modifies this`log
      ensures log == old(log) + [Sleep(d)]
    {
      log := log + [Sleep(d)];
    }

    /** A factory call under `catch_unwind`. */
    method CallFactory() returns (outcome: Attempt<P, E>)
      modifies this
      ensures outcome == factory(old(calls)) && calls == old(calls) + 1 && polls == old(polls)
      ensures log == old(log) + [Call(outcome)]
    {
      outcome := factory(calls);
      calls := calls + 1;
      log := log + [Call(outcome)];
    }

    /** `sleep_with_exit`: false when a poll said to exit. */
    method SleepWithExit(wait: Duration) returns (completed: bool)
      modifies this
      ensures calls == old(calls)
      ensures var run := Sleeping(wait, old(polls), exit);
              log == old(log) + run.log && polls == run.polls && completed == run.completed
    {
      var left: nat := wait;
      ghost var whole := Sleeping<P, E>(wait, polls, exit);
      while left > 0
        invariant calls == old(calls)
        invariant var rest := Sleeping(left, polls, exit);
                  log + rest.log == old(log) + whole.log && rest.polls == whole.polls && rest.completed == whole.completed
      {
        ghost var before := log;
        ThreadSleep(Min(SLICE, left));
        var exiting := ExitCondition();
        assert log == before + [Sleep(Min(SLICE, left)), Poll(exiting)];
        if exiting {
          return false;
        }
        if left < SLICE {
          return true;
        }
        left := left - SLICE;
      }
      completed := true;
    }

    /** `try_make_predictor`: one attempt, and after a failure the wait before the next one. */
    method TryMakePredictor(wait: Duration) returns (result: BuildResult<P, E>)
      modifies this
      ensures calls == old(calls) + 1
      ensures var outcome := factory(old(calls));
              var sleep := if outcome.Built? then SleepRun([], old(polls), true) else Sleeping(wait, old(polls), exit);
              && log == old(log) + [Call(outcome)] + sleep.log
              && polls == sleep.polls
              && result == if outcome.Built? then Success(outcome.predictor) else FailureOf(outcome, sleep.completed)
    {
      var outcome := CallFactory();
      if outcome.Built? {
        return Success(outcome.predictor);
      }
      result := if outcome.Error? then BuildError(outcome.error) else BuildPanic;
      var slept := SleepWithExit(wait);
      if !slept {
        result := Cancelled;
      }
    }

    /** `spawn_predictor`: call the factory until it succeeds, at most once per attempt. */
    method SpawnPredictor(totalAttempts: nat, backoff: Duration, maxWait: Duration)
      returns (result: BuildResult<P, E>, ghost waits: seq<Duration>)
      modifies this
      ensures |waits| == totalAttempts
      ensures forall i | 0 <= i < totalAttempts - 1 :: waits[i] == Backoff(backoff, maxWait, i)
      ensures totalAttempts > 0 ==> waits[totalAttempts - 1] == 0
      ensures var run := SpawnRun(waits, Cancelled, old(calls), old(polls), factory, exit);
              log == old(log) + run.log && result == run.result && calls == run.calls
    {
      var lastFailure := Cancelled;
      var schedule := BackoffSchedule(totalAttempts, backoff, maxWait);
      waits := schedule;
      ghost var whole := Total(log, waits, 0, Cancelled, calls, polls, factory, exit);
      assert waits[0..] == waits;
      for i := 0 to |schedule|
        invariant Total(log, waits, i, lastFailure, calls, polls, factory, exit) == whole
      {
        if exit(polls) || factory(calls).Built? {
          TotalAtEnd(log, waits, i, lastFailure, calls, polls, factory, exit);
        } else {
          TotalAfterFailure(log, waits, i, lastFailure, calls, polls, factory, exit);
        }
        var exiting := ExitCondition();
        if exiting {
          return Cancelled, waits;
        }
        lastFailure := TryMakePredictor(schedule[i]);
        if lastFailure.Success? {
          return lastFailure, waits;
        }
      }
      TotalAtEnd(log, waits, |schedule|, lastFailure, calls, polls, factory, exit);
      result := lastFailure;
    }
  }
}

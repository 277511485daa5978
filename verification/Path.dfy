/** Sequences of steps of one worker, move any of its parts. */
module Path {
  import opened Worker
  import opened WorkerInvariant
  import opened WorkerProgress

  /** Somebody's step: the accumulator's, the inference thread's, or a router's push. */
  datatype Stepper = ByTask(acc: AccAct, closed: bool) | ByThread(run: RunAct, canceled: set<nat>) | ByRouter(r: Request)

  predicate May(c: Config, w: Worker, move: Stepper) {
    match move
    case ByTask(a, closed) => AccEnabled(w, closed, a)
    case ByThread(a, _) => RunEnabled(c, w, a)
    case ByRouter(_) => !w.acc.AccGone?
  }

  function Moved(c: Config, w: Worker, move: Stepper): Worker
    requires May(c, w, move)
  {
    match move
    case ByTask(a, closed) => AccNext(c, w, closed, a)
    case ByThread(a, canceled) => RunNext(c, w, canceled, a)
    case ByRouter(r) => PushRequest(w, r)
  }

  ghost predicate Follows(c: Config, w: Worker, steps: seq<Stepper>, w': Worker)
    decreases |steps|
  {
    if steps == [] then w' == w
    else May(c, w, steps[0]) && Follows(c, Moved(c, w, steps[0]), steps[1..], w')
  }

  /** Some sequence of the worker's own steps leads from one state to the other. */
  ghost predicate StepsTo(c: Config, w: Worker, w': Worker) {
    exists steps :: Follows(c, w, steps, w')
  }

  lemma StepsToSelf(c: Config, w: Worker)
    ensures StepsTo(c, w, w)
  {
    assert Follows(c, w, [], w);
  }

  lemma {:induction false} FollowsOn(c: Config, w: Worker, s: seq<Stepper>, w1: Worker, t: seq<Stepper>, w2: Worker)
    requires Follows(c, w, s, w1) && Follows(c, w1, t, w2)
    ensures Follows(c, w, s + t, w2)
    decreases |s|
  {
    if s == [] {
      assert s + t == t;
    } else {
      FollowsOn(c, Moved(c, w, s[0]), s[1..], w1, t, w2);
      assert (s + t)[1..] == s[1..] + t;
    }
  }

  lemma StepsOn(c: Config, w: Worker, w1: Worker, w2: Worker)
    requires StepsTo(c, w, w1) && StepsTo(c, w1, w2)
    ensures StepsTo(c, w, w2)
  {
    var s :| Follows(c, w, s, w1);
    var t :| Follows(c, w1, t, w2);
    FollowsOn(c, w, s, w1, t, w2);
  }

  lemma StepsByOne(c: Config, w: Worker, move: Stepper)
    requires May(c, w, move)
    ensures StepsTo(c, w, Moved(c, w, move))
  {
    assert Follows(c, Moved(c, w, move), [], Moved(c, w, move));
    assert [move][1..] == [];
    assert Follows(c, w, [move], Moved(c, w, move));
  }

  lemma InvMoved(c: Config, w: Worker, move: Stepper)
    requires ValidConfig(c) && WorkerInv(c, w) && May(c, w, move)
    ensures WorkerInv(c, Moved(c, w, move))
  {
    match move {
      case ByTask(a, closed) => WorkerInvAcc(c, w, closed, a);
      case ByThread(a, canceled) => WorkerInvRun(c, w, canceled, a);
      case ByRouter(r) => WorkerInvPush(c, w, r);
    }
  }

  /** The worker is in a state of some run of its own. */
  ghost predicate Sound(c: Config, w: Worker) {
    StepsTo(c, Started(), w)
  }

  lemma {:induction false} FollowsKeepsInv(c: Config, w: Worker, steps: seq<Stepper>, w': Worker)
    requires ValidConfig(c) && WorkerInv(c, w) && Follows(c, w, steps, w')
    ensures WorkerInv(c, w')
    decreases |steps|
  {
    if steps != [] {
      InvMoved(c, w, steps[0]);
      FollowsKeepsInv(c, Moved(c, w, steps[0]), steps[1..], w');
    }
  }

  /** So it has all that a worker keeps. */
  lemma SoundInv(c: Config, w: Worker)
    requires ValidConfig(c) && Sound(c, w)
    ensures WorkerInv(c, w)
  {
    var steps :| Follows(c, Started(), steps, w);
    WorkerInvStarted(c);
    FollowsKeepsInv(c, Started(), steps, w);
  }

  lemma AccRepliesStay(c: Config, w: Worker, closed: bool, a: AccAct)
    requires AccEnabled(w, closed, a)
    ensures w.resolved <= AccNext(c, w, closed, a).resolved
  {
  }

  lemma AccKeepsSlot(c: Config, w: Worker, closed: bool, a: AccAct)
    requires AccEnabled(w, closed, a) && !w.run.RunGone?
    ensures w.slot <= AccNext(c, w, closed, a).slot
  {
  }

  lemma RunRepliesStay(c: Config, w: Worker, canceled: set<nat>, a: RunAct)
    requires RunEnabled(c, w, a)
    ensures w.resolved <= RunNext(c, w, canceled, a).resolved && RunNext(c, w, canceled, a).chan == w.chan
  {
  }

  /** What nobody's step undoes: replies stay sent; only the accumulator takes from its queue, and
      while the thread runs only the thread takes from the job channel. */
  lemma MovedKeeps(c: Config, w: Worker, move: Stepper)
    requires May(c, w, move)
    ensures w.resolved <= Moved(c, w, move).resolved
    ensures !move.ByTask? ==> w.chan <= Moved(c, w, move).chan
    ensures !move.ByThread? && !w.run.RunGone? ==> w.slot <= Moved(c, w, move).slot
  {
    match move {
      case ByTask(a, closed) =>
        AccRepliesStay(c, w, closed, a);
        if !w.run.RunGone? {
          AccKeepsSlot(c, w, closed, a);
        }
      case ByThread(a, canceled) => RunRepliesStay(c, w, canceled, a);
      case ByRouter(_) =>
    }
  }

  /** The caller has been sent InternalError. */
  predicate GotError(w: Worker, r: Request) {
    Resolution(r, Failed(InternalError)) in w.resolved
  }

  lemma {:induction false} RepliesStay(c: Config, w: Worker, steps: seq<Stepper>, w': Worker)
    requires Follows(c, w, steps, w')
    ensures w.resolved <= w'.resolved
    decreases |steps|
  {
    if steps != [] {
      MovedKeeps(c, w, steps[0]);
      RepliesStay(c, Moved(c, w, steps[0]), steps[1..], w');
    }
  }

  lemma ErrorsStay(c: Config, w: Worker, w': Worker)
    requires StepsTo(c, w, w')
    ensures forall r | GotError(w, r) :: GotError(w', r)
  {
    var steps :| Follows(c, w, steps, w');
    RepliesStay(c, w, steps, w');
  }

  // ---- How far a program has come ----

  function MeasureOf(c: Config, w: Worker): nat {
    if Measure(c, w) < 0 then 0 else Measure(c, w)
  }

  /** The worker's own steps lead from `w0`, with `left` turns of others to come, to `w` with `turns`
      of them: fewer, or no more left to do. */
  ghost predicate Since(c: Config, w0: Worker, left: nat, w: Worker, turns: nat) {
    && StepsTo(c, w0, w) && turns <= left
    && (turns == left ==> MeasureOf(c, w) <= MeasureOf(c, w0))
  }

  /** And something has been done, by others or by the program. */
  ghost predicate Progressed(c: Config, w0: Worker, left: nat, w: Worker, turns: nat) {
    Since(c, w0, left, w, turns) && (turns == left ==> MeasureOf(c, w) < MeasureOf(c, w0))
  }
}

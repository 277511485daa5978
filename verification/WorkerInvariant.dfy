/** Everything one worker keeps, step after step. */
module WorkerInvariant {
  import opened Worker
  import opened WorkerShape
  import opened WorkerHistory
  import opened WorkerWord

  ghost predicate WorkerInv(c: Config, w: Worker) {
    && Shape(c, w)
    && LenShape(c, w)
    && (forall r :: ConservedAt(w, r))
    && Fifo(w) && InOrder(w)
    && BatchesWellCut(c, w) && ResultsMatch(c, w) && DoomedFail(w)
  }

  lemma WorkerInvStarted(c: Config)
    requires ValidConfig(c)
    ensures WorkerInv(c, Started())
  {
  }

  lemma WorkerInvAcc(c: Config, w: Worker, closed: bool, a: AccAct)
    requires ValidConfig(c) && WorkerInv(c, w) && AccEnabled(w, closed, a)
    ensures WorkerInv(c, AccNext(c, w, closed, a))
  {
    var w' := AccNext(c, w, closed, a);
    ShapeAcc(c, w, closed, a);
    LenShapeAcc(c, w, closed, a);
    forall r ensures ConservedAt(w', r) { ConservedAcc(c, w, closed, a, r); }
    FifoAcc(c, w, closed, a);
    InOrderAcc(c, w, closed, a);
    BatchesWellCutAcc(c, w, closed, a);
    ResultsMatchAcc(c, w, closed, a);
    DoomedFailAcc(c, w, closed, a);
  }

  lemma WorkerInvRun(c: Config, w: Worker, canceled: set<nat>, a: RunAct)
    requires ValidConfig(c) && WorkerInv(c, w) && RunEnabled(c, w, a)
    ensures WorkerInv(c, RunNext(c, w, canceled, a))
  {
    var w' := RunNext(c, w, canceled, a);
    ShapeRun(c, w, canceled, a);
    LenShapeRun(c, w, canceled, a);
    forall r ensures ConservedAt(w', r) { ConservedRun(c, w, canceled, a, r); }
    RunFrame(c, w, canceled, a);
    InOrderRun(c, w, canceled, a);
    ResultsMatchRun(c, w, canceled, a);
    DoomedFailRun(c, w, canceled, a);
  }

  lemma WorkerInvPush(c: Config, w: Worker, x: Request)
    requires WorkerInv(c, w) && w.acc != AccGone
    ensures WorkerInv(c, PushRequest(w, x))
  {
    var w' := PushRequest(w, x);
    ShapePush(c, w, x);
    forall r ensures ConservedAt(w', r) { ConservedPush(w, x, r); }
    FifoPush(w, x);
  }

  lemma WorkerInvNext(c: Config, w: Worker, closed: bool, canceled: set<nat>, a: WorkerAct)
    requires ValidConfig(c) && WorkerInv(c, w) && WorkerEnabled(c, w, closed, a)
    ensures WorkerInv(c, WorkerNext(c, w, closed, canceled, a))
  {
    match a {
      case Acc(a) => WorkerInvAcc(c, w, closed, a);
      case Run(a) => WorkerInvRun(c, w, canceled, a);
    }
  }
}

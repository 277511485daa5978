/** The packed status word of a worker refines the pair (status, length) the state machine keeps:
    the accumulator's own operations on the word, at the places where it performs them. */
module WorkerWord {
  import opened StatusWord
  import opened Worker
  import opened WorkerShape

  /** What status and length say at each step of the accumulator: the length is that of the batch
      being built or handed off, and never more than one batch. */
  predicate LenShape(c: Config, w: Worker) {
    && w.len <= c.batchSize
    && match w.acc
       case AwaitFirst => w.status == Waiting && w.len == 0
       case SignalFirst(_) => w.status == Waiting && w.len == 0
       case Fill => w.status == Waiting && w.len == |w.buf|
       case SignalNext(_) => w.status == Waiting && w.len == |w.buf|
       case CheckAlive(_) => w.status == Waiting && w.len == |w.buf|
       case DrainBuffer => w.status == Waiting
       case FailBuffer => w.status == Waiting
       case MarkRunning(_) => w.status == Waiting && w.len == |w.hand|
       case Reserve(_) => w.status == Running && w.len == |w.hand|
       case LoadPermitted(_) => w.status == Running && w.len == |w.hand|
       case Send(_) => w.status == Running && w.len == |w.hand|
       case Exiting => w.status == Exit
       case Crashing => w.status == Crashed
       case AccGone => w.status == Exit || (w.status == Crashed && w.predictor == Dead)
       case _ => w.status == Running
  }

  lemma LenShapeAcc(c: Config, w: Worker, closed: bool, a: AccAct)
    requires ValidConfig(c) && AccShape(c, w) && PredictorShape(w) && LenShape(c, w) && AccEnabled(w, closed, a)
    ensures LenShape(c, AccNext(c, w, closed, a))
  {
  }

  lemma LenShapeRun(c: Config, w: Worker, canceled: set<nat>, a: RunAct)
    requires PredictorShape(w) && LenShape(c, w) && RunEnabled(c, w, a)
    ensures LenShape(c, RunNext(c, w, canceled, a))
  {
    RunFrame(c, w, canceled, a);
  }

  /** The accumulator's writes to the word: set_worker_state, increment_len, reset_batch_len. */
  function WordAcc(w: Worker, a: AccAct, word: u64): u64 {
    match w.acc
    case AwaitFirst => if w.chan == [] then WithStatus(word, Exit) else word
    case Fill => if a == AccRecv && w.chan == [] then WithStatus(word, Exit) else word
    case SignalFirst(_) => Incremented(word)
    case SignalNext(_) => Incremented(word)
    case FailBuffer => if w.hand == [] then 0 else word
    case MarkRunning(_) => WithStatus(word, Running)
    case Reserve(_) => if w.hand != [] && w.run.RunGone? then WithStatus(word, Crashed) else word
    case MarkSent => WithStatus(word, Running)
    case ResetLen => 0
    case _ => word
  }

  predicate Decodes(word: u64, w: Worker) {
    StatusOf(word) == w.status && Len(word) == w.len
  }

  lemma DecodesWithStatus(word: u64, status: WorkerStatus)
    ensures StatusOf(WithStatus(word, status)) == status && Len(WithStatus(word, status)) == Len(word)
  {
    WithStatusDecodes(word, status);
  }

  lemma DecodesIncremented(word: u64)
    requires Len(word) <= U32_MAX
    ensures StatusOf(Incremented(word)) == StatusOf(word) && Len(Incremented(word)) == Len(word) + 1
  {
    Pow2Of62();
    IncrementedDecodes(word);
  }

  /** Whatever the accumulator does to the word, it goes on decoding to the pair. */
  lemma WordRefinesPair(c: Config, w: Worker, closed: bool, a: AccAct, word: u64)
    requires ValidConfig(c) && LenShape(c, w) && AccEnabled(w, closed, a)
    requires Decodes(word, w)
    ensures Decodes(WordAcc(w, a, word), AccNext(c, w, closed, a))
  {
    DecodesWithStatus(word, Exit);
    DecodesWithStatus(word, Running);
    DecodesWithStatus(word, Crashed);
    DecodesIncremented(word);
    ZeroWord();
  }

  /** So the router's tests on the word are tests on the pair: nothing is lost in truncation. */
  lemma RouterSeesPair(c: Config, w: Worker, word: u64)
    requires ValidConfig(c) && LenShape(c, w) && Decodes(word, w)
    ensures AcceptsPrimary(word, w.predictor, c.batchSize) <==>
              w.status == Waiting && w.predictor == Alive && w.len < c.batchSize
    ensures AcceptsSecondary(word, w.predictor) <==> w.status !in {Exit, Crashed} && w.predictor == Alive
  {
    SnapshotLenExact(word);
  }
}

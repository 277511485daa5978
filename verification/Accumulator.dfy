/** The accumulator task of src/worker/mod.rs in the form it is written in: `worker_loop`,
    `accumulate_next_batch`, `check_predictor_alive`, `handle_crashed_inf` and `run_inference` as
    loops over a local buffer. Every access to shared state is one step of the state machine, with
    any steps of the inference thread and the routers in between; so all that is proved of the state
    machine's runs holds of this program's. */
module Accumulator {
  import opened StatusWord
  import opened Worker
  import opened WorkerShape
  import opened WorkerProgress
  import opened Path

  datatype BatchStatus = Ready(batch: seq<Request>, trigger: Trigger) | BatchFlushed | Exited | Suspended

  datatype Handoff = Delivered | HandoffFlushed | ThreadGone | HandoffSuspended

  /** What others do before the next access, and the branch that `select` takes if it is ready then. */
  datatype Turn = Turn(others: seq<Stepper>, closes: bool, branch: AccAct)

  class Task {
    const c: Config
    var w: Worker            // the worker as the state machine sees it
    var closed: bool         // every handle is gone
    var script: seq<Turn>    // what is still to come from others
    var buffer: seq<Request> // the accumulator's own buffer

    ghost predicate Valid()
      reads this
    {
      ValidConfig(c) && Sound(c, w) && !w.acc.AccGone?
    }

    constructor (c: Config, script: seq<Turn>)
      requires ValidConfig(c)
      ensures this.c == c && Valid() && w == Started() && buffer == []
    {
      this.c, this.script := c, script;
      w, closed, buffer := Started(), false, [];
      new;
      StepsToSelf(c, w);
    }

    /** The steps since `w0`, with `left` turns of others to come then. */
    ghost predicate Since(w0: Worker, left: nat)
      reads this
    {
      Path.Since(c, w0, left, w, |script|)
    }

    ghost predicate Progressed(w0: Worker, left: nat)
      reads this
    {
      Path.Progressed(c, w0, left, w, |script|)
    }

    /** The accumulator's own things are as they were, and its queue is no shorter. */
    ghost predicate Untouched(w0: Worker)
      reads this
    {
      w.acc == w0.acc && w.buf == w0.buf && w.hand == w0.hand && w0.chan <= w.chan
    }

    /** One step of others, if it may be taken. */
    method Move(move: Stepper)
      requires Valid()
      modifies this`w
      ensures Valid() && StepsTo(c, old(w), w) && Untouched(old(w))
    {
      StepsToSelf(c, w);
      if !move.ByTask? && May(c, w, move) && !(move.ByRouter? && closed) {
        StepsByOne(c, w, move);
        StepsOn(c, Started(), w, Moved(c, w, move));
        MovedKeeps(c, w, move);
        if move.ByThread? {
          RunFrame(c, w, move.canceled, move.run);
        }
        w := Moved(c, w, move);
      }
    }

    /** A turn of others; `branch` is what it says about `select`. */
    method Wait() returns (branch: AccAct)
      requires Valid()
      modifies this`w, this`closed, this`script
      ensures Valid() && StepsTo(c, old(w), w) && Untouched(old(w))
      ensures script == if old(script) == [] then [] else old(script)[1..]
      ensures old(script) == [] ==> w == old(w)
    {
      StepsToSelf(c, w);
      if script == [] {
        return AccTimer;
      }
      var turn := script[0];
      for k := 0 to |turn.others|
        invariant Valid() && StepsTo(c, old(w), w) && Untouched(old(w))
        invariant script == old(script)
      {
        ghost var w1 := w;
        Move(turn.others[k]);
        StepsOn(c, old(w), w1, w);
      }
      script, closed := script[1..], closed || turn.closes;
      branch := turn.branch;
    }

    /** The accumulator's own step, in the state the others have left. */
    method Take(a: AccAct)
      requires Valid() && AccEnabled(w, closed, a) && !w.acc.Exiting? && !w.acc.Crashing?
      modifies this`w
      ensures Valid() && Progressed(old(w), |script|) && w == AccNext(c, old(w), closed, a)
    {
      StepIsSound(c, w, closed, a);
      w := AccNext(c, w, closed, a);
    }

    /** One access: others take their turns until it is ready. It is never ready, and `ok` false, only
        if it is not when nothing more is to come from others. `before` is the state it finds. */
    method Access(a: AccAct) returns (ok: bool, before: Worker)
      requires Valid() && !w.acc.Exiting? && !w.acc.Crashing?
      modifies this`w, this`closed, this`script
      ensures Valid() && Since(old(w), |old(script)|) && (ok ==> Progressed(old(w), |old(script)|))
      ensures before.acc == old(w.acc) && before.buf == old(w.buf) && before.hand == old(w.hand)
      ensures old(w.chan) <= before.chan && Sound(c, before) && StepsTo(c, old(w), before)
      ensures ok ==> StepsTo(c, before, w)
      ensures ok <==> AccEnabled(before, closed, a)
      ensures !ok ==> script == []
      ensures w == if ok then AccNext(c, before, closed, a) else before
    {
      ghost var (w0, left) := (w, |script|);
      var _ := Wait();
      while !AccEnabled(w, closed, a) && script != []
        invariant Valid() && Since(w0, left) && Untouched(w0)
        decreases |script|
      {
        ghost var w1 := w;
        var _ := Wait();
        StepsOn(c, w0, w1, w);
      }
      before := w;
      ok := AccEnabled(w, closed, a);
      if ok {
        Take(a);
        StepsOn(c, w0, before, w);
      }
    }

    /** One `select`: the branch the turn says, if it is ready, and else the timer, which may always
        fire. */
    method Choose() returns (taken: AccAct, before: Worker)
      requires Valid() && w.acc.Fill?
      modifies this`w, this`closed, this`script
      ensures Valid() && Progressed(old(w), |old(script)|)
      ensures before.acc.Fill? && before.buf == old(w.buf) && Sound(c, before)
      ensures AccEnabled(before, closed, taken) && w == AccNext(c, before, closed, taken)
    {
      ghost var w0 := w;
      var branch := Wait();
      before := w;
      taken := if AccEnabled(w, closed, branch) then branch else AccTimer;
      Take(taken);
      StepsOn(c, w0, before, w);
    }

    // ---- The accesses, one by one ----

    /** `try_recv` of `handle_crashed_inf`, into the batch being built or the one in hand. */
    method TryRecv() returns (received: seq<Request>)
      requires Valid() && (w.acc.DrainBuffer? || w.acc.DrainHanded?)
      modifies this`w, this`closed, this`script
      ensures Valid() && Progressed(old(w), |old(script)|) && |received| <= 1
      ensures received != [] ==> w.acc == old(w.acc) && w.buf + w.hand == old(w.buf + w.hand) + received
      ensures received == [] ==> w.acc == (if old(w.acc).DrainBuffer? then FailBuffer else FailHanded) && w.hand == old(w.buf + w.hand)
      ensures old(w.acc).DrainBuffer? && received != [] ==> w.hand == []
      ensures old(w.acc).DrainHanded? || received == [] ==> w.buf == []
      ensures old(w.chan) <= received + w.chan && (received == [] ==> old(w.chan) == [])
    {
      var _, before := Access(AccGo);
      DrainLeads(c, before, closed) by { SoundInv(c, before); }
      received := if before.chan != [] then [before.chan[0]] else [];
    }

    /** An error reply to the first sender of the batch in hand. */
    method ReplyCrashed()
      requires Valid() && (w.acc.FailBuffer? || w.acc.FailHanded?) && w.hand != []
      modifies this`w, this`closed, this`script
      ensures Valid() && Progressed(old(w), |old(script)|)
      ensures w.acc == old(w.acc) && w.hand == old(w.hand)[1..] && w.buf == old(w.buf)
      ensures GotError(w, old(w.hand)[0])
    {
      var _, before := Access(AccGo);
      assert w.resolved[|before.resolved|] == Resolution(before.hand[0], Failed(InternalError));
    }

    /** `reset_batch_len`. */
    method ResetLen()
      requires Valid() && ((w.acc.FailBuffer? && w.hand == []) || w.acc.ResetLen?)
      modifies this`w, this`closed, this`script
      ensures Valid() && Progressed(old(w), |old(script)|) && w.acc.AwaitFirst?
    {
      var _, _ := Access(AccGo);
    }

    /** `recv`: the next request, or none once the channel is closed and empty. */
    method Recv() returns (ok: bool, received: seq<Request>)
      requires Valid() && (w.acc.AwaitFirst? || w.acc.Fill?)
      modifies this`w, this`closed, this`script
      ensures Valid() && Since(old(w), |old(script)|) && (ok ==> Progressed(old(w), |old(script)|))
      ensures w.buf == old(w.buf) && (!ok ==> w.acc == old(w.acc))
      ensures !ok ==> script == [] && !AccEnabled(w, closed, AccRecv)
      ensures ok && received == [] ==> w.acc.Exiting?
      ensures ok && received != [] ==>
                w.acc == if old(w.acc).AwaitFirst? then SignalFirst(received[0]) else SignalNext(received[0])
    {
      var before;
      ok, before := Access(AccRecv);
      received := if ok && before.chan != [] then [before.chan[0]] else [];
    }

    /** `notify_one`, the push and `increment_len`. */
    method SignalAndPush(request: Request)
      requires Valid() && (w.acc == SignalFirst(request) || w.acc == SignalNext(request)) && buffer == w.buf
      modifies this`w, this`closed, this`script, this`buffer
      ensures Valid() && Progressed(old(w), |old(script)|)
      ensures buffer == old(buffer) + [request] == w.buf
      ensures w.acc == if |buffer| == c.batchSize then CheckAlive(Capacity) else Fill
    {
      var _, _ := Access(AccGo);
      buffer := buffer + [request];
    }

    /** The load of the predictor's state that decides about the batch being built; `seen` is the state
        it finds. */
    method LoadAlive(trigger: Trigger) returns (alive: bool, ghost seen: Worker)
      requires Valid() && w.acc == CheckAlive(trigger)
      modifies this`w, this`closed, this`script
      ensures Valid() && Progressed(old(w), |old(script)|)
      ensures Found(c, old(w), seen, w) && seen.acc == CheckAlive(trigger) && seen.buf == old(w.buf) && seen.chan == w.chan
      ensures AccEnabled(seen, closed, AccGo) && w == AccNext(c, seen, closed, AccGo)
      ensures alive <==> seen.predictor == Alive
      ensures if alive then w.acc == MarkRunning(trigger) && w.hand == old(w.buf) && w.buf == []
              else w.acc.DrainBuffer? && w.buf == old(w.buf) && w.hand == []
    {
      var _, before := Access(AccGo);
      assert before.hand == [] by { SoundInv(c, before); }
      alive, seen := before.predictor == Alive, before;
    }

    /** `set_worker_state(Running)`, before and after the hand-off. */
    method SetRunning()
      requires Valid() && (w.acc.MarkRunning? || w.acc.MarkSent?)
      modifies this`w, this`closed, this`script
      ensures Valid() && Progressed(old(w), |old(script)|) && w.hand == old(w.hand)
      ensures w.acc == if old(w.acc).MarkRunning? then Reserve(old(w.acc).trigger) else AccPc.ResetLen
    {
      var _, _ := Access(AccGo);
    }

    /** `reserve`: a permit, once the thread makes room, or none when it is gone. */
    method ReservePermit(trigger: Trigger) returns (ok: bool, gone: bool)
      requires Valid() && w.acc == Reserve(trigger)
      modifies this`w, this`closed, this`script
      ensures Valid() && Since(old(w), |old(script)|) && (ok ==> Progressed(old(w), |old(script)|))
      ensures w.hand == old(w.hand)
      ensures !ok ==> script == [] && !AccEnabled(w, closed, AccGo)
      ensures w.acc == if !ok then Reserve(trigger) else if gone then Crashing else LoadPermitted(trigger)
    {
      var before;
      ok, before := Access(AccGo);
      assert before.hand != [] by { SoundInv(c, before); }
      gone := before.run.RunGone?;
    }

    /** The load with the permit in hand. */
    method LoadWithPermit(trigger: Trigger) returns (alive: bool, ghost seen: Worker)
      requires Valid() && w.acc == LoadPermitted(trigger)
      modifies this`w, this`closed, this`script
      ensures Valid() && Progressed(old(w), |old(script)|) && w.hand == old(w.hand)
      ensures Found(c, old(w), seen, w) && seen.acc == LoadPermitted(trigger) && seen.hand == old(w.hand) && seen.chan == w.chan
      ensures AccEnabled(seen, closed, AccGo) && w == AccNext(c, seen, closed, AccGo)
      ensures alive <==> seen.predictor == Alive
      ensures w.acc == if alive then Send(trigger) else DrainHanded
    {
      var _, before := Access(AccGo);
      alive, seen := before.predictor == Alive, before;
    }

    /** `permit.send`. */
    method SendBatch()
      requires Valid() && w.acc.Send?
      modifies this`w, this`closed, this`script
      ensures Valid() && Progressed(old(w), |old(script)|) && w.acc == MarkSent
    {
      var _, _ := Access(AccGo);
    }

    /** The end of a refused batch, which touches nothing shared. */
    method EndRefused()
      requires Valid() && w.acc.FailHanded? && w.hand == []
      modifies this`w, this`closed, this`script
      ensures Valid() && Progressed(old(w), |old(script)|) && w.acc == AccPc.ResetLen
    {
      var _, _ := Access(AccGo);
    }

    // ---- The program ----

    /** `handle_crashed_inf`: everything queued joins the batch, and every caller gets an error. */
    method HandleCrashedInf(batch: seq<Request>) returns (failed: seq<Request>)
      requires Valid() && (w.acc.DrainBuffer? || w.acc.DrainHanded?) && batch == w.buf + w.hand
      modifies this`w, this`closed, this`script
      ensures Valid() && Progressed(old(w), |old(script)|)
      ensures w.acc == (if old(w.acc).DrainBuffer? then FailBuffer else FailHanded) && w.hand == []
      ensures batch + old(w.chan) <= failed && forall r | r in batch :: r in failed
      ensures forall r | r in failed :: GotError(w, r)
    {
      ghost var (w0, left) := (w, |script|);
      failed := DrainAll(batch);
      assert forall k | 0 <= k < |batch| :: failed[k] == (batch + w0.chan)[k] == batch[k];
      var senders := failed;
      while senders != []
        invariant Valid() && Progressed(w0, left) && senders == w.hand
        invariant w.acc == if w0.acc.DrainBuffer? then FailBuffer else FailHanded
        invariant forall r | r in failed :: r in senders || GotError(w, r)
        decreases |senders|
      {
        ghost var w1 := w;
        ReplyCrashed();
        senders := senders[1..];
        StepsOn(c, w0, w1, w);
        ErrorsStay(c, w1, w);
      }
    }

    /** Its drain: the batch, then all that was queued, then what came meanwhile. */
    method DrainAll(batch: seq<Request>) returns (all: seq<Request>)
      requires Valid() && (w.acc.DrainBuffer? || w.acc.DrainHanded?) && batch == w.buf + w.hand
      modifies this`w, this`closed, this`script
      ensures Valid() && Progressed(old(w), |old(script)|)
      ensures w.acc == (if old(w.acc).DrainBuffer? then FailBuffer else FailHanded) && w.hand == all
      ensures batch + old(w.chan) <= all
    {
      ghost var (w0, left) := (w, |script|);
      all := batch;
      var received := TryRecv();
      TakenInOrder(batch + w0.chan, batch, w0.chan, received, w.chan);
      while received != []
        invariant Valid() && Progressed(w0, left) && |received| <= 1
        invariant if received != [] then w.acc == w0.acc && all + received == w.buf + w.hand
                  else w.acc == (if w0.acc.DrainBuffer? then FailBuffer else FailHanded) && all == w.hand
        invariant batch + w0.chan <= if received == [] then all else all + received + w.chan
        decreases |script|, MeasureOf(c, w), |received|
      {
        all := all + received;
        ghost var w1 := w;
        received := TryRecv();
        StepsOn(c, w0, w1, w);
        TakenInOrder(batch + w0.chan, all, w1.chan, received, w.chan);
      }
    }

    /** `check_predictor_alive`. */
    method CheckPredictorAlive(trigger: Trigger) returns (alive: bool, ghost seen: Worker)
      requires Valid() && w.acc == CheckAlive(trigger) && buffer == w.buf
      modifies this`w, this`closed, this`script, this`buffer
      ensures Valid() && Progressed(old(w), |old(script)|)
      ensures Found(c, old(w), seen, w) && seen.acc == CheckAlive(trigger) && seen.buf == old(buffer)
      ensures alive <==> seen.predictor == Alive
      ensures if alive then w.acc == MarkRunning(trigger) && w.hand == buffer == old(buffer)
              else w.acc.AwaitFirst? && buffer == [] && forall r | r in old(buffer) || r in seen.chan :: GotError(w, r)
    {
      ghost var w0 := w;
      alive, seen := LoadAlive(trigger);
      if !alive {
        ghost var w1 := w;
        var failed := HandleCrashedInf(buffer);
        assert forall r | r in seen.chan :: r in failed by { QueueInPrefix(old(buffer), seen.chan, failed); }
        buffer := [];
        StepsOn(c, w0, w1, w);
        StepsOn(c, seen, w1, w);
        ghost var w2 := w;
        ResetLen();
        StepsOn(c, w0, w2, w);
        StepsOn(c, seen, w2, w);
        ErrorsStay(c, w2, w);
      }
    }

    /** One turn of the `select` loop: `ended` when the channel is closed. */
    method Select() returns (ended: bool, trigger: Trigger)
      requires Valid() && w.acc.Fill? && buffer == w.buf
      modifies this`w, this`closed, this`script, this`buffer
      ensures Valid() && Progressed(old(w), |old(script)|)
      ensures if ended then w.acc.Exiting?
              else buffer == w.buf && (w.acc == CheckAlive(trigger) || (w.acc.Fill? && trigger == Capacity))
    {
      ghost var w0 := w;
      var taken, before := Choose();
      trigger := if taken.AccTimer? then Timeout else Capacity;
      ended := taken.AccRecv? && before.chan == [];
      if taken.AccRecv? && before.chan != [] {
        ghost var w1 := w;
        SignalAndPush(before.chan[0]);
        StepsOn(c, w0, w1, w);
      }
    }

    /** The `select` loop, until the batch is full, the timer fires, the job channel closes, or the
        request channel does. */
    method FillBatch() returns (ended: bool, trigger: Trigger)
      requires Valid() && buffer == w.buf && (w.acc.Fill? || w.acc == CheckAlive(Capacity))
      modifies this`w, this`closed, this`script, this`buffer
      ensures Valid() && Since(old(w), |old(script)|)
      ensures if ended then w.acc.Exiting? else buffer == w.buf && w.acc == CheckAlive(trigger)
    {
      ghost var (w0, left) := (w, |script|);
      StepsToSelf(c, w);
      trigger := Capacity;
      ended := false;
      while w.acc.Fill?
        invariant Valid() && Since(w0, left) && buffer == w.buf
        invariant w.acc.Fill? || w.acc == CheckAlive(trigger)
        invariant w.acc.Fill? ==> trigger == Capacity
        decreases |script|, MeasureOf(c, w)
      {
        ghost var w1 := w;
        ended, trigger := Select();
        StepsOn(c, w0, w1, w);
        if ended {
          return;
        }
      }
    }

    /** `accumulate_next_batch`: a batch that is never empty, never over the limit and cut for
        capacity exactly when it is full, if the predictor was found alive once it was complete; and
        otherwise the batch, and all that was queued by then, failed. */
    method AccumulateNextBatch() returns (status: BatchStatus, ghost seen: Worker)
      requires Valid() && w.acc.AwaitFirst? && buffer == []
      modifies this`w, this`closed, this`script, this`buffer
      ensures Valid() && Since(old(w), |old(script)|) && (!status.Suspended? ==> Progressed(old(w), |old(script)|))
      ensures status.Ready? ==>
                && w.acc == MarkRunning(status.trigger) && w.hand == status.batch && buffer == []
                && 1 <= |status.batch| <= c.batchSize && (status.trigger == Capacity <==> |status.batch| == c.batchSize)
      ensures status.Ready? || status.BatchFlushed? ==>
                Found(c, old(w), seen, w) && seen.acc.CheckAlive? && (status.Ready? <==> seen.predictor == Alive)
      ensures status.Ready? ==> seen.acc.trigger == status.trigger && seen.buf == status.batch
      ensures status.BatchFlushed? ==>
                w.acc.AwaitFirst? && buffer == [] && forall r | r in seen.buf || r in seen.chan :: GotError(w, r)
      ensures status.Exited? ==> w.acc.Exiting?
      ensures status.Suspended? ==> w.acc.AwaitFirst? && script == [] && !AccEnabled(w, closed, AccRecv)
    {
      ghost var (w0, left) := (w, |script|);
      assert w.buf == [] by { SoundInv(c, w); }
      var ok, received := Recv();
      if !ok {
        return Suspended, w;
      }
      if received == [] {
        return Exited, w;
      }
      ghost var w1 := w;
      SignalAndPush(received[0]);
      StepsOn(c, w0, w1, w);
      ghost var w2 := w;
      var ended, trigger := FillBatch();
      StepsOn(c, w0, w2, w);
      if ended {
        return Exited, w;
      }
      ghost var w3 := w;
      var alive;
      alive, seen := CheckPredictorAlive(trigger);
      StepsOn(c, w0, w3, w);
      StepsOn(c, w0, w3, seen);
      if !alive {
        return BatchFlushed, seen;
      }
      CutWell(trigger);
      status := Ready(buffer, trigger);
      buffer := [];
    }

    lemma CutWell(trigger: Trigger)
      requires Valid() && w.acc == MarkRunning(trigger)
      ensures WellCut(c, w.hand, trigger)
    {
      SoundInv(c, w);
    }

    /** What it does with a batch when the predictor is no longer alive. */
    method RefuseBatch(batch: seq<Request>)
      requires Valid() && w.acc.DrainHanded? && w.hand == batch
      modifies this`w, this`closed, this`script
      ensures Valid() && Progressed(old(w), |old(script)|) && w.acc == AccPc.ResetLen
      ensures forall r | r in batch || r in old(w.chan) :: GotError(w, r)
    {
      ghost var w0 := w;
      NothingBuilding();
      var failed := HandleCrashedInf(batch);
      assert forall r | r in w0.chan :: r in failed by { QueueInPrefix(batch, w0.chan, failed); }
      ghost var w1 := w;
      EndRefused();
      StepsOn(c, w0, w1, w);
      ErrorsStay(c, w1, w);
    }

    /** What it does once it has a permit. */
    method UsePermit(batch: seq<Request>, trigger: Trigger) returns (sent: bool, ghost seen: Worker)
      requires Valid() && w.acc == LoadPermitted(trigger) && w.hand == batch
      modifies this`w, this`closed, this`script
      ensures Valid() && Progressed(old(w), |old(script)|)
      ensures Found(c, old(w), seen, w) && seen.acc == LoadPermitted(trigger) && seen.hand == batch
      ensures sent <==> seen.predictor == Alive
      ensures if sent then w.acc == MarkSent
              else w.acc == AccPc.ResetLen && forall r | r in batch || r in seen.chan :: GotError(w, r)
    {
      ghost var w0 := w;
      sent, seen := LoadWithPermit(trigger);
      ghost var w1 := w;
      if sent {
        SendBatch();
      } else {
        RefuseBatch(batch);
      }
      StepsOn(c, w0, w1, w);
      StepsOn(c, seen, w1, w);
    }

    /** `run_inference`. A batch is never empty here. With a permit it is sent exactly if the predictor
        is found alive; otherwise it fails, with all that was queued by then. */
    method RunInference(batch: seq<Request>, trigger: Trigger) returns (handoff: Handoff, ghost seen: Worker)
      requires Valid() && w.acc == Reserve(trigger) && w.hand == batch
      modifies this`w, this`closed, this`script
      ensures Valid() && Since(old(w), |old(script)|) && (!handoff.HandoffSuspended? ==> Progressed(old(w), |old(script)|))
      ensures w.acc == match handoff
                       case Delivered => MarkSent
                       case HandoffFlushed => AccPc.ResetLen
                       case ThreadGone => Crashing
                       case HandoffSuspended => Reserve(trigger)
      ensures handoff.Delivered? || handoff.HandoffFlushed? ==>
                Found(c, old(w), seen, w) && seen.acc == LoadPermitted(trigger) && seen.hand == batch
                && (handoff.Delivered? <==> seen.predictor == Alive)
      ensures handoff.HandoffFlushed? ==> forall r | r in batch || r in seen.chan :: GotError(w, r)
      ensures handoff.HandoffSuspended? ==> script == [] && !AccEnabled(w, closed, AccGo)
    {
      ghost var w0 := w;
      var ok, gone := ReservePermit(trigger);
      if !ok {
        return HandoffSuspended, w;
      }
      if gone {
        return ThreadGone, w;
      }
      ghost var w1 := w;
      var sent;
      sent, seen := UsePermit(batch, trigger);
      StepsOn(c, w0, w1, w);
      StepsOn(c, w0, w1, seen);
      handoff := if sent then Delivered else HandoffFlushed;
    }

    lemma NothingBuilding()
      requires Valid() && w.acc.DrainHanded?
      ensures w.buf == []
    {
      SoundInv(c, w);
    }

    /** What `worker_loop` does with a batch that is ready. */
    method HandOff(batch: seq<Request>, trigger: Trigger) returns (handoff: Handoff)
      requires Valid() && w.acc == MarkRunning(trigger) && w.hand == batch
      modifies this`w, this`closed, this`script
      ensures Valid() && Progressed(old(w), |old(script)|)
      ensures match handoff
              case ThreadGone => w.acc.Crashing?
              case HandoffSuspended => w.acc.Reserve? && script == [] && !AccEnabled(w, closed, AccGo)
              case _ => w.acc.AwaitFirst?
    {
      ghost var w0 := w;
      SetRunning();
      ghost var w1 := w;
      ghost var seen;
      handoff, seen := RunInference(batch, trigger);
      StepsOn(c, w0, w1, w);
      if handoff.ThreadGone? || handoff.HandoffSuspended? {
        return;
      }
      if handoff.Delivered? {
        ghost var w2 := w;
        SetRunning();
        StepsOn(c, w0, w2, w);
      }
      ghost var w3 := w;
      ResetLen();
      StepsOn(c, w0, w3, w);
    }

    /** `worker_loop`: it ends because the request channel closed, or the inference thread is gone.
        Otherwise nothing more is to come from others and it still waits, for a request or for room in
        the job channel. */
    method WorkerLoop() returns (returned: bool)
      requires Valid() && w.acc.AwaitFirst? && buffer == []
      modifies this`w, this`closed, this`script, this`buffer
      ensures Valid() && StepsTo(c, old(w), w)
      ensures if returned then w.acc.Exiting? || w.acc.Crashing?
              else script == [] && (w.acc.AwaitFirst? || w.acc.Reserve?)
                   && !AccEnabled(w, closed, if w.acc.AwaitFirst? then AccRecv else AccGo)
    {
      ghost var w0 := w;
      StepsToSelf(c, w);
      while true
        invariant Valid() && StepsTo(c, w0, w) && w.acc.AwaitFirst? && buffer == []
        decreases |script|, MeasureOf(c, w)
      {
        ghost var w1 := w;
        var status, _ := AccumulateNextBatch();
        StepsOn(c, w0, w1, w);
        match status {
          case Ready(batch, trigger) =>
            ghost var w2 := w;
            var handoff := HandOff(batch, trigger);
            StepsOn(c, w0, w2, w);
            if handoff.ThreadGone? {
              return true;
            }
            if handoff.HandoffSuspended? {
              return false;
            }
          case BatchFlushed =>
          case Exited => return true;
          case Suspended => return false;
        }
      }
    }
  }

  /** `seen` is a state on the way from `w0` to `w`. */
  ghost predicate Found(c: Config, w0: Worker, seen: Worker, w: Worker) {
    StepsTo(c, w0, seen) && StepsTo(c, seen, w)
  }

  lemma QueueInPrefix(batch: seq<Request>, queue: seq<Request>, all: seq<Request>)
    requires batch + queue <= all
    ensures forall r | r in queue :: r in all
  {
    forall r | r in queue
      ensures r in all
    {
      var k :| 0 <= k < |queue| && queue[k] == r;
      assert (batch + queue)[|batch| + k] == r;
    }
  }

  // A queue goes on being taken from its front.
  lemma TakenInOrder(x: seq<Request>, all: seq<Request>, before: seq<Request>, received: seq<Request>, after: seq<Request>)
    requires x <= all + before && before <= received + after && (received == [] ==> before == [])
    ensures x <= if received == [] then all else all + received + after
  {
    if received == [] {
      assert all + before == all;
    } else {
      assert all + (received + after) == all + received + after;
    }
  }

  // One try_recv of a drain.
  lemma DrainLeads(c: Config, w: Worker, closed: bool)
    requires AccShape(c, w) && (w.acc.DrainBuffer? || w.acc.DrainHanded?)
    ensures var w' := AccNext(c, w, closed, AccGo);
            if w.chan != [] then
              && w'.chan == w.chan[1..] && w'.acc == w.acc && w'.buf + w'.hand == w.buf + w.hand + [w.chan[0]]
              && (if w.acc.DrainBuffer? then w'.hand == [] else w'.buf == [])
            else
              w'.acc == (if w.acc.DrainBuffer? then FailBuffer else FailHanded) && w'.hand == w.buf + w.hand && w'.buf == []
  {
  }

  lemma StepIsSound(c: Config, w: Worker, closed: bool, a: AccAct)
    requires ValidConfig(c) && Sound(c, w) && AccEnabled(w, closed, a)
    ensures Sound(c, AccNext(c, w, closed, a)) && StepsTo(c, w, AccNext(c, w, closed, a))
    ensures !w.acc.Exiting? && !w.acc.Crashing? ==> !AccNext(c, w, closed, a).acc.AccGone?
    ensures MeasureOf(c, AccNext(c, w, closed, a)) < MeasureOf(c, w)
  {
    SoundInv(c, w);
    StepLowersMeasure(c, w, closed, {}, Acc(a));
    StepsByOne(c, w, ByTask(a, closed));
    StepsOn(c, Started(), w, AccNext(c, w, closed, a));
  }
}

/** Models src/worker/dispatch.rs: one reply per sender, matched by position. */
module Dispatch {

  /** `InferenceError` carries the predictor's error, shared by every caller of the batch. */
  datatype BatchError<E> = InferenceError(error: E) | InvalidPredictorOutput | InternalError

  datatype Result<O, E> = Ok(value: O) | Err(error: BatchError<E>)

  datatype Inference<O, E> = Outputs(outputs: seq<O>) | Failure(error: E)

  /** The sending half of a oneshot channel, with what its receiver can see. A send consumes the
      sender; a sender that goes away unsent reads as a closed channel. */
  class Oneshot<T> {
    var sent: bool
    var delivered: seq<T>
    var receiverDropped: bool

    constructor ()
      ensures !sent && delivered == [] && !receiverDropped
    {
      sent, delivered, receiverDropped := false, [], false;
    }

    method DropReceiver()
      modifies this`receiverDropped
      ensures receiverDropped
    {
      receiverDropped := true;
    }

    /** A value for a receiver that is gone is handed back and dropped by every call site. */
    method Send(value: T)
      requires !sent && delivered == []
      modifies this`sent, this`delivered
      ensures sent && delivered == if receiverDropped then [] else [value]
    {
      sent := true;
      if !receiverDropped {
        delivered := [value];
      }
    }
  }

  ghost predicate Unsent<T(!new)>(senders: seq<Oneshot<T>>, from: nat)
    reads senders
  {
    forall i | from <= i < |senders| :: !senders[i].sent && senders[i].delivered == []
  }

  ghost predicate Distinct<T>(senders: seq<Oneshot<T>>) {
    forall i, j | 0 <= i < j < |senders| :: senders[i] != senders[j]
  }

  /** Each of the first `n` senders has been used, and its receiver, if still there, holds the
      reply of its position. */
  ghost predicate Answered<T(!new)>(senders: seq<Oneshot<T>>, replies: seq<T>, n: nat)
    requires n <= |senders| && n <= |replies|
    reads senders
  {
    forall i | 0 <= i < n ::
      senders[i].sent && senders[i].delivered == if senders[i].receiverDropped then [] else [replies[i]]
  }

  /** The replies a batch of `n` callers is owed. */
  function Replies<O, E>(inference: Inference<O, E>, n: nat): (replies: seq<Result<O, E>>)
    ensures |replies| == n
  {
    match inference
    case Failure(e) => seq(n, _ => Err(InferenceError(e)))
    case Outputs(outputs) =>
      if |outputs| != n then seq(n, _ => Err(InvalidPredictorOutput))
      else seq(n, i requires 0 <= i < n => Ok(outputs[i]))
  }

  /** A predictor answers `f`: whatever outputs it returns, the i-th is `f` of the i-th input. */
  ghost predicate Answers<I, O, E>(inference: Inference<O, E>, inputs: seq<I>, f: I -> O) {
    inference.Outputs? ==>
      forall i | 0 <= i < |inputs| && i < |inference.outputs| :: inference.outputs[i] == f(inputs[i])
  }

  /** Each caller gets `f` of its own input, or the batch as a whole gets one and the same error: the
      predictor's own, or InvalidPredictorOutput. Success is all or nothing, and it is given exactly when
      the output count is right. */
  lemma RepliesMatchInputs<I, O, E>(inference: Inference<O, E>, inputs: seq<I>, f: I -> O)
    requires Answers(inference, inputs, f)
    ensures var replies := Replies(inference, |inputs|);
            if inference.Outputs? && |inference.outputs| == |inputs|
            then forall i | 0 <= i < |inputs| :: replies[i] == Ok(f(inputs[i]))
            else forall i | 0 <= i < |inputs| ::
                   replies[i] == Err(if inference.Failure? then InferenceError(inference.error) else InvalidPredictorOutput)
  {
    var replies := Replies(inference, |inputs|);
    forall i | 0 <= i < |inputs|
      ensures if inference.Outputs? && |inference.outputs| == |inputs|
              then replies[i] == Ok(f(inputs[i]))
              else replies[i] == Err(if inference.Failure? then InferenceError(inference.error) else InvalidPredictorOutput)
    {
    }
  }

  /** `send_errors`: the same error to every caller in the batch. */
  method SendErrors<O(!new), E(!new)>(error: BatchError<E>, senders: seq<Oneshot<Result<O, E>>>)
    requires Unsent(senders, 0) && Distinct(senders)
    modifies set i | 0 <= i < |senders| :: senders[i]`sent
    modifies set i | 0 <= i < |senders| :: senders[i]`delivered
    ensures Answered(senders, seq(|senders|, _ => Err(error)), |senders|)
  {
    for k := 0 to |senders|
      invariant Unsent(senders, k)
      invariant Answered(senders, seq(|senders|, _ => Err(error)), k)
    {
      senders[k].Send(Err(error));
    }
  }

  /** `send_errors_on_crash`. */
  method SendErrorsOnCrash<O(!new), E(!new)>(senders: seq<Oneshot<Result<O, E>>>)
    requires Unsent(senders, 0) && Distinct(senders)
    modifies set i | 0 <= i < |senders| :: senders[i]`sent
    modifies set i | 0 <= i < |senders| :: senders[i]`delivered
    ensures Answered(senders, seq(|senders|, _ => Err(InternalError)), |senders|)
  {
    SendErrors(InternalError, senders);
  }

  /** `send_output`: results zipped with senders, or one error for all of them. */
  method SendOutput<O(!new), E(!new)>(output: Inference<O, E>, senders: seq<Oneshot<Result<O, E>>>)
    requires Unsent(senders, 0) && Distinct(senders)
    modifies set i | 0 <= i < |senders| :: senders[i]`sent
    modifies set i | 0 <= i < |senders| :: senders[i]`delivered
    ensures Answered(senders, Replies(output, |senders|), |senders|)
  {
    if output.Failure? {
      SendErrors(InferenceError(output.error), senders);
      return;
    }
    if |output.outputs| != |senders| {
      SendErrors(InvalidPredictorOutput, senders);
      return;
    }
    for k := 0 to |senders|
      invariant Unsent(senders, k)
      invariant Answered(senders, Replies(output, |senders|), k)
    {
      senders[k].Send(Ok(output.outputs[k]));
    }
  }
}

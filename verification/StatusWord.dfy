/** Models src/state/mod.rs: the packed status word a worker shares with the router.

    The 2 most significant bits of a 64-bit word store the accumulator's status, the other 62 the
    number of requests in the batch being built. The functions below use the source's own masks
    and shifts; the lemmas say what they do to the pair (status, length) the word stands for. */
module StatusWord {
  import opened Bits

  datatype WorkerStatus = Waiting | Exit | Running | Crashed

  datatype PredictorStatus = Alive | Rebuilding | Dead

  datatype Snapshot = Snapshot(workerStatus: WorkerStatus, predictorStatus: PredictorStatus, batchLen: nat)

  const U64_RANGE: nat := 0x1_0000_0000_0000_0000
  const U32_MAX: nat := 0xFFFF_FFFF

  type u64 = x: nat | x < U64_RANGE

  const WAITING: nat := 0
  const EXIT: nat := 1
  const RUNNING_INFERENCE: nat := 2
  const CRASHED: nat := 3

  // The complement, in 64 bits, of the two status bits.
  const BATCH_LEN_MASK: u64 := (ShlStatus(3); U64_RANGE - 1 - Shl(3, 62))

  lemma Pow2Plus4(k: nat)
    ensures Pow2(k + 4) == 16 * Pow2(k)
  {
    assert Pow2(k + 4) == 2 * Pow2(k + 3) && Pow2(k + 2) == 2 * Pow2(k + 1);
  }

  lemma Pow2Plus16(k: nat)
    ensures Pow2(k + 16) == 0x1_0000 * Pow2(k)
  {
    Pow2Plus4(k);
    Pow2Plus4(k + 4);
    Pow2Plus4(k + 8);
    Pow2Plus4(k + 12);
  }

  lemma Pow2Of32()
    ensures Pow2(32) == U32_MAX + 1
  {
    assert Pow2(16) == 0x1_0000 by { Pow2Plus16(0); }
    Pow2Plus16(16);
  }

  lemma Pow2Of60()
    ensures Pow2(60) == 0x1000_0000_0000_0000
  {
    assert Pow2(48) == 0x1_0000_0000_0000 by { Pow2Of32(); Pow2Plus16(32); }
    Pow2Plus4(48);
    Pow2Plus4(52);
    Pow2Plus4(56);
  }

  lemma Pow2Of62()
    ensures Pow2(62) == 0x4000_0000_0000_0000
  {
    Pow2Of60();
    assert Pow2(62) == 2 * Pow2(61);
  }

  lemma {:induction false} ShlSmall(x: nat, k: nat)
    requires x <= 4
    ensures x == 0 ==> Shl(x, k) == 0
    ensures x == 1 ==> Shl(x, k) == Pow2(k)
    ensures x == 2 ==> Shl(x, k) == 2 * Pow2(k)
    ensures x == 3 ==> Shl(x, k) == 3 * Pow2(k)
    ensures x == 4 ==> Shl(x, k) == 4 * Pow2(k)
  {
    if k != 0 {
      ShlSmall(x, k - 1);
    }
  }

  lemma {:induction false} ShlMonotone(x: nat, y: nat, k: nat)
    requires x <= y
    ensures Shl(x, k) <= Shl(y, k)
  {
    if k != 0 {
      ShlMonotone(x, y, k - 1);
    }
  }

  // What a status code is worth once shifted to the top of the word.
  lemma ShlStatus(x: nat)
    requires x <= 4
    ensures Pow2(62) == 0x4000_0000_0000_0000
    ensures Shl(x, 62) == x * 0x4000_0000_0000_0000
  {
    Pow2Of62();
    ShlSmall(x, 62);
  }

  function FromU8(state: nat): WorkerStatus
    requires state <= CRASHED
  {
    if state == WAITING then Waiting
    else if state == EXIT then Exit
    else if state == RUNNING_INFERENCE then Running
    else Crashed
  }

  function ToU8(status: WorkerStatus): (state: nat)
    ensures state <= CRASHED && FromU8(state) == status
  {
    match status
    case Waiting => WAITING
    case Exit => EXIT
    case Running => RUNNING_INFERENCE
    case Crashed => CRASHED
  }

  // ---- Reading and writing the word ----

  lemma StatusBitsInRange(word: u64)
    ensures Shr(word, 62) <= CRASHED
  {
    Split(word, 62);
    if Shr(word, 62) > CRASHED {
      ShlMonotone(4, Shr(word, 62), 62);
      ShlStatus(4);
    }
  }

  function StatusOf(word: u64): WorkerStatus {
    StatusBitsInRange(word);
    FromU8(Shr(word, 62))
  }

  /** The length the 62 low bits stand for. */
  function Len(word: u64): nat {
    Low(word, 62)
  }

  function WithStatusBits(word: u64, status: WorkerStatus): nat {
    Or(And(word, BATCH_LEN_MASK), Shl(ToU8(status), 62))
  }

  function WithStatus(word: u64, status: WorkerStatus): u64 {
    WithStatusDecodes(word, status);
    WithStatusBits(word, status)
  }

  /** `fetch_add(1)`, which wraps around. */
  function Incremented(word: u64): u64 {
    (word + 1) % U64_RANGE
  }

  /** `(word & BATCH_LEN_MASK) as u32`, which keeps the low 32 bits. */
  function SnapshotLen(word: u64): nat {
    Low(And(word, BATCH_LEN_MASK), 32)
  }

  lemma MaskKeepsLen(word: u64)
    ensures And(word, BATCH_LEN_MASK) == Len(word)
  {
    ShlStatus(3);
    AndOnes(word, 62);
  }

  // A word made of a status code and a length.
  predicate Packs(word: nat, code: nat, len: nat) {
    code <= CRASHED && len < Pow2(62) && word == Shl(code, 62) + len
  }

  // A word built from a status code and a length is within range and decodes to them.
  lemma PackedDecodes(word: nat, code: nat, len: nat)
    requires Packs(word, code, len)
    ensures word < U64_RANGE
    ensures StatusOf(word) == FromU8(code)
    ensures Len(word) == len
  {
    ShlStatus(code);
    SplitUnique(code, len, 62);
  }

  /** Setting the status changes the status and nothing else. */
  lemma WithStatusDecodes(word: u64, status: WorkerStatus)
    ensures WithStatusBits(word, status) < U64_RANGE
    ensures StatusOf(WithStatusBits(word, status)) == status
    ensures Len(WithStatusBits(word, status)) == Len(word)
  {
    var code := ToU8(status);
    MaskKeepsLen(word);
    OrDisjoint(Len(word), code, 62);
    PackedDecodes(WithStatusBits(word, status), code, Len(word));
  }

  // A word is its status code shifted to the top, plus its length.
  lemma Unpacked(word: u64)
    ensures Packs(word, ToU8(StatusOf(word)), Len(word))
  {
    StatusBitsInRange(word);
    Split(word, 62);
  }

  /** An increment adds one to the length and leaves the status alone, up to the last length the
      62 bits can hold. */
  lemma IncrementedDecodes(word: u64)
    requires Len(word) + 1 < Pow2(62)
    ensures StatusOf(Incremented(word)) == StatusOf(word)
    ensures Len(Incremented(word)) == Len(word) + 1
  {
    var code := ToU8(StatusOf(word));
    Unpacked(word);
    NextPacks(word, code, Len(word));
    PackedDecodes(Incremented(word), code, Len(word) + 1);
  }

  lemma NextPacks(word: u64, code: nat, len: nat)
    requires Packs(word, code, len) && len + 1 < Pow2(62)
    ensures Packs(Incremented(word), code, len + 1)
  {
    ShlStatus(code);
  }

  lemma CarryPacks(word: u64, code: nat, next: nat)
    requires Packs(word, code, Pow2(62) - 1)
    requires next == if code == CRASHED then 0 else code + 1
    ensures Packs(Incremented(word), next, 0)
  {
    ShlStatus(code);
    ShlStatus(next);
  }

  /** From the last length an increment carries into the status bits. */
  lemma IncrementedCarries(word: u64)
    requires Len(word) + 1 == Pow2(62)
    ensures StatusOf(Incremented(word)) != StatusOf(word)
    ensures Len(Incremented(word)) == 0
  {
    var code := ToU8(StatusOf(word));
    var next := if code == CRASHED then 0 else code + 1;
    Unpacked(word);
    CarryPacks(word, code, next);
    PackedDecodes(Incremented(word), next, 0);
  }

  /** The truncation to `u32` loses nothing up to `u32::MAX`, the largest batch size. */
  lemma SnapshotLenExact(word: u64)
    requires Len(word) <= U32_MAX
    ensures SnapshotLen(word) == Len(word)
  {
    MaskKeepsLen(word);
    Pow2Of32();
    SplitUnique(0, Len(word), 32);
    ShlSmall(0, 32);
  }

  lemma ZeroWord()
    ensures StatusOf(0) == Waiting && Len(0) == 0
  {
    ShlStatus(0);
    SplitUnique(0, 0, 62);
  }

  // ---- The predicates the router reads ----

  predicate AcceptsPrimary(word: u64, predictor: PredictorStatus, batchSize: nat) {
    StatusOf(word) == Waiting && predictor == Alive && SnapshotLen(word) < batchSize
  }

  predicate AcceptsSecondary(word: u64, predictor: PredictorStatus) {
    StatusOf(word) !in {Exit, Crashed} && predictor == Alive
  }

  /** The state one worker's accumulator, inference thread and router share. */
  class WorkerState {
    var workerState: u64
    var predictorState: PredictorStatus
    const batchSize: nat

    constructor (batchSize: nat)
      requires batchSize <= U32_MAX
      ensures this.batchSize == batchSize
      ensures Valid() && workerState == 0 && predictorState == Alive
      ensures StatusOf(workerState) == Waiting && Len(workerState) == 0
    {
      workerState := 0;
      predictorState := Alive;
      this.batchSize := batchSize;
      ZeroWord();
    }

    // The accumulator never counts more than one batch.
    ghost predicate Valid()
      reads this
    {
      Len(workerState) <= batchSize <= U32_MAX
    }

    method SetWorkerState(status: WorkerStatus)
      requires Valid()
      modifies this`workerState
      ensures Valid() && workerState == WithStatus(old(workerState), status)
      ensures StatusOf(workerState) == status && Len(workerState) == old(Len(workerState))
    {
      var stateBits := Shl(ToU8(status), 62);
      var current := workerState;
      WithStatusDecodes(current, status);
      workerState := Or(And(current, BATCH_LEN_MASK), stateBits);
    }

    method IncrementLen()
      requires Valid() && Len(workerState) < batchSize
      modifies this`workerState
      ensures Valid() && workerState == Incremented(old(workerState))
      ensures StatusOf(workerState) == old(StatusOf(workerState)) && Len(workerState) == old(Len(workerState)) + 1
    {
      Pow2Of62();
      IncrementedDecodes(workerState);
      workerState := (workerState + 1) % U64_RANGE;
    }

    method ResetBatchLen()
      modifies this`workerState
      ensures workerState == 0 && StatusOf(workerState) == Waiting && Len(workerState) == 0
    {
      ZeroWord();
      workerState := 0;
    }

    method SetPredictorState(status: PredictorStatus)
      modifies this`predictorState
      ensures predictorState == status
    {
      predictorState := status;
    }

    method TakeSnapshot() returns (snapshot: Snapshot)
      requires Valid()
      ensures snapshot == Snapshot(StatusOf(workerState), predictorState, Len(workerState))
    {
      var word := workerState;
      StatusBitsInRange(word);
      SnapshotLenExact(word);
      snapshot := Snapshot(FromU8(Shr(word, 62)), predictorState, Low(And(word, BATCH_LEN_MASK), 32));
    }

    method CanAcceptPrimary() returns (accept: bool)
      requires Valid()
      ensures accept == AcceptsPrimary(workerState, predictorState, batchSize)
      ensures accept <==> StatusOf(workerState) == Waiting && predictorState == Alive && Len(workerState) < batchSize
    {
      var snapshot := TakeSnapshot();
      SnapshotLenExact(workerState);
      accept := snapshot.workerStatus == Waiting && snapshot.predictorStatus == Alive && snapshot.batchLen < batchSize;
    }

    method CanAcceptSecondary() returns (accept: bool)
      requires Valid()
      ensures accept == AcceptsSecondary(workerState, predictorState)
      ensures accept <==> StatusOf(workerState) in {Waiting, Running} && predictorState == Alive
    {
      var snapshot := TakeSnapshot();
      accept := snapshot.workerStatus !in {Exit, Crashed} && snapshot.predictorStatus == Alive;
    }

    method IsRebuilding() returns (rebuilding: bool)
      requires Valid()
      ensures rebuilding <==> predictorState == Rebuilding
    {
      var snapshot := TakeSnapshot();
      rebuilding := snapshot.predictorStatus == Rebuilding;
    }
  }
}

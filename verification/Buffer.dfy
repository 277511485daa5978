/** Models src/worker/buffer.rs: the paired buffer of inputs and result senders. */
module Buffer {

  /** `Vec::swap_remove`: the last element takes the place of the removed one. */
  function SwapRemove<T>(s: seq<T>, i: nat): (r: seq<T>)
    requires i < |s|
    ensures |r| == |s| - 1
  {
    if i == |s| - 1 then s[..i] else s[..|s| - 1][i := s[|s| - 1]]
  }

  lemma SwapRemoveTail<T>(s: seq<T>, i: nat)
    requires i < |s|
    ensures SwapRemove(s, i)[..i] == s[..i]
    ensures multiset(SwapRemove(s, i)[i..]) + multiset{s[i]} == multiset(s[i..])
  {
    var r := SwapRemove(s, i);
    if i == |s| - 1 {
      assert s[i..] == [s[i]] && r[i..] == [];
    } else {
      var last, middle := s[|s| - 1], s[i + 1..|s| - 1];
      assert s[i..] == [s[i]] + middle + [last];
      assert r[i..] == [last] + middle;
    }
  }

  /** The last element takes the place, and all others stay in theirs. */
  lemma SwapRemoveAt<T>(s: seq<T>, i: nat)
    requires i < |s|
    ensures SwapRemove(s, i) == seq(|s| - 1, j requires 0 <= j < |s| - 1 => if j == i then s[|s| - 1] else s[j])
  {
  }

  /** Nothing else is lost, and what precedes the removed element stays in place. */
  lemma SwapRemoveKeeps<T>(s: seq<T>, i: nat)
    requires i < |s|
    ensures SwapRemove(s, i)[..i] == s[..i]
    ensures multiset(SwapRemove(s, i)[i..]) + multiset{s[i]} == multiset(s[i..])
    ensures multiset(SwapRemove(s, i)) + multiset{s[i]} == multiset(s)
  {
    SwapRemoveTail(s, i);
    var r := SwapRemove(s, i);
    assert s == s[..i] + s[i..] && r == r[..i] + r[i..];
  }

  // ---- What one pass of the filter does ----

  // The answer the k-th `is_closed` test gives about an element. A caller may drop its future
  // between two tests, so the answer depends on when the test is made.
  type Tests<!T> = (nat, T) -> bool

  /** The elements kept, starting at index `i` with the `k`-th test. */
  function Filter<T>(s: seq<T>, i: nat, k: nat, closed: Tests<T>): seq<T>
    requires i <= |s|
    decreases |s| - i
  {
    if i == |s| then s
    else if closed(k, s[i]) then Filter(SwapRemove(s, i), i, k + 1, closed)
    else Filter(s, i + 1, k + 1, closed)
  }

  /** The elements tested, in the order of the tests. */
  function Tested<T>(s: seq<T>, i: nat, k: nat, closed: Tests<T>): (tested: seq<T>)
    requires i <= |s|
    ensures |tested| == |s| - i
    decreases |s| - i
  {
    if i == |s| then []
    else if closed(k, s[i]) then [s[i]] + Tested(SwapRemove(s, i), i, k + 1, closed)
    else [s[i]] + Tested(s, i + 1, k + 1, closed)
  }

  /** The tested elements whose test, numbered from `k`, found them open. */
  function OpenOf<T>(tested: seq<T>, k: nat, closed: Tests<T>): seq<T> {
    if tested == [] then []
    else if closed(k, tested[0]) then OpenOf(tested[1..], k + 1, closed)
    else [tested[0]] + OpenOf(tested[1..], k + 1, closed)
  }

  /** Every element from `i` on is tested exactly once. */
  lemma {:induction false} TestedOnce<T>(s: seq<T>, i: nat, k: nat, closed: Tests<T>)
    requires i <= |s|
    ensures multiset(Tested(s, i, k, closed)) == multiset(s[i..])
    decreases |s| - i
  {
    if i < |s| {
      assert s[i..] == [s[i]] + s[i + 1..];
      if closed(k, s[i]) {
        SwapRemoveKeeps(s, i);
        TestedOnce(SwapRemove(s, i), i, k + 1, closed);
      } else {
        TestedOnce(s, i + 1, k + 1, closed);
      }
    }
  }

  lemma OpenOfNext<T>(head: T, tested: seq<T>, k: nat, closed: Tests<T>)
    ensures OpenOf([head] + tested, k, closed) == (if closed(k, head) then [] else [head]) + OpenOf(tested, k + 1, closed)
  {
    assert ([head] + tested)[1..] == tested;
  }

  /** What stays is what was there before `i` and exactly what the tests found open. */
  lemma {:induction false} FilterKeepsOpen<T>(s: seq<T>, i: nat, k: nat, closed: Tests<T>)
    requires i <= |s|
    ensures multiset(Filter(s, i, k, closed)) == multiset(s[..i]) + multiset(OpenOf(Tested(s, i, k, closed), k, closed))
    decreases |s| - i
  {
    if i == |s| {
      assert s[..i] == s;
    } else if closed(k, s[i]) {
      var rest := SwapRemove(s, i);
      assert rest[..i] == s[..i] by { SwapRemoveKeeps(s, i); }
      FilterKeepsOpen(rest, i, k + 1, closed);
      OpenOfNext(s[i], Tested(rest, i, k + 1, closed), k, closed);
    } else {
      FilterKeepsOpen(s, i + 1, k + 1, closed);
      OpenOfNext(s[i], Tested(s, i + 1, k + 1, closed), k, closed);
      assert s[..i + 1] == s[..i] + [s[i]];
    }
  }

  /** A dropped receiver stays dropped: once closed, every later test says so. */
  ghost predicate ClosedForGood<T(!new)>(closed: Tests<T>) {
    forall x, j, k | j <= k && closed(j, x) :: closed(k, x)
  }

  lemma {:induction false} FilterKeepsOnlyOpen<T(!new)>(s: seq<T>, i: nat, k: nat, closed: Tests<T>, x: T)
    requires i <= |s| && ClosedForGood(closed)
    requires closed(k, x) && x !in s[..i]
    ensures x !in Filter(s, i, k, closed)
    decreases |s| - i
  {
    assert closed(k + 1, x);
    if i < |s| {
      if closed(k, s[i]) {
        SwapRemoveKeeps(s, i);
        FilterKeepsOnlyOpen(SwapRemove(s, i), i, k + 1, closed, x);
      } else {
        assert s[..i + 1] == s[..i] + [s[i]];
        FilterKeepsOnlyOpen(s, i + 1, k + 1, closed, x);
      }
    }
  }

  lemma {:induction false} FilterKeepsAllOpen<T(!new)>(s: seq<T>, i: nat, k: nat, closed: Tests<T>, x: T)
    requires i <= |s| && x in s
    requires forall j :: !closed(j, x)
    ensures x in Filter(s, i, k, closed)
    decreases |s| - i
  {
    if i < |s| {
      if closed(k, s[i]) {
        SwapRemoveKeeps(s, i);
        assert x in multiset(s);
        assert x in multiset(SwapRemove(s, i));
        FilterKeepsAllOpen(SwapRemove(s, i), i, k + 1, closed, x);
      } else {
        FilterKeepsAllOpen(s, i + 1, k + 1, closed, x);
      }
    }
  }

  /** `filter_canceled`: with closedness that lasts, a request whose caller had gone before the
      pass is never kept, and one whose caller never goes always is. */
  lemma FilterCanceledIsFair<T(!new)>(s: seq<T>, closed: Tests<T>, x: T)
    requires ClosedForGood(closed)
    ensures closed(0, x) ==> x !in Filter(s, 0, 0, closed)
    ensures x in s && (forall k :: !closed(k, x)) ==> x in Filter(s, 0, 0, closed)
  {
    if closed(0, x) {
      FilterKeepsOnlyOpen(s, 0, 0, closed, x);
    }
    if x in s && (forall k :: !closed(k, x)) {
      FilterKeepsAllOpen(s, 0, 0, closed, x);
    }
  }

  // ---- The buffer itself ----

  function Zip<I, S>(inputs: seq<I>, senders: seq<S>): (pairs: seq<(I, S)>)
    requires |inputs| == |senders|
    ensures |pairs| == |inputs|
    ensures forall i | 0 <= i < |pairs| :: pairs[i] == (inputs[i], senders[i])
  {
    seq(|inputs|, i requires 0 <= i < |inputs| => (inputs[i], senders[i]))
  }

  /** Inputs and the senders of their results, kept as element-wise pairs in two vectors. */
  class WorkerBuffer<I, S> {
    var senderBuffer: seq<S>
    var inputBuffer: seq<I>

    ghost predicate Valid()
      reads this
    {
      |senderBuffer| == |inputBuffer|
    }

    ghost function Pairs(): seq<(I, S)>
      reads this
      requires Valid()
    {
      Zip(inputBuffer, senderBuffer)
    }

    constructor ()
      ensures Valid() && Pairs() == []
    {
      senderBuffer, inputBuffer := [], [];
    }

    method Push(request: I, sender: S)
      requires Valid()
      modifies this
      ensures Valid() && Pairs() == old(Pairs()) + [(request, sender)]
    {
      senderBuffer := senderBuffer + [sender];
      inputBuffer := inputBuffer + [request];
    }

    method Len() returns (n: nat)
      requires Valid()
      ensures n == |Pairs()|
    {
      n := |inputBuffer|;
    }

    method SwapRemoveAt(i: nat)
      requires Valid() && i < |Pairs()|
      modifies this
      ensures Valid() && Pairs() == SwapRemove(old(Pairs()), i)
    {
      inputBuffer := SwapRemove(inputBuffer, i);
      senderBuffer := SwapRemove(senderBuffer, i);
    }

    /** Filters in place; the k-th test asks whether the receiver of the sender at hand is gone. */
    method FilterCanceled(isClosed: Tests<S>)
      requires Valid()
      modifies this
      ensures Valid()
      ensures var closed: Tests<(I, S)> := (k: nat, p: (I, S)) => isClosed(k, p.1);
              && Pairs() == Filter(old(Pairs()), 0, 0, closed)
              && multiset(Pairs()) == multiset(OpenOf(Tested(old(Pairs()), 0, 0, closed), 0, closed))
              && multiset(Tested(old(Pairs()), 0, 0, closed)) == multiset(old(Pairs()))
    {
      ghost var closed: Tests<(I, S)> := (k: nat, p: (I, S)) => isClosed(k, p.1);
      var i, k := 0, 0;
      var n := Len();
      while i < n
        invariant Valid() && n == |Pairs()| && i <= n
        invariant Filter(Pairs(), i, k, closed) == Filter(old(Pairs()), 0, 0, closed)
        decreases n - i
      {
        if isClosed(k, senderBuffer[i]) {
          SwapRemoveAt(i);
        } else {
          i := i + 1;
        }
        k := k + 1;
        n := Len();
      }
      FilterKeepsOpen(old(Pairs()), 0, 0, closed);
      TestedOnce(old(Pairs()), 0, 0, closed);
      assert old(Pairs())[0..] == old(Pairs());
    }

    /** Takes the pairs out, leaving an empty buffer in their place. */
    method SwapReplace() returns (taken: WorkerBuffer<I, S>)
      requires Valid()
      modifies this
      ensures fresh(taken) && taken.Valid() && taken.Pairs() == old(Pairs())
      ensures Valid() && Pairs() == []
    {
      taken := new WorkerBuffer();
      taken.senderBuffer, taken.inputBuffer := senderBuffer, inputBuffer;
      senderBuffer, inputBuffer := [], [];
    }

    method Split() returns (inputs: seq<I>, senders: seq<S>)
      requires Valid()
      ensures |inputs| == |senders| && Zip(inputs, senders) == Pairs()
    {
      inputs, senders := inputBuffer, senderBuffer;
    }
  }
}

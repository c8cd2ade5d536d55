/** core/retry_policy.go: the retry loop over an arbitrary sequence of outcomes.

    The operation is modelled by what its i-th invocation returns. The loop of
    the source has no exit on success: once the first attempt has failed, every
    retry is made. */
module Retry {
  import opened Types

  /** The i-th invocation of the operation returns `op(i)`. */
  type Operation = nat -> Error

  /** `rs` lists the results of one whole call of Execute. */
  ghost predicate Complete(count: int, rs: seq<Error>) {
    && rs != []
    && |rs| == if rs[0].Nil? then 1 else 1 + Max(count, 0)
  }

  /** After the attempts `rs`, Execute makes another one. */
  predicate More(count: int, rs: seq<Error>) {
    rs == [] || (!rs[0].Nil? && |rs| <= count)
  }

  function Last(rs: seq<Error>): Error
    requires rs != []
  {
    rs[|rs| - 1]
  }

  /** The number of invocations a call makes, and the value it returns. */
  function Invocations(count: int, op: Operation): nat {
    if op(0).Nil? then 1 else 1 + Max(count, 0)
  }

  function Returned(count: int, op: Operation): Error {
    op(Invocations(count, op) - 1)
  }

  class RetryPolicy {
    const count: int

    constructor (count: int)
      ensures this.count == count
    {
      this.count := count;
    }

    /** Runs the operation and its retries; `results` records every attempt. */
    method Execute(op: Operation) returns (err: Error, results: seq<Error>)
      ensures Complete(count, results)
      ensures forall i :: 0 <= i < |results| ==> results[i] == op(i)
      ensures err == Last(results)
      ensures |results| == Invocations(count, op) && err == Returned(count, op)
    {
      err := op(0);
      results := [err];
      if err.Nil? {
        return;
      }
      var i := 0;
      while i < count
        invariant 0 <= i <= Max(count, 0)
        invariant |results| == i + 1
        invariant forall j :: 0 <= j < |results| ==> results[j] == op(j)
        invariant err == Last(results)
      {
        err := op(i + 1);
        results := results + [err];
        i := i + 1;
      }
    }
  }

  // ---- The loop that stops at the first success ----

  /** Invocations made from attempt `i` on by a loop that stops at the first success. */
  function EarlyFrom(count: int, op: Operation, i: nat): (n: nat)
    ensures i < n <= 1 + Max(i, count)
    ensures forall k :: i <= k < n - 1 ==> !op(k).Nil?
    ensures op(n - 1).Nil? || n >= 1 + count
    decreases count - i
  {
    if op(i).Nil? || i >= count then i + 1 else EarlyFrom(count, op, i + 1)
  }

  function EarlyInvocations(count: int, op: Operation): nat {
    EarlyFrom(count, op, 0)
  }

  function EarlyReturned(count: int, op: Operation): Error {
    op(EarlyInvocations(count, op) - 1)
  }

  /** An attempt strictly between the first and the last one succeeds. */
  ghost predicate SucceedsMidway(count: int, op: Operation) {
    exists i: nat :: 0 < i < count && op(i).Nil?
  }

  ghost predicate SameInvocations(count: int, op: Operation) {
    Invocations(count, op) == EarlyInvocations(count, op)
  }

  ghost predicate SameResult(count: int, op: Operation) {
    Returned(count, op) == EarlyReturned(count, op)
  }

  /** On one outcome sequence: the loop as written makes more calls than the
      one that stops early exactly when a failed first attempt is followed by
      a success before the last retry, and it reports a different result
      exactly when, besides, the last retry fails. */
  lemma AgreementExactly(count: int, op: Operation)
    ensures SameInvocations(count, op) <==> op(0).Nil? || !SucceedsMidway(count, op)
    ensures SameResult(count, op) <==> op(0).Nil? || op(Max(count, 0)).Nil? || !SucceedsMidway(count, op)
    ensures EarlyInvocations(count, op) <= Invocations(count, op)
  {
  }

  /** The loop as written is the documented "retry only on failure" on every
      outcome sequence exactly when at most one retry is configured. */
  lemma AgreesForAllOutcomesExactly(count: int)
    ensures (forall op: Operation :: SameInvocations(count, op)) <==> count <= 1
    ensures (forall op: Operation :: SameResult(count, op)) <==> count <= 1
  {
    forall op: Operation | count <= 1
      ensures SameInvocations(count, op) && SameResult(count, op)
    {
      AgreementExactly(count, op);
    }
    if count > 1 {
      var op: Operation := i => if i == 1 then Nil else Failed("handler");
      AgreementExactly(count, op);
      assert op(1).Nil?;
      assert SucceedsMidway(count, op);
      assert !SameInvocations(count, op) && !SameResult(count, op);
    }
  }

  /** When an operation that has succeeded keeps succeeding, the result is the
      documented one for every retry count. */
  lemma StickySuccessAgrees(count: int, op: Operation)
    requires forall i: nat, j: nat :: i <= j && op(i).Nil? ==> op(j).Nil?
    ensures SameResult(count, op)
    ensures Returned(count, op).Nil? <==> exists i: nat :: i <= Max(count, 0) && op(i).Nil?
  {
  }
}

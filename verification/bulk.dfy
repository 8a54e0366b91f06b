/**
 * The bulk tagging engine: one operation per resource, batches with optional
 * fail-fast, rollback of completed operations after a failure, the reported
 * counters, the scanner cache and tagging by filter.
 *
 * What each `apply_tags` call does is an oracle indexed by the operation's position
 * (`outcomes(k)`), and so is whether the restore call made during rollback raises
 * (`restoreRaises(k)`).
 */
module Bulk {
  import opened Wrappers
  import opened Errors
  import opened Seqs
  import opened Resources

  datatype Status = Pending | InProgress | Completed | Failed | RolledBack

  /** One resource's part of a bulk run; the creation timestamp is not modelled. */
  datatype TagOperation = TagOperation(
    resourceId: string, kind: ResourceType, region: string,
    tagsToApply: Tags, originalTags: Tags, status: Status, error: Option<string>)

  /** What one `apply_tags` call did: returned a boolean or raised an exception with a message. */
  datatype ApplyOutcome = Returned(success: bool) | Raised(message: string)

  datatype BulkResult = BulkResult(
    totalOperations: nat, successful: nat, failed: nat, rolledBack: nat,
    operations: seq<TagOperation>, dryRun: bool)

  /** `success_rate`: the reported successes in percent of all operations, 0 when there are none. */
  function SuccessRate(b: BulkResult): (r: real)
    ensures b.totalOperations == 0 ==> r == 0.0
    ensures b.totalOperations != 0 ==> r * (b.totalOperations as real) == (b.successful as real) * 100.0
    ensures b.successful <= b.totalOperations ==> 0.0 <= r <= 100.0
  {
    Rate(b.successful, b.totalOperations)
  }

  predicate IsFailed(op: TagOperation) {
    op.status == Failed
  }

  predicate IsCompleted(op: TagOperation) {
    op.status == Completed
  }

  /** `get_failed_operations`: the failed operations, in order. */
  function FailedOperations(r: BulkResult): (ops: seq<TagOperation>)
    ensures forall i :: 0 <= i < |ops| ==> ops[i].status == Failed && ops[i] in r.operations
    ensures forall i :: 0 <= i < |r.operations| && r.operations[i].status == Failed ==> r.operations[i] in ops
  {
    Filter(r.operations, IsFailed)
  }

  /** `get_successful_operations`: the completed operations, in order. */
  function SuccessfulOperations(r: BulkResult): (ops: seq<TagOperation>)
    ensures forall i :: 0 <= i < |ops| ==> ops[i].status == Completed && ops[i] in r.operations
    ensures forall i :: 0 <= i < |r.operations| && r.operations[i].status == Completed ==> r.operations[i] in ops
  {
    Filter(r.operations, IsCompleted)
  }

  /** Number of operations in state `st`. */
  function StatusCount(ops: seq<TagOperation>, st: Status): nat {
    if |ops| == 0 then 0 else (if ops[0].status == st then 1 else 0) + StatusCount(ops[1..], st)
  }

  lemma {:induction false} StatusCountUpdate(ops: seq<TagOperation>, k: nat, op: TagOperation, st: Status)
    requires k < |ops|
    ensures StatusCount(ops[k := op], st) + (if ops[k].status == st then 1 else 0)
      == StatusCount(ops, st) + (if op.status == st then 1 else 0)
  {
    if k == 0 {
      assert ops[k := op][1..] == ops[1..];
    } else {
      StatusCountUpdate(ops[1..], k - 1, op, st);
      assert ops[k := op][1..] == ops[1..][k - 1 := op];
    }
  }

  /** Every operation is in state `st` exactly when all of them are counted. */
  lemma {:induction false} StatusCountAll(ops: seq<TagOperation>, st: Status)
    ensures StatusCount(ops, st) <= |ops|
    ensures StatusCount(ops, st) == |ops| <==> forall i :: 0 <= i < |ops| ==> ops[i].status == st
  {
    if |ops| > 0 {
      StatusCountAll(ops[1..], st);
      assert forall i :: 1 <= i < |ops| ==> ops[i] == ops[1..][i - 1];
    }
  }

  /** The counts of the five states add up to the number of operations. */
  lemma {:induction false} StatusCountsTotal(ops: seq<TagOperation>)
    ensures StatusCount(ops, Pending) + StatusCount(ops, InProgress) + StatusCount(ops, Completed)
      + StatusCount(ops, Failed) + StatusCount(ops, RolledBack) == |ops|
  {
    if |ops| > 0 {
      StatusCountsTotal(ops[1..]);
    }
  }

  /** The operation created for one resource: its identity, the requested tags and a copy of its current tags. */
  function NewOperation(r: AWSResource, tags: Tags): TagOperation {
    TagOperation(r.resourceId, r.kind, r.region, tags, r.tags, Pending, None)
  }

  /** One pending operation per resource, in input order. */
  function NewOperations(resources: seq<AWSResource>, tags: Tags): (ops: seq<TagOperation>)
    ensures |ops| == |resources|
    ensures forall i :: 0 <= i < |ops| ==>
      ops[i].resourceId == resources[i].resourceId && ops[i].kind == resources[i].kind
      && ops[i].region == resources[i].region && ops[i].tagsToApply == tags
      && ops[i].originalTags == resources[i].tags && ops[i].status == Pending && ops[i].error == None
  {
    seq(|resources|, i requires 0 <= i < |resources| => NewOperation(resources[i], tags))
  }

  /** Two states of the same operation: only the status and the error message may differ. */
  predicate SameOperation(a: TagOperation, b: TagOperation) {
    a.resourceId == b.resourceId && a.kind == b.kind && a.region == b.region
    && a.tagsToApply == b.tagsToApply && a.originalTags == b.originalTags
  }

  /** An operation after its `apply_tags` call: completed on True, failed with a message otherwise. */
  function Attempt(op: TagOperation, outcome: ApplyOutcome): (r: TagOperation)
    ensures r.status == Completed <==> outcome == Returned(true)
    ensures r.status == Failed <==> outcome != Returned(true)
    ensures outcome == Returned(false) ==> r.error == Some("Tagging returned False")
    ensures outcome.Raised? ==> r.error == Some(outcome.message)
    ensures r == op.(status := r.status, error := r.error)
  {
    match outcome
    case Returned(true) => op.(status := Completed)
    case Returned(false) => op.(status := Failed, error := Some("Tagging returned False"))
    case Raised(m) => op.(status := Failed, error := Some(m))
  }

  /** No attempt in `[lo, hi)` raises. */
  predicate NoneRaised(outcomes: nat -> ApplyOutcome, lo: nat, hi: nat) {
    forall j: nat :: lo <= j < hi ==> !outcomes(j).Raised?
  }

  /** Every attempt in `[lo, hi)` returns True. */
  predicate AllSucceed(outcomes: nat -> ApplyOutcome, lo: nat, hi: nat) {
    forall j: nat :: lo <= j < hi ==> outcomes(j) == Returned(true)
  }

  /**
   * The inner loop over one batch, from position `k` to `hi`: the operations, the
   * successes and the failures counted. With `failFast` an exception ends the batch.
   */
  function RunBatch(ops: seq<TagOperation>, k: nat, hi: nat, outcomes: nat -> ApplyOutcome, failFast: bool)
    : (r: (seq<TagOperation>, nat, nat))
    requires k <= hi <= |ops|
    ensures |r.0| == |ops|
    decreases hi - k
  {
    if k == hi then (ops, 0, 0)
    else
      var op := Attempt(ops[k], outcomes(k));
      var next := ops[k := op];
      if failFast && outcomes(k).Raised? then (next, 0, 1)
      else
        var rest := RunBatch(next, k + 1, hi, outcomes, failFast);
        (rest.0, rest.1 + (if op.status == Completed then 1 else 0), rest.2 + (if op.status == Failed then 1 else 0))
  }

  /**
   * The batch changes only its own positions, and only their status and error:
   * each is attempted unless an earlier exception in the batch ended it under fail-fast.
   */
  lemma {:induction false} RunBatchShape(ops: seq<TagOperation>, k: nat, hi: nat, outcomes: nat -> ApplyOutcome, failFast: bool)
    requires k <= hi <= |ops|
    ensures var r := RunBatch(ops, k, hi, outcomes, failFast);
      (forall j :: 0 <= j < |ops| && !(k <= j < hi) ==> r.0[j] == ops[j])
      && (forall j :: 0 <= j < |ops| ==> SameOperation(r.0[j], ops[j]))
      && (forall j :: k <= j < hi ==>
            r.0[j] == (if !failFast || NoneRaised(outcomes, k, j) then Attempt(ops[j], outcomes(j)) else ops[j]))
    decreases hi - k
  {
    if k < hi {
      var op := Attempt(ops[k], outcomes(k));
      var next := ops[k := op];
      if !(failFast && outcomes(k).Raised?) {
        RunBatchShape(next, k + 1, hi, outcomes, failFast);
      }
    }
  }

  /** From `before` to `after`, `completed` operations moved from pending to completed and `failed` from pending to failed. */
  predicate CountsMoved(before: seq<TagOperation>, after: seq<TagOperation>, completed: nat, failed: nat) {
    StatusCount(after, Completed) == StatusCount(before, Completed) + completed
    && StatusCount(after, Failed) == StatusCount(before, Failed) + failed
    && StatusCount(after, Pending) + completed + failed == StatusCount(before, Pending)
  }

  /** Two runs one after the other move the sums of their counts. */
  lemma CountsMovedChain(a: seq<TagOperation>, b: seq<TagOperation>, c: seq<TagOperation>, n1: nat, n2: nat, m1: nat, m2: nat)
    requires CountsMoved(a, b, n1, n2) && CountsMoved(b, c, m1, m2)
    ensures CountsMoved(a, c, n1 + m1, n2 + m2)
  {
  }

  /** The batch's counters are the operations it moved from pending to completed and to failed. */
  lemma {:induction false} RunBatchCounts(ops: seq<TagOperation>, k: nat, hi: nat, outcomes: nat -> ApplyOutcome, failFast: bool)
    requires k <= hi <= |ops|
    requires forall j :: k <= j < hi ==> ops[j].status == Pending
    ensures var r := RunBatch(ops, k, hi, outcomes, failFast); CountsMoved(ops, r.0, r.1, r.2)
    decreases hi - k
  {
    if k < hi {
      var op := Attempt(ops[k], outcomes(k));
      var next := ops[k := op];
      StatusCountUpdate(ops, k, op, Completed);
      StatusCountUpdate(ops, k, op, Failed);
      StatusCountUpdate(ops, k, op, Pending);
      if !(failFast && outcomes(k).Raised?) {
        RunBatchCounts(next, k + 1, hi, outcomes, failFast);
      }
    }
  }

  function Min(a: nat, b: nat): nat {
    if a <= b then a else b
  }

  /** Some operation in `[lo, hi)` failed: the fail-fast test after each batch. */
  predicate AnyFailed(ops: seq<TagOperation>, lo: nat, hi: nat)
    requires lo <= hi <= |ops|
  {
    exists j :: lo <= j < hi && ops[j].status == Failed
  }

  /**
   * The outer loop from the batch starting at `start`: batches of `size`, stopping
   * after a batch with a failed operation when `failFast` is set.
   */
  function RunBatches(ops: seq<TagOperation>, start: nat, size: nat, outcomes: nat -> ApplyOutcome, failFast: bool)
    : (r: (seq<TagOperation>, nat, nat))
    requires size > 0
    ensures |r.0| == |ops|
    decreases |ops| - start
  {
    if start >= |ops| then (ops, 0, 0)
    else
      var hi := Min(start + size, |ops|);
      var batch := RunBatch(ops, start, hi, outcomes, failFast);
      if failFast && AnyFailed(batch.0, start, hi) then batch
      else
        var rest := RunBatches(batch.0, start + size, size, outcomes, failFast);
        (rest.0, batch.1 + rest.1, batch.2 + rest.2)
  }

  /** The batches from `start` leave earlier positions alone and change only statuses and errors. */
  lemma {:induction false} RunBatchesShape(ops: seq<TagOperation>, start: nat, size: nat, outcomes: nat -> ApplyOutcome, failFast: bool)
    requires size > 0
    ensures var r := RunBatches(ops, start, size, outcomes, failFast);
      (forall j :: 0 <= j < |ops| && j < start ==> r.0[j] == ops[j])
      && (forall j :: 0 <= j < |ops| ==> SameOperation(r.0[j], ops[j]))
    decreases |ops| - start
  {
    if start < |ops| {
      var hi := Min(start + size, |ops|);
      var batch := RunBatch(ops, start, hi, outcomes, failFast);
      RunBatchShape(ops, start, hi, outcomes, failFast);
      if !(failFast && AnyFailed(batch.0, start, hi)) {
        RunBatchesShape(batch.0, start + size, size, outcomes, failFast);
      }
    }
  }

  /** A position before `start` is left as it was by the batches from `start`. */
  lemma {:induction false} RunBatchesKeepsAt(ops: seq<TagOperation>, start: nat, size: nat, outcomes: nat -> ApplyOutcome, failFast: bool, j: nat)
    requires size > 0 && j < start && j < |ops|
    ensures RunBatches(ops, start, size, outcomes, failFast).0[j] == ops[j]
    decreases |ops| - start
  {
    if start < |ops| {
      var hi := Min(start + size, |ops|);
      var batch := RunBatch(ops, start, hi, outcomes, failFast);
      assert batch.0[j] == ops[j] by {
        RunBatchShape(ops, start, hi, outcomes, failFast);
      }
      if !(failFast && AnyFailed(batch.0, start, hi)) {
        RunBatchesKeepsAt(batch.0, start + size, size, outcomes, failFast, j);
      }
    }
  }

  /** The start of the batch holding position `k`, batches being laid out from `start` every `size`. */
  function BatchStart(start: nat, size: nat, k: nat): (b: nat)
    requires size > 0 && start <= k
    ensures start <= b <= k < b + size
    decreases k - start
  {
    if k < start + size then start else BatchStart(start + size, size, k)
  }

  /**
   * Position `k` is attempted: always without fail-fast; with it, when every earlier
   * batch succeeded throughout and nothing before `k` in its own batch raised.
   */
  predicate Reached(outcomes: nat -> ApplyOutcome, failFast: bool, start: nat, size: nat, k: nat)
    requires size > 0 && start <= k
  {
    !failFast || (AllSucceed(outcomes, start, BatchStart(start, size, k)) && NoneRaised(outcomes, BatchStart(start, size, k), k))
  }

  /** A batch has a failed operation exactly when some attempt in it did not return True. */
  lemma BatchFailedIff(ops: seq<TagOperation>, start: nat, hi: nat, outcomes: nat -> ApplyOutcome, failFast: bool)
    requires start <= hi <= |ops|
    requires forall j :: start <= j < hi ==> ops[j].status == Pending
    ensures AnyFailed(RunBatch(ops, start, hi, outcomes, failFast).0, start, hi) <==> !AllSucceed(outcomes, start, hi)
  {
    var r := RunBatch(ops, start, hi, outcomes, failFast);
    RunBatchShape(ops, start, hi, outcomes, failFast);
    if !AllSucceed(outcomes, start, hi) {
      var first := FirstFailure(outcomes, start, hi);
      assert NoneRaised(outcomes, start, first);
      assert r.0[first].status == Failed;
    }
  }

  /** The first position in `[lo, hi)` whose attempt did not return True. */
  function FirstFailure(outcomes: nat -> ApplyOutcome, lo: nat, hi: nat): (k: nat)
    requires !AllSucceed(outcomes, lo, hi)
    ensures lo <= k < hi && outcomes(k) != Returned(true) && AllSucceed(outcomes, lo, k)
    decreases hi - lo
  {
    if outcomes(lo) != Returned(true) then lo else FirstFailure(outcomes, lo + 1, hi)
  }

  /**
   * The outcome of the batches from `start` at position `k`: an operation
   * reached is attempted, any other is left as it was (pending).
   */
  lemma {:induction false} RunBatchesAt(ops: seq<TagOperation>, start: nat, size: nat, outcomes: nat -> ApplyOutcome, failFast: bool, k: nat)
    requires size > 0 && start <= k < |ops|
    requires forall j :: start <= j < |ops| ==> ops[j].status == Pending
    ensures RunBatches(ops, start, size, outcomes, failFast).0[k]
      == (if Reached(outcomes, failFast, start, size, k) then Attempt(ops[k], outcomes(k)) else ops[k])
    decreases |ops| - start
  {
    var hi := Min(start + size, |ops|);
    var batch := RunBatch(ops, start, hi, outcomes, failFast);
    if k < hi {
      RunBatchesAtFirstBatch(ops, start, size, outcomes, failFast, k);
    } else if failFast && AnyFailed(batch.0, start, hi) {
      RunBatchesAtAfterFailure(ops, start, size, outcomes, k);
    } else {
      assert batch.0[k] == ops[k] && forall j :: start + size <= j < |batch.0| ==> batch.0[j].status == Pending by {
        RunBatchShape(ops, start, hi, outcomes, failFast);
      }
      assert failFast ==> AllSucceed(outcomes, start, start + size) by {
        BatchFailedIff(ops, start, hi, outcomes, failFast);
      }
      RunBatchesAt(batch.0, start + size, size, outcomes, failFast, k);
      ReachedAfterSuccess(outcomes, failFast, start, size, k);
    }
  }

  /** Past a fail-fast batch that failed, a position is neither reached nor changed. */
  lemma RunBatchesAtAfterFailure(ops: seq<TagOperation>, start: nat, size: nat, outcomes: nat -> ApplyOutcome, k: nat)
    requires size > 0 && start + size <= k < |ops|
    requires forall j :: start <= j < |ops| ==> ops[j].status == Pending
    requires AnyFailed(RunBatch(ops, start, start + size, outcomes, true).0, start, start + size)
    ensures RunBatches(ops, start, size, outcomes, true).0[k] == ops[k]
    ensures !Reached(outcomes, true, start, size, k)
  {
    var batch := RunBatch(ops, start, start + size, outcomes, true);
    assert batch.0[k] == ops[k] by {
      RunBatchShape(ops, start, start + size, outcomes, true);
    }
    assert RunBatches(ops, start, size, outcomes, true).0[k] == batch.0[k];
    assert !AllSucceed(outcomes, start, start + size) by {
      BatchFailedIff(ops, start, start + size, outcomes, true);
    }
    NotReachedAfterFailure(outcomes, start, size, k);
  }

  /** Position `k` in the first batch: attempted unless an earlier exception in that batch ended it under fail-fast. */
  lemma RunBatchesAtFirstBatch(ops: seq<TagOperation>, start: nat, size: nat, outcomes: nat -> ApplyOutcome, failFast: bool, k: nat)
    requires size > 0 && start <= k < |ops| && k < start + size
    ensures RunBatches(ops, start, size, outcomes, failFast).0[k]
      == (if Reached(outcomes, failFast, start, size, k) then Attempt(ops[k], outcomes(k)) else ops[k])
  {
    var hi := Min(start + size, |ops|);
    var batch := RunBatch(ops, start, hi, outcomes, failFast);
    assert batch.0[k] == (if !failFast || NoneRaised(outcomes, start, k) then Attempt(ops[k], outcomes(k)) else ops[k]) by {
      RunBatchShape(ops, start, hi, outcomes, failFast);
    }
    if !(failFast && AnyFailed(batch.0, start, hi)) {
      RunBatchesKeepsAt(batch.0, start + size, size, outcomes, failFast, k);
    }
    assert RunBatches(ops, start, size, outcomes, failFast).0[k] == batch.0[k];
    ReachedInFirstBatch(outcomes, failFast, start, size, k);
  }

  /** The same for every position from `start` on. */
  lemma RunBatchesExact(ops: seq<TagOperation>, start: nat, size: nat, outcomes: nat -> ApplyOutcome, failFast: bool)
    requires size > 0
    requires forall j :: start <= j < |ops| ==> ops[j].status == Pending
    ensures forall k :: start <= k < |ops| ==>
      RunBatches(ops, start, size, outcomes, failFast).0[k]
      == (if Reached(outcomes, failFast, start, size, k) then Attempt(ops[k], outcomes(k)) else ops[k])
  {
    forall k | start <= k < |ops|
      ensures RunBatches(ops, start, size, outcomes, failFast).0[k]
        == (if Reached(outcomes, failFast, start, size, k) then Attempt(ops[k], outcomes(k)) else ops[k])
    {
      RunBatchesAt(ops, start, size, outcomes, failFast, k);
    }
  }

  lemma ReachedInFirstBatch(outcomes: nat -> ApplyOutcome, failFast: bool, start: nat, size: nat, k: nat)
    requires size > 0 && start <= k < start + size
    ensures Reached(outcomes, failFast, start, size, k) == (!failFast || NoneRaised(outcomes, start, k))
  {
    assert BatchStart(start, size, k) == start;
  }

  lemma NotReachedAfterFailure(outcomes: nat -> ApplyOutcome, start: nat, size: nat, k: nat)
    requires size > 0 && start + size <= k
    requires !AllSucceed(outcomes, start, start + size)
    ensures !Reached(outcomes, true, start, size, k)
  {
    assert BatchStart(start, size, k) == BatchStart(start + size, size, k);
  }

  lemma ReachedAfterSuccess(outcomes: nat -> ApplyOutcome, failFast: bool, start: nat, size: nat, k: nat)
    requires size > 0 && start + size <= k
    requires failFast ==> AllSucceed(outcomes, start, start + size)
    ensures Reached(outcomes, failFast, start, size, k) == Reached(outcomes, failFast, start + size, size, k)
  {
    assert BatchStart(start, size, k) == BatchStart(start + size, size, k);
  }

  /** Over all batches from `start`, the counters are the operations moved to completed and to failed. */
  lemma {:induction false} RunBatchesCounts(ops: seq<TagOperation>, start: nat, size: nat, outcomes: nat -> ApplyOutcome, failFast: bool)
    requires size > 0
    requires forall j :: start <= j < |ops| ==> ops[j].status == Pending
    ensures var r := RunBatches(ops, start, size, outcomes, failFast); CountsMoved(ops, r.0, r.1, r.2)
    decreases |ops| - start
  {
    if start < |ops| {
      var hi := Min(start + size, |ops|);
      var batch := RunBatch(ops, start, hi, outcomes, failFast);
      RunBatchCounts(ops, start, hi, outcomes, failFast);
      if !(failFast && AnyFailed(batch.0, start, hi)) {
        RunBatchShape(ops, start, hi, outcomes, failFast);
        RunBatchesCounts(batch.0, start + size, size, outcomes, failFast);
        var rest := RunBatches(batch.0, start + size, size, outcomes, failFast);
        CountsMovedChain(ops, batch.0, rest.0, batch.1, batch.2, rest.1, rest.2);
      }
    }
  }

  /** A completed operation that rollback marks rolled back: every one whose restore call (made only for non-empty original tags) does not raise. */
  predicate RollsBack(op: TagOperation, restoreRaises: bool) {
    op.status == Completed && !(|op.originalTags| > 0 && restoreRaises)
  }

  /** `_rollback_operations` from position `k`: the operations and the number rolled back. */
  function Rollback(ops: seq<TagOperation>, k: nat, restoreRaises: nat -> bool): (r: (seq<TagOperation>, nat))
    requires k <= |ops|
    ensures |r.0| == |ops|
    ensures forall j :: 0 <= j < |ops| ==>
      r.0[j] == (if k <= j && RollsBack(ops[j], restoreRaises(j)) then ops[j].(status := RolledBack) else ops[j])
    decreases |ops| - k
  {
    if k == |ops| then (ops, 0)
    else
      var rolls := RollsBack(ops[k], restoreRaises(k));
      var next := if rolls then ops[k := ops[k].(status := RolledBack)] else ops;
      var rest := Rollback(next, k + 1, restoreRaises);
      (rest.0, rest.1 + (if rolls then 1 else 0))
  }

  /** Rollback moves exactly the operations it counts from completed to rolled back. */
  lemma {:induction false} RollbackCounts(ops: seq<TagOperation>, k: nat, restoreRaises: nat -> bool)
    requires k <= |ops|
    ensures var r := Rollback(ops, k, restoreRaises);
      StatusCount(r.0, Completed) + r.1 == StatusCount(ops, Completed)
      && StatusCount(r.0, RolledBack) == StatusCount(ops, RolledBack) + r.1
      && StatusCount(r.0, Failed) == StatusCount(ops, Failed)
      && StatusCount(r.0, Pending) == StatusCount(ops, Pending)
    decreases |ops| - k
  {
    if k < |ops| {
      var op := ops[k].(status := RolledBack);
      if RollsBack(ops[k], restoreRaises(k)) {
        StatusCountUpdate(ops, k, op, Completed);
        StatusCountUpdate(ops, k, op, RolledBack);
        StatusCountUpdate(ops, k, op, Failed);
        StatusCountUpdate(ops, k, op, Pending);
        RollbackCounts(ops[k := op], k + 1, restoreRaises);
      } else {
        RollbackCounts(ops, k + 1, restoreRaises);
      }
    }
  }

  /** Where a resource's tags live: its kind, region and id. */
  type Address = (ResourceType, string, string)

  /** The account's tags by resource; a resource the map does not hold has no tags. */
  type Account = map<Address, Tags>

  function AddressOf(op: TagOperation): Address {
    (op.kind, op.region, op.resourceId)
  }

  function TagsAt(acct: Account, a: Address): Tags {
    if a in acct then acct[a] else map[]
  }

  /** No two operations address the same resource. */
  predicate DistinctAddresses(ops: seq<TagOperation>) {
    forall i, j :: 0 <= i < j < |ops| ==> AddressOf(ops[i]) != AddressOf(ops[j])
  }

  /** Changing statuses keeps the addresses distinct. */
  lemma SameOperationsDistinct(a: seq<TagOperation>, b: seq<TagOperation>)
    requires |a| == |b| && DistinctAddresses(b)
    requires forall i :: 0 <= i < |a| ==> SameOperation(a[i], b[i])
    ensures DistinctAddresses(a)
  {
    assert forall i :: 0 <= i < |a| ==> AddressOf(a[i]) == AddressOf(b[i]);
  }

  /**
   * The kinds whose `apply_tags` is a merging write (`Resources.MergedWrite`), as
   * `Ec2.ApplyTags`, `Ebs.ApplyTags` and `Lambda.ApplyTags` state. S3 and RDS
   * writes are not: `S3.ReadFailureDropsUnrequestedTags` and
   * `Rds.AddFailureAfterRemovalErasesTags` exhibit calls that lose tags.
   */
  predicate MergingKind(kind: ResourceType) {
    kind == EC2 || kind == EBS || kind == Lambda
  }

  /** The two rounds of calls a run makes: the batches' `apply_tags`, then rollback's restores. */
  datatype Round = Batches | Restores

  /**
   * Whether the operation's call in this round succeeded and with which tags,
   * read off its status: in the batches a call returned True exactly for a
   * completed operation; rollback made a restore call, with the original tags,
   * for each completed operation with original tags, and marked it rolled back
   * exactly when that call did not raise (for a merging kind, a call that does not raise returns True).
   */
  function CallOf(op: TagOperation, round: Round): (Tags, bool) {
    match round
    case Batches => (op.tagsToApply, op.status == Completed)
    case Restores => (op.originalTags, op.status == RolledBack && |op.originalTags| > 0)
  }

  /**
   * The account after the merging writes of `ops[k..]` in one round, in position
   * order, which is the order the engine calls `apply_tags` in.
   */
  function Writes(acct: Account, ops: seq<TagOperation>, k: nat, round: Round): Account
    requires k <= |ops|
    decreases |ops| - k
  {
    if k == |ops| then acct
    else
      var a := AddressOf(ops[k]);
      var (tags, ok) := CallOf(ops[k], round);
      Writes(acct[a := MergedWrite(TagsAt(acct, a), tags, ok)], ops, k + 1, round)
  }

  /** With distinct addresses, each resource sees exactly its own operation's write. */
  lemma {:induction false} WritesAt(acct: Account, ops: seq<TagOperation>, k: nat, round: Round, j: nat)
    requires k <= |ops| && j < |ops| && DistinctAddresses(ops)
    ensures var a := AddressOf(ops[j]);
      TagsAt(Writes(acct, ops, k, round), a)
      == if k <= j then MergedWrite(TagsAt(acct, a), CallOf(ops[j], round).0, CallOf(ops[j], round).1) else TagsAt(acct, a)
    decreases |ops| - k
  {
    if k < |ops| {
      var a := AddressOf(ops[k]);
      var call := CallOf(ops[k], round);
      var next := acct[a := MergedWrite(TagsAt(acct, a), call.0, call.1)];
      assert Writes(acct, ops, k, round) == Writes(next, ops, k + 1, round);
      WritesAt(next, ops, k + 1, round, j);
      if k != j {
        assert AddressOf(ops[j]) != a;
      }
    }
  }

  /**
   * The account after a real run: the batches' writes, then, when rollback was due,
   * the restore writes. Only merging kinds are modelled this way.
   */
  function AccountAfter(acct: Account, engine: Engine, ops: seq<TagOperation>, failFast: bool,
                        outcomes: nat -> ApplyOutcome, restoreRaises: nat -> bool): Account
    requires engine.batchSize != 0
    requires forall j :: 0 <= j < |ops| ==> ops[j].status == Pending && MergingKind(ops[j].kind)
  {
    var run := Attempted(ops, engine.batchSize, outcomes, failFast);
    var afterBatches := Writes(acct, run.0, 0, Batches);
    if engine.enableRollback && run.2 > 0
    then Writes(afterBatches, RealRun(engine, ops, failFast, outcomes, restoreRaises).operations, 0, Restores)
    else afterBatches
  }

  /** The batches never leave an operation rolled back: each ends completed, failed or still pending. */
  lemma AttemptedNeverRolledBack(ops: seq<TagOperation>, batchSize: int, outcomes: nat -> ApplyOutcome, failFast: bool)
    requires batchSize != 0
    requires forall j :: 0 <= j < |ops| ==> ops[j].status == Pending
    ensures forall j :: 0 <= j < |ops| ==> Attempted(ops, batchSize, outcomes, failFast).0[j].status in {Completed, Failed, Pending}
  {
    if batchSize > 0 {
      RunBatchesExact(ops, 0, batchSize as nat, outcomes, failFast);
    }
  }

  /**
   * After the two rounds a resource holds the request merged over its tags when its
   * batch call succeeded, and then its original tags merged back when rollback was
   * due and its restore call succeeded.
   */
  lemma AccountAfterAt(acct: Account, engine: Engine, ops: seq<TagOperation>, failFast: bool,
                       outcomes: nat -> ApplyOutcome, restoreRaises: nat -> bool, j: nat)
    requires engine.batchSize != 0 && j < |ops| && DistinctAddresses(ops)
    requires forall i :: 0 <= i < |ops| ==> ops[i].status == Pending && MergingKind(ops[i].kind)
    ensures var run := Attempted(ops, engine.batchSize, outcomes, failFast);
      var post := RealRun(engine, ops, failFast, outcomes, restoreRaises).operations[j];
      var a := AddressOf(ops[j]);
      var afterBatch := MergedWrite(TagsAt(acct, a), ops[j].tagsToApply, run.0[j].status == Completed);
      TagsAt(AccountAfter(acct, engine, ops, failFast, outcomes, restoreRaises), a)
      == MergedWrite(afterBatch, ops[j].originalTags,
           engine.enableRollback && run.2 > 0 && post.status == RolledBack && |ops[j].originalTags| > 0)
  {
    var run := Attempted(ops, engine.batchSize, outcomes, failFast);
    SameOperationsDistinct(run.0, ops);
    WritesAt(acct, run.0, 0, Batches, j);
    if engine.enableRollback && run.2 > 0 {
      var post := RealRun(engine, ops, failFast, outcomes, restoreRaises).operations;
      SameOperationsDistinct(post, ops);
      WritesAt(Writes(acct, run.0, 0, Batches), post, 0, Restores, j);
    }
  }

  /** Merging the original tags back over a merged request: the original keys win, the added keys stay. */
  lemma ReapplyOriginal(orig: Tags, tags: Tags)
    ensures var t := MergedWrite(MergedWrite(orig, tags, true), orig, |orig| > 0);
      t.Keys == orig.Keys + tags.Keys
      && (forall k :: k in orig ==> t[k] == orig[k])
      && (forall k :: k in tags && k !in orig ==> t[k] == tags[k])
      && (|orig| == 0 ==> t == tags)
  {
    if |orig| == 0 {
      assert orig == map[];
      assert orig + tags == tags;
    }
  }

  /**
   * What a real run leaves on each resource, when every resource is of a merging
   * kind and appears once, and the account still holds the tags the scan saw.
   * A rolled-back resource has every original key at its original value again and
   * keeps the keys only this run added (with no original tags nothing is restored);
   * a completed one holds the request merged over its original tags; a failed or
   * unattempted one is as it was.
   */
  lemma RollbackRestoresOriginal(acct: Account, engine: Engine, resources: seq<AWSResource>, tags: Tags,
                                 failFast: bool, outcomes: nat -> ApplyOutcome, restoreRaises: nat -> bool, j: nat)
    requires engine.batchSize != 0 && j < |resources|
    requires forall i :: 0 <= i < |resources| ==> MergingKind(resources[i].kind)
    requires DistinctAddresses(NewOperations(resources, tags))
    requires forall i :: 0 <= i < |resources| ==> TagsAt(acct, AddressOf(NewOperations(resources, tags)[i])) == resources[i].tags
    ensures var ops := NewOperations(resources, tags);
      var op := RealRun(engine, ops, failFast, outcomes, restoreRaises).operations[j];
      var after := TagsAt(AccountAfter(acct, engine, ops, failFast, outcomes, restoreRaises), AddressOf(ops[j]));
      (op.status == RolledBack ==>
          after.Keys == resources[j].tags.Keys + tags.Keys
          && (forall k :: k in resources[j].tags ==> after[k] == resources[j].tags[k])
          && (forall k :: k in tags && k !in resources[j].tags ==> after[k] == tags[k])
          && (|resources[j].tags| == 0 ==> after == tags))
      && (op.status == Completed ==> after == resources[j].tags + tags)
      && (op.status == Failed || op.status == Pending ==> after == resources[j].tags)
  {
    var ops := NewOperations(resources, tags);
    var run := Attempted(ops, engine.batchSize, outcomes, failFast);
    var pre := run.0[j];
    var op := RealRun(engine, ops, failFast, outcomes, restoreRaises).operations[j];
    var due := engine.enableRollback && run.2 > 0;
    AccountAfterAt(acct, engine, ops, failFast, outcomes, restoreRaises, j);
    AttemptedNeverRolledBack(ops, engine.batchSize, outcomes, failFast);
    assert op == (if due && RollsBack(pre, restoreRaises(j)) then pre.(status := RolledBack) else pre);
    if op.status == RolledBack {
      assert due && pre.status == Completed;
      ReapplyOriginal(resources[j].tags, tags);
    }
  }

  /** Every operation marked completed, as a dry run reports them. */
  function AllCompleted(ops: seq<TagOperation>): (r: seq<TagOperation>)
    ensures |r| == |ops| && forall i :: 0 <= i < |r| ==> r[i] == ops[i].(status := Completed)
  {
    seq(|ops|, i requires 0 <= i < |ops| => ops[i].(status := Completed))
  }

  /** The batch loop of a real run: nothing happens for a negative batch size (an empty `range`). */
  function Attempted(ops: seq<TagOperation>, batchSize: int, outcomes: nat -> ApplyOutcome, failFast: bool): (r: (seq<TagOperation>, nat, nat))
    requires batchSize != 0
    ensures |r.0| == |ops|
    ensures forall j :: 0 <= j < |ops| ==> SameOperation(r.0[j], ops[j])
  {
    if batchSize > 0 then
      RunBatchesShape(ops, 0, batchSize as nat, outcomes, failFast);
      RunBatches(ops, 0, batchSize as nat, outcomes, failFast)
    else (ops, 0, 0)
  }

  /** The engine's settings. */
  datatype Engine = Engine(profile: Option<string>, batchSize: int, enableRollback: bool)

  /** `bulk_tag_resources`; a zero batch size makes `range` raise once the dry-run shortcut is passed. */
  function BulkTag(engine: Engine, resources: seq<AWSResource>, tags: Tags, dryRun: bool, failFast: bool,
                   outcomes: nat -> ApplyOutcome, restoreRaises: nat -> bool): (r: Result<BulkResult, Error>)
    ensures r.Err? <==> !dryRun && engine.batchSize == 0
    ensures r.Err? ==> r.error == ValueError("range() arg 3 must not be zero")
    ensures r.Ok? ==> r.value.totalOperations == |resources| && |r.value.operations| == |resources| && r.value.dryRun == dryRun
    ensures r.Ok? ==> forall i :: 0 <= i < |resources| ==>
      r.value.operations[i].resourceId == resources[i].resourceId && r.value.operations[i].kind == resources[i].kind
      && r.value.operations[i].region == resources[i].region && r.value.operations[i].tagsToApply == tags
      && r.value.operations[i].originalTags == resources[i].tags
    ensures dryRun ==> (r.value.successful == |resources| && r.value.failed == 0 && r.value.rolledBack == 0
      && forall i :: 0 <= i < |resources| ==> r.value.operations[i].status == Completed)
    ensures r.Ok? ==> r.value.successful + r.value.failed <= |resources|
  {
    var ops := NewOperations(resources, tags);
    if dryRun then Ok(BulkResult(|ops|, |ops|, 0, 0, AllCompleted(ops), true))
    else if engine.batchSize == 0 then Err(ValueError("range() arg 3 must not be zero"))
    else Ok(RealRun(engine, ops, failFast, outcomes, restoreRaises))
  }

  /**
   * A run that is not a dry run: the batches, then rollback when it is enabled and
   * something failed. The reported successes are 0 whenever rollback was due.
   */
  function RealRun(engine: Engine, ops: seq<TagOperation>, failFast: bool,
                   outcomes: nat -> ApplyOutcome, restoreRaises: nat -> bool): (r: BulkResult)
    requires engine.batchSize != 0
    requires forall j :: 0 <= j < |ops| ==> ops[j].status == Pending
    ensures r.totalOperations == |ops| && |r.operations| == |ops| && !r.dryRun
    ensures forall j :: 0 <= j < |ops| ==> SameOperation(r.operations[j], ops[j])
    ensures r.successful + r.failed <= |ops|
  {
    var run := Attempted(ops, engine.batchSize, outcomes, failFast);
    var rollback := if engine.enableRollback && run.2 > 0 then Rollback(run.0, 0, restoreRaises) else (run.0, 0);
    AttemptedCounts(ops, engine.batchSize, outcomes, failFast);
    BulkResult(|ops|, if !engine.enableRollback || run.2 == 0 then run.1 else 0, run.2, rollback.1, rollback.0, false)
  }

  /** Before rollback, the counters equal the operations completed and failed, and the rest are still pending. */
  lemma AttemptedCounts(ops: seq<TagOperation>, batchSize: int, outcomes: nat -> ApplyOutcome, failFast: bool)
    requires batchSize != 0
    requires forall j :: 0 <= j < |ops| ==> ops[j].status == Pending
    ensures var r := Attempted(ops, batchSize, outcomes, failFast);
      r.1 == StatusCount(r.0, Completed) && r.2 == StatusCount(r.0, Failed)
      && r.1 + r.2 + StatusCount(r.0, Pending) == |ops|
  {
    StatusCountAll(ops, Pending);
    StatusCountsTotal(ops);
    if batchSize > 0 {
      RunBatchesCounts(ops, 0, batchSize as nat, outcomes, failFast);
    }
  }

  /** The operations and counters of a real run before any rollback. */
  function PreRollback(engine: Engine, resources: seq<AWSResource>, tags: Tags, failFast: bool, outcomes: nat -> ApplyOutcome)
    : (r: (seq<TagOperation>, nat, nat))
    requires engine.batchSize != 0
    ensures |r.0| == |resources|
  {
    Attempted(NewOperations(resources, tags), engine.batchSize, outcomes, failFast)
  }

  /**
   * The reported counters: failures as counted, successes zeroed when rollback was
   * due; rollback runs only then, touches only completed operations, and counts the
   * operations it marked.
   */
  lemma ReportedCounters(engine: Engine, resources: seq<AWSResource>, tags: Tags, failFast: bool,
                         outcomes: nat -> ApplyOutcome, restoreRaises: nat -> bool)
    requires engine.batchSize != 0
    ensures var r := BulkTag(engine, resources, tags, false, failFast, outcomes, restoreRaises).value;
      var pre := PreRollback(engine, resources, tags, failFast, outcomes);
      var due := engine.enableRollback && r.failed > 0;
      r.failed == StatusCount(pre.0, Failed)
      && r.successful == (if due then 0 else StatusCount(pre.0, Completed))
      && r.rolledBack <= StatusCount(pre.0, Completed)
      && r.rolledBack == StatusCount(r.operations, RolledBack)
      && (!due ==> r.operations == pre.0 && r.rolledBack == 0)
      && (due ==> forall j :: 0 <= j < |resources| ==>
            r.operations[j] == (if RollsBack(pre.0[j], restoreRaises(j)) then pre.0[j].(status := RolledBack) else pre.0[j]))
  {
    var ops := NewOperations(resources, tags);
    var pre := PreRollback(engine, resources, tags, failFast, outcomes);
    AttemptedCounts(ops, engine.batchSize, outcomes, failFast);
    StatusCountsTotal(pre.0);
    assert StatusCount(pre.0, RolledBack) == 0;
    if engine.enableRollback && pre.2 > 0 {
      RollbackCounts(pre.0, 0, restoreRaises);
    }
  }

  /** Without fail-fast every operation is attempted: each ends completed or failed by its own outcome. */
  lemma WithoutFailFastAllAttempted(engine: Engine, resources: seq<AWSResource>, tags: Tags, outcomes: nat -> ApplyOutcome)
    requires engine.batchSize > 0
    ensures var pre := PreRollback(engine, resources, tags, false, outcomes);
      (forall k :: 0 <= k < |resources| ==> pre.0[k] == Attempt(NewOperations(resources, tags)[k], outcomes(k)))
      && pre.1 + pre.2 == |resources|
  {
    var ops := NewOperations(resources, tags);
    var pre := PreRollback(engine, resources, tags, false, outcomes);
    RunBatchesExact(ops, 0, engine.batchSize as nat, outcomes, false);
    AttemptedCounts(ops, engine.batchSize, outcomes, false);
    forall k | 0 <= k < |resources| ensures pre.0[k].status != Pending {
      assert Reached(outcomes, false, 0, engine.batchSize as nat, k);
    }
    StatusCountAll(pre.0, Pending);
    NoneCounted(pre.0, Pending);
  }

  lemma {:induction false} NoneCounted(ops: seq<TagOperation>, st: Status)
    requires forall i :: 0 <= i < |ops| ==> ops[i].status != st
    ensures StatusCount(ops, st) == 0
  {
    if |ops| > 0 {
      NoneCounted(ops[1..], st);
    }
  }

  /** Each operation before rollback: attempted when reached, otherwise still pending. */
  lemma PreRollbackExact(engine: Engine, resources: seq<AWSResource>, tags: Tags, failFast: bool,
                         outcomes: nat -> ApplyOutcome, k: nat)
    requires engine.batchSize > 0 && k < |resources|
    ensures var pre := PreRollback(engine, resources, tags, failFast, outcomes);
      var op := NewOperations(resources, tags)[k];
      pre.0[k] == (if Reached(outcomes, failFast, 0, engine.batchSize as nat, k) then Attempt(op, outcomes(k)) else op)
  {
    RunBatchesExact(NewOperations(resources, tags), 0, engine.batchSize as nat, outcomes, failFast);
  }

  /** With fail-fast, an exception leaves the rest of its batch pending. */
  lemma RaiseEndsBatch(engine: Engine, resources: seq<AWSResource>, tags: Tags, outcomes: nat -> ApplyOutcome, k: nat)
    requires engine.batchSize > 0 && k + 1 < |resources|
    requires BatchStart(0, engine.batchSize as nat, k + 1) == BatchStart(0, engine.batchSize as nat, k)
    requires outcomes(k).Raised?
    ensures PreRollback(engine, resources, tags, true, outcomes).0[k + 1].status == Pending
  {
    PreRollbackExact(engine, resources, tags, true, outcomes, k + 1);
  }

  /** With fail-fast, a False return does not end its batch: the next operation in the batch is attempted. */
  lemma FalseDoesNotEndBatch(engine: Engine, resources: seq<AWSResource>, tags: Tags, outcomes: nat -> ApplyOutcome, k: nat)
    requires engine.batchSize > 0 && k + 1 < |resources|
    requires BatchStart(0, engine.batchSize as nat, k + 1) == BatchStart(0, engine.batchSize as nat, k)
    requires outcomes(k) == Returned(false)
    requires PreRollback(engine, resources, tags, true, outcomes).0[k].status != Pending
    ensures PreRollback(engine, resources, tags, true, outcomes).0[k + 1].status != Pending
  {
    var size := engine.batchSize as nat;
    PreRollbackExact(engine, resources, tags, true, outcomes, k);
    assert Reached(outcomes, true, 0, size, k);
    ReachedNext(outcomes, size, k);
    PreRollbackExact(engine, resources, tags, true, outcomes, k + 1);
  }

  /** Within a batch, a reached position that does not raise lets the next one be reached. */
  lemma ReachedNext(outcomes: nat -> ApplyOutcome, size: nat, k: nat)
    requires size > 0 && BatchStart(0, size, k + 1) == BatchStart(0, size, k)
    requires Reached(outcomes, true, 0, size, k) && !outcomes(k).Raised?
    ensures Reached(outcomes, true, 0, size, k + 1)
  {
  }

  /** With fail-fast, no batch after one holding a failed operation is started. */
  lemma FailedBatchEndsRun(engine: Engine, resources: seq<AWSResource>, tags: Tags, outcomes: nat -> ApplyOutcome, k: nat, m: nat)
    requires engine.batchSize > 0 && k < m < |resources|
    requires k < BatchStart(0, engine.batchSize as nat, m)
    requires PreRollback(engine, resources, tags, true, outcomes).0[k].status == Failed
    ensures PreRollback(engine, resources, tags, true, outcomes).0[m].status == Pending
  {
    PreRollbackExact(engine, resources, tags, true, outcomes, k);
    PreRollbackExact(engine, resources, tags, true, outcomes, m);
    assert outcomes(k) != Returned(true);
  }

  /** A negative batch size gives an empty `range`: nothing is attempted and nothing is reported. */
  lemma NegativeBatchSizeDoesNothing(engine: Engine, resources: seq<AWSResource>, tags: Tags, failFast: bool,
                                     outcomes: nat -> ApplyOutcome, restoreRaises: nat -> bool)
    requires engine.batchSize < 0
    ensures var r := BulkTag(engine, resources, tags, false, failFast, outcomes, restoreRaises);
      r.Ok? && r.value.successful == 0 && r.value.failed == 0 && r.value.rolledBack == 0
      && r.value.operations == NewOperations(resources, tags)
  {
  }

  /** The dry-run loop: every operation marked completed, none applied. */
  method MarkAllCompleted(ops: seq<TagOperation>) returns (done: seq<TagOperation>)
    ensures done == AllCompleted(ops)
  {
    done := ops;
    var i := 0;
    while i < |done|
      invariant i <= |done| == |ops|
      invariant forall t :: 0 <= t < i ==> done[t] == ops[t].(status := Completed)
      invariant forall t :: i <= t < |done| ==> done[t] == ops[t]
    {
      done := done[i := done[i].(status := Completed)];
      i := i + 1;
    }
  }

  /** The loop over one batch `[lo, hi)`, with the fail-fast break after an exception. */
  method ProcessBatch(ops0: seq<TagOperation>, lo: nat, hi: nat, outcomes: nat -> ApplyOutcome, failFast: bool)
    returns (ops: seq<TagOperation>, successful: nat, failed: nat)
    requires lo <= hi <= |ops0|
    ensures var batch := RunBatch(ops0, lo, hi, outcomes, failFast);
      ops == batch.0 && successful == batch.1 && failed == batch.2
  {
    ops, successful, failed := ops0, 0, 0;
    ghost var batch := RunBatch(ops0, lo, hi, outcomes, failFast);
    var j := lo;
    while j < hi
      invariant lo <= j <= hi && |ops| == |ops0|
      invariant RunBatch(ops, j, hi, outcomes, failFast).0 == batch.0
      invariant successful + RunBatch(ops, j, hi, outcomes, failFast).1 == batch.1
      invariant failed + RunBatch(ops, j, hi, outcomes, failFast).2 == batch.2
      decreases hi - j
    {
      var op := Attempt(ops[j], outcomes(j));
      ops := ops[j := op];
      if op.status == Completed {
        successful := successful + 1;
      } else {
        failed := failed + 1;
        if failFast && outcomes(j).Raised? {
          return;
        }
      }
      j := j + 1;
    }
  }

  /** The loop over the batches, with the fail-fast break after a batch holding a failure. */
  method ProcessBatches(ops0: seq<TagOperation>, size: nat, outcomes: nat -> ApplyOutcome, failFast: bool)
    returns (ops: seq<TagOperation>, successful: nat, failed: nat)
    requires size > 0
    ensures var total := RunBatches(ops0, 0, size, outcomes, failFast);
      ops == total.0 && successful == total.1 && failed == total.2
  {
    ops, successful, failed := ops0, 0, 0;
    ghost var total := RunBatches(ops0, 0, size, outcomes, failFast);
    var i := 0;
    while i < |ops|
      invariant |ops| == |ops0|
      invariant RunBatches(ops, i, size, outcomes, failFast).0 == total.0
      invariant successful + RunBatches(ops, i, size, outcomes, failFast).1 == total.1
      invariant failed + RunBatches(ops, i, size, outcomes, failFast).2 == total.2
      decreases |ops| - i
    {
      var hi := Min(i + size, |ops|);
      var next, s, f := ProcessBatch(ops, i, hi, outcomes, failFast);
      ops, successful, failed := next, successful + s, failed + f;
      if failFast && AnyFailed(ops, i, hi) {
        return;
      }
      i := i + size;
    }
  }

  /** The rollback loop over the completed operations. */
  method RollbackLoop(ops0: seq<TagOperation>, restoreRaises: nat -> bool) returns (ops: seq<TagOperation>, rolledBack: nat)
    ensures ops == Rollback(ops0, 0, restoreRaises).0 && rolledBack == Rollback(ops0, 0, restoreRaises).1
  {
    ops, rolledBack := ops0, 0;
    ghost var total := Rollback(ops0, 0, restoreRaises);
    var k := 0;
    while k < |ops|
      invariant k <= |ops| == |ops0|
      invariant Rollback(ops, k, restoreRaises).0 == total.0
      invariant rolledBack + Rollback(ops, k, restoreRaises).1 == total.1
    {
      if ops[k].status == Completed {
        if |ops[k].originalTags| > 0 && restoreRaises(k) {
          // The restore call raised: the operation stays completed.
        } else {
          ops := ops[k := ops[k].(status := RolledBack)];
          rolledBack := rolledBack + 1;
        }
      }
      k := k + 1;
    }
  }

  /** `bulk_tag_resources` as the source runs it, computing exactly the functional definition. */
  method BulkTagResources(engine: Engine, resources: seq<AWSResource>, tags: Tags, dryRun: bool, failFast: bool,
                          outcomes: nat -> ApplyOutcome, restoreRaises: nat -> bool) returns (r: Result<BulkResult, Error>)
    ensures r == BulkTag(engine, resources, tags, dryRun, failFast, outcomes, restoreRaises)
  {
    var ops := NewOperations(resources, tags);
    if dryRun {
      var done := MarkAllCompleted(ops);
      return Ok(BulkResult(|ops|, |ops|, 0, 0, done, true));
    }
    if engine.batchSize == 0 {
      return Err(ValueError("range() arg 3 must not be zero"));
    }
    var successful, failed := 0, 0;
    if engine.batchSize > 0 {
      ops, successful, failed := ProcessBatches(ops, engine.batchSize as nat, outcomes, failFast);
    }
    var rolledBack := 0;
    if engine.enableRollback && failed > 0 {
      ops, rolledBack := RollbackLoop(ops, restoreRaises);
    }
    r := Ok(BulkResult(|ops|, if !engine.enableRollback || failed == 0 then successful else 0, failed, rolledBack, ops, false));
  }

  /** A scanner as the engine constructs it: every resource kind has one. */
  datatype Scanner = Scanner(kind: ResourceType, region: string, profile: Option<string>)

  /** The engine's scanners, keyed by kind and region. */
  type ScannerCache = map<(ResourceType, string), Scanner>

  /** Every cached scanner was built for its own key. */
  predicate CacheValid(cache: ScannerCache) {
    forall key :: key in cache ==> cache[key].kind == key.0 && cache[key].region == key.1
  }

  /** `_get_scanner`: the cached scanner for (kind, region), built and cached on first use. */
  function GetScanner(engine: Engine, cache: ScannerCache, kind: ResourceType, region: string): (r: (Scanner, ScannerCache))
    ensures (kind, region) in r.1 && r.0 == r.1[(kind, region)]
    ensures r.1.Keys == cache.Keys + {(kind, region)}
    ensures forall key :: key in cache ==> r.1[key] == cache[key]
    ensures (kind, region) !in cache ==> r.0 == Scanner(kind, region, engine.profile)
    ensures CacheValid(cache) ==> CacheValid(r.1) && r.0.kind == kind && r.0.region == region
  {
    if (kind, region) in cache then (cache[(kind, region)], cache)
    else
      var scanner := Scanner(kind, region, engine.profile);
      (scanner, cache[(kind, region) := scanner])
  }

  /** Asking again for the same kind and region returns the same scanner and leaves the cache alone. */
  lemma GetScannerIdempotent(engine: Engine, cache: ScannerCache, kind: ResourceType, region: string)
    ensures var first := GetScanner(engine, cache, kind, region);
      GetScanner(engine, first.1, kind, region) == first
  {
  }

  /**
   * `tag_by_filter`: scan, keep the resources the filter accepts (in scan order)
   * and bulk-tag them without fail-fast. A failed scan propagates.
   */
  function TagByFilter(engine: Engine, scan: Result<ScanResult, Error>, filter: AWSResource -> bool, tags: Tags, dryRun: bool,
                       outcomes: nat -> ApplyOutcome, restoreRaises: nat -> bool): (r: Result<BulkResult, Error>)
    ensures scan.Err? ==> r == Err(scan.error)
    ensures scan.Ok? ==> r == BulkTag(engine, Filter(scan.value.resources, filter), tags, dryRun, false, outcomes, restoreRaises)
  {
    var s :- scan;
    BulkTag(engine, Filter(s.resources, filter), tags, dryRun, false, outcomes, restoreRaises)
  }

  /**
   * `tag_untagged_resources`: exactly the scanned resources with no tags are
   * bulk-tagged, in scan order, one operation each.
   */
  lemma TagUntaggedTargetsUntagged(engine: Engine, scan: Result<ScanResult, Error>, tags: Tags, dryRun: bool,
                                   outcomes: nat -> ApplyOutcome, restoreRaises: nat -> bool)
    requires scan.Ok?
    requires dryRun || engine.batchSize != 0
    ensures var r := TagByFilter(engine, scan, Untagged, tags, dryRun, outcomes, restoreRaises);
      var untagged := FilterUntagged(scan.value.resources);
      r.Ok? && |r.value.operations| == |untagged|
      && forall i :: 0 <= i < |untagged| ==>
           r.value.operations[i].resourceId == untagged[i].resourceId && r.value.operations[i].originalTags == map[]
           && r.value.operations[i].tagsToApply == tags
  {
    var untagged := FilterUntagged(scan.value.resources);
    forall i | 0 <= i < |untagged| ensures untagged[i].tags == map[] {
      assert !untagged[i].IsTagged();
    }
  }
}

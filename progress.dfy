// Progress reports on long-running operations (progress/types.go). Clock
// readings are parameters.
module Progress {
  import opened Wrappers
  import opened ToolResults

  /** Status is a Go string type: any string may arrive from outside. */
  type Status = string

  const StatusQueued: Status := "queued"
  const StatusProcessing: Status := "processing"
  const StatusGenerating: Status := "generating"
  const StatusUploading: Status := "uploading"
  const StatusFinalizing: Status := "finalizing"
  const StatusCompleted: Status := "completed"
  const StatusFailed: Status := "failed"
  const StatusCancelled: Status := "cancelled"

  const DeclaredStatuses: seq<Status> := [StatusQueued, StatusProcessing, StatusGenerating, StatusUploading,
    StatusFinalizing, StatusCompleted, StatusFailed, StatusCancelled]

  /** Update (progress/types.go:23-43). */
  datatype Update = Update(
    jobID: string,
    tool: string,
    status: Status,
    progress: int,
    message: string,
    currentStep: string,
    totalSteps: int,
    stepProgress: int,
    updatedAt: int,
    startedAt: Option<int>,
    estimatedEnd: Option<int>,
    partialResult: AnyValue)

  /** ItemStatus (progress/types.go:61-67). */
  datatype ItemStatus = ItemStatus(id: string, status: Status, progress: int, error: Option<string>, result: AnyValue)

  /** BatchUpdate (progress/types.go:46-58). */
  datatype BatchUpdate = BatchUpdate(
    jobID: string,
    tool: string,
    totalItems: int,
    completedItems: int,
    failedItems: int,
    currentItem: string,
    progress: int,
    updatedAt: int,
    itemStatuses: seq<ItemStatus>)

  /** IsTerminal (progress/types.go:116-118). */
  predicate IsTerminal(s: Status)
  {
    s == StatusCompleted || s == StatusFailed || s == StatusCancelled
  }

  /** IsActive (progress/types.go:121-123). */
  predicate IsActive(s: Status)
  {
    !IsTerminal(s)
  }

  /** Of the eight declared statuses exactly the last three are terminal;
      every other string, declared or not, counts as active. */
  lemma StatusPartition(s: Status)
    ensures IsTerminal(s) <==> s in DeclaredStatuses[5..]
    ensures IsActive(s) <==> s !in DeclaredStatuses[5..]
    ensures forall i :: 0 <= i < 5 ==> IsActive(DeclaredStatuses[i])
  {
    assert DeclaredStatuses[5..] == [StatusCompleted, StatusFailed, StatusCancelled];
  }

  /** NewUpdate (progress/types.go:72-81): the arguments stored unchanged,
      every optional field empty, stamped with the clock reading `now`. */
  function NewUpdate(jobID: string, tool: string, status: Status, progress: int, message: string, now: int)
    : (u: Update)
    ensures u.jobID == jobID && u.tool == tool && u.status == status
    ensures u.progress == progress && u.message == message && u.updatedAt == now
    ensures u.currentStep == "" && u.totalSteps == 0 && u.stepProgress == 0
    ensures u.startedAt.None? && u.estimatedEnd.None? && u.partialResult == Nil
  {
    Update(jobID, tool, status, progress, message, "", 0, 0, now, None, None, Nil)
  }

  /** NewProcessingUpdate (progress/types.go:84-93): always in the
      processing state, which is active. */
  function NewProcessingUpdate(jobID: string, tool: string, progress: int, currentStep: string, now: int)
    : (u: Update)
    ensures u.status == StatusProcessing && IsActive(u.status)
    ensures u.jobID == jobID && u.tool == tool && u.progress == progress
    ensures u.currentStep == currentStep && u.message == "" && u.updatedAt == now
  {
    Update(jobID, tool, StatusProcessing, progress, "", currentStep, 0, 0, now, None, None, Nil)
  }

  /** Go's integer division by a positive divisor, which truncates toward
      zero. Dafny's `/` is Euclidean, which for a positive divisor rounds
      toward negative infinity. */
  function TruncDiv(a: int, b: int): int
    requires b > 0
  {
    if a >= 0 then a / b else -((-a) / b)
  }

  /** The progress NewBatchUpdate computes (progress/types.go:97-100). */
  function BatchProgress(totalItems: int, completedItems: int): int
  {
    if totalItems > 0 then TruncDiv(completedItems * 100, totalItems) else 0
  }

  /** NewBatchUpdate (progress/types.go:96-111). */
  function NewBatchUpdate(jobID: string, tool: string, totalItems: int, completedItems: int, failedItems: int,
                          now: int): (b: BatchUpdate)
    ensures b.totalItems == totalItems && b.completedItems == completedItems && b.failedItems == failedItems
    ensures b.progress == BatchProgress(totalItems, completedItems)
    ensures b.itemStatuses == [] && b.currentItem == ""
  {
    BatchUpdate(jobID, tool, totalItems, completedItems, failedItems, "", BatchProgress(totalItems, completedItems),
      now, [])
  }

  lemma {:induction false} MulMonotone(a: int, b: int, t: int)
    requires a <= b && t >= 0
    ensures a * t <= b * t
  {
    assert b * t - a * t == (b - a) * t;
  }

  lemma {:induction false} DivMonotone(x: int, y: int, b: int)
    requires 0 <= x <= y && b > 0
    ensures x / b <= y / b
  {
    var q1, q2 := x / b, y / b;
    if q1 > q2 {
      MulMonotone(q2 + 1, q1, b);
    }
  }

  lemma {:induction false} DivAtMost(x: int, b: int, c: int)
    requires 0 <= x <= c * b && b > 0
    ensures x / b <= c
  {
    var q := x / b;
    if q > c {
      MulMonotone(c + 1, q, b);
    }
  }

  lemma {:induction false} TruncDivMonotone(x: int, y: int, b: int)
    requires x <= y && b > 0
    ensures TruncDiv(x, b) <= TruncDiv(y, b)
  {
    if 0 <= x {
      DivMonotone(x, y, b);
    } else if y < 0 {
      DivMonotone(-y, -x, b);
      assert TruncDiv(x, b) == -((-x) / b);
      assert TruncDiv(y, b) == -((-y) / b);
    } else {
      DivMonotone(0, -x, b);
      DivMonotone(0, y, b);
      assert TruncDiv(x, b) == -((-x) / b);
      assert TruncDiv(y, b) == y / b;
    }
  }

  /** With completed items between zero and the total, progress is a
      percentage: 0 when nothing is done, 100 when everything is. */
  lemma {:induction false} BatchProgressBounds(totalItems: int, completedItems: int)
    requires 0 <= completedItems <= totalItems
    ensures 0 <= BatchProgress(totalItems, completedItems) <= 100
    ensures completedItems == 0 ==> BatchProgress(totalItems, completedItems) == 0
    ensures 0 < totalItems == completedItems ==> BatchProgress(totalItems, completedItems) == 100
  {
    if totalItems > 0 {
      assert completedItems * 100 <= 100 * totalItems;
      DivAtMost(completedItems * 100, totalItems, 100);
      if completedItems == totalItems {
        assert (totalItems * 100) / totalItems == 100;
      }
    }
  }

  /** Progress never decreases as more items complete, and failed items do
      not enter it. */
  lemma {:induction false} BatchProgressMonotone(jobID: string, tool: string, totalItems: int, c1: int, c2: int,
                                                  f1: int, f2: int, now: int)
    requires c1 <= c2
    ensures NewBatchUpdate(jobID, tool, totalItems, c1, f1, now).progress <=
      NewBatchUpdate(jobID, tool, totalItems, c2, f2, now).progress
  {
    if totalItems > 0 {
      assert c1 * 100 <= c2 * 100;
      TruncDivMonotone(c1 * 100, c2 * 100, totalItems);
    }
  }

  /** An empty batch reports 0 whatever it counts as completed; a negative
      count is truncated toward zero, so one completed item of -1 out of
      1000 reports 0 where Dafny's own -100 / 1000 would give -1. */
  lemma NegativeCountsTruncate(jobID: string, tool: string, completed: int, failed: int, now: int)
    ensures NewBatchUpdate(jobID, tool, 0, completed, failed, now).progress == 0
    ensures NewBatchUpdate(jobID, tool, 1000, -1, failed, now).progress == 0
  {
  }
}

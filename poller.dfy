/**
 * The video tools' long-running-operation poller: at most 60 status checks,
 * stopping early when the operation is done or a check fails, then a status
 * derived from the final operation.
 */
module Poller {
  import opened Wrappers
  import opened Genai

  const MaxAttempts: nat := 60

  /** Where polling ends: the final operation, how many checks were made, and whether a check failed. */
  datatype PollOutcome = PollOutcome(operation: Operation, checks: nat, checkFailed: bool)

  /**
   * The poll loop from attempt `i` on, with the current operation `op`. The
   * client's answer to the k-th status check is `answers[k]`.
   */
  function Poll(op: Operation, answers: seq<StatusCheck>, i: nat): (r: PollOutcome)
    requires i <= MaxAttempts <= |answers|
    ensures i <= r.checks <= MaxAttempts
    ensures r.checks == i ==> r.operation == op && !r.checkFailed
    ensures r.checks > i ==> !op.done
    ensures r.checkFailed ==> r.checks > i
    ensures r.checkFailed ==> answers[r.checks - 1].error.Some? && r.operation == answers[r.checks - 1].operation
    ensures !r.checkFailed && r.checks > i ==>
      answers[r.checks - 1].error.None? && r.operation == answers[r.checks - 1].operation
    ensures !r.checkFailed && !r.operation.done ==> r.checks == MaxAttempts
    ensures forall k :: i <= k < r.checks - 1 ==>
      answers[k].error.None? && !answers[k].operation.done
    decreases MaxAttempts - i
  {
    if i < MaxAttempts && !op.done then
      var answer := answers[i];
      if answer.error.Some? then PollOutcome(answer.operation, i + 1, true)
      else Poll(answer.operation, answers, i + 1)
    else
      PollOutcome(op, i, false)
  }

  /** The loop as written: check, replace the operation, break on a failed check. */
  method PollOperation(submitted: Operation, answers: seq<StatusCheck>)
    returns (op: Operation, checks: nat)
    requires MaxAttempts <= |answers|
    ensures op == Poll(submitted, answers, 0).operation
    ensures checks == Poll(submitted, answers, 0).checks
    ensures checks <= MaxAttempts
  {
    op := submitted;
    checks := 0;
    while checks < MaxAttempts && !op.done
      invariant checks <= MaxAttempts
      invariant Poll(op, answers, checks) == Poll(submitted, answers, 0)
    {
      var answer := answers[checks];
      op := answer.operation;
      checks := checks + 1;
      if answer.error.Some? {
        break;
      }
    }
  }

  /** The status reported after polling. */
  datatype VideoStatus = Generating | Failed | Completed | Timeout

  /** The status is a function of the final operation alone. */
  function StatusOf(op: Operation): (s: VideoStatus)
    ensures s == Timeout <==> !op.done
    ensures s == Failed <==> op.done && op.error.Some?
    ensures s == Completed <==> op.done && op.error.None? && op.generatedVideos > 0
    ensures s == Generating <==> op.done && op.error.None? && op.generatedVideos == 0
  {
    if op.done then
      if op.error.Some? then Failed
      else if op.generatedVideos > 0 then Completed
      else Generating
    else Timeout
  }

  /** The status as it appears in the tool's output. */
  function StatusName(s: VideoStatus): (name: string)
    ensures s == Generating <==> name == "generating"
    ensures s == Failed <==> name == "failed"
    ensures s == Completed <==> name == "completed"
    ensures s == Timeout <==> name == "timeout"
  {
    match s
    case Generating => "generating"
    case Failed => "failed"
    case Completed => "completed"
    case Timeout => "timeout"
  }

  /** A backend that never finishes and never fails: exactly 60 checks, then a timeout. */
  lemma {:induction false} NeverDoneTimesOut(op: Operation, answers: seq<StatusCheck>, i: nat)
    requires i <= MaxAttempts <= |answers|
    requires !op.done
    requires forall k :: i <= k < MaxAttempts ==> answers[k].error.None? && !answers[k].operation.done
    ensures Poll(op, answers, i).checks == MaxAttempts
    ensures StatusOf(Poll(op, answers, i).operation) == Timeout
    decreases MaxAttempts - i
  {
    if i < MaxAttempts {
      NeverDoneTimesOut(answers[i].operation, answers, i + 1);
    }
  }

  /** The first answer that reports the operation done ends polling with that operation. */
  lemma {:induction false} StopsAtFirstDone(op: Operation, answers: seq<StatusCheck>, i: nat, j: nat)
    requires i <= j < MaxAttempts <= |answers|
    requires !op.done
    requires forall k :: i <= k < j ==> answers[k].error.None? && !answers[k].operation.done
    requires answers[j].error.None? && answers[j].operation.done
    ensures Poll(op, answers, i) == PollOutcome(answers[j].operation, j + 1, false)
    decreases j - i
  {
    if i < j {
      StopsAtFirstDone(answers[i].operation, answers, i + 1, j);
    }
  }

  /**
   * The first failed status check ends polling with the operation it handed
   * back; when that operation is unfinished the status is a timeout, not
   * "generating".
   */
  lemma {:induction false} StopsAtFirstFailure(op: Operation, answers: seq<StatusCheck>, i: nat, j: nat)
    requires i <= j < MaxAttempts <= |answers|
    requires !op.done
    requires forall k :: i <= k < j ==> answers[k].error.None? && !answers[k].operation.done
    requires answers[j].error.Some?
    ensures Poll(op, answers, i) == PollOutcome(answers[j].operation, j + 1, true)
    ensures !answers[j].operation.done ==> StatusOf(Poll(op, answers, i).operation) == Timeout
    decreases j - i
  {
    if i < j {
      StopsAtFirstFailure(answers[i].operation, answers, i + 1, j);
    }
  }

  /** An operation already done at submission is never checked. */
  lemma DoneAtSubmissionNotPolled(submitted: Operation, answers: seq<StatusCheck>)
    requires MaxAttempts <= |answers|
    requires submitted.done
    ensures Poll(submitted, answers, 0) == PollOutcome(submitted, 0, false)
  {
  }
}

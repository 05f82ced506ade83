// app/core/state.py: the guard every status change passes.
module Transitions {
  import opened Enums
  import opened Options

  datatype Fault = IllegalTransition(from: JobStatus, to: JobStatus) | ErrorCodeRequired(status: JobStatus)

  predicate ErrorRequired(s: JobStatus) {
    s == Failed || s == NeedsReview || s == NeedsInput
  }

  /** The exception `transition` raises, if any, checked in the source's order. */
  function Guard(from: JobStatus, to: JobStatus, error: Option<ErrorCode>): Option<Fault> {
    if !Legal(from, to) then Some(IllegalTransition(from, to))
    else if ErrorRequired(to) && error.None? then Some(ErrorCodeRequired(to))
    else None
  }

  /** A transition passes exactly along an edge of the table, and with an error code where one is due. */
  lemma GuardPasses(from: JobStatus, to: JobStatus, error: Option<ErrorCode>)
    ensures Guard(from, to, error) == None <==>
              Legal(from, to) && (to in {Failed, NeedsReview, NeedsInput} ==> error.Some?)
    ensures Guard(from, to, error).Some? ==>
              Guard(from, to, error).value == if Legal(from, to) then ErrorCodeRequired(to) else IllegalTransition(from, to)
  {
  }
}

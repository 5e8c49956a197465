/** Go errors as the queue sees them: sentinels, other errors, and `%w` wrapping. */
module Errors {

  datatype Error = RancherResourcesPending | AgentInstallJobInProgress | ApiError | OtherError | Wrapped(inner: Error)

  /** `errors.Is`: the target occurs somewhere along the chain of wrapped errors. */
  predicate Is(e: Error, target: Error) {
    e == target || (e.Wrapped? && Is(e.inner, target))
  }

  const WAIT_ERRORS: seq<Error> := [RancherResourcesPending, AgentInstallJobInProgress]

  predicate IsWaiting(e: Error) {
    Is(e, RancherResourcesPending) || Is(e, AgentInstallJobInProgress)
  }

  /** The error at the bottom of the chain. */
  function Root(e: Error): Error {
    if e.Wrapped? then Root(e.inner) else e
  }

  /** Wrapping never changes how an error is classified: only what is at the bottom counts. */
  lemma {:induction false} WaitingByRoot(e: Error)
    ensures IsWaiting(e) <==> Root(e) in WAIT_ERRORS
  {
    if e.Wrapped? {
      WaitingByRoot(e.inner);
    }
  }
}

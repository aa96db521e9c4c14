/** What commands and their handlers can come to. */
module Commands {
  import opened Wrappers

  datatype Status = OK | ERROR | ABORT | TIMEOUT | OUT_OF_RESOURCES

  /** How a command ended: with a status, or by the cancellation of its task. */
  datatype Outcome = Ended(status: Status) | Cancelled

  /** How a handler left: with results, with an exception that may name a status, or by a
      cancellation. */
  datatype HandlerEnd = Returned | Raised(named: Option<Status>) | WasCancelled

  datatype Handler = Unborn | Live | Done(end: HandlerEnd)

  /** The status a failed command ends with: the one its exception names, or ERROR. */
  function FailureStatus(named: Option<Status>): (status: Status)
    ensures status != OK
  {
    if named.Some? && named.value != OK then named.value else ERROR
  }

  /** The status a handler gives its command when nobody marked the command. */
  function EndStatus(end: HandlerEnd): Status {
    match end
    case Returned => OK
    case Raised(named) => FailureStatus(named)
    case WasCancelled => ABORT
  }
}

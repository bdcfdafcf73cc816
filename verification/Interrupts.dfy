/** What the two interrupt protocols share: job statuses, interrupts, and who
    writes the log. */
module Interrupts {
  import opened Wrappers

  datatype Status = Running | WaitingApproval | Finished | Failed | Observed | Cancelled | Paused | Killed

  datatype Interrupt = Cancel | Pause | Kill

  function JobStatus(interrupt: Interrupt): Status {
    match interrupt
    case Cancel => Cancelled
    case Pause => Paused
    case Kill => Killed
  }

  /** The interrupt a status in the log stands for. */
  function InterruptOf(status: Status): Option<Interrupt> {
    match status
    case Cancelled => Some(Cancel)
    case Paused => Some(Pause)
    case Killed => Some(Kill)
    case _ => None
  }

  /** The statuses at which an interrupt has nothing left to do. */
  predicate AlreadySettled(status: Status) {
    status == Cancelled || status == Finished || status == Killed
  }

  /** A job that waits for an approval is as little over as a running one. */
  predicate Open(status: Status) {
    status == Running || status == WaitingApproval
  }

  datatype Writer = Starter | Monitor | Commander | Approver
}

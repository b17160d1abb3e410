/** Task records as every component sees them. */
module Tasks {
  datatype Status = PENDING | RUNNING | SUCCESS | FAILED | INTERRUPTED | CANCELLED | REJECTED

  /** The statuses flush() writes to history. */
  predicate Terminal(s: Status) {
    s in {SUCCESS, FAILED, CANCELLED, INTERRUPTED, REJECTED}
  }

  predicate Unfinished(s: Status) {
    s == PENDING || s == RUNNING
  }

  /** What the handler of a cancellation makes of a record that is still RUNNING. */
  function Interrupt(shuttingDown: bool, requeueOnInterrupt: bool): Status {
    if !shuttingDown then CANCELLED else if requeueOnInterrupt then PENDING else RUNNING
  }
}

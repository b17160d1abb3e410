/** One record and everything that writes its status within one process: routing, the
    execution at each of its awaits, a user's cancel, shutdown, and flush_pending. An action
    that does not apply leaves the state alone, so each theorem is about every interleaving. */
module Lifecycle {
  import opened Tasks

  /** Where the record's callable is. Arriving: the record exists, the callable is not routed.
      Waiting: queued or scheduled. Checking, Announcing, Running, Draining, Sleeping, Ending:
      the awaits of an execution (idempotency check, RUNNING event, dispatched function, log
      futures, delay before a retry, events and callbacks after the last status). Handling:
      inside the handler of a cancellation. */
  datatype Place =
    | Arriving | Refused | Waiting | Checking | Announcing | Running | Draining | Sleeping | Handling | Ending | Done

  /** The handle in the table of running tasks. */
  datatype TaskHandle = Absent | Live | Over

  /** known: the function is in the registry. */
  datatype Policy = Policy(known: bool, requeueOnInterrupt: bool, requeuePending: bool)

  /** What flush_pending does with a record it visits. */
  datatype Fate = Untouched | Requeued | Interrupted | Unsaved

  /** snapshotted: the record is in the list flush_pending took and still has to visit.
      starts and fate are histories. */
  datatype Life = Life(
    status: Status, place: Place, handle: TaskHandle, shuttingDown: bool, snapshotted: bool, starts: nat, fate: Fate)

  datatype Action =
    | Route(accepted: bool)
    | Begin
    | Checked(taken: bool)
    | Dispatch
    | AttemptOver
    | Retry
    | Finish(ok: bool)
    | Settle
    | Cancel
    | Handle
    | UserCancel
    | NotifyShutdown
    | Snapshot
    | Visit

  const Born := Life(PENDING, Arriving, Absent, false, false, 0, Untouched)

  // ---- The status decisions ----

  /** The cancellation handler's choice for a record that is still RUNNING. */
  function OnCancel(p: Policy, shuttingDown: bool): Status {
    Interrupt(shuttingDown, p.requeueOnInterrupt)
  }

  function RequeueSafe(p: Policy): bool {
    p.known && p.requeueOnInterrupt
  }

  /** flush_pending at one record: whatever is not PENDING when it is visited is taken for RUNNING. */
  function Classify(p: Policy, status: Status): (Status, Fate) {
    if status == PENDING then (PENDING, if p.requeuePending then Requeued else Unsaved)
    else if RequeueSafe(p) then (PENDING, Requeued)
    else (INTERRUPTED, Interrupted)
  }

  /** POST cancel: the new status, and whether the request is accepted. */
  function UserCancelled(status: Status, handle: TaskHandle): (Status, bool) {
    if status == PENDING then (CANCELLED, true)
    else (status, status == RUNNING && handle == Live)
  }

  // ---- Steps ----

  function DoRoute(l: Life, accepted: bool): Life {
    if l.place != Arriving then l
    else if accepted then l.(place := Waiting)
    else l.(place := Refused, status := REJECTED)
  }

  function DoChecked(l: Life, taken: bool): Life {
    if l.place != Checking then l
    else if taken then l.(place := Done, status := SUCCESS)
    else l.(place := Announcing, status := RUNNING)
  }

  function DoDispatch(l: Life): Life {
    if l.place in {Announcing, Sleeping} then l.(place := Running, handle := Live, starts := l.starts + 1) else l
  }

  function DoFinish(l: Life, ok: bool): Life {
    if l.place !in {Announcing, Running, Draining} then l
    else
      var h := if l.handle == Live then Over else l.handle;
      if ok then l.(place := Ending, status := SUCCESS, handle := h)
      else if l.status == RUNNING then l.(place := Ending, status := FAILED, handle := h)
      else l.(place := Ending, handle := h)
  }

  /** The execution is over; execute_task's finally block removes the handle. */
  function Ended(l: Life): Life {
    l.(place := Done, handle := Absent)
  }

  function DoCancel(l: Life): Life {
    match l.place
    case Running => l.(place := Handling, handle := Over)
    case Draining => l.(place := Handling)
    case Sleeping => l.(place := Handling)
    case Waiting => Ended(l)
    case Checking => Ended(l)
    case Announcing => Ended(l)
    case Handling => Ended(l)
    case Ending => Ended(l)
    case _ => l
  }

  function DoHandle(p: Policy, l: Life): Life {
    if l.place != Handling then l
    else if l.status == RUNNING then l.(place := Ending, status := OnCancel(p, l.shuttingDown))
    else l.(place := Ending)
  }

  function DoVisit(p: Policy, l: Life): Life {
    if !l.snapshotted then l
    else var (status, fate) := Classify(p, l.status); l.(status := status, fate := fate, snapshotted := false)
  }

  function Step(p: Policy, l: Life, a: Action): Life {
    match a
    case Route(accepted) => DoRoute(l, accepted)
    case Begin => if l.place == Waiting then l.(place := Checking) else l
    case Checked(taken) => DoChecked(l, taken)
    case Dispatch => DoDispatch(l)
    case AttemptOver => if l.place == Running then l.(place := Draining, handle := Over) else l
    case Retry => if l.place == Draining then l.(place := Sleeping) else l
    case Finish(ok) => DoFinish(l, ok)
    case Settle => if l.place == Ending then Ended(l) else l
    case Cancel => DoCancel(l)
    case Handle => DoHandle(p, l)
    case UserCancel => l.(status := UserCancelled(l.status, l.handle).0)
    case NotifyShutdown => l.(shuttingDown := true)
    case Snapshot => l.(snapshotted := Unfinished(l.status))
    case Visit => DoVisit(p, l)
  }

  function Run(p: Policy, l: Life, acts: seq<Action>): Life {
    if acts == [] then l else Step(p, Run(p, l, acts[..|acts| - 1]), acts[|acts| - 1])
  }

  // ---- The invariant ----

  predicate Final(s: Status) {
    s == SUCCESS || s == FAILED
  }

  predicate Inv(l: Life) {
    && (Final(l.status) ==> l.place in {Ending, Done})
    && (l.status == REJECTED ==> l.place == Refused)
    && (l.place in {Arriving, Refused, Waiting, Checking, Announcing} ==> l.starts == 0 && l.handle == Absent)
    && (l.handle == Live <==> l.place == Running)
    && (l.place == Done ==> l.handle == Absent)
  }

  lemma StepKeepsInv(p: Policy, l: Life, a: Action)
    requires Inv(l)
    ensures Inv(Step(p, l, a))
    ensures l.place == Refused ==> Step(p, l, a).place == Refused
  {
  }

  lemma {:induction false} RunKeepsInv(p: Policy, l: Life, acts: seq<Action>)
    requires Inv(l)
    ensures Inv(Run(p, l, acts))
    ensures l.place == Refused ==> Run(p, l, acts).place == Refused
  {
    if acts != [] {
      RunKeepsInv(p, l, acts[..|acts| - 1]);
      StepKeepsInv(p, Run(p, l, acts[..|acts| - 1]), acts[|acts| - 1]);
    }
  }

  // ---- Rejection, handles, user cancels ----

  /** Once a record is REJECTED its function has not started, and never will. */
  lemma RejectedNeverStarts(p: Policy, before: seq<Action>, after: seq<Action>)
    requires Run(p, Born, before).status == REJECTED
    ensures Run(p, Run(p, Born, before), after).starts == 0
  {
    RunKeepsInv(p, Born, before);
    RunKeepsInv(p, Run(p, Born, before), after);
  }

  /** The table of running tasks has no entry for an execution that has not dispatched or is
      over, and a live handle exactly while the function runs; so a user's cancel is accepted
      exactly for a PENDING record and for a RUNNING one whose function is running: not while
      it is announced, sleeping before a retry, or draining its logs. */
  lemma HandleAndUserCancel(p: Policy, acts: seq<Action>)
    ensures var l := Run(p, Born, acts);
            && (l.place in {Arriving, Refused, Waiting, Checking, Announcing, Done} ==> l.handle == Absent)
            && (UserCancelled(l.status, l.handle).1 <==>
                l.status == PENDING || (l.status == RUNNING && l.place == Running))
  {
    RunKeepsInv(p, Born, acts);
  }

  // ---- Final statuses ----

  /** Only flush_pending can give a finished record another status, and only if it listed the
      record before it finished and visits it after. */
  lemma FinalOverwrittenExactlyWhen(p: Policy, l: Life, a: Action)
    requires Inv(l) && Final(l.status)
    ensures Step(p, l, a).status != l.status <==> a == Visit && l.snapshotted
  {
  }

  /** flush_pending lists and visits with nothing in between (as it does when no logger makes
      it await). */
  predicate AtomicFlush(acts: seq<Action>) {
    forall i | 0 <= i < |acts| :: acts[i] == Visit ==> i > 0 && acts[i - 1] == Snapshot
  }

  /** Then SUCCESS and FAILED are final, over all status writers. */
  lemma {:induction false} FinalIsFinal(p: Policy, l: Life, acts: seq<Action>)
    requires Inv(l) && Final(l.status) && AtomicFlush(acts)
    ensures Run(p, l, acts).status == l.status
    ensures acts != [] && acts[|acts| - 1] == Snapshot ==> !Run(p, l, acts).snapshotted
  {
    if acts != [] {
      var front := acts[..|acts| - 1];
      FinalIsFinal(p, l, front);
      RunKeepsInv(p, l, front);
    }
  }

  /** Without atomicity a finished task can end as INTERRUPTED: it succeeds between the moment
      flush_pending lists it and the moment it is visited. */
  lemma SplitFlushOverwritesSuccess()
    ensures var p := Policy(true, false, true);
            var acts := [Route(true), Begin, Checked(false), Dispatch, NotifyShutdown, Snapshot, AttemptOver, Finish(true)];
            Run(p, Born, acts).status == SUCCESS && Run(p, Born, acts + [Visit]).status == INTERRUPTED
  {
    var p := Policy(true, false, true);
    var acts := [Route(true), Begin, Checked(false), Dispatch, NotifyShutdown, Snapshot, AttemptOver, Finish(true)];
    RunAll(p, Born, acts);
    assert (acts + [Visit])[..8] == acts;
  }

  function RunForward(p: Policy, l: Life, acts: seq<Action>): Life
    decreases |acts|
  {
    if acts == [] then l else RunForward(p, Step(p, l, acts[0]), acts[1..])
  }

  lemma {:induction false} RunAll(p: Policy, l: Life, acts: seq<Action>)
    ensures Run(p, l, acts) == RunForward(p, l, acts)
    decreases |acts|
  {
    if acts != [] {
      var front := acts[..|acts| - 1];
      RunAll(p, l, front);
      ForwardAppend(p, l, front, acts[|acts| - 1]);
      assert front + [acts[|acts| - 1]] == acts;
    }
  }

  lemma {:induction false} ForwardAppend(p: Policy, l: Life, acts: seq<Action>, a: Action)
    ensures RunForward(p, l, acts + [a]) == Step(p, RunForward(p, l, acts), a)
    decreases |acts|
  {
    if acts == [] {
      assert [a][1..] == [];
    } else {
      assert (acts + [a])[1..] == acts[1..] + [a];
      ForwardAppend(p, Step(p, l, acts[0]), acts[1..], a);
    }
  }

  // ---- Cancelled records ----

  /** Who replaces CANCELLED: the record's own callable, which is still queued when a PENDING
      record is cancelled and writes RUNNING (or SUCCESS for a taken key) when its turn comes;
      an execution that returns although its record was cancelled; a late rejection; and a
      flush that listed the record before it was cancelled. */
  lemma CancelledReplacedExactlyWhen(p: Policy, l: Life, a: Action)
    requires l.status == CANCELLED
    ensures Step(p, l, a).status != CANCELLED <==>
            || (a.Checked? && l.place == Checking)
            || (a == Finish(true) && l.place in {Announcing, Running, Draining})
            || (a == Route(false) && l.place == Arriving)
            || (a == Visit && l.snapshotted)
  {
  }

  /** Two lives that differ in the record alone, not in the execution. */
  predicate SameExecution(l: Life, m: Life) {
    l.place == m.place && l.handle == m.handle && l.starts == m.starts
  }

  lemma StepSameExecution(p: Policy, l: Life, m: Life, a: Action)
    requires SameExecution(l, m)
    ensures SameExecution(Step(p, l, a), Step(p, m, a))
  {
  }

  /** A user's cancel never changes how often the function starts, whatever the record's state
      and whatever follows: for a PENDING record it is accepted and does nothing else, and for
      a RUNNING one only the CancelledError that may follow matters. */
  lemma {:induction false} UserCancelNeverPreventsAStart(p: Policy, l: Life, acts: seq<Action>)
    ensures SameExecution(Run(p, Step(p, l, UserCancel), acts), Run(p, l, acts))
    ensures Run(p, Step(p, l, UserCancel), acts).starts == Run(p, l, acts).starts
  {
    if acts != [] {
      var front := acts[..|acts| - 1];
      UserCancelNeverPreventsAStart(p, l, front);
      StepSameExecution(p, Run(p, Step(p, l, UserCancel), front), Run(p, l, front), acts[|acts| - 1]);
    }
  }

  /** The places before the function's first start. */
  predicate BeforeStart(place: Place) {
    place in {Arriving, Waiting, Checking, Announcing}
  }

  /** The steps that end an execution before its function starts: a rejection, a cancellation of
      the queued callable or at one of the two awaits, a check that finds the key taken, or a
      run that is allowed no attempt. */
  predicate EndsBeforeStart(place: Place, a: Action) {
    match place
    case Arriving => a == Route(false)
    case Waiting => a == Cancel
    case Checking => a == Cancel || a == Checked(true)
    case Announcing => a == Cancel || a.Finish?
    case _ => false
  }

  /** The step that leads on from a place before the start. */
  function Onward(place: Place, a: Action): Place
    requires BeforeStart(place)
  {
    match place
    case Arriving => if a == Route(true) then Waiting else Arriving
    case Waiting => if a == Begin then Checking else Waiting
    case Checking => if a == Checked(false) then Announcing else Checking
    case Announcing => if a == Dispatch then Running else Announcing
  }

  /** The steps lead to a start: from each place on the way the onward step comes before any
      step that ends the execution there. */
  predicate LeadsToStart(place: Place, acts: seq<Action>)
    decreases |acts|
  {
    if !BeforeStart(place) then place == Running
    else acts != [] && !EndsBeforeStart(place, acts[0]) && LeadsToStart(Onward(place, acts[0]), acts[1..])
  }

  lemma {:induction false} NoFurtherStart(p: Policy, l: Life, acts: seq<Action>)
    requires l.place in {Refused, Done, Ending, Handling}
    ensures RunForward(p, l, acts).starts == l.starts
    ensures RunForward(p, l, acts).place in {Refused, Done, Ending, Handling}
    decreases |acts|
  {
    if acts != [] {
      NoFurtherStart(p, Step(p, l, acts[0]), acts[1..]);
    }
  }

  lemma {:induction false} StartsStay(p: Policy, l: Life, acts: seq<Action>)
    ensures RunForward(p, l, acts).starts >= l.starts
    decreases |acts|
  {
    if acts != [] {
      StartsStay(p, Step(p, l, acts[0]), acts[1..]);
    }
  }

  lemma {:induction false} LeadsForward(p: Policy, l: Life, acts: seq<Action>)
    requires BeforeStart(l.place)
    ensures RunForward(p, l, acts).starts > l.starts <==> LeadsToStart(l.place, acts)
    decreases |acts|
  {
    if acts != [] {
      var m := Step(p, l, acts[0]);
      if EndsBeforeStart(l.place, acts[0]) {
        NoFurtherStart(p, m, acts[1..]);
      } else if BeforeStart(m.place) {
        LeadsForward(p, m, acts[1..]);
      } else {
        StartsStay(p, m, acts[1..]);
      }
    }
  }

  /** When the function of a cancelled PENDING record starts after all: exactly when it would
      have without the cancel. For a callable that has not started, that is decided by its place
      and the later steps of routing and execution alone: a record that is refused or over never
      starts, and one on its way does unless one of the ending steps comes first. */
  lemma CancelledPendingStartsExactlyWhen(p: Policy, l: Life, acts: seq<Action>)
    requires l.status == PENDING
    ensures var c := Step(p, l, UserCancel);
            && c.status == CANCELLED && UserCancelled(l.status, l.handle).1
            && (BeforeStart(l.place) ==> (Run(p, c, acts).starts > c.starts <==> LeadsToStart(l.place, acts)))
            && (l.place in {Refused, Done, Ending, Handling} ==> Run(p, c, acts).starts == c.starts)
  {
    var c := Step(p, l, UserCancel);
    RunAll(p, c, acts);
    if BeforeStart(l.place) {
      LeadsForward(p, c, acts);
    } else if l.place in {Refused, Done, Ending, Handling} {
      NoFurtherStart(p, c, acts);
    }
  }

  /** The failing case is the ordinary one: the callable of a cancelled record gets its turn. */
  lemma CancelledPendingStillRuns(p: Policy)
    ensures var acts := [Route(true), UserCancel];
            var more := [Route(true), UserCancel, Begin, Checked(false), Dispatch];
            && Run(p, Born, acts).status == CANCELLED
            && Run(p, Born, more).status == RUNNING && Run(p, Born, more).starts == 1
  {
    var acts := [Route(true), UserCancel];
    var more := [Route(true), UserCancel, Begin, Checked(false), Dispatch];
    RunAll(p, Born, acts);
    RunAll(p, Born, more);
  }

  // ---- Cancellation and shutdown ----

  /** What a cancellation leaves of a RUNNING record, by the await it strikes. At the function,
      the log futures or the sleep, the handler decides: CANCELLED for a user, PENDING at
      shutdown if requeueable, RUNNING for flush_pending otherwise. At the RUNNING event, or
      once more inside the handler, the record stays RUNNING even without a shutdown. */
  lemma CancellationLeaves(p: Policy, l: Life)
    requires Inv(l) && l.status == RUNNING
    ensures var c := Step(p, l, Cancel);
            && c.status == RUNNING
            && (l.place in {Running, Draining, Sleeping} ==>
                  Step(p, c, Handle).status == (if !l.shuttingDown then CANCELLED
                                                else if p.requeueOnInterrupt then PENDING else RUNNING))
            && (l.place in {Announcing, Handling} ==> c.place == Done)
  {
  }

  /** flush_pending, listing and visiting at once, leaves no RUNNING record, and each unfinished
      record gets exactly one fate. */
  lemma FlushClassifies(p: Policy, l: Life)
    requires !l.snapshotted && l.fate == Untouched
    ensures var f := Step(p, Step(p, l, Snapshot), Visit);
            var repeats := p.known && p.requeueOnInterrupt;
            && f.status != RUNNING && !f.snapshotted && f.place == l.place
            && (l.status != PENDING && l.status != RUNNING ==> f.fate == Untouched && f.status == l.status)
            && (l.status == PENDING ==> f.status == PENDING && f.fate == if p.requeuePending then Requeued else Unsaved)
            && (l.status == RUNNING && repeats ==> f.status == PENDING && f.fate == Requeued)
            && (l.status == RUNNING && !repeats ==> f.status == INTERRUPTED && f.fate == Interrupted)
  {
  }

  /** The steps of the execution itself. */
  predicate OfExecution(a: Action) {
    a in {Begin, Dispatch, AttemptOver, Retry, Settle, Cancel, Handle} || a.Checked? || a.Finish?
  }

  /** How often the execution itself changes the status along a run. */
  function OwnWrites(p: Policy, l: Life, acts: seq<Action>): nat {
    if acts == [] then 0
    else
      var front, a := Run(p, l, acts[..|acts| - 1]), acts[|acts| - 1];
      OwnWrites(p, l, acts[..|acts| - 1]) + if OfExecution(a) && Step(p, front, a).status != front.status then 1 else 0
  }

  /** The one write a cancelled execution has left. */
  lemma OwnWriteIsTheHandlers(p: Policy, l: Life, a: Action)
    requires l.place in {Handling, Ending, Done}
    ensures Step(p, l, a).place in {Handling, Ending, Done}
    ensures OfExecution(a) && Step(p, l, a).status != l.status ==>
              && a == Handle && l.place == Handling && l.status == RUNNING
              && Step(p, l, a).place == Ending && Step(p, l, a).status == OnCancel(p, l.shuttingDown)
  {
  }

  /** Nobody else writes SUCCESS or FAILED either. */
  lemma StaysUnfinal(p: Policy, l: Life, a: Action)
    requires l.place in {Handling, Ending, Done} && l.status in {RUNNING, PENDING, CANCELLED, INTERRUPTED}
    ensures Step(p, l, a).status in {RUNNING, PENDING, CANCELLED, INTERRUPTED}
  {
  }

  /** A cancelled execution writes at most once more, whatever else happens to its record: the
      handler's status, and only over a RUNNING that nobody has replaced. All other changes are
      a flush_pending's visit or a user's cancel, so it never ends as SUCCESS or FAILED. */
  lemma {:induction false} HandledOnce(p: Policy, l: Life, acts: seq<Action>)
    requires l.place == Handling && l.status == RUNNING
    ensures var t := Run(p, l, acts);
            && t.place in {Handling, Ending, Done}
            && OwnWrites(p, l, acts) <= (if t.place == Handling then 0 else 1)
            && t.status in {RUNNING, PENDING, CANCELLED, INTERRUPTED}
  {
    if acts != [] {
      var front, a := acts[..|acts| - 1], acts[|acts| - 1];
      HandledOnce(p, l, front);
      OwnWriteIsTheHandlers(p, Run(p, l, front), a);
      StaysUnfinal(p, Run(p, l, front), a);
    }
  }

  /** Without a visit in between, the record keeps the handler's choice, which a user's cancel
      can still turn from PENDING to CANCELLED. When the shutdown came first and nobody cancels,
      it is therefore not CANCELLED. */
  lemma {:induction false} HandledStatus(p: Policy, l: Life, acts: seq<Action>)
    requires l.place == Handling && l.status == RUNNING
    requires forall i | 0 <= i < |acts| :: acts[i] != Visit
    ensures var t := Run(p, l, acts);
            && t.place in {Handling, Ending, Done} && (t.place == Handling ==> t.status == RUNNING)
            && t.status in {RUNNING, OnCancel(p, false), OnCancel(p, true)}
            && (l.shuttingDown ==> t.shuttingDown)
            && (l.shuttingDown && (forall i | 0 <= i < |acts| :: acts[i] != UserCancel) ==>
                  t.status in {RUNNING, OnCancel(p, true)})
  {
    if acts != [] {
      HandledStatus(p, l, acts[..|acts| - 1]);
      assert acts[|acts| - 1] != Visit;
    }
  }
}

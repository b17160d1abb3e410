/** The two views of an execution agree: what the composed pipeline computes for a run that
    nobody else writes to is what some run of the lifecycle machine does. So the lifecycle's
    theorems about every interleaving are about this pipeline. */
module PipelineLifecycle {
  import opened Options
  import opened Tasks
  import P = Pipeline
  import L = Lifecycle

  function PolicyOf(u: P.Setup): L.Policy {
    L.Policy(true, u.config.requeueOnInterrupt, true)
  }

  /** A queued task whose execution is about to begin. */
  function Queued(u: P.Setup): L.Life {
    L.Life(PENDING, L.Waiting, L.Absent, u.world.shuttingDown, false, 0, L.Untouched)
  }

  function After(u: P.Setup, acts: seq<L.Action>): L.Life {
    L.Run(PolicyOf(u), Queued(u), acts)
  }

  lemma Then(u: P.Setup, acts: seq<L.Action>, a: L.Action)
    ensures After(u, acts + [a]) == L.Step(PolicyOf(u), After(u, acts), a)
  {
    assert (acts + [a])[..|acts|] == acts;
  }

  /** k attempts have raised, and their logs are drained. */
  predicate AtGate(u: P.Setup, l: L.Life, k: nat) {
    l == Queued(u).(status := RUNNING, place := if k == 0 then L.Announcing else L.Draining,
                    handle := if k == 0 then L.Absent else L.Over, starts := k)
  }

  /** The function runs for the k-th time. */
  predicate InAttempt(u: P.Setup, l: L.Life, k: nat) {
    l == Queued(u).(status := RUNNING, place := L.Running, handle := L.Live, starts := k)
  }

  lemma StartAttempt(u: P.Setup, acts: seq<L.Action>, k: nat) returns (more: seq<L.Action>)
    requires AtGate(u, After(u, acts), k)
    ensures InAttempt(u, After(u, more), k + 1)
  {
    more := acts;
    if k > 0 {
      Then(u, more, L.Retry);
      more := more + [L.Retry];
    }
    Then(u, more, L.Dispatch);
    more := more + [L.Dispatch];
  }

  lemma {:induction false} ReachGate(u: P.Setup, k: nat) returns (acts: seq<L.Action>)
    ensures AtGate(u, After(u, acts), k)
  {
    if k == 0 {
      acts := [];
      Then(u, acts, L.Begin);
      Then(u, acts + [L.Begin], L.Checked(false));
      acts := acts + [L.Begin] + [L.Checked(false)];
    } else {
      acts := ReachGate(u, k - 1);
      acts := StartAttempt(u, acts, k - 1);
      Then(u, acts, L.AttemptOver);
      acts := acts + [L.AttemptOver];
    }
  }

  predicate Ends(u: P.Setup, acts: seq<L.Action>, status: Status, starts: nat) {
    var l := After(u, acts);
    l.place == L.Done && l.handle == L.Absent && l.status == status && l.starts == starts
  }

  /** A run that finishes and writes its last status. */
  lemma FinishRun(u: P.Setup, acts: seq<L.Action>, ok: bool) returns (more: seq<L.Action>)
    requires After(u, acts).place in {L.Announcing, L.Running, L.Draining} && After(u, acts).status == RUNNING
    ensures Ends(u, more, if ok then SUCCESS else FAILED, After(u, acts).starts)
  {
    Then(u, acts, L.Finish(ok));
    Then(u, acts + [L.Finish(ok)], L.Settle);
    more := acts + [L.Finish(ok)] + [L.Settle];
  }

  /** A run that is cancelled at the function, the logs or the sleep. */
  lemma CancelRun(u: P.Setup, acts: seq<L.Action>) returns (more: seq<L.Action>)
    requires After(u, acts).place in {L.Running, L.Draining, L.Sleeping} && After(u, acts).status == RUNNING
    requires After(u, acts).shuttingDown == u.world.shuttingDown
    ensures Ends(u, more, P.Interrupting(u, RUNNING), After(u, acts).starts)
  {
    Then(u, acts, L.Cancel);
    more := acts + [L.Cancel];
    if u.world.handling {
      Then(u, more, L.Cancel);
      more := more + [L.Cancel];
    } else {
      Then(u, more, L.Handle);
      Then(u, more + [L.Handle], L.Settle);
      more := more + [L.Handle] + [L.Settle];
    }
  }

  /** The last attempt of a run that stops there. */
  lemma LastAttempt(u: P.Setup, acts: seq<L.Action>, k: nat) returns (more: seq<L.Action>)
    requires P.StopsAt(u, k) && k < P.Allowed(u) && P.Starts(u.world, k) && InAttempt(u, After(u, acts), k + 1)
    ensures Ends(u, more, if P.Completes(u, k) then SUCCESS else if P.GivesUp(u, k) then FAILED
                          else P.Interrupting(u, RUNNING), k + 1)
  {
    var a := u.world.attempts(k);
    if a.outcome.Interrupted? {
      more := FinishRun(u, acts, k == 0);
    } else if a.outcome.Cancelled? {
      more := CancelRun(u, acts);
    } else {
      Then(u, acts, L.AttemptOver);
      if a.drainCancelled {
        more := CancelRun(u, acts + [L.AttemptOver]);
      } else {
        more := FinishRun(u, acts + [L.AttemptOver], true);
      }
    }
  }

  /** For every world in which nobody else writes the record: the status the pipeline leaves
      and the number of its dispatches are those of a run of the lifecycle machine. */
  lemma PipelineIsALifecycle(u: P.Setup, s: P.RunState) returns (acts: seq<L.Action>)
    requires s.lastError == None && !s.succeeded && s.dispatches == 0
    requires forall i: nat :: u.world.attempts(i).meanwhile == None
    ensures var (t, flow) := P.ChainSpec(P.Inner, u, s);
            Ends(u, acts, t.status, t.dispatches)
  {
    if u.world.starting {
      acts := ReachGate(u, 0);
      Then(u, acts, L.Cancel);
      acts := acts + [L.Cancel];
    } else {
      var k := P.SomeStop(u, 0);
      P.RunVerdict(u, s, k);
      P.NobodyWrote(u.world, RUNNING, P.Made(u, k));
      acts := ReachGate(u, k);
      if k == P.Allowed(u) {
        acts := FinishRun(u, acts, k == 0);
      } else if !P.Starts(u.world, k) {
        Then(u, acts, L.Retry);
        acts := CancelRun(u, acts + [L.Retry]);
      } else {
        acts := StartAttempt(u, acts, k);
        acts := LastAttempt(u, acts, k);
      }
    }
  }
}

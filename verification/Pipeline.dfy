/** One execution of one task: idempotency around logging around retry around dispatch,
    all writing one execution context and the task's record. What the outside world does at
    each await is an input, so every theorem is for every outcome of every await. */
module Pipeline {
  import opened Options
  import opened Tasks

  type Error = string

  /** How awaiting the dispatched function ends. Interrupted: the process worker was killed by
      SIGINT. */
  datatype Outcome = Returned | Raised(error: Error) | Interrupted | Cancelled

  /** Attempt k of the run: is the execution cancelled in the sleep before it, or while its log
      futures are drained; and which status did somebody else write while it was dispatched. */
  datatype Attempt = Attempt(sleepCancelled: bool, outcome: Outcome, drainCancelled: bool, meanwhile: Option<Status>)

  /** A backend call answers, raises, or is cut short by a cancellation. */
  datatype Reply = Answers | Fails | CutShort

  /** The world of one run. starting, handling and ending say whether a cancellation arrives
      at the RUNNING lifecycle event, inside the cancellation handler, or at the events and
      callbacks after the final status; shuttingDown is the store's flag when the handler
      reads it. */
  datatype World = World(
    check: Reply, starting: bool, attempts: nat -> Attempt, shuttingDown: bool,
    handling: bool, ending: bool, record: Reply)

  datatype Config = Config(retries: int, delay: real, backoff: real, requeueOnInterrupt: bool)

  /** What never changes during a run. The empty key is no key. */
  datatype Setup = Setup(config: Config, taskId: string, key: string, backend: bool, world: World)

  /** The mutable part: the context's fields, the record's, the entry in the table of running
      tasks, and the backend's key table. dispatches and sleeps are histories. */
  datatype RunState = RunState(
    attempt: int, lastError: Option<Error>, succeeded: bool,
    status: Status, retriesUsed: int, error: Option<Error>,
    registered: bool, keys: map<string, string>,
    dispatches: nat, sleeps: seq<real>)

  datatype Flow = Normal | Failure(error: Error) | Stopped | Cancel

  datatype Layer = Idempotency | Logging | Retry

  /** A composed pipeline: a layer and the closure it calls next. */
  datatype Chain = Endpoint | Around(layer: Layer, next: Chain)

  function Layers(c: Chain): seq<Layer> {
    match c
    case Endpoint => []
    case Around(layer, next) => [layer] + Layers(next)
  }

  const Default := Around(Idempotency, Around(Logging, Around(Retry, Endpoint)))

  /** build_pipeline: wraps from the innermost layer outwards. */
  method BuildPipeline(layers: seq<Layer>) returns (chain: Chain)
    ensures Layers(chain) == layers
  {
    chain := Endpoint;
    var i := |layers|;
    while i > 0
      invariant 0 <= i <= |layers|
      invariant Layers(chain) == layers[i..]
    {
      i := i - 1;
      chain := Around(layers[i], chain);
    }
  }

  /** The layers of a chain determine it, so the default list is run as Default. */
  lemma {:induction false} LayersDetermine(c: Chain, d: Chain)
    requires Layers(c) == Layers(d)
    ensures c == d
  {
    if c.Around? && d.Around? {
      assert Layers(c)[1..] == Layers(c.next) && Layers(d)[1..] == Layers(d.next);
      LayersDetermine(c.next, d.next);
    }
  }

  // ---- The specification ----

  function DispatchSpec(u: Setup, s: RunState): (RunState, Flow) {
    var a := u.world.attempts(if s.attempt < 0 then 0 else s.attempt);
    var t := s.(registered := true, dispatches := s.dispatches + 1,
                status := if a.meanwhile.Some? then a.meanwhile.value else s.status);
    (t, match a.outcome
        case Returned => Normal
        case Raised(e) => Failure(e)
        case Interrupted => Stopped
        case Cancelled => Cancel)
  }

  /** One turn of the retry loop; no flow means that the loop goes on. */
  function AttemptSpec(next: Chain, u: Setup, s: RunState, attempt: nat, delay: real): (RunState, Option<Flow>)
    decreases next, 1
  {
    var a := u.world.attempts(attempt);
    var s1 := s.(attempt := attempt);
    if attempt > 0 && a.sleepCancelled then (s1, Some(Cancel))
    else
      var s2 := if attempt > 0 then s1.(sleeps := s1.sleeps + [delay], retriesUsed := attempt) else s1;
      var (t, flow) := ChainSpec(next, u, s2);
      match flow
      case Normal => if a.drainCancelled then (t, Some(Cancel)) else (t.(lastError := None), Some(Normal))
      case Cancel => (t, Some(Cancel))
      case Stopped => (t, Some(Normal))
      case Failure(e) => if a.drainCancelled then (t, Some(Cancel)) else (t.(lastError := Some(e)), None)
  }

  /** The delay grows at each sleep, and there is none before the first attempt. */
  function NextDelay(u: Setup, attempt: nat, delay: real): real {
    if attempt > 0 then delay * u.config.backoff else delay
  }

  function RetrySpec(next: Chain, u: Setup, s: RunState, attempt: nat, delay: real): (RunState, Flow)
    decreases next, 2, u.config.retries + 1 - attempt
  {
    if attempt >= u.config.retries + 1 then (s, Normal)
    else
      var (t, done) := AttemptSpec(next, u, s, attempt, delay);
      if done.Some? then (t, done.value)
      else RetrySpec(next, u, t, attempt + 1, NextDelay(u, attempt, delay))
  }

  /** The cancellation handler. */
  function Interrupting(u: Setup, status: Status): Status {
    if u.world.handling || status != RUNNING then status
    else Interrupt(u.world.shuttingDown, u.config.requeueOnInterrupt)
  }

  function FinaliseSpec(u: Setup, s: RunState): (RunState, Flow) {
    var flow := if u.world.ending then Cancel else Normal;
    if s.lastError.None? then (s.(succeeded := true, status := SUCCESS), flow)
    else if s.status != RUNNING then (s, Normal)
    else (s.(status := FAILED, error := s.lastError), flow)
  }

  function LoggingSpec(next: Chain, u: Setup, s: RunState): (RunState, Flow)
    decreases next, 3
  {
    var s1 := s.(status := RUNNING);
    if u.world.starting then (s1, Cancel)
    else
      var (t, flow) := ChainSpec(next, u, s1);
      match flow
      case Normal => FinaliseSpec(u, t)
      case Cancel => (t.(status := Interrupting(u, t.status)), Cancel)
      case _ => (t, flow)
  }

  /** The key is recorded for another task than this one. */
  predicate OwnedByOther(keys: map<string, string>, key: string, id: string) {
    key in keys && keys[key] != id
  }

  predicate TakenElsewhere(u: Setup, keys: map<string, string>) {
    OwnedByOther(keys, u.key, u.taskId)
  }

  /** INSERT OR IGNORE. */
  function Recorded(keys: map<string, string>, key: string, id: string): map<string, string> {
    if key in keys then keys else keys[key := id]
  }

  function IdempotencySpec(next: Chain, u: Setup, s: RunState): (RunState, Flow)
    decreases next, 1
  {
    var keyed := u.key != "" && u.backend;
    if keyed && u.world.check.CutShort? then (s, Cancel)
    else if keyed && u.world.check.Answers? && TakenElsewhere(u, s.keys) then (s.(status := SUCCESS), Normal)
    else
      var (t, flow) := ChainSpec(next, u, s);
      if flow.Normal? && t.succeeded && keyed then
        match u.world.record
        case Answers => (t.(keys := Recorded(t.keys, u.key, u.taskId)), Normal)
        case Fails => (t, Normal)
        case CutShort => (t, Cancel)
      else (t, flow)
  }

  function ChainSpec(c: Chain, u: Setup, s: RunState): (RunState, Flow)
    decreases c, 0
  {
    match c
    case Endpoint => DispatchSpec(u, s)
    case Around(Idempotency, next) => IdempotencySpec(next, u, s)
    case Around(Logging, next) => LoggingSpec(next, u, s)
    case Around(Retry, next) => RetrySpec(next, u, s, 0, u.config.delay)
  }

  // ---- The objects ----

  class KeyTable {
    var keys: map<string, string>

    constructor ()
      ensures keys == map[]
    {
      keys := map[];
    }

    method RecordKey(key: string, id: string)
      modifies this
      ensures keys == Recorded(old(keys), key, id)
    {
      if key !in keys {
        keys := keys[key := id];
      }
    }
  }

  class Record {
    var status: Status
    var retriesUsed: int
    var error: Option<Error>

    constructor ()
      ensures status == PENDING && retriesUsed == 0 && error == None
    {
      status, retriesUsed, error := PENDING, 0, None;
    }
  }

  class ExecContext {
    const setup: Setup
    const record: Record
    const table: KeyTable
    var attempt: int
    var lastError: Option<Error>
    var succeeded: bool
    var registered: bool
    ghost var dispatches: nat
    ghost var sleeps: seq<real>

    ghost function View(): RunState
      reads this, record, table
    {
      RunState(attempt, lastError, succeeded, record.status, record.retriesUsed, record.error,
               registered, table.keys, dispatches, sleeps)
    }

    constructor (setup: Setup, record: Record, table: KeyTable)
      ensures this.setup == setup && this.record == record && this.table == table
      ensures View() == Fresh(record.status, record.retriesUsed, record.error, table.keys)
    {
      this.setup := setup;
      this.record := record;
      this.table := table;
      attempt, lastError, succeeded, registered, dispatches, sleeps := 0, None, false, false, 0, [];
    }

    /** execute_task: the entry in the table of running tasks is gone however the run ends. */
    method Execute() returns (flow: Flow)
      modifies this, record, table
      ensures (View().(registered := true), flow) ==
              var (t, f) := ChainSpec(Default, setup, old(View())); (t.(registered := true), f)
      ensures !registered
    {
      var chain := BuildPipeline([Idempotency, Logging, Retry]);
      LayersDetermine(chain, Default);
      flow := RunChain(chain);
      registered := false;
    }

    method RunChain(chain: Chain) returns (flow: Flow)
      modifies this, record, table
      ensures (View(), flow) == ChainSpec(chain, setup, old(View()))
      decreases chain, 0
    {
      match chain
      case Endpoint =>
        flow := Dispatch();
      case Around(Idempotency, next) =>
        flow := RunIdempotency(next);
      case Around(Logging, next) =>
        flow := RunLogging(next);
      case Around(Retry, next) =>
        flow := RunRetry(next);
    }

    method Dispatch() returns (flow: Flow)
      modifies this, record
      ensures (View(), flow) == DispatchSpec(setup, old(View()))
    {
      registered := true;
      dispatches := dispatches + 1;
      var a := setup.world.attempts(if attempt < 0 then 0 else attempt);
      if a.meanwhile.Some? {
        record.status := a.meanwhile.value;
      }
      match a.outcome
      case Returned => flow := Normal;
      case Raised(e) => flow := Failure(e);
      case Interrupted => flow := Stopped;
      case Cancelled => flow := Cancel;
    }

    method RunRetry(next: Chain) returns (flow: Flow)
      modifies this, record, table
      ensures (View(), flow) == RetrySpec(next, setup, old(View()), 0, setup.config.delay)
      decreases next, 2
    {
      var delay := setup.config.delay;
      var i := 0;
      while i < setup.config.retries + 1
        invariant 0 <= i
        invariant RetrySpec(next, setup, View(), i, delay) == RetrySpec(next, setup, old(View()), 0, setup.config.delay)
      {
        var done;
        done, delay := RunAttempt(next, i, delay);
        if done.Some? {
          return done.value;
        }
        i := i + 1;
      }
      return Normal;
    }

    /** The body of the retry loop. */
    method RunAttempt(next: Chain, i: nat, delay: real) returns (done: Option<Flow>, nextDelay: real)
      modifies this, record, table
      ensures (View(), done) == AttemptSpec(next, setup, old(View()), i, delay)
      ensures done.None? ==> nextDelay == NextDelay(setup, i, delay)
      decreases next, 1
    {
      nextDelay := delay;
      attempt := i;
      if i > 0 {
        if setup.world.attempts(i).sleepCancelled {
          return Some(Cancel), delay;
        }
        sleeps := sleeps + [delay];
        nextDelay := delay * setup.config.backoff;
        record.retriesUsed := i;
      }
      var flow := RunChain(next);
      match flow
      case Normal =>
        if setup.world.attempts(i).drainCancelled {
          return Some(Cancel), nextDelay;
        }
        lastError := None;
        done := Some(Normal);
      case Cancel =>
        done := Some(Cancel);
      case Stopped =>
        done := Some(Normal);
      case Failure(e) =>
        if setup.world.attempts(i).drainCancelled {
          return Some(Cancel), nextDelay;
        }
        lastError := Some(e);
        done := None;
    }

    method RunLogging(next: Chain) returns (flow: Flow)
      modifies this, record, table
      ensures (View(), flow) == LoggingSpec(next, setup, old(View()))
      decreases next, 1
    {
      record.status := RUNNING;
      if setup.world.starting {
        return Cancel;
      }
      flow := RunChain(next);
      match flow
      case Normal =>
        flow := Finalise();
      case Cancel =>
        if !setup.world.handling && record.status == RUNNING {
          if setup.world.shuttingDown {
            if setup.config.requeueOnInterrupt {
              record.status := PENDING;
            }
          } else {
            record.status := CANCELLED;
          }
        }
      case _ =>
    }

    method Finalise() returns (flow: Flow)
      modifies this, record
      ensures (View(), flow) == FinaliseSpec(setup, old(View()))
    {
      if lastError.None? {
        succeeded := true;
        record.status := SUCCESS;
      } else {
        if record.status != RUNNING {
          return Normal;
        }
        record.status := FAILED;
        record.error := lastError;
      }
      flow := if setup.world.ending then Cancel else Normal;
    }

    method RunIdempotency(next: Chain) returns (flow: Flow)
      modifies this, record, table
      ensures (View(), flow) == IdempotencySpec(next, setup, old(View()))
      decreases next, 1
    {
      var keyed := setup.key != "" && setup.backend;
      if keyed {
        match setup.world.check
        case CutShort =>
          return Cancel;
        case Fails =>
        case Answers =>
          if TakenElsewhere(setup, table.keys) {
            record.status := SUCCESS;
            return Normal;
          }
      }
      flow := RunChain(next);
      if flow.Normal? && succeeded && keyed {
        match setup.world.record
        case CutShort => flow := Cancel;
        case Fails =>
        case Answers => table.RecordKey(setup.key, setup.taskId);
      }
    }
  }

  function Fresh(status: Status, retriesUsed: int, error: Option<Error>, keys: map<string, string>): RunState {
    RunState(0, None, false, status, retriesUsed, error, false, keys, 0, [])
  }

  // ---- What a run comes to ----

  /** range(retries + 1) is empty for a negative number. */
  function Allowed(u: Setup): nat {
    if u.config.retries < 0 then 0 else u.config.retries + 1
  }

  /** The sleep before attempt k completed. */
  predicate Starts(w: World, k: nat) {
    k > 0 ==> !w.attempts(k).sleepCancelled
  }

  /** Attempt k, if reached, raises and is followed by the next one. */
  predicate RaisesOn(w: World, k: nat) {
    Starts(w, k) && w.attempts(k).outcome.Raised? && !w.attempts(k).drainCancelled
  }

  predicate Succeeds(w: World, k: nat) {
    Starts(w, k) && w.attempts(k).outcome.Returned? && !w.attempts(k).drainCancelled
  }

  predicate IsInterrupted(w: World, k: nat) {
    Starts(w, k) && w.attempts(k).outcome.Interrupted?
  }

  /** k is the first attempt that does not merely raise, or the number allowed. */
  ghost predicate StopsAt(u: Setup, k: nat) {
    && k <= Allowed(u) && (forall i | 0 <= i < k :: RaisesOn(u.world, i))
    && (k < Allowed(u) ==> !RaisesOn(u.world, k))
  }

  lemma {:induction false} SomeStop(u: Setup, from: nat) returns (k: nat)
    requires from <= Allowed(u) && forall i | 0 <= i < from :: RaisesOn(u.world, i)
    ensures StopsAt(u, k)
    decreases Allowed(u) - from
  {
    if from < Allowed(u) && RaisesOn(u.world, from) {
      k := SomeStop(u, from + 1);
    } else {
      k := from;
    }
  }

  function Power(b: real, n: nat): real {
    if n == 0 then 1.0 else Power(b, n - 1) * b
  }

  /** The first n sleeps: delay, delay * backoff, delay * backoff^2, ... */
  function Delays(u: Setup, n: nat): seq<real> {
    seq(n, i requires i >= 0 => u.config.delay * Power(u.config.backoff, i))
  }

  function Sum(xs: seq<real>): real {
    if xs == [] then 0.0 else Sum(xs[..|xs| - 1]) + xs[|xs| - 1]
  }

  /** The record's status after n dispatches, as others left it. */
  function StatusAfter(w: World, status: Status, n: nat): Status {
    if n == 0 then status
    else if w.attempts(n - 1).meanwhile.Some? then w.attempts(n - 1).meanwhile.value
    else StatusAfter(w, status, n - 1)
  }

  /** Dispatches made by a run that stops at attempt k. */
  function Made(u: Setup, k: nat): nat {
    if k < Allowed(u) && Starts(u.world, k) then k + 1 else k
  }

  /** The state once k attempts have raised. */
  ghost function AfterRaises(u: Setup, s: RunState, k: nat): RunState
    requires forall i | 0 <= i < k :: RaisesOn(u.world, i)
  {
    if k == 0 then s
    else
      assert RaisesOn(u.world, k - 1);
      s.(attempt := k - 1, lastError := Some(u.world.attempts(k - 1).outcome.error),
         status := StatusAfter(u.world, s.status, k),
         retriesUsed := if k == 1 then s.retriesUsed else k - 1,
         registered := true, dispatches := s.dispatches + k, sleeps := s.sleeps + Delays(u, k - 1))
  }

  /** The value of the loop's delay variable before attempt k. */
  function DelayBefore(u: Setup, k: nat): real {
    u.config.delay * Power(u.config.backoff, if k == 0 then 0 else k - 1)
  }

  lemma DelaysGrow(u: Setup, k: nat)
    requires k > 0
    ensures Delays(u, k) == Delays(u, k - 1) + [DelayBefore(u, k)]
    ensures DelayBefore(u, k) * u.config.backoff == DelayBefore(u, k + 1)
  {
    var d, p, b := u.config.delay, Power(u.config.backoff, k - 1), u.config.backoff;
    assert (d * p) * b == d * (p * b);
    var longer, shorter := Delays(u, k), Delays(u, k - 1) + [DelayBefore(u, k)];
    assert |longer| == |shorter| && forall i | 0 <= i < k :: longer[i] == shorter[i];
  }

  lemma OneMoreRaise(u: Setup, s: RunState, k: nat)
    requires forall i | 0 <= i <= k :: RaisesOn(u.world, i)
    ensures AttemptSpec(Endpoint, u, AfterRaises(u, s, k), k, DelayBefore(u, k)) == (AfterRaises(u, s, k + 1), None)
    ensures NextDelay(u, k, DelayBefore(u, k)) == DelayBefore(u, k + 1)
  {
    assert RaisesOn(u.world, k);
    if k > 0 {
      DelaysGrow(u, k);
      assert s.sleeps + Delays(u, k - 1) + [DelayBefore(u, k)] == s.sleeps + Delays(u, k);
    } else {
      assert s.sleeps + Delays(u, 0) == s.sleeps;
    }
  }

  lemma {:induction false} RetryReaches(u: Setup, s: RunState, k: nat)
    requires k <= Allowed(u) && forall i | 0 <= i < k :: RaisesOn(u.world, i)
    ensures RetrySpec(Endpoint, u, s, 0, u.config.delay) ==
            RetrySpec(Endpoint, u, AfterRaises(u, s, k), k, DelayBefore(u, k))
  {
    if k > 0 {
      RetryReaches(u, s, k - 1);
      OneMoreRaise(u, s, k - 1);
    }
  }

  const Inner := Around(Logging, Around(Retry, Endpoint))

  /** The run ends with no error to report: nothing was allowed, an attempt returned, or the
      first attempt was interrupted. */
  predicate Completes(u: Setup, k: nat) {
    Allowed(u) == 0 || (k < Allowed(u) && Succeeds(u.world, k)) || (k == 0 && IsInterrupted(u.world, 0))
  }

  /** The run ends with the error of attempt k - 1. */
  predicate GivesUp(u: Setup, k: nat) {
    k > 0 && (k == Allowed(u) || IsInterrupted(u.world, k))
  }

  /** The state in which the retry loop hands over. */
  ghost predicate HandedOver(u: Setup, s: RunState, k: nat, t: RunState, flow: Flow) {
    && t.dispatches == s.dispatches + Made(u, k)
    && t.sleeps == s.sleeps + Delays(u, if Made(u, k) == 0 then 0 else Made(u, k) - 1)
    && t.retriesUsed == (if Made(u, k) <= 1 then s.retriesUsed else Made(u, k) - 1)
    && t.status == StatusAfter(u.world, s.status, Made(u, k))
    && t.succeeded == s.succeeded && t.error == s.error && t.keys == s.keys
    && t.registered == (s.registered || Made(u, k) > 0)
    && (Completes(u, k) <==> flow == Normal && t.lastError == None)
    && (GivesUp(u, k) <==> flow == Normal && t.lastError != None)
    && (GivesUp(u, k) ==>
          var last := u.world.attempts(k - 1).outcome; last.Raised? && t.lastError == Some(last.error))
    && (flow == Normal || flow == Cancel)
  }

  lemma RetryHandsOver(u: Setup, s: RunState, k: nat)
    requires StopsAt(u, k) && s.lastError == None
    ensures var (t, flow) := ChainSpec(Around(Retry, Endpoint), u, s); HandedOver(u, s, k, t, flow)
  {
    RetryReaches(u, s, k);
    assert s.sleeps + Delays(u, 0) == s.sleeps;
    if k > 0 {
      assert RaisesOn(u.world, k - 1);
    }
    if k < Allowed(u) {
      LastAttempt(u, s, k);
    }
  }

  lemma LastAttempt(u: Setup, s: RunState, k: nat)
    requires StopsAt(u, k) && s.lastError == None && k < Allowed(u)
    ensures var (t, done) := AttemptSpec(Endpoint, u, AfterRaises(u, s, k), k, DelayBefore(u, k));
            done.Some? && HandedOver(u, s, k, t, done.value)
  {
    assert s.sleeps + Delays(u, 0) == s.sleeps;
    if k > 0 {
      assert RaisesOn(u.world, k - 1);
      DelaysGrow(u, k);
      assert s.sleeps + Delays(u, k - 1) + [DelayBefore(u, k)] == s.sleeps + Delays(u, k);
    }
  }

  /** The whole verdict on a run past the idempotency check, for every world: how often the
      function is dispatched, how long each sleep is, and the final status. Of the three ways a
      run can end, exactly one applies. */
  lemma RunVerdict(u: Setup, s: RunState, k: nat)
    requires StopsAt(u, k) && s.lastError == None && !s.succeeded && !u.world.starting
    ensures var (t, flow) := ChainSpec(Inner, u, s);
            var seen := StatusAfter(u.world, RUNNING, Made(u, k));
            && t.dispatches == s.dispatches + Made(u, k)
            && t.sleeps == s.sleeps + Delays(u, if Made(u, k) == 0 then 0 else Made(u, k) - 1)
            && t.retriesUsed == (if Made(u, k) <= 1 then s.retriesUsed else Made(u, k) - 1)
            && t.keys == s.keys && t.succeeded == Completes(u, k)
            && t.registered == (s.registered || Made(u, k) > 0)
            && !(Completes(u, k) && GivesUp(u, k))
            && (Completes(u, k) || (GivesUp(u, k) && seen == RUNNING) ==>
                  flow == if u.world.ending then Cancel else Normal)
            && (Completes(u, k) ==> t.status == SUCCESS && t.error == s.error)
            && (GivesUp(u, k) && seen == RUNNING ==>
                  u.world.attempts(k - 1).outcome.Raised? &&
                  t.status == FAILED && t.error == Some(u.world.attempts(k - 1).outcome.error))
            && (GivesUp(u, k) && seen != RUNNING ==> t.status == seen && t.error == s.error)
            && (!Completes(u, k) && !GivesUp(u, k) ==>
                  flow == Cancel && t.status == Interrupting(u, seen) && t.error == s.error)
  {
    RetryHandsOver(u, s.(status := RUNNING), k);
  }

  /** No cancellation, no interruption, nobody else writing the record. */
  ghost predicate Undisturbed(u: Setup) {
    && u.config.retries >= 0 && !u.world.starting && !u.world.ending
    && u.world.check != CutShort && u.world.record != CutShort
    && forall i | 0 <= i < Allowed(u) ::
         var a := u.world.attempts(i);
         !a.sleepCancelled && !a.drainCancelled && a.meanwhile == None && (a.outcome.Returned? || a.outcome.Raised?)
  }

  lemma {:induction false} NobodyWrote(w: World, status: Status, n: nat)
    requires forall i | 0 <= i < n :: w.attempts(i).meanwhile == None
    ensures StatusAfter(w, status, n) == status
  {
    if n > 0 {
      NobodyWrote(w, status, n - 1);
    }
  }

  /** An undisturbed run: attempts up to the first success or the number allowed, SUCCESS
      exactly if one of them succeeds and else FAILED with the last error, one retry and one
      sleep less than attempts. first is the index of the first success, or the number allowed. */
  lemma UndisturbedRun(u: Setup, status: Status, keys: map<string, string>, first: nat)
    requires Undisturbed(u) && first <= Allowed(u)
    requires u.key != "" && u.backend ==>
               u.world.check == Fails || !(u.key in keys && keys[u.key] != u.taskId)
    requires forall i | 0 <= i < first :: u.world.attempts(i).outcome.Raised?
    requires first < Allowed(u) ==> u.world.attempts(first).outcome.Returned?
    ensures var (t, flow) := ChainSpec(Default, u, Fresh(status, 0, None, keys));
            && flow == Normal
            && t.dispatches == (if first + 1 < u.config.retries + 1 then first + 1 else u.config.retries + 1)
            && (t.status == SUCCESS <==> exists i :: 0 <= i < Allowed(u) && u.world.attempts(i).outcome.Returned?)
            && var last := u.world.attempts(t.dispatches - 1).outcome;
            && (t.status != SUCCESS ==> t.status == FAILED && last.Raised? && t.error == Some(last.error))
            && t.retriesUsed == t.dispatches - 1 && t.sleeps == Delays(u, t.dispatches - 1)
  {
    var s := Fresh(status, 0, None, keys);
    forall i | 0 <= i < first ensures RaisesOn(u.world, i) {
      assert u.world.attempts(i).outcome.Raised?;
    }
    IdempotentRun(u, s);
    RunVerdict(u, s, first);
    NobodyWrote(u.world, RUNNING, Made(u, first));
    assert s.sleeps + Delays(u, Made(u, first) - 1) == Delays(u, Made(u, first) - 1);
  }

  /** 1 + b + ... + b^(n - 1). */
  function Series(b: real, n: nat): real {
    if n == 0 then 0.0 else Series(b, n - 1) + Power(b, n - 1)
  }

  lemma {:induction false} SeriesClosedForm(b: real, n: nat)
    ensures Series(b, n) * (b - 1.0) == Power(b, n) - 1.0
    ensures b == 1.0 ==> Power(b, n) == 1.0 && Series(b, n) == n as real
  {
    if n > 0 {
      SeriesClosedForm(b, n - 1);
      assert (Series(b, n - 1) + Power(b, n - 1)) * (b - 1.0) ==
             Series(b, n - 1) * (b - 1.0) + Power(b, n - 1) * b - Power(b, n - 1);
    }
  }

  lemma {:induction false} SleepsAreTheSeries(u: Setup, n: nat)
    ensures Sum(Delays(u, n)) == u.config.delay * Series(u.config.backoff, n)
  {
    if n > 0 {
      SleepsAreTheSeries(u, n - 1);
      SumGrows(u, n);
    }
  }

  /** total is the sum of n sleeps: n delays with the default backoff of 1, and the closed
      geometric form with any other. */
  predicate ClosedForm(total: real, delay: real, backoff: real, n: nat) {
    && (backoff == 1.0 ==> total == n as real * delay)
    && total * (backoff - 1.0) == delay * (Power(backoff, n) - 1.0)
  }

  lemma ScaledSeries(total: real, delay: real, backoff: real, n: nat)
    requires total == delay * Series(backoff, n)
    ensures ClosedForm(total, delay, backoff, n)
  {
    var series, p := Series(backoff, n), Power(backoff, n);
    SeriesClosedForm(backoff, n);
    Associate(delay, series, backoff - 1.0);
    assert (delay * series) * (backoff - 1.0) == delay * (p - 1.0);
  }

  lemma Associate(a: real, b: real, c: real)
    ensures (a * b) * c == a * (b * c)
  {
  }

  /** The total of n sleeps is the delay times 1 + backoff + ... + backoff^(n - 1). */
  lemma TotalSleep(u: Setup, n: nat)
    ensures Sum(Delays(u, n)) == u.config.delay * Series(u.config.backoff, n)
    ensures ClosedForm(Sum(Delays(u, n)), u.config.delay, u.config.backoff, n)
  {
    SleepsAreTheSeries(u, n);
    ScaledSeries(Sum(Delays(u, n)), u.config.delay, u.config.backoff, n);
  }

  lemma SumGrows(u: Setup, n: nat)
    requires n > 0
    ensures Sum(Delays(u, n)) == Sum(Delays(u, n - 1)) + u.config.delay * Power(u.config.backoff, n - 1)
  {
    DelaysGrow(u, n);
    assert Delays(u, n)[..n - 1] == Delays(u, n - 1);
  }

  /** So an undisturbed run of n attempts sleeps for n - 1 delays in all, or for their geometric
      sum with a backoff. */
  lemma UndisturbedRunSleeps(u: Setup, status: Status, keys: map<string, string>, first: nat)
    requires Undisturbed(u) && first <= Allowed(u)
    requires u.key != "" && u.backend ==>
               u.world.check == Fails || !(u.key in keys && keys[u.key] != u.taskId)
    requires forall i | 0 <= i < first :: u.world.attempts(i).outcome.Raised?
    requires first < Allowed(u) ==> u.world.attempts(first).outcome.Returned?
    ensures var (t, flow) := ChainSpec(Default, u, Fresh(status, 0, None, keys));
            t.dispatches > 0 && ClosedForm(Sum(t.sleeps), u.config.delay, u.config.backoff, t.dispatches - 1)
  {
    UndisturbedRun(u, status, keys, first);
    TotalSleep(u, ChainSpec(Default, u, Fresh(status, 0, None, keys)).0.dispatches - 1);
  }

  /** The code's SUCCESS does not mean that the function returned: exactly when no attempt is
      allowed (retries < 0) or the first one is interrupted, a run finishes as SUCCESS without
      any attempt returning. */
  lemma SuccessWithoutReturnExactlyWhen(u: Setup, s: RunState, k: nat)
    requires StopsAt(u, k) && s.lastError == None && !s.succeeded && !u.world.starting
    ensures var (t, flow) := ChainSpec(Inner, u, s);
            t.succeeded && !(exists i :: 0 <= i < Made(u, k) && u.world.attempts(i).outcome.Returned?) <==>
            u.config.retries < 0 || u.world.attempts(0).outcome.Interrupted?
  {
    RunVerdict(u, s, k);
    forall i | 0 <= i < k ensures u.world.attempts(i).outcome.Raised? {
      assert RaisesOn(u.world, i);
    }
    if u.config.retries >= 0 && u.world.attempts(0).outcome.Interrupted? {
      assert k == 0;
    }
    if Completes(u, k) && Allowed(u) > 0 && k < Allowed(u) && Succeeds(u.world, k) {
      assert u.world.attempts(k).outcome.Returned?;
    }
  }

  // ---- The idempotency layer ----

  /** The outer layer in full. A run without a key, or without a backend, is that of the inner
      layers. A key recorded by another task, once seen, ends the run as SUCCESS without a
      dispatch, and a run cancelled at the check ends as it began; otherwise the inner layers run,
      and only a run that finished undisturbed as SUCCESS may record the key. A recorded key keeps
      its owner, and no other key changes. */
  lemma IdempotentRun(u: Setup, s: RunState)
    requires !s.succeeded
    ensures var (t, flow) := ChainSpec(Default, u, s);
            var (inner, innerFlow) := ChainSpec(Inner, u, s);
            var keyed := u.key != "" && u.backend;
            var taken := u.key in s.keys && s.keys[u.key] != u.taskId;
            && (!keyed ==> t == inner && flow == innerFlow)
            && (keyed && u.world.check.CutShort? ==> t == s && flow == Cancel)
            && (keyed && u.world.check.Answers? && taken ==> t == s.(status := SUCCESS) && flow == Normal)
            && (!(keyed && (u.world.check.CutShort? || (u.world.check.Answers? && taken))) ==>
                  && t.(keys := s.keys) == inner && (innerFlow != Normal ==> flow == innerFlow)
                  && (u.world.record != CutShort ==> flow == innerFlow))
            && (forall key | key in s.keys :: key in t.keys && t.keys[key] == s.keys[key])
            && (t.keys == s.keys || t.keys == s.keys[u.key := u.taskId])
            && (t.keys != s.keys <==>
                keyed && u.key !in s.keys && u.world.check != CutShort && u.world.record == Answers &&
                innerFlow == Normal && inner.succeeded)
  {
    SomeKeysKept(u, s);
  }

  /** The inner layers leave the key table alone. */
  lemma SomeKeysKept(u: Setup, s: RunState)
    ensures ChainSpec(Inner, u, s).0.keys == s.keys
  {
    if !u.world.starting {
      RetryKeepsKeys(u, s.(status := RUNNING), 0, u.config.delay);
    }
  }

  lemma {:induction false} RetryKeepsKeys(u: Setup, s: RunState, attempt: nat, delay: real)
    ensures RetrySpec(Endpoint, u, s, attempt, delay).0.keys == s.keys
    decreases u.config.retries + 1 - attempt
  {
    if attempt < u.config.retries + 1 {
      var (t, done) := AttemptSpec(Endpoint, u, s, attempt, delay);
      if done.None? {
        RetryKeepsKeys(u, t, attempt + 1, NextDelay(u, attempt, delay));
      }
    }
  }
}

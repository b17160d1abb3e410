/** The named queue as a state machine. One step is one stretch of code that nothing
    else can interleave with: a lock-protected section of enqueue or of the drainer, the
    stretch between two awaits on the event loop, or one call of update_queue_config.
    An action that is not enabled leaves the state alone, so every theorem here is about
    every sequence of actions whatever. */
module QueueProtocol {
  import opened Options
  import opened Heapq
  import opened TaskOrder

  /** A heap tuple: its rank is (-priority, sequence number), its value the task. */
  type Job = Item<int>

  datatype Config = Config(concurrency: Option<nat>, maxSize: Option<int>)

  /** Where the drainer coroutine stands.
      Waiting: at the event. Popping: about to take the heap lock. Holding: has popped.
      Blocked: suspended in acquire on the semaphore object it saw. Granted: that acquire
      has been given a permit, and the drainer has not resumed yet. */
  datatype Drainer =
    | Waiting
    | Popping
    | Holding(job: Job)
    | Blocked(sem: nat, job: Job)
    | Granted(job: Job)

  /** sem is the value of the semaphore object named semId, None when there is none.
      unsignalled counts enqueuers between their push and their set. accepted and
      dispatched are histories; no step reads them. */
  datatype State = State(
    config: Config,
    heap: set<Job>,
    seqNo: nat,
    rejected: nat,
    hasWork: bool,
    unsignalled: nat,
    semId: nat,
    sem: Option<nat>,
    drainer: Drainer,
    running: set<Job>,
    finished: set<Job>,
    accepted: seq<Job>,
    dispatched: seq<Job>)

  datatype Action =
    | Push(priority: Option<int>, task: int)
    | Signal
    | Wake
    | Clear
    | Pop(job: Job)
    | Acquire
    | Resume
    | Finish(job: Job)
    | Update(config: Config)

  function Initial(config: Config): State {
    State(config, {}, 0, 0, false, 0, 0, config.concurrency, Waiting, {}, {}, [], [])
  }

  ghost predicate IsNext(heap: set<Job>, job: Job) {
    job in heap && forall other | other in heap :: !other.rank.Before(job.rank)
  }

  predicate Full(s: State) {
    s.config.maxSize.Some? && |s.heap| >= s.config.maxSize.value
  }

  /** The drainer waits on the semaphore that finishing slots release. */
  predicate OnCurrent(s: State) {
    s.drainer.Blocked? && s.sem.Some? && s.drainer.sem == s.semId
  }

  function Dispatch(s: State, job: Job): State {
    s.(drainer := Popping, running := s.running + {job}, dispatched := s.dispatched + [job])
  }

  function Release(s: State): State {
    if s.sem.None? then s
    else if OnCurrent(s) then s.(drainer := Granted(s.drainer.job))
    else s.(sem := Some(s.sem.value + 1))
  }

  /** update_queue_config: whatever the change, a numeric cap gets a new semaphore. */
  function Reconfigure(s: State, config: Config): State {
    var s1 := s.(config := config);
    if config.concurrency.None? then s1.(sem := None)
    else
      var swapped := s1.(semId := s.semId + 1, sem := config.concurrency);
      if s.config.concurrency.None? || s.sem.None? then swapped
      else if config.concurrency.value > s.config.concurrency.value && OnCurrent(s) then
        swapped.(drainer := Granted(s.drainer.job))
      else swapped
  }

  function DoPush(s: State, priority: Option<int>, task: int): State {
    if Full(s) then s.(rejected := s.rejected + 1)
    else
      var job := Item(RankFor(priority, s.seqNo + 1), task);
      s.(seqNo := s.seqNo + 1, heap := s.heap + {job}, accepted := s.accepted + [job],
         unsignalled := s.unsignalled + 1)
  }

  function DoSignal(s: State): State {
    if s.unsignalled == 0 then s else s.(unsignalled := s.unsignalled - 1, hasWork := true)
  }

  function DoWake(s: State): State {
    if s.drainer.Waiting? && s.hasWork then s.(drainer := Popping) else s
  }

  function DoClear(s: State): State {
    if s.drainer.Popping? && s.heap == {} then s.(drainer := Waiting, hasWork := false) else s
  }

  ghost function DoPop(s: State, job: Job): State {
    if s.drainer.Popping? && IsNext(s.heap, job) then
      s.(heap := s.heap - {job}, drainer := Holding(job))
    else s
  }

  function DoAcquire(s: State): State {
    if !s.drainer.Holding? then s
    else if s.sem.None? then Dispatch(s, s.drainer.job)
    else if s.sem.value > 0 then Dispatch(s.(sem := Some(s.sem.value - 1)), s.drainer.job)
    else s.(drainer := Blocked(s.semId, s.drainer.job))
  }

  function DoResume(s: State): State {
    if s.drainer.Granted? then Dispatch(s, s.drainer.job) else s
  }

  function DoFinish(s: State, job: Job): State {
    if job in s.running then
      Release(s.(running := s.running - {job}, finished := s.finished + {job}))
    else s
  }

  ghost function Step(s: State, a: Action): State {
    match a
    case Push(priority, task) => DoPush(s, priority, task)
    case Signal => DoSignal(s)
    case Wake => DoWake(s)
    case Clear => DoClear(s)
    case Pop(job) => DoPop(s, job)
    case Acquire => DoAcquire(s)
    case Resume => DoResume(s)
    case Finish(job) => DoFinish(s, job)
    case Update(config) => Reconfigure(s, config)
  }

  ghost function Run(s: State, acts: seq<Action>): State {
    if acts == [] then s else Step(Run(s, acts[..|acts| - 1]), acts[|acts| - 1])
  }

  predicate NoUpdate(acts: seq<Action>) {
    forall i | 0 <= i < |acts| :: !acts[i].Update?
  }

  /** The popped task the drainer has not dispatched yet. */
  predicate Occupied(d: Drainer) {
    d.Holding? || d.Blocked? || d.Granted?
  }

  predicate Holds(d: Drainer, job: Job) {
    Occupied(d) && d.job == job
  }

  /** Free permits, slots in flight and the permit on its way to the drainer. */
  function Credit(s: State): int
    requires s.sem.Some?
  {
    s.sem.value + |s.running| + if s.drainer.Granted? then 1 else 0
  }

  /** In how many places a job is. */
  function Places(s: State, job: Job): nat {
    (if job in s.heap then 1 else 0) + (if Holds(s.drainer, job) then 1 else 0) +
    (if job in s.running then 1 else 0) + (if job in s.finished then 1 else 0)
  }

  /** An accepted job is in exactly one place, any other in none; the dispatched jobs are
      those in flight or finished, each dispatched once. */
  ghost predicate Placed(s: State, job: Job) {
    && Places(s, job) == (if job in s.accepted then 1 else 0)
    && (job in s.dispatched <==> job in s.running || job in s.finished)
  }

  ghost predicate Conserved(s: State) {
    && (forall job: Job :: Placed(s, job))
    && (forall i, j | 0 <= i < j < |s.dispatched| :: s.dispatched[i] != s.dispatched[j])
    && |s.accepted| == |s.heap| + (if Occupied(s.drainer) then 1 else 0) + |s.running| + |s.finished|
  }

  /** The i-th accepted task carries sequence number i. */
  ghost predicate Numbered(s: State) {
    && s.seqNo == |s.accepted|
    && forall i | 0 <= i < |s.accepted| :: s.accepted[i].rank.minor == i + 1
  }

  predicate Signalled(s: State) {
    s.heap != {} && !s.hasWork ==> s.unsignalled > 0
  }

  predicate PermitsOk(s: State) {
    && (s.sem.Some? <==> s.config.concurrency.Some?)
    && (s.sem.Some? ==> Credit(s) >= s.config.concurrency.value)
    && (OnCurrent(s) ==> s.sem.value == 0)
    && (s.drainer.Blocked? ==> s.drainer.sem <= s.semId)
  }

  ghost predicate Inv(s: State) {
    Conserved(s) && Numbered(s) && Signalled(s) && PermitsOk(s)
  }

  /** t keeps the invariant and, for a capped queue, the credit and the configuration of s. */
  ghost predicate Follows(s: State, t: State) {
    && Inv(t)
    && (s.sem.Some? ==> t.sem.Some? && Credit(t) == Credit(s) && t.semId == s.semId)
    && t.config == s.config
  }

  lemma PushFollows(s: State, priority: Option<int>, task: int)
    requires Inv(s)
    ensures Follows(s, DoPush(s, priority, task))
  {
    var t := DoPush(s, priority, task);
    if !Full(s) {
      var job := Item(RankFor(priority, s.seqNo + 1), task);
      assert Placed(s, job);
      forall other: Job
        ensures Placed(t, other)
      {
        assert Placed(s, other);
      }
    } else {
      forall other: Job
        ensures Placed(t, other)
      {
        assert Placed(s, other);
      }
    }
  }

  lemma PopFollows(s: State, job: Job)
    requires Inv(s)
    ensures Follows(s, DoPop(s, job))
  {
    var t := DoPop(s, job);
    forall other: Job
      ensures Placed(t, other)
    {
      assert Placed(s, other);
    }
  }

  lemma DispatchConserves(s: State, sem: Option<nat>)
    requires Conserved(s) && Occupied(s.drainer)
    ensures Conserved(Dispatch(s.(sem := sem), s.drainer.job))
    ensures |Dispatch(s.(sem := sem), s.drainer.job).running| == |s.running| + 1
  {
    var t := Dispatch(s.(sem := sem), s.drainer.job);
    assert Placed(s, s.drainer.job);
    assert |t.running| == |s.running| + 1;
    forall other: Job
      ensures Placed(t, other)
    {
      assert Placed(s, other);
    }
  }

  lemma BlockConserves(s: State)
    requires Conserved(s) && s.drainer.Holding?
    ensures Conserved(s.(drainer := Blocked(s.semId, s.drainer.job)))
  {
    forall other: Job
      ensures Placed(s.(drainer := Blocked(s.semId, s.drainer.job)), other)
    {
      assert Placed(s, other);
    }
  }

  lemma AcquireFollows(s: State)
    requires Inv(s)
    ensures Follows(s, DoAcquire(s))
  {
    if s.drainer.Holding? {
      if s.sem.None? {
        DispatchConserves(s, None);
      } else if s.sem.value > 0 {
        DispatchConserves(s, Some(s.sem.value - 1));
      } else {
        BlockConserves(s);
      }
    }
  }

  lemma ResumeFollows(s: State)
    requires Inv(s)
    ensures Follows(s, DoResume(s))
  {
    if s.drainer.Granted? {
      DispatchConserves(s, s.sem);
    }
  }

  lemma FinishFollows(s: State, job: Job)
    requires Inv(s)
    ensures Follows(s, DoFinish(s, job))
  {
    var t := DoFinish(s, job);
    assert Placed(s, job);
    forall other: Job
      ensures Placed(t, other)
    {
      assert Placed(s, other);
    }
  }

  lemma ReconfigureKeepsInv(s: State, config: Config)
    requires Inv(s)
    ensures Inv(Reconfigure(s, config))
  {
    var t := Reconfigure(s, config);
    forall other: Job
      ensures Placed(t, other)
    {
      assert Placed(s, other);
    }
  }

  /** The three steps that only move the event and the drainer. */
  lemma QuietFollows(s: State)
    requires Inv(s)
    ensures Follows(s, DoSignal(s)) && Follows(s, DoWake(s)) && Follows(s, DoClear(s))
  {
    forall other: Job
      ensures Placed(DoSignal(s), other) && Placed(DoWake(s), other) && Placed(DoClear(s), other)
    {
      assert Placed(s, other);
    }
  }

  lemma StepKeepsInv(s: State, a: Action)
    requires Inv(s)
    ensures Inv(Step(s, a))
    ensures !a.Update? ==> Follows(s, Step(s, a))
  {
    match a
    case Push(priority, task) => PushFollows(s, priority, task);
    case Signal => QuietFollows(s);
    case Wake => QuietFollows(s);
    case Clear => QuietFollows(s);
    case Pop(job) => PopFollows(s, job);
    case Acquire => AcquireFollows(s);
    case Resume => ResumeFollows(s);
    case Finish(job) => FinishFollows(s, job);
    case Update(config) => ReconfigureKeepsInv(s, config);
  }

  lemma {:induction false} RunKeepsInv(s: State, acts: seq<Action>)
    requires Inv(s)
    ensures Inv(Run(s, acts))
  {
    if acts != [] {
      RunKeepsInv(s, acts[..|acts| - 1]);
      StepKeepsInv(Run(s, acts[..|acts| - 1]), acts[|acts| - 1]);
    }
  }

  lemma InitialInv(config: Config)
    ensures Inv(Initial(config))
  {
    assert forall job: Job :: Placed(Initial(config), job);
  }

  // ---- No lost wake-up, conservation ----

  /** Whatever the enqueuers' threads do: a non-empty heap behind a clear event means some
      enqueuer still owes its set; in particular while the drainer waits. Every accepted
      task is waiting, in the drainer's hand, in flight or finished, and in one of these only. */
  lemma NoLostWakeUpAndConservation(config: Config, acts: seq<Action>)
    ensures var s := Run(Initial(config), acts);
            && (s.heap != {} && !s.hasWork ==> s.unsignalled > 0)
            && Conserved(s)
            && (forall i, j | 0 <= i < j < |s.accepted| :: s.accepted[i].rank != s.accepted[j].rank)
  {
    InitialInv(config);
    RunKeepsInv(Initial(config), acts);
  }

  // ---- Pushes and pops in terms of the requests ----

  /** A push is accepted exactly while fewer than max_size tasks wait; it then adds this one task
      to the heap, and else only counts the rejection. */
  lemma PushAcceptsExactlyWhen(s: State, priority: Option<int>, task: int)
    requires Inv(s)
    ensures var t := Step(s, Push(priority, task));
            if s.config.maxSize.Some? && |s.heap| >= s.config.maxSize.value then
              t == s.(rejected := s.rejected + 1)
            else
              && |t.accepted| == |s.accepted| + 1 && t.accepted[..|s.accepted|] == s.accepted
              && var job := t.accepted[|s.accepted|];
                 job.value == task && job !in s.heap && t.heap == s.heap + {job} && t.rejected == s.rejected
  {
    if !Full(s) {
      assert Placed(s, Item(RankFor(priority, s.seqNo + 1), task));
    }
  }

  /** What the accepted pushes asked for, in order. */
  ghost function Requests(config: Config, acts: seq<Action>): seq<Request<int>> {
    if acts == [] then []
    else
      var front, a := acts[..|acts| - 1], acts[|acts| - 1];
      if a.Push? && !Full(Run(Initial(config), front)) then Requests(config, front) + [Request(a.priority, a.task)]
      else Requests(config, front)
  }

  lemma {:induction false} AcceptedAreRequests(config: Config, acts: seq<Action>)
    ensures var s, requests := Run(Initial(config), acts), Requests(config, acts);
            && |s.accepted| == |requests|
            && forall i | 0 <= i < |requests| ::
                 s.accepted[i] == Item(RankFor(requests[i].priority, i + 1), requests[i].task)
  {
    if acts != [] {
      var front := acts[..|acts| - 1];
      AcceptedAreRequests(config, front);
      InitialInv(config);
      RunKeepsInv(Initial(config), front);
      StepAccepts(Run(Initial(config), front), acts[|acts| - 1]);
    }
  }

  lemma StepAccepts(s: State, a: Action)
    requires Inv(s)
    ensures |s.accepted| == s.seqNo
    ensures Step(s, a).accepted ==
            if a.Push? && !Full(s) then s.accepted + [Item(RankFor(a.priority, s.seqNo + 1), a.task)] else s.accepted
  {
  }

  /** Which waiting task the drainer takes next: the one of the greatest priority, None counting as
      0, and of these the one pushed first. */
  lemma NextIsBestWaiting(config: Config, acts: seq<Action>, k: nat)
    requires k < |Run(Initial(config), acts).accepted|
    ensures |Requests(config, acts)| == |Run(Initial(config), acts).accepted|
    ensures var s, requests := Run(Initial(config), acts), Requests(config, acts);
            && s.accepted[k].value == requests[k].task
            && (IsNext(s.heap, s.accepted[k]) <==>
                && s.accepted[k] in s.heap
                && forall i: nat | i < |requests| && i != k && s.accepted[i] in s.heap ::
                     GoesFirst(requests[k].priority, k, requests[i].priority, i))
  {
    var s, requests := Run(Initial(config), acts), Requests(config, acts);
    AcceptedAreRequests(config, acts);
    InitialInv(config);
    RunKeepsInv(Initial(config), acts);
    forall i: nat | i < |requests| && i != k
      ensures s.accepted[k].rank.Before(s.accepted[i].rank) <==> GoesFirst(requests[k].priority, k, requests[i].priority, i)
      ensures s.accepted[i].rank.Before(s.accepted[k].rank) <==> !s.accepted[k].rank.Before(s.accepted[i].rank)
    {
      RankIsRequestOrder(requests[k].priority, k, requests[i].priority, i);
    }
    forall job | job in s.heap ensures exists i: nat :: i < |requests| && s.accepted[i] == job {
      assert Placed(s, job);
    }
  }

  /** Of two waiting tasks the one pushed with the greater integer is popped first. */
  lemma GreaterPriorityIsPoppedFirst(config: Config, acts: seq<Action>, i: nat, j: nat)
    requires i < |Run(Initial(config), acts).accepted| && j < |Run(Initial(config), acts).accepted|
    requires |Requests(config, acts)| == |Run(Initial(config), acts).accepted|
    requires var s, requests := Run(Initial(config), acts), Requests(config, acts);
             && s.accepted[i] in s.heap && s.accepted[j] in s.heap
             && requests[i].priority.Some? && requests[j].priority.Some?
             && requests[i].priority.value > requests[j].priority.value
    ensures var s := Run(Initial(config), acts);
            Step(s, Pop(s.accepted[j])) == s
  {
    NextIsBestWaiting(config, acts, j);
  }

  // ---- Permits ----

  /** Without a reconfiguration the credit of a capped queue never changes. */
  lemma {:induction false} CreditIsConstant(s: State, acts: seq<Action>)
    requires Inv(s) && NoUpdate(acts) && s.sem.Some?
    ensures Run(s, acts).sem.Some? && Run(s, acts).config == s.config && Run(s, acts).semId == s.semId
    ensures Credit(Run(s, acts)) == Credit(s)
  {
    if acts != [] {
      CreditIsConstant(s, acts[..|acts| - 1]);
      RunKeepsInv(s, acts[..|acts| - 1]);
      StepKeepsInv(Run(s, acts[..|acts| - 1]), acts[|acts| - 1]);
    }
  }

  /** A queue without a cap never makes the drainer wait for a slot. */
  lemma {:induction false} UncappedNeverWaits(config: Config, acts: seq<Action>)
    requires NoUpdate(acts) && config.concurrency.None?
    ensures var s := Run(Initial(config), acts);
            s.sem.None? && s.config == config && (s.drainer.Waiting? || s.drainer.Popping? || s.drainer.Holding?)
  {
    if acts != [] {
      UncappedNeverWaits(config, acts[..|acts| - 1]);
    }
  }

  /** With the configuration fixed, permits plus slots in flight (plus the one permit being
      handed to the drainer) equal the cap in every reachable state. */
  lemma FixedCapIsExact(config: Config, acts: seq<Action>)
    requires NoUpdate(acts) && config.concurrency.Some?
    ensures var s := Run(Initial(config), acts);
            && s.sem.Some? && Credit(s) == config.concurrency.value
            && |s.running| <= config.concurrency.value
  {
    InitialInv(config);
    CreditIsConstant(Initial(config), acts);
  }

  /** The heap grows past neither max_size nor, after max_size was lowered, its old length. */
  lemma {:induction false} BackpressureBound(s: State, acts: seq<Action>)
    requires NoUpdate(acts) && s.config.maxSize.Some?
    ensures Run(s, acts).config == s.config
    ensures |Run(s, acts).heap| <= |s.heap| || |Run(s, acts).heap| <= s.config.maxSize.value
  {
    if acts != [] {
      BackpressureBound(s, acts[..|acts| - 1]);
      HeapGrowth(Run(s, acts[..|acts| - 1]), acts[|acts| - 1]);
    }
  }

  lemma HeapGrowth(s: State, a: Action)
    requires !a.Update?
    ensures Step(s, a).config == s.config
    ensures |Step(s, a).heap| <= |s.heap| || (|Step(s, a).heap| == |s.heap| + 1 && !Full(s))
  {
    if a.Pop? {
      assert |s.heap - {a.job}| <= |s.heap|;
    }
  }

  // ---- Live reconfiguration ----

  /** After an update to cap c with r slots in flight, permits plus in flight stay c + r, plus
      one exactly if the update hands the old semaphore's permit to the drainer (or the drainer
      was already holding one unresumed), until the next update. */
  lemma ReconfigurationBound(s: State, config: Config, acts: seq<Action>)
    requires Inv(s) && NoUpdate(acts) && config.concurrency.Some?
    ensures var r := |s.running|;
            var handed := s.drainer.Granted? ||
                          (OnCurrent(s) && config.concurrency.value > s.config.concurrency.value);
            var t := Run(Step(s, Update(config)), acts);
            && t.sem.Some?
            && Credit(t) == config.concurrency.value + r + (if handed then 1 else 0)
            && |t.running| <= config.concurrency.value + r + 1
            && (r == 0 && s.drainer in {Waiting, Popping} ==> |t.running| <= config.concurrency.value)
  {
    StepKeepsInv(s, Update(config));
    CreditIsConstant(Step(s, Update(config)), acts);
  }

  /** An update takes over the whole configuration, and no task moves: only the semaphore changes,
      and a waiting drainer may get its permit. */
  lemma UpdateKeepsTasks(s: State, config: Config)
    ensures var t := Step(s, Update(config));
            && t.config == config && (t.sem.Some? <==> config.concurrency.Some?)
            && t.heap == s.heap && t.running == s.running && t.finished == s.finished
            && t.accepted == s.accepted && t.dispatched == s.dispatched && t.rejected == s.rejected
            && t.seqNo == s.seqNo && t.hasWork == s.hasWork && t.unsignalled == s.unsignalled
            && (t.drainer == s.drainer || (s.drainer.Blocked? && t.drainer == Granted(s.drainer.job)))
  {
  }

  /** The drainer waits on a semaphore nobody will ever release. */
  predicate Stuck(s: State) {
    s.drainer.Blocked? && !OnCurrent(s)
  }

  /** A stuck drainer stays stuck through every later action, further reconfigurations
      included: nothing more is dispatched, and nothing leaves the heap. */
  lemma {:induction false} StuckForEver(s: State, acts: seq<Action>)
    requires Inv(s) && Stuck(s)
    ensures var t := Run(s, acts);
            && Stuck(t) && t.drainer == s.drainer && t.dispatched == s.dispatched && s.heap <= t.heap
  {
    if acts != [] {
      var front := acts[..|acts| - 1];
      StuckForEver(s, front);
      RunKeepsInv(s, front);
      StuckStep(Run(s, front), acts[|acts| - 1]);
    }
  }

  lemma StuckStep(s: State, a: Action)
    requires PermitsOk(s) && Stuck(s)
    ensures var t := Step(s, a);
            && Stuck(t) && t.drainer == s.drainer && t.dispatched == s.dispatched && s.heap <= t.heap
  {
  }

  /** No action but an update wedges the drainer, and an update does so exactly when the
      drainer is waiting for a slot and the cap does not grow: that includes the update that
      only changes max_size. */
  lemma WedgedExactlyWhen(s: State, a: Action)
    requires Inv(s) && !Stuck(s)
    ensures Stuck(Step(s, a)) <==>
            a.Update? && s.drainer.Blocked? &&
            (a.config.concurrency.None? || a.config.concurrency.value <= s.config.concurrency.value)
  {
  }

  lemma RunAppend(s: State, acts: seq<Action>, a: Action)
    ensures Run(s, acts + [a]) == Step(Run(s, acts), a)
  {
    assert (acts + [a])[..|acts|] == acts;
  }

  /** The failing update is reachable from a fresh queue with a cap of one, and leaves the
      cap as it is: two tasks, one in flight, the other popped and waiting for its slot. */
  lemma SameCapUpdateWedges() returns (acts: seq<Action>)
    ensures var config := Config(Some(1), None);
            var s := Run(Initial(config), acts);
            && NoUpdate(acts) && !Stuck(s) && |s.accepted| == 2 && |s.dispatched| == 1
            && Stuck(Step(s, Update(config.(maxSize := Some(5)))))
  {
    var s0 := Initial(Config(Some(1), None));
    var front := OneInFlight();
    var s := Run(s0, front);
    var b := Item(RankFor(None, 2), 20);
    RunAppend(s0, front, Pop(b));
    RunAppend(s0, front + [Pop(b)], Acquire);
    acts := front + [Pop(b)] + [Acquire];
    assert Step(s, Pop(b)) == s.(heap := {}, drainer := Holding(b));
  }

  lemma OneInFlight() returns (acts: seq<Action>)
    ensures NoUpdate(acts)
    ensures var a, b := Item(RankFor(None, 1), 10), Item(RankFor(None, 2), 20);
            Run(Initial(Config(Some(1), None)), acts) ==
            Initial(Config(Some(1), None)).(heap := {b}, seqNo := 2, unsignalled := 1, hasWork := true, sem := Some(0),
              drainer := Popping, running := {a}, accepted := [a, b], dispatched := [a])
  {
    var s0 := Initial(Config(Some(1), None));
    var a, b := Item(RankFor(None, 1), 10), Item(RankFor(None, 2), 20);
    var woken := Woken();
    PopThenDispatch(Run(s0, woken), a, b);
    RunAppend(s0, woken, Pop(a));
    RunAppend(s0, woken + [Pop(a)], Acquire);
    acts := woken + [Pop(a)] + [Acquire];
  }

  /** With two jobs waiting and a free permit the better one is dispatched. */
  lemma PopThenDispatch(s: State, a: Job, b: Job)
    requires s.drainer.Popping? && s.heap == {a, b} && a.rank.Before(b.rank) && s.sem == Some(1)
    ensures Step(Step(s, Pop(a)), Acquire) ==
            s.(heap := {b}, sem := Some(0), running := s.running + {a}, dispatched := s.dispatched + [a])
  {
    assert IsNext(s.heap, a);
    assert s.heap - {a} == {b};
    assert DoPop(s, a) == s.(heap := {b}, drainer := Holding(a));
  }

  lemma Woken() returns (acts: seq<Action>)
    ensures NoUpdate(acts)
    ensures var a, b := Item(RankFor(None, 1), 10), Item(RankFor(None, 2), 20);
            Run(Initial(Config(Some(1), None)), acts) ==
            Initial(Config(Some(1), None)).(heap := {a, b}, seqNo := 2, unsignalled := 1, accepted := [a, b],
              hasWork := true, drainer := Popping)
  {
    var s0 := Initial(Config(Some(1), None));
    var pushed := TwoPushed();
    RunAppend(s0, pushed, Signal);
    RunAppend(s0, pushed + [Signal], Wake);
    acts := pushed + [Signal] + [Wake];
  }

  lemma TwoPushed() returns (acts: seq<Action>)
    ensures NoUpdate(acts)
    ensures var a, b := Item(RankFor(None, 1), 10), Item(RankFor(None, 2), 20);
            Run(Initial(Config(Some(1), None)), acts) ==
            Initial(Config(Some(1), None)).(heap := {a, b}, seqNo := 2, unsignalled := 2, accepted := [a, b])
  {
    var s0 := Initial(Config(Some(1), None));
    RunAppend(s0, [], Push(None, 10));
    RunAppend(s0, [] + [Push(None, 10)], Push(None, 20));
    acts := [] + [Push(None, 10)] + [Push(None, 20)];
  }

  // ---- Progress ----

  /** What is left to do, as a number every productive action lowers. */
  function Remaining(s: State): nat {
    10 * |s.heap| + |s.running| +
    match s.drainer
    case Waiting => if s.hasWork then 1 else 2
    case Popping => 0
    case Holding(_) => 4
    case Blocked(_, _) => 3
    case Granted(_) => 2
  }

  predicate Idle(s: State) {
    s.heap == {} && s.running == {} && !Occupied(s.drainer)
  }

  /** The drainer has not been wedged and the cap, if any, is at least one. */
  ghost predicate Runnable(s: State) {
    Inv(s) && !Stuck(s) && (s.config.concurrency.Some? ==> s.config.concurrency.value >= 1)
  }

  /** An action other than a push or an update, and one that brings the queue closer to idle. */
  ghost predicate Productive(s: State, a: Action) {
    !a.Push? && !a.Update? && Remaining(Step(s, a)) < Remaining(s)
  }

  /** The next productive action of a queue that is not idle. */
  lemma WorkCanProceed(s: State) returns (a: Action)
    requires Runnable(s) && !Idle(s)
    ensures Productive(s, a)
  {
    if s.drainer.Waiting? && s.heap != {} {
      a := WakeOrSignal(s);
    } else if s.drainer.Popping? && s.heap != {} {
      var job := FirstExists(s.heap);
      PopShrinks(s, job);
      a := Pop(job);
    } else if s.drainer.Holding? || s.drainer.Granted? {
      a := Dispatching(s);
    } else {
      var slot := SomeSlot(s);
      FinishShrinks(s, slot);
      a := Finish(slot);
    }
  }

  lemma WakeOrSignal(s: State) returns (a: Action)
    requires Signalled(s) && s.drainer.Waiting? && s.heap != {}
    ensures Productive(s, a)
  {
    a := if s.hasWork then Wake else Signal;
  }

  lemma PopShrinks(s: State, job: Job)
    requires s.drainer.Popping? && IsNext(s.heap, job)
    ensures Productive(s, Pop(job))
  {
    assert |s.heap - {job}| == |s.heap| - 1;
  }

  lemma Dispatching(s: State) returns (a: Action)
    requires s.drainer.Holding? || s.drainer.Granted?
    ensures Productive(s, a)
  {
    if s.drainer.Holding? {
      AcquireShrinks(s);
      a := Acquire;
    } else {
      assert |s.running + {s.drainer.job}| <= |s.running| + 1;
      a := Resume;
    }
  }

  lemma AcquireShrinks(s: State)
    requires s.drainer.Holding?
    ensures Productive(s, Acquire)
  {
    assert |s.running + {s.drainer.job}| <= |s.running| + 1;
  }

  /** A drainer waits for a slot only while one is in flight. */
  lemma SomeSlot(s: State) returns (slot: Job)
    requires Runnable(s) && !Idle(s)
    requires (Occupied(s.drainer) || s.heap != {}) ==> s.drainer.Blocked?
    ensures slot in s.running
  {
    assert |s.running| >= 1;
    slot :| slot in s.running;
  }

  lemma FinishShrinks(s: State, slot: Job)
    requires slot in s.running
    ensures Productive(s, Finish(slot))
  {
    assert |s.running - {slot}| == |s.running| - 1;
  }

  /** Every accepted task can be finished without any newcomer: from any reachable state
      whose drainer is not wedged, the drainer, the slots and the enqueuers still owing a set
      have a run to the state in which every accepted task is finished. */
  lemma {:induction false} CanDrain(s: State, front: seq<Action>) returns (acts: seq<Action>)
    requires Inv(s) && Quiet(front) && Runnable(Run(s, front))
    ensures Quiet(acts) && Idle(Run(s, acts)) && Run(s, acts).accepted == Run(s, front).accepted
    ensures forall job | job in Run(s, acts).accepted :: job in Run(s, acts).finished
    decreases Remaining(Run(s, front))
  {
    var t := Run(s, front);
    if Idle(t) {
      acts := front;
      IdleIsFinished(t);
    } else {
      var a := WorkCanProceed(t);
      RunAppend(s, front, a);
      StaysRunnable(t, a);
      acts := CanDrain(s, front + [a]);
    }
  }

  /** No newcomer and no update. */
  predicate Quiet(acts: seq<Action>) {
    forall i | 0 <= i < |acts| :: !acts[i].Push? && !acts[i].Update?
  }

  lemma IdleIsFinished(s: State)
    requires Inv(s) && Idle(s)
    ensures forall job | job in s.accepted :: job in s.finished
  {
    forall job | job in s.accepted ensures job in s.finished {
      assert Placed(s, job);
    }
  }

  lemma StaysRunnable(s: State, a: Action)
    requires Runnable(s) && !a.Push? && !a.Update?
    ensures Runnable(Step(s, a)) && Step(s, a).accepted == s.accepted
  {
    StepKeepsInv(s, a);
    WedgedExactlyWhen(s, a);
  }

  lemma {:induction false} FirstExists(heap: set<Job>) returns (job: Job)
    requires heap != {}
    ensures IsNext(heap, job)
    decreases |heap|
  {
    job :| job in heap;
    var rest := heap - {job};
    assert forall other | other in heap :: other == job || other in rest;
    if rest != {} {
      var best := FirstExists(rest);
      if best.rank.Before(job.rank) {
        job := best;
      } else {
        assert forall other | other in rest :: !other.rank.Before(best.rank);
      }
    }
  }

  // ---- Bounded priority inversion ----

  /** How many of the jobs come after t in (priority descending, arrival) order. */
  function Overtakers(t: Job, jobs: seq<Job>): nat {
    if jobs == [] then 0
    else Overtakers(t, jobs[..|jobs| - 1]) + if t.rank.Before(jobs[|jobs| - 1].rank) then 1 else 0
  }

  function HandBehind(t: Job, d: Drainer): nat {
    if Occupied(d) && t.rank.Before(d.job.rank) then 1 else 0
  }

  ghost predicate Undispatched(s: State, t: Job) {
    t in s.heap || Holds(s.drainer, t)
  }

  /** From any moment at which t waits in the heap until t's own dispatch, whatever else is
      pushed, finished or reconfigured: at most one job ranking after t is dispatched ahead
      of it, and only if it was already in the drainer's hand at that moment. */
  lemma {:induction false} BoundedInversion(s: State, t: Job, acts: seq<Action>)
    requires Inv(s) && t in s.heap
    requires Undispatched(Run(s, acts), t)
    ensures var u := Run(s, acts);
            && s.dispatched <= u.dispatched
            && var overtaken := Overtakers(t, u.dispatched[|s.dispatched|..]);
               overtaken + HandBehind(t, u.drainer) <= HandBehind(t, s.drainer) <= 1
  {
    if acts != [] {
      var front := acts[..|acts| - 1];
      var a := acts[|acts| - 1];
      WaitedBefore(s, t, front, a);
      BoundedInversion(s, t, front);
      InversionStep(s.dispatched, Run(s, front), t, a);
    }
  }

  lemma InversionStep(start: seq<Job>, p: State, t: Job, a: Action)
    requires start <= p.dispatched && Undispatched(p, t) && Undispatched(Step(p, a), t)
    ensures var u := Step(p, a);
            && start <= u.dispatched
            && Overtakers(t, u.dispatched[|start|..]) + HandBehind(t, u.drainer)
               <= Overtakers(t, p.dispatched[|start|..]) + HandBehind(t, p.drainer)
  {
    var u := Step(p, a);
    var n := |start|;
    if u.dispatched != p.dispatched {
      var tail := u.dispatched[n..];
      assert tail[..|tail| - 1] == p.dispatched[n..];
      assert tail[|tail| - 1] == p.drainer.job;
    }
  }

  /** A job undispatched after a step was undispatched before it. */
  lemma WaitedBefore(s: State, t: Job, front: seq<Action>, a: Action)
    requires Inv(s) && t in s.heap
    requires Undispatched(Step(Run(s, front), a), t)
    ensures Undispatched(Run(s, front), t)
  {
    RunKeepsInv(s, front);
    AcceptedGrows(s, front);
    assert Placed(s, t);
    var i :| 0 <= i < |s.accepted| && s.accepted[i] == t;
    var p := Run(s, front);
    assert p.accepted[i] == t;
    assert t.rank.minor <= p.seqNo;
    OldJobWaited(p, t, a);
  }

  lemma OldJobWaited(p: State, t: Job, a: Action)
    requires t.rank.minor <= p.seqNo && Undispatched(Step(p, a), t)
    ensures Undispatched(p, t)
  {
  }

  lemma {:induction false} AcceptedGrows(s: State, acts: seq<Action>)
    ensures s.accepted <= Run(s, acts).accepted
  {
    if acts != [] {
      var front := acts[..|acts| - 1];
      AcceptedGrows(s, front);
      var p := Run(s, front);
      var u := Step(p, acts[|acts| - 1]);
      assert u.accepted == p.accepted || u.accepted[..|p.accepted|] == p.accepted;
      assert u.accepted[..|s.accepted|] == p.accepted[..|s.accepted|];
    }
  }
}

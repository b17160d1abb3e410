/** The named queue object itself: a priority heap behind a lock, an event, and a
    semaphore object that a reconfiguration replaces. Each method is one atomic stretch of
    the original and is proved to take exactly the corresponding step of QueueProtocol. */
module TaskQueues {
  import opened Options
  import opened Heapq
  import opened TaskOrder
  import opened QueueProtocol

  /** asyncio.Semaphore with its only possible waiter, the drainer. A release hands the
      permit straight to a waiter instead of raising the value. */
  class Semaphore {
    const id: nat
    var value: nat
    var waiting: bool

    constructor (id: nat, value: nat)
      ensures this.id == id && this.value == value && !waiting
    {
      this.id := id;
      this.value := value;
      this.waiting := false;
    }

    method Release() returns (woke: bool)
      modifies this
      ensures woke == old(waiting) && !waiting
      ensures value == if woke then old(value) else old(value) + 1
    {
      woke := waiting;
      if waiting {
        waiting := false;
      } else {
        value := value + 1;
      }
    }
  }

  function Elements(h: seq<Job>): set<Job> {
    set job | job in h
  }

  ghost predicate NoRepeat(h: seq<Job>) {
    forall job | job in h :: multiset(h)[job] == 1
  }

  class TaskQueue {
    var config: Config
    var heap: seq<Job>
    var seqNo: nat
    var rejectedCount: nat
    var hasWork: bool
    var sem: Semaphore?
    var semCount: nat
    /** The drainer coroutine's own position. */
    var drainer: Drainer
    /** Threads between their push and their set, the slots, and the histories. */
    ghost var unsignalled: nat
    ghost var running: set<Job>
    ghost var finished: set<Job>
    ghost var accepted: seq<Job>
    ghost var dispatched: seq<Job>

    ghost function View(): State
      reads this, sem
    {
      State(config, Elements(heap), seqNo, rejectedCount, hasWork, unsignalled, semCount,
            if sem == null then None else Some(sem.value),
            drainer, running, finished, accepted, dispatched)
    }

    ghost predicate Valid()
      reads this, sem
    {
      && IsHeap(heap) && NoRepeat(heap) && Inv(View())
      && (sem != null ==> sem.id == semCount && (sem.waiting <==> OnCurrent(View())))
    }

    ghost function Footprint(): set<object>
      reads this
    {
      if sem == null then {this} else {this, sem}
    }

    constructor (config: Config)
      ensures Valid() && View() == Initial(config)
      ensures fresh(Footprint())
    {
      this.config := config;
      heap := [];
      seqNo := 0;
      rejectedCount := 0;
      hasWork := false;
      semCount := 0;
      drainer := Waiting;
      unsignalled := 0;
      running := {};
      finished := {};
      accepted := [];
      dispatched := [];
      if config.concurrency.Some? {
        var s := new Semaphore(0, config.concurrency.value);
        sem := s;
      } else {
        sem := null;
      }
      new;
      InitialInv(config);
      assert Elements(heap) == {};
    }

    method PushItem(job: Job)
      requires IsHeap(heap) && NoRepeat(heap) && job !in heap
      modifies this`heap
      ensures IsHeap(heap) && NoRepeat(heap) && Elements(heap) == Elements(old(heap)) + {job}
    {
      ghost var was := heap;
      heap := HeapPush(heap, job);
      PushedElements(was, job, heap);
    }

    method PopItem() returns (job: Job)
      requires IsHeap(heap) && NoRepeat(heap) && heap != []
      modifies this`heap
      ensures IsHeap(heap) && NoRepeat(heap) && Elements(heap) == Elements(old(heap)) - {job}
      ensures IsNext(Elements(old(heap)), job) && |heap| < |old(heap)|
    {
      ghost var was := heap;
      heap, job := HeapPop(heap);
      PoppedElements(was, job, heap);
    }

    /** The locked half of enqueue; false is QueueFullError. */
    method PushLocked(task: int, priority: Option<int>) returns (ok: bool)
      requires Valid()
      modifies this
      ensures Valid() && View() == Step(old(View()), Push(priority, task))
      ensures sem == old(sem) && ok == !Full(old(View()))
      ensures ok ==> accepted == old(accepted) + [Item(RankFor(priority, seqNo), task)]
    {
      LengthIsSize(heap);
      if config.maxSize.Some? && |heap| >= config.maxSize.value {
        CountRejection(task, priority);
        return false;
      }
      Admit(task, priority);
      ok := true;
    }

    method CountRejection(task: int, priority: Option<int>)
      requires Valid() && Full(View())
      modifies this`rejectedCount
      ensures Valid() && View() == Step(old(View()), Push(priority, task))
    {
      PushFollows(View(), priority, task);
      rejectedCount := rejectedCount + 1;
    }

    method Admit(task: int, priority: Option<int>)
      requires Valid() && !Full(View())
      modifies this`seqNo, this`heap, this`accepted, this`unsignalled
      ensures Valid() && View() == Step(old(View()), Push(priority, task))
      ensures accepted == old(accepted) + [Item(RankFor(priority, seqNo), task)]
    {
      ghost var before := View();
      PushFollows(before, priority, task);
      NewJobIsNew(before, priority, task);
      seqNo := seqNo + 1;
      var job := Item(RankFor(priority, seqNo), task);
      PushItem(job);
      accepted := accepted + [job];
      unsignalled := unsignalled + 1;
      assert View() == DoPush(before, priority, task);
    }

    /** The half of enqueue after the lock is released. */
    method SetHasWork()
      requires Valid()
      requires unsignalled > 0
      modifies this
      ensures Valid() && View() == Step(old(View()), Signal)
      ensures sem == old(sem)
    {
      StepKeepsInv(View(), Signal);
      hasWork := true;
      unsignalled := unsignalled - 1;
    }

    /** enqueue on one thread with nothing in between. */
    method Enqueue(task: int, priority: Option<int>) returns (ok: bool)
      requires Valid()
      modifies this
      ensures Valid() && sem == old(sem) && ok == !Full(old(View()))
      ensures View() == if ok then Step(Step(old(View()), Push(priority, task)), Signal)
                        else Step(old(View()), Push(priority, task))
      ensures ok ==> hasWork
    {
      ok := PushLocked(task, priority);
      if ok {
        SetHasWork();
      }
    }

    /** The drainer's locked section: clears the event on an empty heap, else pops. */
    method PopLocked()
      requires Valid() && drainer.Popping?
      modifies this
      ensures Valid() && sem == old(sem)
      ensures old(heap) == [] ==> View() == Step(old(View()), Clear) && drainer.Waiting? && !hasWork && heap == []
      ensures old(heap) != [] ==> |heap| < |old(heap)|
      ensures old(heap) != [] ==> drainer.Holding? && View() == Step(old(View()), Pop(drainer.job))
                                  && IsNext(old(View()).heap, drainer.job)
    {
      ghost var before := View();
      if heap == [] {
        StepKeepsInv(before, Clear);
        hasWork := false;
        drainer := Waiting;
      } else {
        var job := PopItem();
        StepKeepsInv(before, Pop(job));
        drainer := Holding(job);
      }
    }

    /** create_task(_run_slot(wrapped)): the slot is in flight from here on. */
    ghost method StartSlot(job: Job)
      modifies this`running, this`dispatched
      ensures running == old(running) + {job} && dispatched == old(dispatched) + [job]
    {
      running := running + {job};
      dispatched := dispatched + [job];
    }

    /** From the pop to the dispatch, or to the suspension in acquire. */
    method AcquireSlot()
      requires Valid() && drainer.Holding?
      modifies Footprint()
      ensures Valid() && sem == old(sem) && View() == Step(old(View()), Acquire)
      ensures heap == old(heap)
    {
      StepKeepsInv(View(), Acquire);
      var job := drainer.job;
      if sem != null {
        if sem.value == 0 {
          sem.waiting := true;
          drainer := Blocked(sem.id, job);
          return;
        }
        sem.value := sem.value - 1;
      }
      drainer := Popping;
      StartSlot(job);
    }

    /** The drainer resumes from acquire with the permit it was given. */
    method ResumeWithPermit()
      requires Valid() && drainer.Granted?
      modifies this
      ensures Valid() && sem == old(sem) && View() == Step(old(View()), Resume)
    {
      StepKeepsInv(View(), Resume);
      var job := drainer.job;
      drainer := Popping;
      StartSlot(job);
    }

    /** Everything the drainer does between two suspensions, starting at the event: pops in
        heap order while there is work and a slot. Ends at the event with an empty heap, or
        suspended in acquire on a semaphore with no permit. */
    method DrainUntilSuspended() returns (ghost acts: seq<Action>)
      requires Valid() && drainer.Waiting? && hasWork
      modifies Footprint()
      ensures Valid() && sem == old(sem)
      ensures View() == Run(old(View()), acts) && forall a | a in acts :: a in {Wake, Clear, Acquire} || a.Pop?
      ensures (drainer.Waiting? && !hasWork && heap == []) || (OnCurrent(View()) && sem.value == 0)
    {
      ghost var start := View();
      StepKeepsInv(start, Wake);
      acts := [Wake];
      assert acts[..0] == [];
      drainer := Popping;
      while drainer.Popping?
        invariant Valid() && sem == old(sem) && View() == Run(start, acts)
        invariant forall a | a in acts :: a in {Wake, Clear, Acquire} || a.Pop?
        invariant drainer.Popping? || (drainer.Waiting? && !hasWork && heap == []) || OnCurrent(View())
        decreases drainer.Popping?, |heap|
      {
        ghost var more := DrainOne();
        RunAppend(start, acts, more[0]);
        RunAppend(start, acts + [more[0]], more[|more| - 1]);
        acts := if |more| == 1 then acts + [more[0]] else acts + [more[0]] + [more[1]];
      }
    }

    /** One turn of the drainer's inner loop. */
    method DrainOne() returns (ghost more: seq<Action>)
      requires Valid() && drainer.Popping?
      modifies Footprint()
      ensures Valid() && sem == old(sem)
      ensures old(heap) == [] ==>
                more == [Clear] && View() == Step(old(View()), Clear) && drainer.Waiting? && !hasWork && heap == []
      ensures old(heap) != [] ==>
                && |more| == 2 && more[0].Pop? && more[1] == Acquire
                && View() == Step(Step(old(View()), more[0]), Acquire)
                && |heap| < |old(heap)| && (drainer.Popping? || OnCurrent(View()))
    {
      PopLocked();
      if drainer.Waiting? {
        more := [Clear];
      } else {
        more := [Pop(drainer.job), Acquire];
        AcquireSlot();
      }
    }

    /** The finally block of _run_slot, after the wrapped task returned or raised. */
    method FinishSlot(job: Job)
      requires Valid() && job in running
      modifies Footprint()
      ensures Valid() && sem == old(sem) && View() == Step(old(View()), Finish(job))
    {
      StepKeepsInv(View(), Finish(job));
      running := running - {job};
      finished := finished + {job};
      if sem != null {
        var woke := sem.Release();
        if woke {
          drainer := Granted(drainer.job);
        }
      }
    }

    /** Releases the current semaphore n times; the first release resumes a waiting drainer. */
    method ReleaseTimes(n: int)
      requires sem != null && (sem.waiting ==> drainer.Blocked?)
      modifies this`drainer, sem
      ensures drainer == if old(sem.waiting) && n > 0 then Granted(old(drainer).job) else old(drainer)
    {
      var k := 0;
      while k < n
        invariant 0 <= k && (k > 0 ==> n > 0)
        invariant sem.waiting <==> old(sem.waiting) && k == 0
        invariant drainer == if old(sem.waiting) && k > 0 then Granted(old(drainer).job) else old(drainer)
      {
        var woke := sem.Release();
        if woke {
          drainer := Granted(drainer.job);
        }
        k := k + 1;
      }
    }

    method ReplaceSemaphore(value: nat)
      modifies this`semCount, this`sem
      ensures semCount == old(semCount) + 1
      ensures fresh(sem) && sem.id == semCount && sem.value == value && !sem.waiting
    {
      semCount := semCount + 1;
      sem := new Semaphore(semCount, value);
    }

    /** update_queue_config on this queue. */
    method UpdateConfig(concurrency: Option<nat>, maxSize: Option<int>)
      requires Valid()
      modifies Footprint()
      ensures Valid() && View() == Step(old(View()), Update(Config(concurrency, maxSize)))
      ensures concurrency.Some? ==> sem != null && fresh(sem)
    {
      ghost var before := View();
      ReconfigureKeepsInv(before, Config(concurrency, maxSize));
      var oldConcurrency := config.concurrency;
      config := Config(concurrency, maxSize);
      if concurrency.None? {
        sem := null;
      } else if oldConcurrency.None? || sem == null {
        ReplaceSemaphore(concurrency.value);
      } else {
        var diff := concurrency.value - oldConcurrency.value;
        ReleaseTimes(diff);
        ReplaceSemaphore(concurrency.value);
      }
      assert View() == Reconfigure(before, config);
    }
  }

  /** Two tasks pushed into an empty queue: the drainer takes the one with the greater integer, and
      the first one on a tie. */
  method PushTwoThenPop(queue: TaskQueue, first: int, p: int, second: int, q: int)
    requires queue.Valid() && queue.drainer.Popping? && queue.heap == [] && queue.config.maxSize.None?
    modifies queue
    ensures queue.Valid() && queue.drainer.Holding?
    ensures queue.drainer.job.value == if q > p then second else first
  {
    var ok := queue.PushLocked(first, Some(p));
    ghost var a := queue.accepted[|queue.accepted| - 1];
    ok := queue.PushLocked(second, Some(q));
    ghost var b := queue.accepted[|queue.accepted| - 1];
    assert queue.View().heap == {a, b};
    assert queue.heap != [];
    queue.PopLocked();
  }

  /** The next sequence number is on no job yet. */
  lemma NewJobIsNew(s: State, priority: Option<int>, task: int)
    requires Inv(s)
    ensures Item(RankFor(priority, s.seqNo + 1), task) !in s.heap
  {
    assert Placed(s, Item(RankFor(priority, s.seqNo + 1), task));
  }

  lemma {:induction false} LengthIsSize(h: seq<Job>)
    requires NoRepeat(h)
    ensures |Elements(h)| == |h|
  {
    if h != [] {
      var rest := h[1..];
      assert h == [h[0]] + rest;
      assert multiset(h) == multiset{h[0]} + multiset(rest);
      assert h[0] in h && multiset(h)[h[0]] == 1;
      assert h[0] !in rest;
      assert Elements(h) == Elements(rest) + {h[0]};
      forall job | job in rest
        ensures multiset(rest)[job] == 1
      {
        assert job in h;
      }
      LengthIsSize(rest);
    }
  }

  lemma PushedElements(h: seq<Job>, job: Job, r: seq<Job>)
    requires NoRepeat(h) && job !in h && multiset(r) == multiset(h) + multiset{job}
    ensures Elements(r) == Elements(h) + {job} && NoRepeat(r)
  {
    forall x: Job
      ensures (x in r <==> x in h || x == job) && (x in r ==> multiset(r)[x] == 1)
    {
      assert x in r <==> multiset(r)[x] > 0;
      assert x in h <==> multiset(h)[x] > 0;
    }
  }

  lemma PoppedElements(h: seq<Job>, job: Job, r: seq<Job>)
    requires NoRepeat(h) && job in h && multiset(h) == multiset(r) + multiset{job}
    ensures Elements(r) == Elements(h) - {job} && NoRepeat(r)
  {
    forall x: Job
      ensures (x in r <==> x in h && x != job) && (x in r ==> multiset(r)[x] == 1)
    {
      assert x in r <==> multiset(r)[x] > 0;
      assert x in h <==> multiset(h)[x] > 0;
    }
  }
}

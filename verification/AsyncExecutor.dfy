/** The coroutine executor's own semaphore: dispatch acquires before it starts the function and
    releases in a finally block, with a cancellation possible while it waits, after it was
    handed a permit, and while the function runs. */
module AsyncExecutors {
  import QueueProtocol

  type Id = int

  /** value: free permits. waiters: suspended acquires, oldest first. granted: waiters that were
      handed a permit and have not resumed. holding: dispatches past the acquire. */
  datatype State = State(value: nat, waiters: seq<Id>, granted: set<Id>, holding: set<Id>)

  /** Leave is the end of a dispatch that holds a permit, by a return, an exception or a cancellation. */
  datatype Action = Enter(id: Id) | Resume(id: Id) | Leave(id: Id) | CancelAcquire(id: Id)

  function Initial(cap: nat): State {
    State(cap, [], {}, {})
  }

  predicate Known(s: State, id: Id) {
    id in s.waiters || id in s.granted || id in s.holding
  }

  /** A permit goes to the oldest waiter, if there is one. */
  function Release(s: State): State {
    if s.waiters == [] then s.(value := s.value + 1)
    else s.(waiters := s.waiters[1..], granted := s.granted + {s.waiters[0]})
  }

  /** A waiter that resumes passes a free permit on. */
  function WakeNext(s: State): State {
    if s.value > 0 && s.waiters != [] then
      s.(value := s.value - 1, waiters := s.waiters[1..], granted := s.granted + {s.waiters[0]})
    else s
  }

  /** The fast path of acquire: locked() is also true while a granted waiter has not resumed. */
  predicate Unlocked(s: State) {
    s.value > 0 && s.waiters == [] && s.granted == {}
  }

  function Without(ids: seq<Id>, id: Id): seq<Id> {
    if ids == [] then [] else if ids[0] == id then ids[1..] else [ids[0]] + Without(ids[1..], id)
  }

  function Step(s: State, a: Action): State {
    match a
    case Enter(id) =>
      if Known(s, id) then s
      else if Unlocked(s) then s.(value := s.value - 1, holding := s.holding + {id})
      else s.(waiters := s.waiters + [id])
    case Resume(id) =>
      if id in s.granted then WakeNext(s.(granted := s.granted - {id}, holding := s.holding + {id})) else s
    case Leave(id) =>
      if id in s.holding then Release(s.(holding := s.holding - {id})) else s
    case CancelAcquire(id) =>
      if id in s.granted then Release(s.(granted := s.granted - {id}))
      else if id in s.waiters then s.(waiters := Without(s.waiters, id))
      else s
  }

  function Run(s: State, acts: seq<Action>): State {
    if acts == [] then s else Step(Run(s, acts[..|acts| - 1]), acts[|acts| - 1])
  }

  /** Nobody is in two places or twice in line. */
  predicate InOnePlace(s: State) {
    && (forall id | id in s.waiters :: id !in s.granted && id !in s.holding)
    && s.granted !! s.holding
    && (forall i, j | 0 <= i < j < |s.waiters| :: s.waiters[i] != s.waiters[j])
  }

  /** And whoever waits beside a free permit will be woken by a granted waiter that resumes. */
  predicate Inv(s: State) {
    InOnePlace(s) && (s.value > 0 && s.waiters != [] ==> s.granted != {})
  }

  function Permits(s: State): nat {
    s.value + |s.granted| + |s.holding|
  }

  lemma {:induction false} WithoutRemoves(ids: seq<Id>, id: Id)
    requires forall i, j | 0 <= i < j < |ids| :: ids[i] != ids[j]
    ensures forall x :: x in Without(ids, id) <==> x in ids && x != id
    ensures forall i, j | 0 <= i < j < |Without(ids, id)| :: Without(ids, id)[i] != Without(ids, id)[j]
  {
    if ids != [] {
      assert ids == [ids[0]] + ids[1..];
      assert forall i | 0 <= i < |ids[1..]| :: ids[1..][i] == ids[i + 1];
      if ids[0] != id {
        WithoutRemoves(ids[1..], id);
        var rest := Without(ids[1..], id);
        assert forall x | x in rest :: x in ids[1..];
        assert ids[0] !in ids[1..] && ids[0] !in rest;
        assert forall k | 1 <= k < |Without(ids, id)| :: Without(ids, id)[k] == rest[k - 1];
      }
    }
  }

  lemma FirstLeavesLine(s: State)
    requires InOnePlace(s) && s.waiters != []
    ensures InOnePlace(s.(waiters := s.waiters[1..], granted := s.granted + {s.waiters[0]}))
    ensures |s.granted + {s.waiters[0]}| == |s.granted| + 1
  {
    var first, rest := s.waiters[0], s.waiters[1..];
    assert first in s.waiters;
    assert forall k | 0 <= k < |rest| :: rest[k] == s.waiters[k + 1];
    forall id | id in rest ensures id in s.waiters && id != first {
      var k :| 0 <= k < |rest| && rest[k] == id;
      assert s.waiters[k + 1] == id;
    }
  }

  lemma ReleaseKeepsInv(s: State)
    requires InOnePlace(s)
    ensures Inv(Release(s)) && Permits(Release(s)) == Permits(s) + 1
  {
    if s.waiters != [] {
      FirstLeavesLine(s);
    }
  }

  /** t keeps the invariant and the number of permits of s. */
  predicate Keeps(s: State, t: State) {
    Inv(t) && Permits(t) == Permits(s)
  }

  lemma EnterKeepsPermits(s: State, id: Id)
    requires Inv(s)
    ensures Keeps(s, Step(s, Enter(id)))
  {
    if !Known(s, id) {
      assert id !in s.waiters;
      assert |s.holding + {id}| == |s.holding| + 1;
    }
  }

  lemma ResumeKeepsPermits(s: State, id: Id)
    requires Inv(s)
    ensures Keeps(s, Step(s, Resume(id)))
  {
    if id in s.granted {
      assert |s.granted - {id}| == |s.granted| - 1;
      assert |s.holding + {id}| == |s.holding| + 1;
      var t := s.(granted := s.granted - {id}, holding := s.holding + {id});
      if t.waiters != [] {
        FirstLeavesLine(t);
      }
    }
  }

  lemma LeaveKeepsPermits(s: State, id: Id)
    requires Inv(s)
    ensures Keeps(s, Step(s, Leave(id)))
  {
    if id in s.holding {
      assert |s.holding - {id}| == |s.holding| - 1;
      ReleaseKeepsInv(s.(holding := s.holding - {id}));
    }
  }

  lemma CancelKeepsPermits(s: State, id: Id)
    requires Inv(s)
    ensures Keeps(s, Step(s, CancelAcquire(id)))
  {
    if id in s.granted {
      assert |s.granted - {id}| == |s.granted| - 1;
      ReleaseKeepsInv(s.(granted := s.granted - {id}));
    } else if id in s.waiters {
      WithoutRemoves(s.waiters, id);
    }
  }

  lemma StepKeepsPermits(s: State, a: Action)
    requires Inv(s)
    ensures Keeps(s, Step(s, a))
  {
    match a
    case Enter(id) => EnterKeepsPermits(s, id);
    case Resume(id) => ResumeKeepsPermits(s, id);
    case Leave(id) => LeaveKeepsPermits(s, id);
    case CancelAcquire(id) => CancelKeepsPermits(s, id);
  }

  /** No cancellation and no exception leaks or invents a permit, at any point of any dispatch. */
  lemma {:induction false} PermitsAreConserved(cap: nat, acts: seq<Action>)
    ensures var s := Run(Initial(cap), acts);
            Inv(s) && Permits(s) == cap && |s.holding| <= cap
  {
    if acts != [] {
      PermitsAreConserved(cap, acts[..|acts| - 1]);
      StepKeepsPermits(Run(Initial(cap), acts[..|acts| - 1]), acts[|acts| - 1]);
    }
  }

  /** Permits are handed out in the order of arrival: nobody is granted one while somebody who came
      before still waits. */
  lemma OldestWaiterFirst(s: State, a: Action, i: nat, j: nat)
    requires Inv(s) && i < j < |s.waiters|
    ensures s.waiters[j] in Step(s, a).granted ==> s.waiters[i] !in Step(s, a).waiters
  {
    assert s.waiters[j] in s.waiters && s.waiters[0] in s.waiters;
    match a
    case CancelAcquire(id) =>
      if id !in s.granted && id in s.waiters {
        WithoutRemoves(s.waiters, id);
      }
    case _ =>
  }

  /** Two caps: the jobs of one queue that also hold an executor permit, matched by task, are at
      most as many as the smaller cap allows. */
  lemma BothCapsBound(config: QueueProtocol.Config, queueActs: seq<QueueProtocol.Action>, cap: nat, acts: seq<Action>)
    requires QueueProtocol.NoUpdate(queueActs) && config.concurrency.Some?
    ensures var q := QueueProtocol.Run(QueueProtocol.Initial(config), queueActs);
            var held := set job | job in q.running && job.value in Run(Initial(cap), acts).holding;
            && |held| <= config.concurrency.value
            && ((forall x, y | x in held && y in held && x.value == y.value :: x == y) ==> |held| <= cap)
  {
    var q := QueueProtocol.Run(QueueProtocol.Initial(config), queueActs);
    var holding := Run(Initial(cap), acts).holding;
    var held := set job | job in q.running && job.value in holding;
    QueueProtocol.FixedCapIsExact(config, queueActs);
    PermitsAreConserved(cap, acts);
    SubsetSize(held, q.running);
    if forall x, y | x in held && y in held && x.value == y.value :: x == y {
      InjectedSize(held, holding);
    }
  }

  lemma {:induction false} SubsetSize<T>(a: set<T>, b: set<T>)
    requires a <= b
    ensures |a| <= |b|
    decreases |a|
  {
    if a != {} {
      var x :| x in a;
      SubsetSize(a - {x}, b - {x});
    }
  }

  /** A set whose members have different values in ids is no larger than ids. */
  lemma {:induction false} InjectedSize(jobs: set<QueueProtocol.Job>, ids: set<Id>)
    requires forall job | job in jobs :: job.value in ids
    requires forall x, y | x in jobs && y in jobs && x.value == y.value :: x == y
    ensures |jobs| <= |ids|
    decreases |jobs|
  {
    if jobs != {} {
      var x :| x in jobs;
      InjectedSize(jobs - {x}, ids - {x.value});
    }
  }

  class AsyncExecutor {
    var value: nat
    var waiters: seq<Id>
    var granted: set<Id>
    var holding: set<Id>

    ghost function View(): State
      reads this
    {
      State(value, waiters, granted, holding)
    }

    constructor (cap: nat)
      ensures View() == Initial(cap)
    {
      value, waiters, granted, holding := cap, [], {}, {};
    }

    /** dispatch up to the acquire. */
    method EnterDispatch(id: Id) returns (started: bool)
      requires !Known(View(), id)
      modifies this
      ensures View() == Step(old(View()), Enter(id)) && started == (id in holding)
    {
      started := value > 0 && waiters == [] && granted == {};
      if started {
        value := value - 1;
        holding := holding + {id};
      } else {
        waiters := waiters + [id];
      }
    }

    method ResumeDispatch(id: Id)
      requires id in granted
      modifies this
      ensures View() == Step(old(View()), Resume(id))
    {
      granted := granted - {id};
      holding := holding + {id};
      if value > 0 && waiters != [] {
        value := value - 1;
        granted := granted + {waiters[0]};
        waiters := waiters[1..];
      }
    }

    method ReleasePermit()
      modifies this`value, this`waiters, this`granted
      ensures View() == Release(old(View()))
    {
      if waiters == [] {
        value := value + 1;
      } else {
        granted := granted + {waiters[0]};
        waiters := waiters[1..];
      }
    }

    /** The finally block. */
    method LeaveDispatch(id: Id)
      requires id in holding
      modifies this
      ensures View() == Step(old(View()), Leave(id))
    {
      holding := holding - {id};
      ReleasePermit();
    }

    /** A cancellation before the try block: nothing to release, unless the permit was already
        on its way. */
    method CancelBeforeStart(id: Id)
      requires Inv(View()) && (id in waiters || id in granted)
      modifies this
      ensures View() == Step(old(View()), CancelAcquire(id)) && !Known(View(), id)
    {
      if id in granted {
        ReleaseKeepsInv(View().(granted := granted - {id}));
        granted := granted - {id};
        ReleasePermit();
      } else {
        WithoutRemoves(waiters, id);
        waiters := Without(waiters, id);
      }
    }
  }
}

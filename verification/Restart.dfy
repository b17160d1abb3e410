/** Shutdown and restart: what each record becomes when a process stops, what the next process
    loads, and which tasks it runs again. */
module Restart {
  import opened Options
  import opened Tasks
  import opened Stores
  import Lifecycle

  /** Registered function names, each with its requeue_on_interrupt. */
  type Registry = map<string, bool>

  // ---- Rows ----

  /** A record as the history table gives it back: the key and the tags have no column. */
  function HistoryRow(t: TaskRecord): TaskRecord {
    t.(key := None, tags := map[], source := if t.source == "" then "manual" else t.source,
       queue := if t.queue == "" then "default" else t.queue)
  }

  /** A record as the pending table gives it back. */
  function PendingRow(t: TaskRecord): TaskRecord {
    var queue := if t.queue == "" then "default" else t.queue;
    TaskRecord(t.func, PENDING, t.retriesUsed, t.payload, queue, None, None, map[], "manual", 0)
  }

  /** What history keeps of a record, field by field: all but the key and the tags, and a name for
      an empty source or queue. */
  predicate KeptInHistory(t: TaskRecord, status: Status, h: TaskRecord) {
    && h.status == status && h.func == t.func && h.retriesUsed == t.retriesUsed && h.payload == t.payload
    && h.priority == t.priority && h.outcome == t.outcome && h.key == None && h.tags == map[]
    && (t.source != "" ==> h.source == t.source) && (t.source == "" ==> h.source == "manual")
    && (t.queue != "" ==> h.queue == t.queue) && (t.queue == "" ==> h.queue == "default")
  }

  /** What the pending table keeps of a record: what is needed to run it again. */
  predicate KeptForRequeue(t: TaskRecord, p: TaskRecord) {
    && p.status == PENDING && p.func == t.func && p.retriesUsed == t.retriesUsed && p.payload == t.payload
    && (t.queue != "" ==> p.queue == t.queue) && (t.queue == "" ==> p.queue == "default")
    && p.priority == None && p.key == None && p.tags == map[] && p.source == "manual" && p.outcome == 0
  }

  lemma RowsKeep(t: TaskRecord)
    ensures KeptInHistory(t, t.status, HistoryRow(t)) && KeptForRequeue(t, PendingRow(t))
  {
  }

  /** A requeued task is the task that was saved exactly if it carried nothing the pending
      table has no column for; in particular a priority or an idempotency key is lost. */
  lemma PendingRowIsFaithfulExactlyWhen(t: TaskRecord)
    ensures PendingRow(t) == t <==>
            && t.status == PENDING && t.priority == None && t.key == None && t.tags == map[]
            && t.source == "manual" && t.outcome == 0 && t.queue != ""
    ensures PendingRow(PendingRow(t)) == PendingRow(t)
  {
  }

  // ---- What shutdown and startup mean ----

  datatype Disk = Disk(history: Records, pending: Records)

  function PolicyFor(registry: Registry, func: string, requeuePending: bool): Lifecycle.Policy {
    Lifecycle.Policy(func in registry, func in registry && registry[func], requeuePending)
  }

  function FateOf(registry: Registry, requeuePending: bool, t: TaskRecord): Lifecycle.Fate {
    if Unfinished(t.status) then Lifecycle.Classify(PolicyFor(registry, t.func, requeuePending), t.status).1
    else Lifecycle.Untouched
  }

  /** The record after flush_pending visited it. */
  function Visited(registry: Registry, requeuePending: bool, t: TaskRecord): TaskRecord {
    if Unfinished(t.status) then
      t.(status := Lifecycle.Classify(PolicyFor(registry, t.func, requeuePending), t.status).0)
    else t
  }

  function Only(records: Records, ids: set<Id>): Records {
    map id | id in ids && id in records :: records[id]
  }

  function HistoryRows(records: Records): Records {
    map id | id in records :: HistoryRow(records[id])
  }

  function PendingRows(records: Records): Records {
    map id | id in records :: PendingRow(records[id])
  }

  function Finished(tasks: Records): set<Id> {
    set id | id in tasks && Terminal(tasks[id].status)
  }

  ghost function Flushed(d: Disk, tasks: Records): Disk {
    d.(history := d.history + HistoryRows(Only(tasks, Finished(tasks))))
  }

  ghost function WithFate(registry: Registry, requeuePending: bool, tasks: Records, fate: Lifecycle.Fate): set<Id> {
    set id | id in tasks && FateOf(registry, requeuePending, tasks[id]) == fate
  }

  ghost function AllVisited(registry: Registry, requeuePending: bool, tasks: Records): Records {
    map id | id in tasks :: Visited(registry, requeuePending, tasks[id])
  }

  /** Interrupted tasks go to history; if there are tasks to requeue they replace the pending table. */
  ghost function Written(d: Disk, tasks: Records, toRequeue: set<Id>, toInterrupt: set<Id>): Disk {
    Disk(d.history + HistoryRows(Only(tasks, toInterrupt)),
         if toRequeue == {} then d.pending else PendingRows(Only(tasks, toRequeue)))
  }

  ghost function PendingFlushed(registry: Registry, requeuePending: bool, d: Disk, tasks: Records): Disk {
    Written(d, AllVisited(registry, requeuePending, tasks),
            WithFate(registry, requeuePending, tasks, Lifecycle.Requeued),
            WithFate(registry, requeuePending, tasks, Lifecycle.Interrupted))
  }

  predicate Succeeded(history: Records, id: Id) {
    id in history && history[id].status == SUCCESS
  }

  /** The rows requeue() claims. */
  ghost function Claimed(d: Disk): set<Id> {
    set id | id in d.pending && !Succeeded(d.history, id)
  }

  /** The tasks requeue() dispatches. */
  ghost function Dispatched(registry: Registry, d: Disk): set<Id> {
    set id | id in Claimed(d) && d.pending[id].func in registry
  }

  /** The store after load() and requeue(): live records win over both tables. */
  ghost function Loaded(d: Disk, tasks: Records): Records {
    d.history + tasks
  }

  ghost function Requeued(registry: Registry, d: Disk, tasks: Records): Records {
    Only(d.pending, Dispatched(registry, d)) + tasks
  }

  // ---- The objects ----

  class Backend {
    var history: Records
    var pending: Records

    ghost function View(): Disk
      reads this
    {
      Disk(history, pending)
    }

    constructor ()
      ensures View() == Disk(map[], map[])
    {
      history, pending := map[], map[];
    }

    /** INSERT OR REPLACE into the history table. */
    method Save(records: Records)
      modifies this
      ensures View() == old(View()).(history := old(history) + HistoryRows(records))
    {
      history := history + HistoryRows(records);
    }

    /** DELETE of the whole pending table, then the inserts. */
    method SavePending(records: Records)
      modifies this
      ensures View() == old(View()).(pending := PendingRows(records))
    {
      pending := PendingRows(records);
    }

    /** DELETE by id; only the caller whose statement removed the row has the task. */
    method ClaimPending(id: Id) returns (claimed: bool)
      modifies this
      ensures claimed == (id in old(pending)) && View() == old(View()).(pending := old(pending) - {id})
    {
      claimed := id in pending;
      pending := pending - {id};
    }

    method ClearPending()
      modifies this
      ensures View() == old(View()).(pending := map[])
    {
      pending := map[];
    }

    method CompletedIds(ids: set<Id>) returns (completed: set<Id>)
      ensures completed == set id | id in ids && Succeeded(history, id)
    {
      completed := set id | id in ids && Succeeded(history, id);
    }
  }

  /** A task handed to the event loop, or to a named queue. */
  datatype Dispatch = Dispatch(id: Id, queue: Option<string>)

  class SnapshotScheduler {
    const store: TaskStore
    const backend: Backend
    const registry: Registry
    const requeuePending: bool
    /** The named queues exist, as they do only once startup has passed its requeue. */
    var queuesStarted: bool

    constructor (store: TaskStore, backend: Backend, registry: Registry, requeuePending: bool)
      ensures this.store == store && this.backend == backend && this.registry == registry
      ensures this.requeuePending == requeuePending && !queuesStarted
    {
      this.store := store;
      this.backend := backend;
      this.registry := registry;
      this.requeuePending := requeuePending;
      queuesStarted := false;
    }

    method Flush()
      modifies backend
      ensures backend.View() == Flushed(old(backend.View()), store.tasks)
      ensures backend.pending == old(backend.pending)
      ensures forall id | id in store.tasks && store.tasks[id].status != PENDING && store.tasks[id].status != RUNNING ::
                id in backend.history && KeptInHistory(store.tasks[id], store.tasks[id].status, backend.history[id])
      ensures forall id | id in old(backend.history) && (id !in store.tasks || Unfinished(store.tasks[id].status)) ::
                id in backend.history && backend.history[id] == old(backend.history)[id]
    {
      var completed := Only(store.tasks, Finished(store.tasks));
      if completed == map[] {
        return;
      }
      backend.Save(completed);
    }

    /** flush_pending at one record. */
    method VisitRecord(id: Id) returns (fate: Lifecycle.Fate)
      requires id in store.tasks && Unfinished(store.tasks[id].status)
      modifies store`tasks
      ensures store.tasks == old(store.tasks)[id := Visited(registry, requeuePending, old(store.tasks)[id])]
      ensures fate == FateOf(registry, requeuePending, old(store.tasks)[id])
    {
      var t := store.tasks[id];
      if t.status == PENDING {
        fate := if requeuePending then Lifecycle.Requeued else Lifecycle.Unsaved;
      } else if t.func in registry && registry[t.func] {
        store.UpdateStatus(id, PENDING);
        fate := Lifecycle.Requeued;
      } else {
        store.UpdateStatus(id, INTERRUPTED);
        fate := Lifecycle.Interrupted;
      }
    }

    /** The loop of flush_pending over the records that are unfinished when it starts. */
    method VisitUnfinished() returns (toRequeue: set<Id>, toInterrupt: set<Id>)
      modifies store`tasks
      ensures store.tasks == AllVisited(registry, requeuePending, old(store.tasks))
      ensures toRequeue == WithFate(registry, requeuePending, old(store.tasks), Lifecycle.Requeued)
      ensures toInterrupt == WithFate(registry, requeuePending, old(store.tasks), Lifecycle.Interrupted)
    {
      ghost var was := store.tasks;
      var todo := Unstarted(store.tasks);
      toRequeue, toInterrupt := {}, {};
      VisitedNone(registry, requeuePending, was);
      while todo != {}
        invariant VisitedBut(registry, requeuePending, was, store.tasks, toRequeue, toInterrupt, todo)
        decreases |todo|
      {
        var id :| id in todo;
        VisitedOne(registry, requeuePending, was, store.tasks, toRequeue, toInterrupt, todo, id);
        var fate := VisitRecord(id);
        if fate == Lifecycle.Requeued {
          toRequeue := toRequeue + {id};
        } else if fate == Lifecycle.Interrupted {
          toInterrupt := toInterrupt + {id};
        }
        todo := todo - {id};
      }
      VisitedEverything(registry, requeuePending, was, store.tasks, toRequeue, toInterrupt);
    }

    /** The writes of flush_pending: the pending table is touched only if there is a task to requeue. */
    method WriteUnfinished(toRequeue: set<Id>, toInterrupt: set<Id>)
      modifies backend
      ensures backend.View() == Written(old(backend.View()), store.tasks, toRequeue, toInterrupt)
    {
      if toInterrupt != {} {
        backend.Save(Only(store.tasks, toInterrupt));
      }
      if toRequeue == {} {
        return;
      }
      backend.SavePending(Only(store.tasks, toRequeue));
    }

    /** Lists the unfinished records, visits them one by one, then writes both tables. */
    method FlushPending() returns (saved: nat)
      modifies store`tasks, backend
      ensures store.tasks == AllVisited(registry, requeuePending, old(store.tasks))
      ensures backend.View() == PendingFlushed(registry, requeuePending, old(backend.View()), old(store.tasks))
      ensures saved == |WithFate(registry, requeuePending, old(store.tasks), Lifecycle.Requeued)|
    {
      var toRequeue, toInterrupt := VisitUnfinished();
      WriteUnfinished(toRequeue, toInterrupt);
      saved := |toRequeue|;
    }

    method Load()
      modifies store`tasks
      ensures store.tasks == backend.history + old(store.tasks)
    {
      ghost var was := store.tasks;
      var records := backend.history;
      var todo := records.Keys;
      RestoredNone(records, was, todo);
      while todo != {}
        invariant todo <= records.Keys
        invariant AllRestored(records, was, store.tasks, todo)
        decreases |todo|
      {
        var id :| id in todo;
        RestoredOne(records, was, store.tasks, todo, id);
        store.Restore(id, records[id]);
        todo := todo - {id};
      }
      RestoredAll(records, was, store.tasks);
    }

    /** Claims the saved rows one by one and dispatches those whose function is registered. */
    method Requeue() returns (dispatched: seq<Dispatch>)
      modifies store`tasks, backend
      ensures backend.View() == old(backend.View()).(pending := map[])
      ensures store.tasks == Requeued(registry, old(backend.View()), old(store.tasks))
      ensures EachOnce(dispatched, Dispatched(registry, old(backend.View())), {})
      ensures AllRouted(dispatched, queuesStarted, old(backend.pending))
    {
      ghost var was, live := backend.View(), store.tasks;
      if backend.pending == map[] {
        return [];
      }
      dispatched := RequeueRows();
      RequeueDone(registry, queuesStarted, was, live, backend.View(), store.tasks, dispatched);
      backend.ClearPending();
    }

    /** The loop of requeue(). */
    method RequeueRows() returns (dispatched: seq<Dispatch>)
      modifies store`tasks, backend
      ensures RequeueLoop(registry, queuesStarted, old(backend.View()), old(store.tasks),
                          backend.View(), store.tasks, dispatched, {})
    {
      ghost var was, live := backend.View(), store.tasks;
      var records := backend.pending;
      var completed := backend.CompletedIds(records.Keys);
      dispatched := [];
      var todo := records.Keys;
      RequeueBegins(registry, queuesStarted, was, live);
      while todo != {}
        invariant RequeueLoop(registry, queuesStarted, was, live, backend.View(), store.tasks, dispatched, todo)
        decreases |todo|
      {
        var id :| id in todo;
        dispatched := RequeueNext(id, records[id], id in completed, dispatched, was, live, todo);
        todo := todo - {id};
      }
    }

    method RequeueNext(id: Id, t: TaskRecord, completed: bool, soFar: seq<Dispatch>,
                       ghost was: Disk, ghost live: Records, ghost todo: set<Id>)
      returns (dispatched: seq<Dispatch>)
      requires RequeueLoop(registry, queuesStarted, was, live, backend.View(), store.tasks, soFar, todo)
      requires id in todo && t == was.pending[id] && completed == Succeeded(was.history, id)
      modifies store`tasks, backend
      ensures RequeueLoop(registry, queuesStarted, was, live, backend.View(), store.tasks, dispatched, todo - {id})
    {
      RequeueStep(registry, queuesStarted, was, live, backend.View(), store.tasks, soFar, todo, id);
      var more := RequeueOne(id, t, completed);
      dispatched := soFar + more;
    }

    /** requeue() at one row: skipped if its task is known to have succeeded, else claimed;
        restored and dispatched if the claim is won and the function is registered. */
    method RequeueOne(id: Id, t: TaskRecord, completed: bool) returns (more: seq<Dispatch>)
      modifies store`tasks, backend
      ensures var go := !completed && id in old(backend.pending) && t.func in registry;
              && more == (if go then [DispatchTo(id, t, queuesStarted)] else [])
              && store.tasks == (if go then map[id := t] + old(store.tasks) else old(store.tasks))
      ensures var d := old(backend.View());
              backend.View() == if completed then d else d.(pending := d.pending - {id})
    {
      if completed {
        return [];
      }
      var claimed := backend.ClaimPending(id);
      if !claimed || t.func !in registry {
        return [];
      }
      store.Restore(id, t);
      more := [DispatchTo(id, t, queuesStarted)];
    }

    /** The persistence half of shutdown, with the executions at rest. */
    method Shutdown()
      modifies store, backend
      ensures store.shuttingDown
      ensures store.tasks == AllVisited(registry, requeuePending, old(store.tasks))
      ensures backend.View() == ShutDown(registry, requeuePending, old(backend.View()), old(store.tasks))
    {
      store.shuttingDown := true;
      Flush();
      var _ := FlushPending();
    }

    /** The persistence half of startup: the queues are created after the requeue, so no task is
        requeued into one. */
    method Startup() returns (dispatched: seq<Dispatch>)
      requires !queuesStarted && store.tasks == map[]
      modifies this, store`tasks, backend
      ensures var d := old(backend.View());
              && store.tasks == Started(registry, requeuePending, d)
              && backend.View() == (if requeuePending then d.(pending := map[]) else d)
              && EachOnce(dispatched, if requeuePending then Dispatched(registry, d) else {}, {})
      ensures forall x | x in dispatched :: x.queue == None
      ensures queuesStarted
    {
      Load();
      assert store.tasks == backend.history;
      dispatched := [];
      if requeuePending {
        dispatched := Requeue();
      }
      queuesStarted := true;
    }
  }

  lemma NothingToRequeue(registry: Registry, d: Disk, tasks: Records, dispatched: seq<Dispatch>)
    requires d.pending == map[] && EachOnce(dispatched, Dispatched(registry, d), {})
    ensures dispatched == [] && Requeued(registry, d, tasks) == tasks
  {
    assert Dispatched(registry, d) == {};
  }

  /** A start of a process with an empty store, and one more requeue. */
  method StartAndRequeue(backend: Backend, registry: Registry)
    returns (next: SnapshotScheduler, first: seq<Dispatch>, second: seq<Dispatch>)
    modifies backend
    ensures var d := old(backend.View());
            && EachOnce(first, Dispatched(registry, d), {}) && second == []
            && backend.View() == d.(pending := map[]) && next.store.tasks == Started(registry, true, d)
  {
    var store := new TaskStore();
    next := new SnapshotScheduler(store, backend, registry, true);
    first := next.Startup();
    ghost var d, tasks := backend.View(), store.tasks;
    second := next.Requeue();
    NothingToRequeue(registry, d, tasks, second);
  }

  /** One process stops and the next one starts on the same tables, which then requeues once
      more: the first requeue dispatches each task that is due for it once, the second nothing. */
  method StopAndRestart(stopping: SnapshotScheduler, registry: Registry)
    returns (next: SnapshotScheduler, first: seq<Dispatch>, second: seq<Dispatch>)
    requires stopping.requeuePending
    modifies stopping.store, stopping.backend
    ensures var d := ShutDown(stopping.registry, true, old(stopping.backend.View()), old(stopping.store.tasks));
            && EachOnce(first, Dispatched(registry, d), {}) && second == []
            && stopping.backend.View() == d.(pending := map[])
            && next.store.tasks == Started(registry, true, d)
  {
    stopping.Shutdown();
    next, first, second := StartAndRequeue(stopping.backend, registry);
  }

  // ---- Loop steps ----

  function Unstarted(tasks: Records): set<Id> {
    set id | id in tasks && Unfinished(tasks[id].status)
  }

  /** Every id of the set that is not still to do is dispatched once, and nothing else is. */
  ghost predicate EachOnce(dispatched: seq<Dispatch>, ids: set<Id>, todo: set<Id>) {
    && |dispatched| == |ids - todo|
    && (forall x | x in dispatched :: x.id in ids && x.id !in todo)
    && (forall i, j | 0 <= i < j < |dispatched| :: dispatched[i].id != dispatched[j].id)
  }

  lemma OnceMore(before: seq<Dispatch>, after: seq<Dispatch>, ids: set<Id>, todo: set<Id>, id: Id)
    requires EachOnce(before, ids, todo) && id in todo
    requires if id in ids then |after| == |before| + 1 && after[..|before|] == before && after[|before|].id == id
             else after == before
    ensures EachOnce(after, ids, todo - {id})
  {
    if id in ids {
      assert ids - (todo - {id}) == (ids - todo) + {id};
      forall i | 0 <= i < |before| ensures after[i] == before[i] && before[i] in before {
        assert after[..|before|][i] == before[i];
      }
    } else {
      assert ids - (todo - {id}) == ids - todo;
    }
  }

  function DispatchTo(id: Id, t: TaskRecord, queuesStarted: bool): Dispatch {
    Dispatch(id, if queuesStarted then Some(t.queue) else None)
  }

  /** Each task goes to the queue of its saved record, or to the event loop before there are queues. */
  ghost predicate AllRouted(dispatched: seq<Dispatch>, queuesStarted: bool, saved: Records) {
    forall x | x in dispatched ::
      x.id in saved && x.queue == if queuesStarted then Some(saved[x.id].queue) else None
  }

  /** Where requeue() stands: was and live are the tables and the store it started from. */
  ghost predicate RequeueLoop(registry: Registry, queuesStarted: bool, was: Disk, live: Records,
                              d: Disk, tasks: Records, dispatched: seq<Dispatch>, todo: set<Id>) {
    && RowsLeft(was, d, todo)
    && AllRestored(Only(was.pending, Dispatched(registry, was)), live, tasks, todo)
    && EachOnce(dispatched, Dispatched(registry, was), todo) && AllRouted(dispatched, queuesStarted, was.pending)
  }

  ghost predicate RowsLeft(was: Disk, d: Disk, todo: set<Id>) {
    todo <= was.pending.Keys && todo <= d.pending.Keys && d.history == was.history
  }

  lemma RequeueStep(registry: Registry, queuesStarted: bool, was: Disk, live: Records,
                    d: Disk, tasks: Records, dispatched: seq<Dispatch>, todo: set<Id>, id: Id)
    requires RequeueLoop(registry, queuesStarted, was, live, d, tasks, dispatched, todo) && id in todo
    ensures var t := was.pending[id];
            var completed := Succeeded(was.history, id);
            var go := !completed && id in d.pending && t.func in registry;
            RequeueLoop(registry, queuesStarted, was, live, if completed then d else d.(pending := d.pending - {id}),
                        if go then map[id := t] + tasks else tasks,
                        dispatched + if go then [DispatchTo(id, t, queuesStarted)] else [], todo - {id})
  {
    var rows := Only(was.pending, Dispatched(registry, was));
    assert id in rows <==> id in Dispatched(registry, was);
    RestoredOne(rows, live, tasks, todo, id);
    OneDispatch(registry, queuesStarted, was, dispatched, todo, id);
  }

  lemma RequeueBegins(registry: Registry, queuesStarted: bool, was: Disk, live: Records)
    ensures RequeueLoop(registry, queuesStarted, was, live, was, live, [], was.pending.Keys)
  {
  }

  lemma OneDispatch(registry: Registry, queuesStarted: bool, was: Disk,
                    dispatched: seq<Dispatch>, todo: set<Id>, id: Id)
    requires EachOnce(dispatched, Dispatched(registry, was), todo) && AllRouted(dispatched, queuesStarted, was.pending)
    requires id in todo && id in was.pending
    ensures var go := id in Dispatched(registry, was);
            var more := dispatched + if go then [DispatchTo(id, was.pending[id], queuesStarted)] else [];
            EachOnce(more, Dispatched(registry, was), todo - {id}) && AllRouted(more, queuesStarted, was.pending)
  {
    if id in Dispatched(registry, was) {
      var more := dispatched + [DispatchTo(id, was.pending[id], queuesStarted)];
      OnceMore(dispatched, more, Dispatched(registry, was), todo, id);
    } else {
      assert dispatched + [] == dispatched;
      OnceMore(dispatched, dispatched, Dispatched(registry, was), todo, id);
    }
  }

  lemma RequeueDone(registry: Registry, queuesStarted: bool, was: Disk, live: Records,
                    d: Disk, tasks: Records, dispatched: seq<Dispatch>)
    requires RequeueLoop(registry, queuesStarted, was, live, d, tasks, dispatched, {})
    ensures tasks == Requeued(registry, was, live) && EachOnce(dispatched, Dispatched(registry, was), {})
  {
    RestoredAll(Only(was.pending, Dispatched(registry, was)), live, tasks);
  }

  /** The records of was have been visited, except those still to do. */
  ghost predicate VisitedBut(registry: Registry, requeuePending: bool, was: Records, now: Records,
                             toRequeue: set<Id>, toInterrupt: set<Id>, todo: set<Id>) {
    && todo <= Unstarted(was) && now.Keys == was.Keys
    && (forall id | id in was :: now[id] == if id in todo then was[id] else Visited(registry, requeuePending, was[id]))
    && toRequeue == WithFate(registry, requeuePending, was, Lifecycle.Requeued) - todo
    && toInterrupt == WithFate(registry, requeuePending, was, Lifecycle.Interrupted) - todo
  }

  lemma VisitedNone(registry: Registry, requeuePending: bool, was: Records)
    ensures VisitedBut(registry, requeuePending, was, was, {}, {}, Unstarted(was))
  {
  }

  lemma VisitedOne(registry: Registry, requeuePending: bool, was: Records, now: Records,
                   toRequeue: set<Id>, toInterrupt: set<Id>, todo: set<Id>, id: Id)
    requires VisitedBut(registry, requeuePending, was, now, toRequeue, toInterrupt, todo) && id in todo
    ensures id in now && Unfinished(now[id].status)
    ensures var fate := FateOf(registry, requeuePending, now[id]);
            VisitedBut(registry, requeuePending, was, now[id := Visited(registry, requeuePending, now[id])],
                       if fate == Lifecycle.Requeued then toRequeue + {id} else toRequeue,
                       if fate == Lifecycle.Interrupted then toInterrupt + {id} else toInterrupt, todo - {id})
  {
    SetStep(WithFate(registry, requeuePending, was, Lifecycle.Requeued), todo, id);
    SetStep(WithFate(registry, requeuePending, was, Lifecycle.Interrupted), todo, id);
  }

  lemma SetStep(all: set<Id>, todo: set<Id>, id: Id)
    requires id in todo
    ensures all - (todo - {id}) == (all - todo) + if id in all then {id} else {}
  {
  }

  lemma VisitedEverything(registry: Registry, requeuePending: bool, was: Records, now: Records,
                          toRequeue: set<Id>, toInterrupt: set<Id>)
    requires VisitedBut(registry, requeuePending, was, now, toRequeue, toInterrupt, {})
    ensures now == AllVisited(registry, requeuePending, was)
    ensures toRequeue == WithFate(registry, requeuePending, was, Lifecycle.Requeued)
    ensures toInterrupt == WithFate(registry, requeuePending, was, Lifecycle.Interrupted)
  {
  }

  /** The records have been restored into live, which wins, except those still to do. */
  ghost predicate AllRestored(records: Records, live: Records, now: Records, todo: set<Id>) {
    && now.Keys == live.Keys + (records.Keys - todo)
    && forall id | id in now :: now[id] == if id in live then live[id] else records[id]
  }

  lemma RestoredNone(records: Records, live: Records, todo: set<Id>)
    requires records.Keys <= todo
    ensures AllRestored(records, live, live, todo)
  {
  }

  lemma RestoredOne(records: Records, live: Records, now: Records, todo: set<Id>, id: Id)
    requires AllRestored(records, live, now, todo) && id in todo
    ensures AllRestored(records, live, if id in records then map[id := records[id]] + now else now, todo - {id})
  {
  }

  lemma RestoredAll(records: Records, live: Records, now: Records)
    requires AllRestored(records, live, now, {})
    ensures now == records + live
  {
  }

  ghost function ShutDown(registry: Registry, requeuePending: bool, d: Disk, tasks: Records): Disk {
    PendingFlushed(registry, requeuePending, Flushed(d, tasks), tasks)
  }

  ghost function Started(registry: Registry, requeuePending: bool, d: Disk): Records {
    if requeuePending then Requeued(registry, d, d.history) else d.history
  }

  // ---- One restart ----

  /** What becomes of each record of a stopped process, with requeue_pending on: a finished
      task is in history with its status and fields, and the next process has it so; a running one
      that may not be repeated is in history as INTERRUPTED; neither is run again. An unfinished
      one that may be repeated is in the pending table with what it needs to run, and the next
      requeue dispatches it exactly if its function is registered and history does not already
      say that it succeeded. */
  lemma RestartPartition(before: Registry, after: Registry, d: Disk, tasks: Records, id: Id)
    requires id in tasks && d.pending == map[]
    ensures var d1 := ShutDown(before, true, d, tasks);
            var next := Started(after, true, d1);
            var t := tasks[id];
            var repeats := t.status == PENDING || (t.status == RUNNING && t.func in before && before[t.func]);
            && (t.status != PENDING && t.status != RUNNING ==>
                  && id in d1.history && KeptInHistory(t, t.status, d1.history[id])
                  && id in next && next[id] == d1.history[id])
            && (t.status == RUNNING && !repeats ==>
                  && id in d1.history && KeptInHistory(t, INTERRUPTED, d1.history[id])
                  && id in next && next[id] == d1.history[id])
            && (id in d1.pending <==> repeats) && (repeats ==> KeptForRequeue(t, d1.pending[id]))
            && (id in Dispatched(after, d1) <==>
                repeats && t.func in after && !(id in d.history && d.history[id].status == SUCCESS))
            && (id in Dispatched(after, d1) ==> id in next && (id !in d.history ==> next[id] == d1.pending[id]))
  {
    HistoryAfterShutdown(before, d, tasks, id);
    PendingAfterShutdown(before, d, tasks, id);
    RowsKeep(tasks[id]);
    RowsKeep(tasks[id].(status := INTERRUPTED));
  }

  predicate Repeats(registry: Registry, t: TaskRecord) {
    t.status == PENDING || (t.status == RUNNING && t.func in registry && registry[t.func])
  }

  lemma HistoryAfterShutdown(registry: Registry, d: Disk, tasks: Records, id: Id)
    requires id in tasks
    ensures var h := ShutDown(registry, true, d, tasks).history;
            var t := tasks[id];
            if Terminal(t.status) then id in h && h[id] == HistoryRow(t)
            else if !Repeats(registry, t) then id in h && h[id] == HistoryRow(t.(status := INTERRUPTED))
            else id in h <==> id in d.history
    ensures var h := ShutDown(registry, true, d, tasks).history;
            Repeats(registry, tasks[id]) && id in h ==> h[id] == d.history[id]
  {
    var all := AllVisited(registry, true, tasks);
    assert id in all && all[id] == Visited(registry, true, tasks[id]);
  }

  lemma PendingAfterShutdown(registry: Registry, d: Disk, tasks: Records, id: Id)
    requires id in tasks && d.pending == map[]
    ensures var p := ShutDown(registry, true, d, tasks).pending;
            && (id in p <==> Repeats(registry, tasks[id]))
            && (id in p ==> p[id] == PendingRow(tasks[id]))
  {
    var all := AllVisited(registry, true, tasks);
    assert id in all && all[id] == Visited(registry, true, tasks[id]);
    var again := WithFate(registry, true, tasks, Lifecycle.Requeued);
    assert id in again <==> Repeats(registry, tasks[id]);
  }

  /** Nothing but the stopped process's own tasks is requeued. */
  lemma OnlyOwnTasksReturn(before: Registry, after: Registry, d: Disk, tasks: Records)
    requires d.pending == map[]
    ensures Dispatched(after, ShutDown(before, true, d, tasks)) <= tasks.Keys
  {
  }

  /** The rows the pending table ends up with. Rows that were there survive a shutdown exactly
      if it has nothing to requeue; else they are wiped, whoever saved them. */
  lemma PendingTableAfterShutdown(registry: Registry, requeuePending: bool, d: Disk, tasks: Records)
    ensures var again := WithFate(registry, requeuePending, tasks, Lifecycle.Requeued);
            ShutDown(registry, requeuePending, d, tasks).pending.Keys == if again == {} then d.pending.Keys else again
  {
    var again := WithFate(registry, requeuePending, tasks, Lifecycle.Requeued);
    assert forall id | id in again :: id in AllVisited(registry, requeuePending, tasks);
  }

  // ---- Runs of restarts ----

  /** One process: its registry, and its store when it stops. */
  datatype Process = Process(registry: Registry, requeuePending: bool, atShutdown: Records)

  /** A process keeps the records it starts with, and none that is SUCCESS gets another status
      (Lifecycle.FinalIsFinal). */
  ghost predicate Lived(start: Records, end: Records) {
    forall id | id in start && start[id].status == SUCCESS :: id in end && end[id].status == SUCCESS
  }

  ghost function AfterStart(d: Disk, p: Process): Disk {
    if p.requeuePending then d.(pending := map[]) else d
  }

  ghost predicate Possible(d: Disk, p: Process) {
    Lived(Started(p.registry, p.requeuePending, d), p.atShutdown)
  }

  ghost function AfterProcess(d: Disk, p: Process): Disk {
    ShutDown(p.registry, p.requeuePending, AfterStart(d, p), p.atShutdown)
  }

  ghost function AfterAll(d: Disk, ps: seq<Process>): Disk {
    if ps == [] then d else AfterProcess(AfterAll(d, ps[..|ps| - 1]), ps[|ps| - 1])
  }

  ghost predicate AllPossible(d: Disk, ps: seq<Process>) {
    forall i | 0 <= i < |ps| :: Possible(AfterAll(d, ps[..i]), ps[i])
  }

  lemma SuccessSurvivesProcess(d: Disk, p: Process, id: Id)
    requires Succeeded(d.history, id) && Possible(d, p)
    ensures Succeeded(AfterProcess(d, p).history, id)
  {
    var start := Started(p.registry, p.requeuePending, d);
    assert id in start && start[id] == d.history[id];
    assert p.atShutdown[id].status == SUCCESS;
    assert id in Finished(p.atShutdown);
    assert id !in WithFate(p.registry, p.requeuePending, p.atShutdown, Lifecycle.Interrupted);
  }

  /** A task that history knows to have succeeded is never run again, through any number of
      restarts, whatever the pending table says. */
  lemma {:induction false} SucceededIsNeverRequeued(d: Disk, ps: seq<Process>, id: Id, registry: Registry)
    requires Succeeded(d.history, id) && AllPossible(d, ps)
    ensures Succeeded(AfterAll(d, ps).history, id) && id !in Dispatched(registry, AfterAll(d, ps))
  {
    if ps != [] {
      var front := ps[..|ps| - 1];
      forall i | 0 <= i < |front| ensures Possible(AfterAll(d, front[..i]), front[i]) {
        assert front[..i] == ps[..i];
        assert Possible(AfterAll(d, ps[..i]), ps[i]);
      }
      SucceededIsNeverRequeued(d, front, id, registry);
      assert Possible(AfterAll(d, ps[..|ps| - 1]), ps[|ps| - 1]);
      SuccessSurvivesProcess(AfterAll(d, front), ps[|ps| - 1], id);
    }
  }
}

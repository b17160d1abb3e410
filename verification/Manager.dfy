/** The two entry points through which users act on a task: add_task and the cancel endpoint. */
module TaskManagers {
  import opened Options
  import opened Tasks
  import opened Stores
  import Lifecycle
  import Restart

  /** Where add_task sends a callable. */
  datatype Destination = EventLoop | NamedQueue(name: string) | PriorityWorker | AfterResponse

  datatype Added = Accepted(id: Id) | Existing(id: Id) | QueueFull(id: Id)

  datatype Reply = Ok | NotFound | BadRequest

  /** What one call of add_task asks for; queue, priority and eager are the effective values. */
  datatype Request = Request(func: string, payload: int, key: Option<string>, tags: map<string, string>,
                             priority: Option<int>, queue: string, eager: bool)

  function RecordFor(r: Request): TaskRecord {
    TaskRecord(r.func, PENDING, 0, r.payload, r.queue, r.priority, r.key, r.tags, "manual", 0)
  }

  /** No two records of one key both count against a duplicate. */
  ghost predicate UniqueKeys(tasks: Records) {
    forall a, b, key | a in tasks && b in tasks && Duplicates(tasks[a], key) && Duplicates(tasks[b], key) :: a == b
  }

  class TaskManager {
    const store: TaskStore
    /** Absent when no snapshot scheduler is configured. */
    const backend: Restart.Backend?
    const queuesActive: bool
    var handles: map<Id, Lifecycle.TaskHandle>
    var scheduled: seq<(Id, Destination)>
    var cancelled: seq<Id>
    var audit: seq<Id>

    constructor (store: TaskStore, backend: Restart.Backend?, queuesActive: bool)
      ensures this.store == store && this.backend == backend && this.queuesActive == queuesActive
      ensures handles == map[] && scheduled == [] && cancelled == [] && audit == []
    {
      this.store := store;
      this.backend := backend;
      this.queuesActive := queuesActive;
      handles, scheduled, cancelled, audit := map[], [], [], [];
    }

    function HandleOf(id: Id): Lifecycle.TaskHandle
      reads this`handles
    {
      if id in handles then handles[id] else Lifecycle.Absent
    }

    function DestinationOf(r: Request): Destination {
      if r.eager then EventLoop
      else if queuesActive then NamedQueue(r.queue)
      else if r.priority.Some? then PriorityWorker
      else AfterResponse
    }

    /** add_task. id is the new UUID; full says whether the named queue refuses the task. A live
        duplicate is returned and nothing changes; a refused task keeps its record as REJECTED
        and its callable is scheduled nowhere; any other is PENDING and scheduled once. */
    method AddTask(r: Request, id: Id, full: bool) returns (added: Added)
      requires id !in store.tasks
      modifies this`scheduled, store`tasks
      ensures added.Existing? <==>
                r.key.Some? && exists other | other in old(store.tasks) :: Duplicates(old(store.tasks)[other], r.key.value)
      ensures added.Existing? ==>
                && r.key.Some? && added.id in store.tasks && Duplicates(store.tasks[added.id], r.key.value)
                && store.tasks == old(store.tasks) && scheduled == old(scheduled)
      // Refused exactly by a full named queue, which eager tasks and the legacy modes bypass.
      ensures added.QueueFull? <==> !added.Existing? && full && !r.eager && queuesActive
      ensures added.QueueFull? ==>
                && added.id == id && scheduled == old(scheduled)
                && store.tasks == old(store.tasks)[id := TaskRecord(
                     r.func, REJECTED, 0, r.payload, r.queue, r.priority, r.key, r.tags, "manual", 0)]
      ensures added.Accepted? ==>
                && added.id == id
                && store.tasks == old(store.tasks)[id := TaskRecord(
                     r.func, PENDING, 0, r.payload, r.queue, r.priority, r.key, r.tags, "manual", 0)]
                && scheduled == old(scheduled) + [(id,
                     if r.eager then EventLoop
                     else if queuesActive then NamedQueue(r.queue)
                     else if r.priority != None then PriorityWorker
                     else AfterResponse)]
      ensures old(UniqueKeys(store.tasks)) ==> UniqueKeys(store.tasks)
    {
      if r.key.Some? {
        var existing := store.FindByIdempotencyKey(r.key.value);
        if existing.Some? {
          return Existing(existing.value);
        }
      }
      store.Create(id, RecordFor(r));
      var destination := DestinationOf(r);
      if destination.NamedQueue? && full {
        store.UpdateStatus(id, REJECTED);
        return QueueFull(id);
      }
      scheduled := scheduled + [(id, destination)];
      added := Accepted(id);
    }

    /** The cancel endpoint. The reply follows Lifecycle.UserCancelled: a PENDING record becomes
        CANCELLED and is saved, though its callable stays scheduled; for a RUNNING one only the
        live handle is cancelled. Anything else changes nothing. */
    method CancelTask(id: Id) returns (reply: Reply)
      modifies this`cancelled, this`audit, store`tasks, backend
      ensures reply.NotFound? <==> id !in old(store.tasks)
      // A PENDING record is cancelled.
      ensures id in old(store.tasks) && old(store.tasks)[id].status == PENDING ==>
                && reply.Ok? && cancelled == old(cancelled)
                && store.tasks == old(store.tasks)[id := old(store.tasks)[id].(status := CANCELLED)]
      // For a RUNNING one the live handle is, and its record left to the execution.
      ensures id in old(store.tasks) && old(store.tasks)[id].status == RUNNING ==>
                && (reply.Ok? <==> old(HandleOf(id)) == Lifecycle.Live)
                && store.tasks == old(store.tasks)
                && cancelled == (if reply.Ok? then old(cancelled) + [id] else old(cancelled))
      ensures id in old(store.tasks) && old(store.tasks)[id].status != PENDING && old(store.tasks)[id].status != RUNNING ==>
                reply.BadRequest?
      // As in the lifecycle of the record.
      ensures id in old(store.tasks) ==>
                var (status, accepted) := Lifecycle.UserCancelled(old(store.tasks)[id].status, old(HandleOf(id)));
                id in store.tasks && store.tasks[id].status == status && (reply.Ok? <==> accepted)
      ensures audit == if reply.Ok? then old(audit) + [id] else old(audit)
      ensures !reply.Ok? ==> store.tasks == old(store.tasks) && cancelled == old(cancelled)
      // Only a record that was cancelled is saved, with its new status and its fields.
      ensures backend != null && id in old(store.tasks) && old(store.tasks)[id].status == PENDING ==>
                && id in backend.history && Restart.KeptInHistory(old(store.tasks)[id], CANCELLED, backend.history[id])
                && backend.View() == old(backend.View()).(history := old(backend.history)[id := backend.history[id]])
      ensures backend != null && !(id in old(store.tasks) && old(store.tasks)[id].status == PENDING) ==>
                backend.View() == old(backend.View())
    {
      if id !in store.tasks {
        return NotFound;
      }
      var status := store.tasks[id].status;
      if status == PENDING {
        store.UpdateStatus(id, CANCELLED);
        if backend != null {
          backend.Save(map[id := store.tasks[id]]);
        }
      } else if status == RUNNING && HandleOf(id) == Lifecycle.Live {
        cancelled := cancelled + [id];
      } else {
        return BadRequest;
      }
      audit := audit + [id];
      reply := Ok;
    }
  }
}

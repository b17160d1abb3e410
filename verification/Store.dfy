/** The live task map. */
module Stores {
  import opened Options
  import opened Tasks

  type Id = string

  /** payload stands for args, kwargs, the encrypted blob and created_at, outcome for the
      error, the traceback, the logs and the times. */
  datatype TaskRecord = TaskRecord(
    func: string, status: Status, retriesUsed: nat, payload: int, queue: string, priority: Option<int>,
    key: Option<string>, tags: map<string, string>, source: string, outcome: int)

  type Records = map<Id, TaskRecord>

  predicate Duplicates(t: TaskRecord, key: string) {
    t.key == Some(key) && t.status != FAILED && t.status != INTERRUPTED
  }

  class TaskStore {
    var tasks: Records
    var shuttingDown: bool

    constructor ()
      ensures tasks == map[] && !shuttingDown
    {
      tasks, shuttingDown := map[], false;
    }

    method Create(id: Id, t: TaskRecord)
      modifies this`tasks
      ensures tasks == old(tasks)[id := t]
    {
      tasks := tasks[id := t];
    }

    /** Writes a status; an unknown id is ignored. */
    method UpdateStatus(id: Id, status: Status)
      modifies this`tasks
      ensures tasks == if id in old(tasks) then old(tasks)[id := old(tasks)[id].(status := status)] else old(tasks)
    {
      if id in tasks {
        tasks := tasks[id := tasks[id].(status := status)];
      }
    }

    /** Never overwrites a live record. */
    method Restore(id: Id, t: TaskRecord)
      modifies this`tasks
      ensures tasks == map[id := t] + old(tasks)
    {
      if id !in tasks {
        tasks := tasks[id := t];
      }
    }

    /** The live task with this key that still counts against a duplicate. */
    method FindByIdempotencyKey(key: string) returns (id: Option<Id>)
      ensures id.Some? ==>
                && id.value in tasks && tasks[id.value].key == Some(key)
                && tasks[id.value].status != FAILED && tasks[id.value].status != INTERRUPTED
      ensures id.None? ==> forall other | other in tasks && tasks[other].key == Some(key) ::
                             tasks[other].status == FAILED || tasks[other].status == INTERRUPTED
      ensures id.Some? ==> Duplicates(tasks[id.value], key)
      ensures id.None? ==> forall other | other in tasks :: !Duplicates(tasks[other], key)
    {
      var todo := tasks.Keys;
      while todo != {}
        invariant todo <= tasks.Keys
        invariant forall other | other in tasks && other !in todo :: !Duplicates(tasks[other], key)
        decreases |todo|
      {
        var candidate :| candidate in todo;
        if Duplicates(tasks[candidate], key) {
          return Some(candidate);
        }
        todo := todo - {candidate};
      }
      return None;
    }
  }
}

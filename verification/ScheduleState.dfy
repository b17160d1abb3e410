/** The scheduler's in-memory state and what each stretch of code between two awaits does
    to it. An entry object is a handle (a nat) into a table of its fields, so a tombstone
    written through the index is seen when the same entry surfaces in the heap. Times are
    microseconds. */
module ScheduleState {
  import opened Options

  type Key = string

  /** What the scheduler reads of a ScheduledOnce; payload stands for the rest. */
  datatype Once = Once(runKey: Key, funcName: string, fireAt: int, payload: int)

  /** gaps holds the evaluator's answers at the times a run asks it: a cron entry is next due
      strictly later, by one more than the gap. */
  datatype Kind =
    | Interval(func: string, every: int)
    | Cron(func: string, gaps: map<int, nat>)
    | OneOff(once: Once)

  datatype Entry = Entry(kind: Kind, runOnStartup: bool, nextRun: int, cancelled: bool)

  /** firing is the entry the run loop has popped and is awaiting the firing of. */
  datatype State = State(
    table: map<nat, Entry>,
    nextId: nat,
    heap: set<nat>,
    index: map<Key, nat>,
    entries: seq<nat>,
    started: bool,
    firing: Option<nat>)

  datatype Action =
    | Register(kind: Kind, runOnStartup: bool, now: int)
    | AddOneOff(once: Once)
    | CancelOneOff(key: Key)
    | Refill(due: seq<Once>)
    | PopDue(id: nat, now: int)
    | Fired

  function Empty(): State {
    State(map[], 0, {}, map[], [], false, None)
  }

  function ComputeNext(kind: Kind, from: int): int
    requires !kind.OneOff?
  {
    match kind
    case Interval(_, every) => from + every
    case Cron(_, gaps) => from + 1 + if from in gaps then gaps[from] else 0
  }

  /** An interval entry is next due one interval later, a cron entry at its evaluator's answer. */
  lemma NextOccurrence(kind: Kind, from: int)
    requires !kind.OneOff?
    ensures kind.Interval? ==> ComputeNext(kind, from) == from + kind.every
    ensures kind.Cron? && from in kind.gaps ==> ComputeNext(kind, from) == from + 1 + kind.gaps[from]
  {
  }

  /** A fired entry is due again at the very same now exactly when its interval is not
      positive, which schedule() does not reject: the due loop then never ends. */
  lemma NextIsLaterExactlyWhen(kind: Kind, now: int)
    requires !kind.OneOff?
    ensures ComputeNext(kind, now) > now <==> (kind.Interval? ==> kind.every > 0)
  {
  }

  /** A new table cell. */
  function WithEntry(s: State, e: Entry): State {
    s.(table := s.table[s.nextId := e], nextId := s.nextId + 1)
  }

  function Tombstone(s: State, id: nat): State
    requires id in s.table
  {
    s.(table := s.table[id := s.table[id].(cancelled := true)])
  }

  /** schedule(): before start the entry only joins the list, afterwards the heap too. */
  function DoRegister(s: State, kind: Kind, runOnStartup: bool, now: int): State {
    if kind.OneOff? then s
    else
      var t := WithEntry(s, Entry(kind, runOnStartup, now, false)).(entries := s.entries + [s.nextId]);
      if s.started then t.(heap := s.heap + {s.nextId}) else t
  }

  function DoCancel(s: State, key: Key): State {
    if key in s.index && s.index[key] in s.table then
      Tombstone(s, s.index[key]).(index := s.index - {key})
    else s
  }

  /** A new entry for a key that is not indexed. */
  function Arm(s: State, once: Once): State {
    WithEntry(s, Entry(OneOff(once), false, once.fireAt, false))
      .(index := s.index[once.runKey := s.nextId], heap := s.heap + {s.nextId})
  }

  /** Replacing is cancelling and arming anew. */
  function DoAdd(s: State, once: Once, registry: set<string>): State {
    if once.funcName !in registry then s else Arm(DoCancel(s, once.runKey), once)
  }

  predicate AlreadyArmed(s: State, once: Once) {
    once.runKey in s.index && s.index[once.runKey] in s.table &&
    s.table[s.index[once.runKey]].nextRun == once.fireAt
  }

  function DoRefillOne(s: State, once: Once, registry: set<string>): State {
    if AlreadyArmed(s, once) then s else DoAdd(s, once, registry)
  }

  function DoRefill(s: State, due: seq<Once>, registry: set<string>): State {
    if due == [] then s
    else DoRefillOne(DoRefill(s, due[..|due| - 1], registry), due[|due| - 1], registry)
  }

  lemma RefillNext(s: State, due: seq<Once>, i: nat, registry: set<string>)
    requires i < |due|
    ensures DoRefill(s, due[..i + 1], registry) == DoRefillOne(DoRefill(s, due[..i], registry), due[i], registry)
  {
    assert due[..i + 1][..i] == due[..i];
  }

  predicate IsTop(s: State, id: nat) {
    id in s.heap && id in s.table &&
    forall other | other in s.heap && other in s.table :: s.table[id].nextRun <= s.table[other].nextRun
  }

  /** Pops the top entry if due: a tombstone is dropped, a recurring entry moves to its next
      time and is fired, a one-off leaves the index and is fired. */
  function DoPop(s: State, id: nat, now: int): State {
    if s.firing.Some? || !IsTop(s, id) || s.table[id].nextRun > now then s
    else
      var e := s.table[id];
      var t := s.(heap := s.heap - {id});
      if e.cancelled then t
      else if e.kind.OneOff? then t.(index := s.index - {e.kind.once.runKey}, firing := Some(id))
      else t.(table := s.table[id := e.(nextRun := ComputeNext(e.kind, now))], firing := Some(id))
  }

  /** The firing has been awaited: a recurring entry goes back into the heap. */
  function DoFired(s: State): State {
    if s.firing.None? then s
    else
      var id := s.firing.value;
      var t := s.(firing := None);
      if id in s.table && !s.table[id].kind.OneOff? then t.(heap := s.heap + {id}) else t
  }

  function StartEntry(e: Entry, now: int): Entry {
    if e.kind.OneOff? then e
    else e.(nextRun := if e.runOnStartup then now else ComputeNext(e.kind, now))
  }

  function StartedTable(table: map<nat, Entry>, ids: seq<nat>, now: int): map<nat, Entry> {
    map id | id in table :: if id in ids then StartEntry(table[id], now) else table[id]
  }

  /** start(): the heap is rebuilt from the registered recurring entries alone. */
  function DoStart(s: State, now: int): State {
    s.(table := StartedTable(s.table, s.entries, now),
       heap := (set id | id in s.entries),
       started := true)
  }

  function Step(s: State, a: Action, registry: set<string>): State {
    match a
    case Register(kind, runOnStartup, now) => DoRegister(s, kind, runOnStartup, now)
    case AddOneOff(once) => DoAdd(s, once, registry)
    case CancelOneOff(key) => DoCancel(s, key)
    case Refill(due) => DoRefill(s, due, registry)
    case PopDue(id, now) => DoPop(s, id, now)
    case Fired => DoFired(s)
  }

  function Run(s: State, acts: seq<Action>, registry: set<string>): State {
    if acts == [] then s else Step(Run(s, acts[..|acts| - 1], registry), acts[|acts| - 1], registry)
  }

  // ---- Invariants ----

  /** Handles are in the table, one-offs sit at their fire time, recurring entries are never
      tombstones and are registered once each. */
  ghost predicate WellFormed(s: State) {
    && (forall id | id in s.table :: id < s.nextId)
    && s.heap <= s.table.Keys
    && (forall k | k in s.index :: s.index[k] in s.table)
    && (forall i | 0 <= i < |s.entries| :: s.entries[i] in s.table && !s.table[s.entries[i]].kind.OneOff?)
    && (forall i, j | 0 <= i < j < |s.entries| :: s.entries[i] != s.entries[j])
    && (forall id | id in s.table :: EntryOk(s.table[id]))
    && (s.firing.Some? ==> s.firing.value in s.table && s.firing.value !in s.heap)
  }

  predicate EntryOk(e: Entry) {
    if e.kind.OneOff? then e.nextRun == e.kind.once.fireAt else !e.cancelled
  }

  predicate LiveOneOff(s: State, id: nat)
    requires id in s.table
  {
    s.table[id].kind.OneOff? && !s.table[id].cancelled
  }

  /** The index maps each key to the one live heap entry with that key, and every other
      one-off in the heap is a tombstone. */
  ghost predicate Indexed(s: State)
    requires WellFormed(s)
  {
    && (forall k | k in s.index ::
          s.index[k] in s.heap && LiveOneOff(s, s.index[k]) && s.table[s.index[k]].kind.once.runKey == k)
    && (forall id | id in s.heap && LiveOneOff(s, id) ::
          var k := s.table[id].kind.once.runKey; k in s.index && s.index[k] == id)
  }

  /** Once started, a registered recurring entry is in the heap or being fired. */
  ghost predicate Scheduled(s: State) {
    s.started ==> forall id | id in s.entries :: id in s.heap || s.firing == Some(id)
  }

  ghost predicate Inv(s: State) {
    WellFormed(s) && Indexed(s) && Scheduled(s)
  }

  lemma CancelKeeps(s: State, key: Key)
    requires WellFormed(s)
    requires forall k | k in s.index :: s.table[s.index[k]].kind.OneOff?
    ensures WellFormed(DoCancel(s, key)) && DoCancel(s, key).nextId == s.nextId
    ensures Indexed(s) ==> Indexed(DoCancel(s, key))
    ensures Scheduled(s) ==> Scheduled(DoCancel(s, key))
  {
  }

  lemma ArmKeeps(s: State, once: Once)
    requires Inv(s) && once.runKey !in s.index
    ensures Inv(Arm(s, once))
  {
  }

  lemma AddKeeps(s: State, once: Once, registry: set<string>)
    requires Inv(s)
    ensures Inv(DoAdd(s, once, registry))
  {
    CancelKeeps(s, once.runKey);
    if once.funcName in registry {
      ArmKeeps(DoCancel(s, once.runKey), once);
    }
  }

  lemma {:induction false} RefillKeeps(s: State, due: seq<Once>, registry: set<string>)
    requires Inv(s)
    ensures Inv(DoRefill(s, due, registry))
  {
    if due != [] {
      RefillKeeps(s, due[..|due| - 1], registry);
      AddKeeps(DoRefill(s, due[..|due| - 1], registry), due[|due| - 1], registry);
    }
  }

  lemma RegisterKeeps(s: State, kind: Kind, runOnStartup: bool, now: int)
    requires Inv(s)
    ensures Inv(DoRegister(s, kind, runOnStartup, now))
  {
  }

  lemma PopKeeps(s: State, id: nat, now: int)
    requires Inv(s)
    ensures Inv(DoPop(s, id, now))
  {
  }

  lemma FiredKeeps(s: State)
    requires Inv(s)
    ensures Inv(DoFired(s))
  {
  }

  /** Every add, replace, cancel, refill, pop and re-push, in any order and at any await,
      keeps the index and the heap in agreement. */
  lemma {:induction false} RunKeepsInv(s: State, acts: seq<Action>, registry: set<string>)
    requires Inv(s)
    ensures Inv(Run(s, acts, registry))
  {
    if acts != [] {
      var p := Run(s, acts[..|acts| - 1], registry);
      RunKeepsInv(s, acts[..|acts| - 1], registry);
      match acts[|acts| - 1]
      case Register(kind, runOnStartup, now) => RegisterKeeps(p, kind, runOnStartup, now);
      case AddOneOff(once) => AddKeeps(p, once, registry);
      case CancelOneOff(key) => CancelKeeps(p, key);
      case Refill(due) => RefillKeeps(p, due, registry);
      case PopDue(id, now) => PopKeeps(p, id, now);
      case Fired => FiredKeeps(p);
    }
  }

  /** start() leaves index and heap in agreement exactly when no one-off was armed before it. */
  lemma StartIsSafeExactlyWhen(s: State, now: int)
    requires Inv(s) && s.firing.None?
    ensures WellFormed(DoStart(s, now))
    ensures Inv(DoStart(s, now)) <==> s.index == map[]
  {
    var t := DoStart(s, now);
    if s.index != map[] {
      var k :| k in s.index;
      assert s.index[k] !in s.entries;
      assert t.index[k] !in t.heap;
    }
  }

  /** So from a start with nothing armed, every reachable state is in order. */
  lemma ReachableFromStart(before: seq<Action>, now: int, acts: seq<Action>, registry: set<string>)
    requires var s := Run(Empty(), before, registry); s.index == map[] && s.firing.None?
    ensures Inv(Run(DoStart(Run(Empty(), before, registry), now), acts, registry))
  {
    RunKeepsInv(Empty(), before, registry);
    StartIsSafeExactlyWhen(Run(Empty(), before, registry), now);
    RunKeepsInv(DoStart(Run(Empty(), before, registry), now), acts, registry);
  }

  // ---- One-offs armed before start ----

  /** What is left of Indexed when an indexed entry is missing from the heap. */
  ghost predicate Owned(s: State)
    requires WellFormed(s)
  {
    && (forall k | k in s.index :: LiveOneOff(s, s.index[k]) && s.table[s.index[k]].kind.once.runKey == k)
    && (forall id | id in s.heap && LiveOneOff(s, id) ::
          var k := s.table[id].kind.once.runKey; k in s.index && s.index[k] == id)
  }

  /** The key leads to an entry that is not in the heap and is not being fired. */
  ghost predicate Orphaned(s: State, key: Key, fireAt: int, id: nat) {
    && WellFormed(s) && Owned(s)
    && key in s.index && s.index[key] == id && s.table[id].nextRun == fireAt
    && id !in s.heap && s.firing != Some(id)
  }

  /** The action neither adds nor cancels the key, and refills it at no other time. */
  ghost predicate LeavesKey(a: Action, key: Key, fireAt: int) {
    match a
    case AddOneOff(once) => once.runKey != key
    case CancelOneOff(k) => k != key
    case Refill(due) => forall i | 0 <= i < |due| && due[i].runKey == key :: due[i].fireAt == fireAt
    case _ => true
  }

  lemma CancelKeepsOrphan(s: State, k: Key, key: Key, fireAt: int, id: nat)
    requires Orphaned(s, key, fireAt, id) && k != key
    ensures Orphaned(DoCancel(s, k), key, fireAt, id) && k !in DoCancel(s, k).index
  {
  }

  lemma ArmKeepsOrphan(s: State, once: Once, key: Key, fireAt: int, id: nat)
    requires Orphaned(s, key, fireAt, id) && once.runKey != key && once.runKey !in s.index
    ensures Orphaned(Arm(s, once), key, fireAt, id)
  {
  }

  lemma AddKeepsOrphan(s: State, once: Once, registry: set<string>, key: Key, fireAt: int, id: nat)
    requires Orphaned(s, key, fireAt, id) && once.runKey != key
    ensures Orphaned(DoAdd(s, once, registry), key, fireAt, id)
  {
    CancelKeepsOrphan(s, once.runKey, key, fireAt, id);
    if once.funcName in registry {
      ArmKeepsOrphan(DoCancel(s, once.runKey), once, key, fireAt, id);
    }
  }

  /** A refill skips the key: it looks armed at the row's time. */
  lemma {:induction false} RefillKeepsOrphan(s: State, due: seq<Once>, registry: set<string>,
                                             key: Key, fireAt: int, id: nat)
    requires Orphaned(s, key, fireAt, id) && LeavesKey(Refill(due), key, fireAt)
    ensures Orphaned(DoRefill(s, due, registry), key, fireAt, id)
  {
    if due != [] {
      var front, last := due[..|due| - 1], due[|due| - 1];
      assert forall i | 0 <= i < |front| :: front[i] == due[i];
      RefillKeepsOrphan(s, front, registry, key, fireAt, id);
      if last.runKey != key {
        AddKeepsOrphan(DoRefill(s, front, registry), last, registry, key, fireAt, id);
      } else {
        assert AlreadyArmed(DoRefill(s, front, registry), last);
      }
    }
  }

  lemma PopKeepsOrphan(s: State, top: nat, now: int, key: Key, fireAt: int, id: nat)
    requires Orphaned(s, key, fireAt, id)
    ensures Orphaned(DoPop(s, top, now), key, fireAt, id)
  {
    var t := DoPop(s, top, now);
    if t != s && LiveOneOff(s, top) {
      var k := s.table[top].kind.once.runKey;
      assert k in s.index && s.index[k] == top && k != key;
    }
  }

  lemma RegisterKeepsOrphan(s: State, kind: Kind, runOnStartup: bool, now: int, key: Key, fireAt: int, id: nat)
    requires Orphaned(s, key, fireAt, id)
    ensures Orphaned(DoRegister(s, kind, runOnStartup, now), key, fireAt, id)
  {
  }

  lemma FiredKeepsOrphan(s: State, key: Key, fireAt: int, id: nat)
    requires Orphaned(s, key, fireAt, id)
    ensures Orphaned(DoFired(s), key, fireAt, id)
  {
  }

  /** Such an entry never gets into the heap and is never fired, however often its row is
      refilled, until the key is added or cancelled or its row comes back at another time. */
  lemma {:induction false} OrphanNeverFires(s: State, key: Key, fireAt: int, id: nat,
                                            acts: seq<Action>, registry: set<string>)
    requires Orphaned(s, key, fireAt, id)
    requires forall i | 0 <= i < |acts| :: LeavesKey(acts[i], key, fireAt)
    ensures Orphaned(Run(s, acts, registry), key, fireAt, id)
  {
    if acts != [] {
      var front := acts[..|acts| - 1];
      OrphanNeverFires(s, key, fireAt, id, front, registry);
      var p := Run(s, front, registry);
      assert LeavesKey(acts[|acts| - 1], key, fireAt);
      match acts[|acts| - 1]
      case Register(kind, runOnStartup, now) => RegisterKeepsOrphan(p, kind, runOnStartup, now, key, fireAt, id);
      case AddOneOff(once) => AddKeepsOrphan(p, once, registry, key, fireAt, id);
      case CancelOneOff(k) => CancelKeepsOrphan(p, k, key, fireAt, id);
      case Refill(due) => RefillKeepsOrphan(p, due, registry, key, fireAt, id);
      case PopDue(top, now) => PopKeepsOrphan(p, top, now, key, fireAt, id);
      case Fired => FiredKeepsOrphan(p, key, fireAt, id);
    }
  }

  /** Every one-off that is armed when start() runs is lost in this process: it is orphaned, and
      stays so. */
  lemma StartOrphansWhatIsArmed(before: seq<Action>, now: int, key: Key, acts: seq<Action>, registry: set<string>)
    requires var s := Run(Empty(), before, registry); key in s.index && s.index[key] in s.table && s.firing.None?
    requires var s := Run(Empty(), before, registry);
             forall i | 0 <= i < |acts| :: LeavesKey(acts[i], key, s.table[s.index[key]].nextRun)
    ensures var s := Run(Empty(), before, registry);
            Orphaned(Run(DoStart(s, now), acts, registry), key, s.table[s.index[key]].nextRun, s.index[key])
  {
    var s := Run(Empty(), before, registry);
    RunKeepsInv(Empty(), before, registry);
    StartIsSafeExactlyWhen(s, now);
    OrphanNeverFires(DoStart(s, now), key, s.table[s.index[key]].nextRun, s.index[key], acts, registry);
  }

  /** The failing start is one call away: a one-off scheduled before it. */
  lemma ArmedBeforeStart(once: Once, registry: set<string>, now: int)
    requires once.funcName in registry
    ensures var s := Run(Empty(), [AddOneOff(once)], registry);
            && once.runKey in s.index && Inv(s) && !Inv(DoStart(s, now))
            && Orphaned(DoStart(s, now), once.runKey, once.fireAt, s.index[once.runKey])
  {
    var acts := [AddOneOff(once)];
    assert acts[..0] == [] && |acts| - 1 == 0 && acts[0] == AddOneOff(once);
    var s := Run(Empty(), acts, registry);
    assert s == Step(Run(Empty(), acts[..0], registry), acts[0], registry) == DoAdd(Empty(), once, registry);
    RunKeepsInv(Empty(), [AddOneOff(once)], registry);
    StartIsSafeExactlyWhen(s, now);
    StartOrphansWhatIsArmed([AddOneOff(once)], now, once.runKey, [], registry);
  }

  // ---- Refill ----

  ghost predicate DistinctKeys(due: seq<Once>) {
    forall i, j | 0 <= i < j < |due| :: due[i].runKey != due[j].runKey
  }

  lemma AddArms(s: State, once: Once, registry: set<string>)
    requires Inv(s) && once.funcName in registry
    ensures AlreadyArmed(DoAdd(s, once, registry), once)
    ensures forall other: Once | other.runKey != once.runKey && AlreadyArmed(s, other) ::
              AlreadyArmed(DoAdd(s, once, registry), other)
  {
  }

  /** A refill arms every loaded row of a registered function at exactly its fire time. */
  lemma {:induction false} RefillArmsEveryRow(s: State, due: seq<Once>, registry: set<string>)
    requires Inv(s) && DistinctKeys(due)
    ensures forall once | once in due && once.funcName in registry ::
              AlreadyArmed(DoRefill(s, due, registry), once)
  {
    if due != [] {
      var front := due[..|due| - 1];
      var last := due[|due| - 1];
      RefillArmsEveryRow(s, front, registry);
      RefillKeeps(s, front, registry);
      var p := DoRefill(s, front, registry);
      if last.funcName in registry {
        AddArms(p, last, registry);
      }
      forall once | once in due && once.funcName in registry
        ensures AlreadyArmed(DoRefill(s, due, registry), once)
      {
        if once != last {
          assert once in front;
          var i :| 0 <= i < |front| && front[i] == once;
          assert due[i] == once;
        }
      }
    }
  }

  /** What the key leads to. */
  function EntryAt(s: State, key: Key): Option<Entry> {
    if key in s.index && s.index[key] in s.table then Some(s.table[s.index[key]]) else None
  }

  /** The armed entry carries this very row, arguments included. */
  predicate Carries(s: State, once: Once) {
    var e := EntryAt(s, once.runKey);
    e.Some? && e.value.kind == OneOff(once)
  }

  lemma AddLeavesOthers(s: State, once: Once, registry: set<string>, key: Key)
    requires Inv(s) && once.runKey != key
    ensures EntryAt(DoAdd(s, once, registry), key) == EntryAt(s, key)
  {
  }

  lemma {:induction false} RefillLeavesOthers(s: State, due: seq<Once>, registry: set<string>, key: Key)
    requires Inv(s) && forall i | 0 <= i < |due| :: due[i].runKey != key
    ensures EntryAt(DoRefill(s, due, registry), key) == EntryAt(s, key)
  {
    if due != [] {
      var front := due[..|due| - 1];
      RefillLeavesOthers(s, front, registry, key);
      RefillKeeps(s, front, registry);
      AddLeavesOthers(DoRefill(s, front, registry), due[|due| - 1], registry, key);
    }
  }

  /** Whose arguments a refilled entry carries: those of the loaded row, unless the key was
      already armed at the row's time with other ones, which are then kept. */
  lemma {:induction false} RefillCarriesRowExactlyWhen(s: State, due: seq<Once>, once: Once, registry: set<string>)
    requires Inv(s) && DistinctKeys(due) && once in due && once.funcName in registry
    ensures Carries(DoRefill(s, due, registry), once) <==> !AlreadyArmed(s, once) || Carries(s, once)
  {
    var front, last := due[..|due| - 1], due[|due| - 1];
    RefillKeeps(s, front, registry);
    if once == last {
      RefillLeavesOthers(s, front, registry, once.runKey);
      var p := DoRefill(s, front, registry);
      assert AlreadyArmed(p, once) <==> AlreadyArmed(s, once);
      assert Carries(p, once) <==> Carries(s, once);
    } else {
      var i :| 0 <= i < |due| && due[i] == once;
      assert front[i] == once;
      RefillCarriesRowExactlyWhen(s, front, once, registry);
      AddLeavesOthers(DoRefill(s, front, registry), last, registry, once.runKey);
    }
  }

  /** The row was saved again at the same time with other arguments: the refill skips it, and the
      old arguments stay armed. */
  lemma RefillKeepsOldArguments(once: Once, payload: int, registry: set<string>)
    requires once.funcName in registry && payload != once.payload
    ensures var s := DoAdd(DoStart(Empty(), 0), once, registry);
            var again := once.(payload := payload);
            Inv(s) && DoRefill(s, [again], registry) == s && Carries(s, once) && !Carries(s, again)
  {
    var s := DoAdd(DoStart(Empty(), 0), once, registry);
    AddKeeps(DoStart(Empty(), 0), once, registry);
    assert [once.(payload := payload)][..0] == [];
    assert AlreadyArmed(s, once.(payload := payload));
  }

  lemma {:induction false} RefillSkipsArmed(s: State, due: seq<Once>, registry: set<string>)
    requires forall once | once in due :: AlreadyArmed(s, once) || once.funcName !in registry
    ensures DoRefill(s, due, registry) == s
  {
    if due != [] {
      RefillSkipsArmed(s, due[..|due| - 1], registry);
    }
  }

  /** Refilling again from unchanged rows leaves the state as it is, heap included. */
  lemma RefillIsIdempotent(s: State, due: seq<Once>, registry: set<string>)
    requires Inv(s) && DistinctKeys(due)
    ensures DoRefill(DoRefill(s, due, registry), due, registry) == DoRefill(s, due, registry)
  {
    RefillArmsEveryRow(s, due, registry);
    RefillSkipsArmed(DoRefill(s, due, registry), due, registry);
  }

  // ---- Spacing of one instance's firings ----

  /** A recurring entry's next time never moves back, whatever happens around it. */
  lemma {:induction false} NextRunNeverDecreases(s: State, id: nat, acts: seq<Action>, registry: set<string>)
    requires Inv(s) && id in s.table && s.table[id].kind.Interval? && s.table[id].kind.every > 0
    ensures var t := Run(s, acts, registry);
            && id in t.table && t.table[id].kind == s.table[id].kind
            && t.table[id].nextRun >= s.table[id].nextRun
  {
    if acts != [] {
      var front := acts[..|acts| - 1];
      NextRunNeverDecreases(s, id, front, registry);
      RunKeepsInv(s, front, registry);
      var p := Run(s, front, registry);
      match acts[|acts| - 1]
      case Register(kind, runOnStartup, now) =>
      case AddOneOff(once) => AddKeepsRecurring(p, once, registry, id);
      case CancelOneOff(key) =>
      case Refill(due) => RefillKeepsRecurring(p, due, registry, id);
      case PopDue(other, now) =>
      case Fired =>
    }
  }

  lemma AddKeepsRecurring(s: State, once: Once, registry: set<string>, id: nat)
    requires Inv(s) && id in s.table && !s.table[id].kind.OneOff?
    ensures id in DoAdd(s, once, registry).table && DoAdd(s, once, registry).table[id] == s.table[id]
  {
  }

  lemma {:induction false} RefillKeepsRecurring(s: State, due: seq<Once>, registry: set<string>, id: nat)
    requires Inv(s) && id in s.table && !s.table[id].kind.OneOff?
    ensures id in DoRefill(s, due, registry).table && DoRefill(s, due, registry).table[id] == s.table[id]
  {
    if due != [] {
      RefillKeepsRecurring(s, due[..|due| - 1], registry, id);
      RefillKeeps(s, due[..|due| - 1], registry);
      AddKeepsRecurring(DoRefill(s, due[..|due| - 1], registry), due[|due| - 1], registry, id);
    }
  }

  /** One instance fires an interval entry at loop times at least its interval apart. */
  lemma FiringsAreAnIntervalApart(s: State, id: nat, first: int, acts: seq<Action>, second: int, registry: set<string>)
    requires Inv(s) && id in s.table && s.table[id].kind.Interval? && s.table[id].kind.every > 0
    requires DoPop(s, id, first).firing == Some(id) && s.firing.None?
    requires var t := Run(DoPop(s, id, first), acts, registry);
             t.firing.None? && DoPop(t, id, second).firing == Some(id)
    ensures second >= first + s.table[id].kind.every
  {
    PopKeeps(s, id, first);
    NextRunNeverDecreases(DoPop(s, id, first), id, acts, registry);
  }
}

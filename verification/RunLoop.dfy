/** The run loop of one scheduler with a clock and the shared table: it wakes, refills if that
    is due, pops and fires what is due, and sleeps until its next deadline. Between any two of
    its steps the API calls of this process and the statements of other instances may come. */
module RunLoop {
  import opened Options
  import opened ScheduleState
  import Index = ScheduleIndex
  import opened ScheduleTiming
  import Restart
  import Stores
  import Tasks

  datatype Settings = Settings(horizon: nat, interval: nat, registry: set<string>)

  /** Where the loop stands. Loading: about to call load_due. Arming: has its rows. Draining: at
      the head of the due loop. Claiming: awaits the claim or lock of the popped entry. Dead: an
      exception has ended it. */
  datatype Place = Asleep | Loading | Arming(due: seq<Once>) | Draining | Claiming | Dead

  /** A task record made by a firing. If its callable was not dispatched it stays PENDING. */
  datatype Record = Record(entry: Entry, at: int, dispatched: bool)

  /** now is the time the loop read when it woke, wakeBy the deadline it sleeps to, wake its
      event. records is a history. */
  datatype World = World(
    clock: int, place: Place, now: int, wakeBy: int, wake: bool, nextRefill: int,
    mem: State, rows: map<Key, Once>, records: seq<Record>)

  /** How the backend answers a claim or a lock, and whether the target queue is full then. */
  datatype Reply = Answered(acquired: bool, full: bool) | Raised(deleted: bool)

  datatype Action =
    | Tick(delta: nat)
    | Wake
    | Load(due: seq<Once>)
    | LoadRaises
    | Arm
    | Pop(id: nat)
    | CronRaises(id: nat)
    | Settle(reply: Reply)
    | Sleep(deadline: int)
    | AddRecurring(kind: Kind, runOnStartup: bool, nextRun: int)
    | ArmSaved(once: Once)
    | Disarm(key: Key)
    | SaveRow(once: Once)
    | DeleteRow(key: Key)

  function Min(a: int, b: int): int {
    if a < b then a else b
  }

  /** load_due returned exactly the rows up to the bound. */
  ghost predicate Enumerates(due: seq<Once>, rows: map<Key, Once>, bound: int) {
    && DistinctKeys(due)
    && forall once :: once in due <==> once.runKey in rows && rows[once.runKey] == once && once.fireAt <= bound
  }

  /** That is what either backend's load_due selects from its table. */
  lemma LoadsWhatTheIndexSelects(due: seq<Once>, rows: map<Key, Once>, table: Index.Entries, before: Index.Timestamp)
    requires Enumerates(due, rows, Index.Epoch(before)) && rows.Keys == table.Keys
    requires forall k | k in rows :: rows[k].runKey == k && rows[k].fireAt == Index.Epoch(table[k].fireAt)
    ensures (set once | once in due :: once.runKey) == Index.DueIn(table, before).Keys
  {
    forall k | k in Index.DueIn(table, before) ensures k in set once | once in due :: once.runKey {
      assert rows[k] in due;
    }
  }

  predicate NothingDue(s: State, now: int) {
    forall id | id in s.heap && id in s.table :: s.table[id].nextRun > now
  }

  /** The nearest of the next refill and the heap's entries. */
  predicate IsDeadline(s: State, nextRefill: int, deadline: int) {
    && deadline <= nextRefill && (forall id | id in s.heap && id in s.table :: deadline <= s.table[id].nextRun)
    && (deadline == nextRefill || exists id | id in s.heap && id in s.table :: s.table[id].nextRun == deadline)
  }

  /** An added entry sets the event, so a sleeping loop wakes at once. */
  function Notified(w: World, mem: State): World {
    w.(mem := mem, wake := true, wakeBy := if w.place == Asleep then Min(w.wakeBy, w.clock) else w.wakeBy)
  }

  function DoWake(w: World): World {
    if w.place != Asleep then w
    else w.(now := w.clock, wake := false, place := if w.clock >= w.nextRefill then Loading else Draining)
  }

  ghost function DoLoad(cfg: Settings, w: World, due: seq<Once>): World {
    if w.place == Loading && Enumerates(due, w.rows, w.now + cfg.horizon) then w.(place := Arming(due)) else w
  }

  /** A refill that raises is logged and tried again one interval later. */
  function DoLoadRaises(cfg: Settings, w: World): World {
    if w.place == Loading then w.(place := Draining, nextRefill := w.now + cfg.interval) else w
  }

  function DoArm(cfg: Settings, w: World): World {
    if !w.place.Arming? then w
    else
      var mem := DoRefill(w.mem, w.place.due, cfg.registry);
      w.(place := Draining, nextRefill := w.now + cfg.interval, mem := mem, wake := w.wake || mem != w.mem)
  }

  function DoPopTop(w: World, id: nat): World {
    if w.place != Draining then w
    else
      var mem := DoPop(w.mem, id, w.now);
      w.(mem := mem, place := if mem.firing.Some? then Claiming else Draining)
  }

  /** The next cron time is computed before the lock is tried, and nothing catches what that
      raises. */
  function DoCronRaises(w: World, id: nat): World {
    if w.place == Draining && w.mem.firing.None? && IsTop(w.mem, id) && w.mem.table[id].nextRun <= w.now &&
       w.mem.table[id].kind.Cron?
    then w.(mem := w.mem.(heap := w.mem.heap - {id}, firing := Some(id)), place := Dead)
    else w
  }

  /** The firing is over and the loop goes on. */
  function Completed(w: World): World {
    w.(mem := DoFired(w.mem), place := Draining)
  }

  /** The record is created before it is dispatched; a full queue raises, and nothing catches it. */
  function Launched(w: World, e: Entry, full: bool): World {
    var v := w.(records := w.records + [Record(e, w.clock, !full)]);
    if full then v.(place := Dead) else Completed(v)
  }

  /** _fire_once: a claim that raises is caught; a row that is gone is somebody else's; an
      unregistered function consumes the row. */
  function SettleOnce(cfg: Settings, w: World, e: Entry, reply: Reply): World
    requires e.kind.OneOff?
  {
    var once := e.kind.once;
    if reply.Raised? then
      Completed(if reply.deleted then w.(rows := w.rows - {once.runKey}) else w)
    else if once.runKey !in w.rows then Completed(w)
    else
      var v := w.(rows := w.rows - {once.runKey});
      if once.funcName !in cfg.registry then Completed(v) else Launched(v, e, reply.full)
  }

  /** _fire: a lock that raises is not caught. */
  function SettleRecurring(w: World, e: Entry, reply: Reply): World {
    if reply.Raised? then w.(place := Dead)
    else if !reply.acquired then Completed(w)
    else Launched(w, e, reply.full)
  }

  function DoSettle(cfg: Settings, w: World, reply: Reply): World {
    if w.place != Claiming || w.mem.firing.None? || w.mem.firing.value !in w.mem.table then w
    else
      var e := w.mem.table[w.mem.firing.value];
      if e.kind.OneOff? then SettleOnce(cfg, w, e, reply) else SettleRecurring(w, e, reply)
  }

  function DoSleep(w: World, deadline: int): World {
    if w.place == Draining && NothingDue(w.mem, w.now) && IsDeadline(w.mem, w.nextRefill, deadline) then
      w.(place := Asleep, wakeBy := if w.wake then Min(deadline, w.clock) else deadline)
    else w
  }

  /** The second half of schedule_once: arms inside the horizon, disarms beyond it. */
  function DoArmSaved(cfg: Settings, w: World, once: Once): World {
    if once.fireAt > w.clock + cfg.horizon then w.(mem := DoCancel(w.mem, once.runKey))
    else if once.funcName in cfg.registry then Notified(w, DoAdd(w.mem, once, cfg.registry))
    else w
  }

  ghost function Step(cfg: Settings, w: World, a: Action): World {
    match a
    case Tick(delta) => w.(clock := w.clock + delta)
    case Wake => DoWake(w)
    case Load(due) => DoLoad(cfg, w, due)
    case LoadRaises => DoLoadRaises(cfg, w)
    case Arm => DoArm(cfg, w)
    case Pop(id) => DoPopTop(w, id)
    case CronRaises(id) => DoCronRaises(w, id)
    case Settle(reply) => DoSettle(cfg, w, reply)
    case Sleep(deadline) => DoSleep(w, deadline)
    case AddRecurring(kind, runOnStartup, nextRun) => Notified(w, DoRegister(w.mem, kind, runOnStartup, nextRun))
    case ArmSaved(once) => DoArmSaved(cfg, w, once)
    case Disarm(key) => w.(mem := DoCancel(w.mem, key))
    case SaveRow(once) => w.(rows := w.rows[once.runKey := once])
    case DeleteRow(key) => w.(rows := w.rows - {key})
  }

  ghost function Run(cfg: Settings, w: World, acts: seq<Action>): World {
    if acts == [] then w else Step(cfg, Run(cfg, w, acts[..|acts| - 1]), acts[|acts| - 1])
  }

  // ---- What every step keeps ----

  /** When the next call of load_due is due. */
  function NextLoad(cfg: Settings, w: World): int {
    if w.place.Arming? then w.now + cfg.interval else w.nextRefill
  }

  /** A sleeping loop wakes by the time of every heap entry, or has been woken already. */
  predicate SleepsInTime(w: World) {
    w.wakeBy <= w.clock || forall id | id in w.mem.heap && id in w.mem.table :: w.wakeBy <= w.mem.table[id].nextRun
  }

  ghost predicate Valid(cfg: Settings, w: World) {
    && Inv(w.mem) && w.now <= w.clock && NextLoad(cfg, w) <= w.clock + cfg.interval
    && (w.place == Asleep ==> w.wakeBy <= w.nextRefill && SleepsInTime(w))
    && (w.place == Claiming || w.place == Dead ==> w.mem.firing.Some?)
    && (w.place == Asleep || w.place == Loading || w.place.Arming? || w.place == Draining ==> w.mem.firing.None?)
    && (w.place.Arming? ==> DistinctKeys(w.place.due)) && (w.place == Loading ==> w.nextRefill <= w.now)
    && (forall k | k in w.rows :: w.rows[k].runKey == k)
  }

  /** start() with nothing armed: the loop is about to run for the first time. */
  function Started(clock: int, mem: State, rows: map<Key, Once>): World {
    World(clock, Asleep, clock, clock, false, clock, mem, rows, [])
  }

  lemma CompletedKeepsValid(cfg: Settings, w: World)
    requires Valid(cfg, w) && w.place == Claiming
    ensures Valid(cfg, Completed(w))
  {
    FiredKeeps(w.mem);
  }

  /** Records and fewer rows do not matter for Valid. */
  lemma HistoryKeepsValid(cfg: Settings, w: World, rows: map<Key, Once>, records: seq<Record>)
    requires Valid(cfg, w) && rows.Keys <= w.rows.Keys && forall k | k in rows :: rows[k] == w.rows[k]
    ensures Valid(cfg, w.(rows := rows, records := records))
  {
  }

  lemma DeadKeepsValid(cfg: Settings, w: World)
    requires Valid(cfg, w) && w.place == Claiming
    ensures Valid(cfg, w.(place := Dead))
  {
  }

  /** The two ways a settled firing leaves the loop, with some rows and records changed. */
  ghost predicate Settled(w: World, v: World) {
    && v.rows.Keys <= w.rows.Keys && (forall k | k in v.rows :: v.rows[k] == w.rows[k])
    && var u := w.(rows := v.rows, records := v.records);
       v == Completed(u) || v == u.(place := Dead)
  }

  lemma SettleOnceSettles(cfg: Settings, w: World, e: Entry, reply: Reply)
    requires e.kind.OneOff?
    ensures Settled(w, SettleOnce(cfg, w, e, reply))
  {
  }

  lemma SettleRecurringSettles(w: World, e: Entry, reply: Reply)
    ensures Settled(w, SettleRecurring(w, e, reply))
  {
  }

  lemma SettledKeepsValid(cfg: Settings, w: World, v: World)
    requires Valid(cfg, w) && w.place == Claiming && Settled(w, v)
    ensures Valid(cfg, v)
  {
    var u := w.(rows := v.rows, records := v.records);
    HistoryKeepsValid(cfg, w, v.rows, v.records);
    CompletedKeepsValid(cfg, u);
    DeadKeepsValid(cfg, u);
  }

  lemma SettleKeepsValid(cfg: Settings, w: World, reply: Reply)
    requires Valid(cfg, w)
    ensures Valid(cfg, DoSettle(cfg, w, reply))
  {
    if w.place == Claiming {
      var e := w.mem.table[w.mem.firing.value];
      if e.kind.OneOff? {
        SettleOnceSettles(cfg, w, e, reply);
      } else {
        SettleRecurringSettles(w, e, reply);
      }
      SettledKeepsValid(cfg, w, DoSettle(cfg, w, reply));
    }
  }

  lemma CronRaisesKeepsValid(cfg: Settings, w: World, id: nat)
    requires Valid(cfg, w)
    ensures Valid(cfg, DoCronRaises(w, id))
  {
  }

  lemma ArmKeepsValid(cfg: Settings, w: World)
    requires Valid(cfg, w)
    ensures Valid(cfg, DoArm(cfg, w))
  {
    if w.place.Arming? {
      RefillKeeps(w.mem, w.place.due, cfg.registry);
      RefillKeepsFiring(w.mem, w.place.due, cfg.registry);
    }
  }

  lemma {:induction false} RefillKeepsFiring(s: State, due: seq<Once>, registry: set<string>)
    ensures DoRefill(s, due, registry).firing == s.firing
  {
    if due != [] {
      RefillKeepsFiring(s, due[..|due| - 1], registry);
    }
  }

  lemma PopKeepsValid(cfg: Settings, w: World, id: nat)
    requires Valid(cfg, w)
    ensures Valid(cfg, DoPopTop(w, id))
  {
    PopKeeps(w.mem, id, w.now);
  }

  /** A call that adds to the memory wakes the loop. */
  lemma NotifiedKeepsValid(cfg: Settings, w: World, mem: State)
    requires Valid(cfg, w) && Inv(mem) && mem.firing == w.mem.firing
    ensures Valid(cfg, Notified(w, mem))
  {
  }

  /** A cancel leaves a tombstone at the same time, so it need not. */
  lemma DisarmKeepsValid(cfg: Settings, w: World, key: Key)
    requires Valid(cfg, w)
    ensures Valid(cfg, w.(mem := DoCancel(w.mem, key)))
  {
    CancelKeeps(w.mem, key);
  }

  lemma ArmSavedKeepsValid(cfg: Settings, w: World, once: Once)
    requires Valid(cfg, w)
    ensures Valid(cfg, DoArmSaved(cfg, w, once))
  {
    AddKeeps(w.mem, once, cfg.registry);
    DisarmKeepsValid(cfg, w, once.runKey);
    NotifiedKeepsValid(cfg, w, DoAdd(w.mem, once, cfg.registry));
  }

  lemma StepKeepsValid(cfg: Settings, w: World, a: Action)
    requires Valid(cfg, w)
    ensures Valid(cfg, Step(cfg, w, a))
  {
    match a
    case Settle(reply) => SettleKeepsValid(cfg, w, reply);
    case Arm => ArmKeepsValid(cfg, w);
    case Pop(id) => PopKeepsValid(cfg, w, id);
    case CronRaises(id) => CronRaisesKeepsValid(cfg, w, id);
    case Tick(_) =>
    case Wake =>
    case Load(_) =>
    case LoadRaises =>
    case Sleep(_) =>
    case AddRecurring(kind, runOnStartup, nextRun) =>
      RegisterKeeps(w.mem, kind, runOnStartup, nextRun);
      NotifiedKeepsValid(cfg, w, DoRegister(w.mem, kind, runOnStartup, nextRun));
    case ArmSaved(once) => ArmSavedKeepsValid(cfg, w, once);
    case Disarm(key) => DisarmKeepsValid(cfg, w, key);
    case SaveRow(_) =>
    case DeleteRow(_) =>
  }

  lemma {:induction false} RunKeepsValid(cfg: Settings, w: World, acts: seq<Action>)
    requires Valid(cfg, w)
    ensures Valid(cfg, Run(cfg, w, acts))
  {
    if acts != [] {
      RunKeepsValid(cfg, w, acts[..|acts| - 1]);
      StepKeepsValid(cfg, Run(cfg, w, acts[..|acts| - 1]), acts[|acts| - 1]);
    }
  }

  // ---- One row, followed through the run ----

  /** The one-off whose claim is awaited. */
  function Claimed(w: World): Option<Once> {
    if w.place == Claiming && w.mem.firing.Some? && w.mem.firing.value in w.mem.table &&
       w.mem.table[w.mem.firing.value].kind.OneOff?
    then Some(w.mem.table[w.mem.firing.value].kind.once) else None
  }

  predicate Buffered(w: World, once: Once) {
    w.place.Arming? && once in w.place.due
  }

  /** The loop has the row in memory: loaded, armed or about to claim it. */
  predicate Known(w: World, once: Once) {
    once.runKey in w.mem.index || Buffered(w, once) || Claimed(w) == Some(once)
  }

  /** Nothing in memory has this key. */
  predicate Unknown(w: World, key: Key) {
    && key !in w.mem.index
    && (w.place.Arming? ==> forall i | 0 <= i < |w.place.due| :: w.place.due[i].runKey != key)
    && (Claimed(w).Some? ==> Claimed(w).value.runKey != key)
  }

  /** The row is there, and whatever the memory has of its key is this row. */
  ghost predicate Clean(cfg: Settings, w: World, once: Once) {
    var key := once.runKey;
    && key in w.rows && w.rows[key] == once
    && (key in w.mem.index ==> Carries(w.mem, once))
    && (w.place.Arming? ==> forall i | 0 <= i < |w.place.due| && w.place.due[i].runKey == key :: w.place.due[i] == once)
    && (Claimed(w).Some? && Claimed(w).value.runKey == key ==> Claimed(w) == Some(once) && once.fireAt <= w.now)
    && (key in w.mem.index || Buffered(w, once) ==> once.fireAt <= w.clock + cfg.horizon)
  }

  /** Nobody saves, cancels or claims the key elsewhere, and no refill and no claim of it raises.
      Its own schedule_once may still arm it. */
  predicate Gentle(w: World, a: Action, once: Once) {
    match a
    case SaveRow(other) => other.runKey != once.runKey
    case DeleteRow(key) => key != once.runKey
    case Disarm(key) => key != once.runKey
    case ArmSaved(other) => other.runKey == once.runKey ==> other == once
    case LoadRaises => false
    case Settle(reply) => Claimed(w) == Some(once) ==> !reply.Raised?
    case _ => true
  }

  /** The step that takes the row: its claim, at a time no earlier than it is due. */
  ghost predicate TakesRow(w: World, v: World, once: Once) {
    && Claimed(w) == Some(once) && once.runKey !in v.rows && once.fireAt <= w.now
    && exists e: Entry, dispatched: bool ::
         && e.kind == OneOff(once) && v.records == w.records + [Record(e, w.clock, dispatched)]
         && (!dispatched ==> v.place == Dead)
  }

  /** A step either takes the row or leaves it clean and, if it was known, known. */
  ghost predicate Follows(cfg: Settings, w: World, v: World, once: Once) {
    if once.runKey in v.rows then
      Clean(cfg, v, once) && (Known(w, once) ==> Known(v, once)) && NoRecordOf(w, v, once.runKey)
    else TakesRow(w, v, once)
  }

  predicate Of(r: Record, key: Key) {
    r.entry.kind.OneOff? && r.entry.kind.once.runKey == key
  }

  /** At most one record more, and not of this key. */
  ghost predicate NoRecordOf(w: World, v: World, key: Key) {
    v.records == w.records || exists r: Record :: v.records == w.records + [r] && !Of(r, key)
  }

  lemma LoadFollows(cfg: Settings, w: World, due: seq<Once>, once: Once)
    requires Valid(cfg, w) && Clean(cfg, w, once)
    ensures Follows(cfg, w, DoLoad(cfg, w, due), once)
    ensures DoLoad(cfg, w, due) != w && once.fireAt <= w.now + cfg.horizon ==> Buffered(DoLoad(cfg, w, due), once)
  {
    var v := DoLoad(cfg, w, due);
    if v != w {
      forall i | 0 <= i < |due| && due[i].runKey == once.runKey ensures due[i] == once {
        assert due[i] in due;
      }
    }
  }

  lemma ArmFollows(cfg: Settings, w: World, once: Once)
    requires Valid(cfg, w) && Clean(cfg, w, once) && once.funcName in cfg.registry
    ensures Follows(cfg, w, DoArm(cfg, w), once)
  {
    if w.place.Arming? {
      var due := w.place.due;
      RefillKeepsFiring(w.mem, due, cfg.registry);
      if once in due {
        RefillCarriesRowExactlyWhen(w.mem, due, once, cfg.registry);
      } else {
        RefillLeavesOthers(w.mem, due, cfg.registry, once.runKey);
        RefillKeeps(w.mem, due, cfg.registry);
      }
    }
  }

  lemma PopFollows(cfg: Settings, w: World, id: nat, once: Once)
    requires Valid(cfg, w) && Clean(cfg, w, once)
    ensures Follows(cfg, w, DoPopTop(w, id), once)
  {
    var v := DoPopTop(w, id);
    if w.place == Draining && v.mem != w.mem && w.mem.table[id].kind.OneOff? && !w.mem.table[id].cancelled {
      assert LiveOneOff(w.mem, id);
      var k := w.mem.table[id].kind.once.runKey;
      assert k in w.mem.index && w.mem.index[k] == id;
    }
  }

  lemma SettleFollows(cfg: Settings, w: World, reply: Reply, once: Once)
    requires Valid(cfg, w) && Clean(cfg, w, once) && Gentle(w, Settle(reply), once) && once.funcName in cfg.registry
    ensures Follows(cfg, w, DoSettle(cfg, w, reply), once)
  {
    var v := DoSettle(cfg, w, reply);
    if v != w {
      var e := w.mem.table[w.mem.firing.value];
      if Claimed(w) == Some(once) {
        assert v.records == w.records + [Record(e, w.clock, !reply.full)];
      } else {
        OtherSettles(cfg, w, e, reply, once.runKey);
      }
    }
  }

  lemma OtherSettles(cfg: Settings, w: World, e: Entry, reply: Reply, key: Key)
    requires w.place == Claiming && w.mem.firing.Some?
    requires w.mem.firing.value in w.mem.table && e == w.mem.table[w.mem.firing.value]
    requires e.kind.OneOff? ==> e.kind.once.runKey != key
    ensures var v := DoSettle(cfg, w, reply);
            && (key in v.rows <==> key in w.rows) && (key in w.rows ==> v.rows[key] == w.rows[key])
            && v.mem.index == w.mem.index && v.mem.table == w.mem.table && v.clock == w.clock && v.now == w.now
            && (v.place == Draining || v.place == Dead) && NoRecordOf(w, v, key)
  {
    var r := Record(e, w.clock, if reply.Answered? then !reply.full else false);
    assert !Of(r, key);
  }

  lemma RegisterFollows(cfg: Settings, w: World, kind: Kind, runOnStartup: bool, nextRun: int, once: Once)
    requires Valid(cfg, w) && Clean(cfg, w, once)
    ensures Follows(cfg, w, Notified(w, DoRegister(w.mem, kind, runOnStartup, nextRun)), once)
  {
  }

  /** A change of the memory that leaves the key, the entry being fired and what entries are. */
  predicate Leaves(s: State, t: State, key: Key) {
    && EntryAt(t, key) == EntryAt(s, key) && (key in t.index <==> key in s.index) && t.firing == s.firing
    && forall id | id in s.table :: id in t.table && t.table[id].kind == s.table[id].kind
  }

  lemma LeavingFollows(cfg: Settings, w: World, mem: State, once: Once)
    requires Valid(cfg, w) && Clean(cfg, w, once) && Leaves(w.mem, mem, once.runKey)
    ensures Follows(cfg, w, w.(mem := mem), once) && Follows(cfg, w, Notified(w, mem), once)
  {
  }

  lemma CancelLeaves(s: State, k: Key, key: Key)
    requires Inv(s) && k != key
    ensures Leaves(s, DoCancel(s, k), key)
  {
  }

  lemma ArmLeaves(s: State, other: Once, key: Key)
    requires Inv(s) && other.runKey != key
    ensures Leaves(s, ScheduleState.Arm(s, other), key)
  {
  }

  lemma AddLeaves(s: State, other: Once, registry: set<string>, key: Key)
    requires Inv(s) && other.runKey != key
    ensures Leaves(s, DoAdd(s, other, registry), key)
  {
    CancelLeaves(s, other.runKey, key);
    CancelKeeps(s, other.runKey);
    ArmLeaves(DoCancel(s, other.runKey), other, key);
  }

  lemma AddCarries(s: State, once: Once, registry: set<string>)
    requires Inv(s) && once.funcName in registry
    ensures Carries(DoAdd(s, once, registry), once) && DoAdd(s, once, registry).firing == s.firing
    ensures var table := DoAdd(s, once, registry).table;
            forall id | id in s.table :: id in table && table[id].kind == s.table[id].kind
  {
  }

  lemma OtherArmSavedFollows(cfg: Settings, w: World, other: Once, once: Once)
    requires Valid(cfg, w) && Clean(cfg, w, once) && other.runKey != once.runKey
    ensures Follows(cfg, w, DoArmSaved(cfg, w, other), once)
  {
    AddLeaves(w.mem, other, cfg.registry, once.runKey);
    CancelLeaves(w.mem, other.runKey, once.runKey);
    LeavingFollows(cfg, w, DoAdd(w.mem, other, cfg.registry), once);
    LeavingFollows(cfg, w, DoCancel(w.mem, other.runKey), once);
  }

  lemma ArmSavedFollows(cfg: Settings, w: World, once: Once)
    requires Valid(cfg, w) && Clean(cfg, w, once) && once.funcName in cfg.registry
    ensures Follows(cfg, w, DoArmSaved(cfg, w, once), once)
  {
    AddCarries(w.mem, once, cfg.registry);
  }

  lemma StepFollows(cfg: Settings, w: World, a: Action, once: Once)
    requires Valid(cfg, w) && Clean(cfg, w, once) && Gentle(w, a, once) && once.funcName in cfg.registry
    ensures Follows(cfg, w, Step(cfg, w, a), once)
  {
    match a
    case Tick(_) =>
    case Wake =>
    case Load(due) => LoadFollows(cfg, w, due, once);
    case LoadRaises =>
    case Arm => ArmFollows(cfg, w, once);
    case Pop(id) => PopFollows(cfg, w, id, once);
    case CronRaises(_) =>
    case Settle(reply) => SettleFollows(cfg, w, reply, once);
    case Sleep(_) =>
    case AddRecurring(kind, runOnStartup, nextRun) => RegisterFollows(cfg, w, kind, runOnStartup, nextRun, once);
    case ArmSaved(other) =>
      if other == once {
        ArmSavedFollows(cfg, w, once);
      } else {
        OtherArmSavedFollows(cfg, w, other, once);
      }
    case Disarm(key) =>
      CancelLeaves(w.mem, key, once.runKey);
      LeavingFollows(cfg, w, DoCancel(w.mem, key), once);
    case SaveRow(_) =>
    case DeleteRow(_) =>
  }

  // ---- In time ----

  /** The loop keeps its deadlines up to a lag: it wakes no later than that after wakeBy, and one
      iteration takes no longer than that; and no exception has ended it. */
  predicate OnTime(lag: nat, w: World) {
    w.place != Dead && (if w.place == Asleep then w.clock <= w.wakeBy + lag else w.clock <= w.now + lag)
  }

  /** A row that is not in memory will be loaded by the bound, and the loop is not behind it. */
  predicate Bounded(cfg: Settings, lag: nat, bound: int, w: World, once: Once) {
    && (!Known(w, once) ==> NextLoad(cfg, w) <= bound)
    && (if w.place == Asleep then w.wakeBy <= bound else w.now <= bound + lag)
  }

  lemma SleepIsBounded(cfg: Settings, lag: nat, bound: int, w: World, deadline: int, once: Once)
    requires Valid(cfg, w) && Clean(cfg, w, once) && Bounded(cfg, lag, bound, w, once) && once.fireAt <= bound
    ensures Bounded(cfg, lag, bound, DoSleep(w, deadline), once)
  {
    if once.runKey in w.mem.index {
      var id := w.mem.index[once.runKey];
      assert id in w.mem.heap && w.mem.table[id].nextRun == once.fireAt;
    }
  }

  /** Most steps leave the loop's deadlines alone. */
  lemma StepTiming(cfg: Settings, w: World, a: Action)
    requires !a.Tick? && !a.Wake? && !a.Load? && !a.LoadRaises? && !a.Sleep?
    ensures var v := Step(cfg, w, a);
            && v.now == w.now && v.wakeBy <= w.wakeBy && NextLoad(cfg, v) == NextLoad(cfg, w)
            && (v.place == Asleep <==> w.place == Asleep)
            && (w.place == Draining || w.place == Claiming || w.place == Dead ==>
                  v.place == Draining || v.place == Claiming || v.place == Dead)
  {
  }

  lemma StepIsBounded(cfg: Settings, lag: nat, bound: int, w: World, a: Action, once: Once)
    requires Valid(cfg, w) && Clean(cfg, w, once) && Bounded(cfg, lag, bound, w, once) && OnTime(lag, w)
    requires Gentle(w, a, once) && once.funcName in cfg.registry
    requires cfg.interval <= cfg.horizon && once.fireAt <= bound && once.runKey in Step(cfg, w, a).rows
    ensures Bounded(cfg, lag, bound, Step(cfg, w, a), once)
  {
    match a
    case Sleep(deadline) => SleepIsBounded(cfg, lag, bound, w, deadline, once);
    case Load(due) => LoadFollows(cfg, w, due, once);
    case Tick(_) =>
    case Wake =>
    case LoadRaises =>
    case _ =>
      StepFollows(cfg, w, a, once);
      StepTiming(cfg, w, a);
  }

  lemma GoneStaysGone(cfg: Settings, w: World, a: Action, once: Once)
    requires Valid(cfg, w) && once.runKey !in w.rows && Gentle(w, a, once)
    ensures once.runKey !in Step(cfg, w, a).rows && NoRecordOf(w, Step(cfg, w, a), once.runKey)
  {
    if a.Settle? && w.place == Claiming {
      var e := w.mem.table[w.mem.firing.value];
      var r := Record(e, w.clock, if a.reply.Answered? then !a.reply.full else false);
      if !Of(r, once.runKey) {
        assert NoRecordOf(w, Step(cfg, w, a), once.runKey);
      }
    }
  }

  /** Every state of the run is on time, and every step gentle. */
  ghost predicate GoodRun(cfg: Settings, lag: nat, w: World, acts: seq<Action>, once: Once) {
    && OnTime(lag, w)
    && (acts != [] ==>
          var front, a := acts[..|acts| - 1], acts[|acts| - 1];
          && GoodRun(cfg, lag, w, front, once)
          && Gentle(Run(cfg, w, front), a, once) && OnTime(lag, Run(cfg, w, acts)))
  }

  ghost predicate NoneOf(records: seq<Record>, from: nat, key: Key) {
    forall i | from <= i < |records| :: !Of(records[i], key)
  }

  /** From the n-th record on the key has exactly one: of this row, dispatched, not before its
      time and not after the bound. */
  ghost predicate FiredOnce(records: seq<Record>, n: nat, once: Once, bound: int) {
    exists j :: n <= j < |records| &&
      records[j].entry.kind == OneOff(once) && records[j].dispatched && once.fireAt <= records[j].at <= bound &&
      forall i | n <= i < |records| && i != j :: !Of(records[i], once.runKey)
  }

  /** The row is still there, clean and in time and without a record, or it has fired once. */
  ghost predicate Outcome(cfg: Settings, lag: nat, bound: int, n: nat, t: World, once: Once) {
    && n <= |t.records|
    && if once.runKey in t.rows then
         Clean(cfg, t, once) && Bounded(cfg, lag, bound, t, once) && NoneOf(t.records, n, once.runKey)
       else FiredOnce(t.records, n, once, bound + 2 * lag)
  }

  lemma TakenIsFired(lag: nat, bound: int, n: nat, w: World, v: World, once: Once)
    requires TakesRow(w, v, once) && v.place != Dead && n <= |w.records| && NoneOf(w.records, n, once.runKey)
    requires OnTime(lag, w) && w.now <= bound + lag && w.now <= w.clock
    ensures n <= |v.records| && FiredOnce(v.records, n, once, bound + 2 * lag)
  {
    var e: Entry, dispatched: bool :|
      && e.kind == OneOff(once) && v.records == w.records + [Record(e, w.clock, dispatched)]
      && (!dispatched ==> v.place == Dead);
    var j := |w.records|;
    assert v.records[j] == Record(e, w.clock, dispatched);
    assert forall i | n <= i < |v.records| && i != j :: v.records[i] == w.records[i];
  }

  lemma FiredStaysFired(w: World, v: World, n: nat, once: Once, bound: int)
    requires FiredOnce(w.records, n, once, bound) && NoRecordOf(w, v, once.runKey)
    ensures FiredOnce(v.records, n, once, bound)
  {
    var j :| n <= j < |w.records| &&
      w.records[j].entry.kind == OneOff(once) && w.records[j].dispatched && once.fireAt <= w.records[j].at <= bound &&
      forall i | n <= i < |w.records| && i != j :: !Of(w.records[i], once.runKey);
    assert v.records[j] == w.records[j];
    assert forall i | n <= i < |w.records| :: v.records[i] == w.records[i];
  }

  lemma OutcomeStep(cfg: Settings, lag: nat, bound: int, n: nat, w: World, a: Action, once: Once)
    requires Valid(cfg, w) && Outcome(cfg, lag, bound, n, w, once) && Gentle(w, a, once)
    requires OnTime(lag, w) && OnTime(lag, Step(cfg, w, a))
    requires cfg.interval <= cfg.horizon && once.fireAt <= bound && once.funcName in cfg.registry
    ensures Outcome(cfg, lag, bound, n, Step(cfg, w, a), once)
  {
    var v := Step(cfg, w, a);
    if once.runKey !in w.rows {
      GoneStaysGone(cfg, w, a, once);
      FiredStaysFired(w, v, n, once, bound + 2 * lag);
    } else {
      StepFollows(cfg, w, a, once);
      if once.runKey in v.rows {
        StepIsBounded(cfg, lag, bound, w, a, once);
        assert NoneOf(v.records, n, once.runKey);
      } else {
        TakenIsFired(lag, bound, n, w, v, once);
      }
    }
  }

  lemma {:induction false} RunOutcome(cfg: Settings, lag: nat, bound: int, n: nat,
                                      w: World, acts: seq<Action>, once: Once)
    requires Valid(cfg, w) && Outcome(cfg, lag, bound, n, w, once) && GoodRun(cfg, lag, w, acts, once)
    requires cfg.interval <= cfg.horizon && once.fireAt <= bound && once.funcName in cfg.registry
    ensures Outcome(cfg, lag, bound, n, Run(cfg, w, acts), once) && OnTime(lag, Run(cfg, w, acts))
  {
    if acts != [] {
      var front := acts[..|acts| - 1];
      RunOutcome(cfg, lag, bound, n, w, front, once);
      RunKeepsValid(cfg, w, front);
      OutcomeStep(cfg, lag, bound, n, Run(cfg, w, front), acts[|acts| - 1], once);
    }
  }

  /** When a row saved now has to be fired at the latest, but for the loop's lag: at its fire
      time if that is still ahead and the next refill comes before it. */
  function FireBy(cfg: Settings, w: World, once: Once): int {
    Max(w.clock, Max(once.fireAt, NextLoad(cfg, w)))
  }

  /** A key that is new to this instance: its row is clean. */
  lemma UnknownIsClean(cfg: Settings, w: World, once: Once)
    requires once.runKey in w.rows && w.rows[once.runKey] == once && Unknown(w, once.runKey)
    ensures Clean(cfg, w, once)
  {
  }

  /** The promise of the scheduler, for one instance that keeps its deadlines up to a lag and a
      refill interval within the horizon. In state w the row is there, its function is
      registered, and whatever the memory has of its key is this row; after that anything may
      happen but another save, a cancel or a foreign claim of the key, and calls that raise. Then
      the row is taken by the bound, and taking it fires it: exactly once, as itself, not early,
      and no later than the bound plus the lags of the wake and of the iteration. The bound is
      the fire time unless that is past or comes before the next refill, and at most one interval
      later. */
  lemma FiresExactlyOnceInTime(cfg: Settings, lag: nat, w: World, once: Once, acts: seq<Action>)
    requires cfg.interval <= cfg.horizon && once.funcName in cfg.registry
    requires Valid(cfg, w) && Clean(cfg, w, once)
    requires GoodRun(cfg, lag, w, acts, once)
    ensures var t, bound := Run(cfg, w, acts), FireBy(cfg, w, once);
            && bound <= Max(w.clock, once.fireAt) + cfg.interval
            && (w.clock <= once.fireAt && NextLoad(cfg, w) <= once.fireAt ==> bound == once.fireAt)
            && (t.clock > bound + 2 * lag ==> once.runKey !in t.rows)
            && (once.runKey !in t.rows ==> FiredOnce(t.records, |w.records|, once, bound + 2 * lag))
            && (once.runKey in t.rows ==> NoneOf(t.records, |w.records|, once.runKey))
  {
    RunOutcome(cfg, lag, FireBy(cfg, w, once), |w.records|, w, acts, once);
  }

  /** After a refill the next one is an interval from the time the loop woke, whether its load
      raised or not; one that raised leaves the memory alone. */
  lemma RefillIsRescheduled(cfg: Settings, w: World)
    ensures w.place == Loading ==>
              Step(cfg, w, LoadRaises) == w.(place := Draining, nextRefill := w.now + cfg.interval)
    ensures w.place.Arming? ==>
              var v := Step(cfg, w, Arm); v.place == Draining && v.nextRefill == w.now + cfg.interval && v.rows == w.rows
  {
  }

  /** A row that the loop has in memory waits for no refill: it is fired by its fire time, or now
      if that is past. */
  lemma KnownFiresByItsTime(cfg: Settings, lag: nat, w: World, once: Once, acts: seq<Action>)
    requires cfg.interval <= cfg.horizon && once.funcName in cfg.registry
    requires Valid(cfg, w) && Clean(cfg, w, once) && Known(w, once)
    requires GoodRun(cfg, lag, w, acts, once)
    ensures var t, bound := Run(cfg, w, acts), Max(w.clock, once.fireAt);
            && (t.clock > bound + 2 * lag ==> once.runKey !in t.rows)
            && (once.runKey !in t.rows ==> FiredOnce(t.records, |w.records|, once, bound + 2 * lag))
            && (once.runKey in t.rows ==> NoneOf(t.records, |w.records|, once.runKey))
  {
    if once.runKey in w.mem.index {
      assert w.mem.index[once.runKey] in w.mem.heap;
    }
    RunOutcome(cfg, lag, Max(w.clock, once.fireAt), |w.records|, w, acts, once);
  }

  /** schedule_once within the horizon: the call wakes the loop, so the row is fired on time even
      if the next refill is later, whatever the loop was doing. */
  lemma ScheduledSoonFiresOnTime(cfg: Settings, lag: nat, w: World, once: Once, acts: seq<Action>)
    requires cfg.interval <= cfg.horizon && once.funcName in cfg.registry
    requires Valid(cfg, w) && Clean(cfg, w, once) && once.fireAt <= w.clock + cfg.horizon
    requires GoodRun(cfg, lag, Step(cfg, w, ArmSaved(once)), acts, once)
    ensures var t, bound := Run(cfg, Step(cfg, w, ArmSaved(once)), acts), Max(w.clock, once.fireAt);
            && (t.clock > bound + 2 * lag ==> once.runKey !in t.rows)
            && (once.runKey !in t.rows ==> FiredOnce(t.records, |w.records|, once, bound + 2 * lag))
            && (once.runKey in t.rows ==> NoneOf(t.records, |w.records|, once.runKey))
  {
    StepKeepsValid(cfg, w, ArmSaved(once));
    ArmSavedFollows(cfg, w, once);
    AddCarries(w.mem, once, cfg.registry);
    KnownFiresByItsTime(cfg, lag, Step(cfg, w, ArmSaved(once)), once, acts);
  }

  /** Saving and arming a key anew on this instance leaves nothing stale of it behind, unless a
      refill has loaded the old row or its claim is under way: inside the horizon the new row is
      armed, beyond it the key is disarmed. */
  lemma RescheduledHereIsClean(cfg: Settings, w: World, once: Once)
    requires Valid(cfg, w) && once.funcName in cfg.registry
    requires Claimed(w).Some? ==> Claimed(w).value.runKey != once.runKey
    requires w.place.Arming? ==> forall i | 0 <= i < |w.place.due| :: w.place.due[i].runKey != once.runKey
    ensures var v := Step(cfg, Step(cfg, w, SaveRow(once)), ArmSaved(once));
            && Clean(cfg, v, once)
            && (once.runKey in v.mem.index <==> once.fireAt <= w.clock + cfg.horizon)
  {
    AddCarries(w.mem, once, cfg.registry);
  }

  lemma GoodThen(cfg: Settings, lag: nat, w: World, acts: seq<Action>, a: Action, once: Once)
    requires GoodRun(cfg, lag, w, acts, once)
    requires Gentle(Run(cfg, w, acts), a, once) && OnTime(lag, Step(cfg, Run(cfg, w, acts), a))
    ensures GoodRun(cfg, lag, w, acts + [a], once) && Run(cfg, w, acts + [a]) == Step(cfg, Run(cfg, w, acts), a)
  {
    assert (acts + [a])[..|acts|] == acts;
  }

  /** Such runs exist, without any lag: an empty scheduler loads a due row at its first wake,
      fires it at once, and sleeps on past the bound. */
  lemma AnOnTimeRun(cfg: Settings, once: Once) returns (w: World, acts: seq<Action>)
    requires 0 < cfg.interval <= cfg.horizon && once.funcName in cfg.registry && once.fireAt == 0
    ensures Valid(cfg, w) && Clean(cfg, w, once)
    ensures GoodRun(cfg, 0, w, acts, once) && Run(cfg, w, acts).clock > FireBy(cfg, w, once)
  {
    w := Started(0, DoStart(Empty(), 0), map[once.runKey := once]);
    UnknownIsClean(cfg, w, once);
    acts := LoadedAndFired(cfg, once);
    acts := SleepsPast(cfg, w, acts, once);
  }

  lemma SleepsPast(cfg: Settings, w: World, fired: seq<Action>, once: Once) returns (acts: seq<Action>)
    requires GoodRun(cfg, 0, w, fired, once) && 0 < cfg.interval
    requires var t := Run(cfg, w, fired);
             t.place == Draining && t.wake && t.clock == t.now == 0 && t.mem.heap == {} && t.nextRefill == cfg.interval
    ensures GoodRun(cfg, 0, w, acts, once) && Run(cfg, w, acts).clock == cfg.interval
  {
    DozesOff(cfg, Run(cfg, w, fired));
    acts := fired;
    GoodThen(cfg, 0, w, acts, Sleep(cfg.interval), once);
    acts := acts + [Sleep(cfg.interval)];
    GoodThen(cfg, 0, w, acts, Wake, once);
    acts := acts + [Wake];
    GoodThen(cfg, 0, w, acts, Sleep(cfg.interval), once);
    acts := acts + [Sleep(cfg.interval)];
    GoodThen(cfg, 0, w, acts, Tick(cfg.interval), once);
    acts := acts + [Tick(cfg.interval)];
  }

  /** With the event set the loop goes round once more before it sleeps to the next refill. */
  lemma DozesOff(cfg: Settings, t: World)
    requires t.place == Draining && t.wake && t.clock == t.now == 0 && t.mem.heap == {}
    requires 0 < cfg.interval == t.nextRefill
    ensures var a := Step(cfg, t, Sleep(cfg.interval));
            var b := Step(cfg, a, Wake);
            && a == t.(place := Asleep, wakeBy := 0) && b == a.(place := Draining, wake := false)
            && Step(cfg, b, Sleep(cfg.interval)) == b.(place := Asleep, wakeBy := cfg.interval)
  {
  }

  lemma LoadedAndFired(cfg: Settings, once: Once) returns (acts: seq<Action>)
    requires 0 < cfg.interval <= cfg.horizon && once.funcName in cfg.registry && once.fireAt == 0
    ensures var w := Started(0, DoStart(Empty(), 0), map[once.runKey := once]);
            var t := Run(cfg, w, acts);
            && GoodRun(cfg, 0, w, acts, once) && t.place == Draining && t.wake && t.nextRefill == cfg.interval
            && t.clock == t.now == 0 && t.mem.heap == {} && t.mem.firing == None && once.runKey !in t.rows
  {
    var w := Started(0, DoStart(Empty(), 0), map[once.runKey := once]);
    acts := LoadedAndArmed(cfg, once);
    GoodThen(cfg, 0, w, acts, Pop(0), once);
    acts := acts + [Pop(0)];
    GoodThen(cfg, 0, w, acts, Settle(Answered(true, false)), once);
    acts := acts + [Settle(Answered(true, false))];
  }

  lemma LoadedAndArmed(cfg: Settings, once: Once) returns (acts: seq<Action>)
    requires 0 < cfg.interval <= cfg.horizon && once.funcName in cfg.registry && once.fireAt == 0
    ensures var w := Started(0, DoStart(Empty(), 0), map[once.runKey := once]);
            && GoodRun(cfg, 0, w, acts, once)
            && Run(cfg, w, acts) ==
               w.(place := Draining, wake := true, nextRefill := cfg.interval, mem := DoAdd(w.mem, once, cfg.registry))
  {
    var w := Started(0, DoStart(Empty(), 0), map[once.runKey := once]);
    acts := [];
    GoodThen(cfg, 0, w, acts, Wake, once);
    acts := acts + [Wake];
    GoodThen(cfg, 0, w, acts, Load([once]), once);
    acts := acts + [Load([once])];
    assert [once][..0] == [];
    assert DoRefill(w.mem, [once], cfg.registry) == DoAdd(w.mem, once, cfg.registry);
    GoodThen(cfg, 0, w, acts, Arm, once);
    acts := acts + [Arm];
  }

  // ---- Armed from the load on ----

  /** A live heap entry of this row at exactly its fire time. */
  ghost predicate ArmedLive(w: World, once: Once) {
    var key := once.runKey;
    && key in w.mem.index && w.mem.index[key] in w.mem.heap && Carries(w.mem, once)
    && !w.mem.table[w.mem.index[key]].cancelled && w.mem.table[w.mem.index[key]].nextRun == once.fireAt
  }

  ghost predicate GentleRun(cfg: Settings, w: World, acts: seq<Action>, once: Once) {
    forall i | 0 <= i < |acts| :: Gentle(Run(cfg, w, acts[..i]), acts[i], once)
  }

  /** The row is on its way: loaded, armed at its time, or being claimed. */
  ghost predicate OnItsWay(cfg: Settings, w: World, once: Once) {
    once.runKey in w.rows ==>
      Clean(cfg, w, once) && (Buffered(w, once) || ArmedLive(w, once) || Claimed(w) == Some(once))
  }

  lemma KnownIsOnItsWay(cfg: Settings, w: World, once: Once)
    requires Valid(cfg, w) && Clean(cfg, w, once) && Known(w, once)
    ensures OnItsWay(cfg, w, once)
  {
    if once.runKey in w.mem.index {
      assert LiveOneOff(w.mem, w.mem.index[once.runKey]);
    }
  }

  lemma StepOnItsWay(cfg: Settings, w: World, a: Action, once: Once)
    requires Valid(cfg, w) && OnItsWay(cfg, w, once) && Gentle(w, a, once) && once.funcName in cfg.registry
    ensures OnItsWay(cfg, Step(cfg, w, a), once)
  {
    StepKeepsValid(cfg, w, a);
    if once.runKey !in w.rows {
      GoneStaysGone(cfg, w, a, once);
    } else {
      StepFollows(cfg, w, a, once);
      if once.runKey in Step(cfg, w, a).rows {
        KnownIsOnItsWay(cfg, Step(cfg, w, a), once);
      }
    }
  }

  /** Once a refill has loaded the row, it is armed or being claimed for as long as it is there,
      through every later step, whatever the timing. */
  lemma {:induction false} ArmedUntilTaken(cfg: Settings, w: World, acts: seq<Action>, once: Once)
    requires Valid(cfg, w) && Clean(cfg, w, once) && Known(w, once)
    requires GentleRun(cfg, w, acts, once) && once.funcName in cfg.registry
    ensures OnItsWay(cfg, Run(cfg, w, acts), once)
  {
    if acts == [] {
      KnownIsOnItsWay(cfg, w, once);
    } else {
      var front, a := acts[..|acts| - 1], acts[|acts| - 1];
      GentleFront(cfg, w, acts, once);
      ArmedUntilTaken(cfg, w, front, once);
      RunKeepsValid(cfg, w, front);
      StepOnItsWay(cfg, Run(cfg, w, front), a, once);
    }
  }

  lemma GentleFront(cfg: Settings, w: World, acts: seq<Action>, once: Once)
    requires acts != [] && GentleRun(cfg, w, acts, once)
    ensures GentleRun(cfg, w, acts[..|acts| - 1], once)
    ensures Gentle(Run(cfg, w, acts[..|acts| - 1]), acts[|acts| - 1], once)
  {
    var front := acts[..|acts| - 1];
    forall i | 0 <= i < |front| ensures Gentle(Run(cfg, w, front[..i]), front[i], once) {
      assert front[..i] == acts[..i] && front[i] == acts[i];
    }
  }

  /** The iteration that read now is still in its due loop. */
  predicate StillDraining(w: World, now: int, once: Once) {
    once.runKey in w.rows ==> w.now == now && (w.place == Draining || w.place == Claiming || w.place == Dead)
  }

  lemma StepStillDraining(cfg: Settings, w: World, a: Action, now: int, once: Once)
    requires Valid(cfg, w) && OnItsWay(cfg, w, once) && Gentle(w, a, once)
    requires StillDraining(w, now, once) && once.fireAt <= now
    ensures StillDraining(Step(cfg, w, a), now, once)
  {
    if once.runKey !in w.rows {
      GoneStaysGone(cfg, w, a, once);
    } else if !a.Tick? && !a.Wake? && !a.Load? && !a.LoadRaises? && !a.Sleep? {
      StepTiming(cfg, w, a);
    }
  }

  /** A due loop that finds the row armed and due does not end before it has taken it. */
  lemma {:induction false} DueLoopTakesTheRow(cfg: Settings, w: World, acts: seq<Action>, once: Once)
    requires Valid(cfg, w) && Clean(cfg, w, once) && ArmedLive(w, once) && w.place == Draining && once.fireAt <= w.now
    requires GentleRun(cfg, w, acts, once) && once.funcName in cfg.registry
    ensures StillDraining(Run(cfg, w, acts), w.now, once)
  {
    if acts != [] {
      var front, a := acts[..|acts| - 1], acts[|acts| - 1];
      GentleFront(cfg, w, acts, once);
      DueLoopTakesTheRow(cfg, w, front, once);
      ArmedUntilTaken(cfg, w, front, once);
      RunKeepsValid(cfg, w, front);
      StepStillDraining(cfg, Run(cfg, w, front), a, w.now, once);
    }
  }

  // ---- What a settled firing comes to ----

  /** A recurring entry that has its lock makes exactly one record, dispatched unless its queue is
      full; one that is refused makes none. Unless the loop ends, the entry is back in the heap. */
  lemma RecurringSettles(cfg: Settings, w: World, reply: Reply)
    requires Valid(cfg, w) && w.place == Claiming && Claimed(w).None?
    ensures var id, v := w.mem.firing.value, Step(cfg, w, Settle(reply));
            && id in w.mem.table && v.rows == w.rows
            && match reply
               case Raised(_) => v.records == w.records && v.place == Dead
               case Answered(acquired, full) =>
                 && v.records == (if acquired then w.records + [Record(w.mem.table[id], w.clock, !full)] else w.records)
                 && v.place == (if acquired && full then Dead else Draining)
                 && (v.place == Draining ==> v.mem == w.mem.(firing := None, heap := w.mem.heap + {id}))
  {
  }

  /** A one-off makes exactly one record if its row is there and its function registered, and
      takes the row; a row of an unregistered function is consumed without one. */
  lemma OneOffSettles(cfg: Settings, w: World, reply: Reply)
    requires Valid(cfg, w) && Claimed(w).Some?
    ensures var e, key, v := w.mem.table[w.mem.firing.value], Claimed(w).value.runKey, Step(cfg, w, Settle(reply));
            match reply
            case Raised(deleted) =>
              v.records == w.records && v.place == Draining && v.rows == if deleted then w.rows - {key} else w.rows
            case Answered(_, full) =>
              && v.rows == w.rows - {key}
              && if key in w.rows && Claimed(w).value.funcName in cfg.registry then
                   v.records == w.records + [Record(e, w.clock, !full)] && v.place == if full then Dead else Draining
                 else
                   v.records == w.records && v.place == Draining
  {
    assert Claimed(w).value.runKey !in w.rows ==> w.rows - {Claimed(w).value.runKey} == w.rows;
  }

  // ---- The end of the loop ----

  /** What ends the loop for good: a cron evaluation or a lock that raises, or a full queue for a
      firing that has its lock or its row and a registered function. */
  lemma DiesExactlyWhen(cfg: Settings, w: World, a: Action)
    requires Valid(cfg, w) && w.place != Dead
    ensures Step(cfg, w, a).place == Dead <==>
            || (a.CronRaises? && w.place == Draining && IsTop(w.mem, a.id) && w.mem.table[a.id].nextRun <= w.now &&
                w.mem.table[a.id].kind.Cron?)
            || (a.Settle? && w.place == Claiming &&
                match Claimed(w)
                case None => a.reply.Raised? || (a.reply.acquired && a.reply.full)
                case Some(once) =>
                  a.reply.Answered? && a.reply.full && once.runKey in w.rows && once.funcName in cfg.registry)
  {
  }

  lemma StepStaysDead(cfg: Settings, w: World, a: Action)
    requires Valid(cfg, w) && w.place == Dead
    ensures var v := Step(cfg, w, a);
            v.place == Dead && v.mem.firing == w.mem.firing && v.records == w.records && w.mem.heap <= v.mem.heap
  {
  }

  /** After that nothing is popped, fired or recorded any more, whatever is added, and the entry
      that was being fired is not in the heap. */
  lemma {:induction false} DeadForEver(cfg: Settings, w: World, acts: seq<Action>)
    requires Valid(cfg, w) && w.place == Dead
    ensures var t := Run(cfg, w, acts);
            && t.place == Dead && t.mem.firing == w.mem.firing && t.records == w.records
            && w.mem.heap <= t.mem.heap && t.mem.firing.value !in t.mem.heap
  {
    RunKeepsValid(cfg, w, acts);
    if acts != [] {
      var front := acts[..|acts| - 1];
      DeadForEver(cfg, w, front);
      RunKeepsValid(cfg, w, front);
      StepStaysDead(cfg, Run(cfg, w, front), acts[|acts| - 1]);
    }
  }

  /** A one-off that meets a full queue is lost to this process: its row is claimed, its record is
      PENDING with its callable nowhere, and neither this loop nor a refill brings it back. */
  lemma FullQueueLosesTheOneOff(cfg: Settings, w: World, once: Once, acquired: bool, acts: seq<Action>)
    requires Valid(cfg, w) && Claimed(w) == Some(once) && once.runKey in w.rows && once.funcName in cfg.registry
    requires forall i | 0 <= i < |acts| :: acts[i].SaveRow? ==> acts[i].once.runKey != once.runKey
    ensures var v := Step(cfg, w, Settle(Answered(acquired, true)));
            var t := Run(cfg, v, acts);
            && t.place == Dead && once.runKey !in t.rows
            && |t.records| == |w.records| + 1
            && var r := t.records[|w.records|]; Of(r, once.runKey) && !r.dispatched
  {
    var v := Step(cfg, w, Settle(Answered(acquired, true)));
    StepKeepsValid(cfg, w, Settle(Answered(acquired, true)));
    DeadForEver(cfg, v, acts);
    RowStaysGone(cfg, v, once.runKey, acts);
  }

  /** What becomes of its record when the process stops: with requeue_pending it is saved, and the
      next startup dispatches it exactly if its function is registered there (and history does not
      have it as successful). */
  lemma FullQueueOneOffReturns(once: Once, before: Restart.Registry, after: Restart.Registry, d: Restart.Disk,
                               tasks: Stores.Records, id: Stores.Id)
    requires id in tasks && tasks[id].status == Tasks.PENDING && tasks[id].func == once.funcName && d.pending == map[]
    ensures var saved := Restart.ShutDown(before, true, d, tasks);
            && id in saved.pending
            && (id in Restart.Dispatched(after, saved) <==> once.funcName in after && !Restart.Succeeded(d.history, id))
  {
    Restart.RestartPartition(before, after, d, tasks, id);
  }

  lemma {:induction false} RowStaysGone(cfg: Settings, w: World, key: Key, acts: seq<Action>)
    requires key !in w.rows && forall i | 0 <= i < |acts| :: acts[i].SaveRow? ==> acts[i].once.runKey != key
    ensures key !in Run(cfg, w, acts).rows
  {
    if acts != [] {
      RowStaysGone(cfg, w, key, acts[..|acts| - 1]);
      assert acts[|acts| - 1].SaveRow? ==> acts[|acts| - 1].once.runKey != key;
    }
  }
}

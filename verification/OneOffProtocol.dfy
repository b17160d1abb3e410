/** One-off schedules across any number of instances sharing one table. A step is one
    atomic backend statement or one stretch of an instance's event loop between two awaits.
    Actions that are not enabled leave the state alone, so the theorems quantify over every
    interleaving of every number of instances. */
module OneOffProtocol {
  import opened Options

  type Key = string

  /** An in-memory entry. gen names the save it stems from: its index in State.saves. */
  datatype Copy = Copy(key: Key, gen: nat, fireAt: int)

  /** One accepted save_scheduled; inserted is true when no row was there to replace. */
  datatype Save = Save(key: Key, fireAt: int, inserted: bool)

  /** One row leaving the table. row is the save whose row it was. Lost covers a claim that
      raised after the delete took effect and a claim whose function is not registered. */
  datatype Removal =
    | Fired(row: nat, copy: Copy, at: int)
    | Cancelled(row: nat)
    | Lost(row: nat)

  /** The memory of one process: the armed index, a refill between its query and its loop,
      a popped entry between the pop and the claim's answer, and API calls between their
      backend statement and their in-memory part. */
  datatype Instance = Instance(
    armed: map<Key, Copy>,
    buffer: Option<map<Key, Copy>>,
    claiming: Option<Copy>,
    arming: set<Copy>,
    dropping: set<Key>)

  /** rows maps a key to the save that owns its row; saves and removals are histories. */
  datatype State = State(
    now: int,
    horizon: int,
    rows: map<Key, nat>,
    instances: map<nat, Instance>,
    saves: seq<Save>,
    removals: seq<Removal>)

  datatype Reply = Answered | RaisedBeforeDelete | RaisedAfterDelete

  datatype Action =
    | Tick(delta: nat)
    | SaveRow(inst: nat, key: Key, fireAt: int)
    | ArmSaved(inst: nat, copy: Copy, known: bool)
    | DeleteRow(inst: nat, key: Key)
    | DropArmed(inst: nat, key: Key)
    | LoadDue(inst: nat)
    | ArmLoaded(inst: nat, registered: set<Key>)
    | PopDue(inst: nat, key: Key)
    | Claim(inst: nat, reply: Reply, known: bool)
    | Crash(inst: nat)

  const Empty: Instance := Instance(map[], None, None, {}, {})

  function Initial(now: int, horizon: int): State {
    State(now, horizon, map[], map[], [], [])
  }

  function Of(s: State, inst: nat): Instance {
    if inst in s.instances then s.instances[inst] else Empty
  }

  function With(s: State, inst: nat, i: Instance): State {
    s.(instances := s.instances[inst := i])
  }

  function CopyOf(s: State, key: Key): Copy
    requires key in s.rows && s.rows[key] < |s.saves|
  {
    Copy(key, s.rows[key], s.saves[s.rows[key]].fireAt)
  }

  /** The run loop is neither inside a refill nor inside a firing. */
  predicate LoopIdle(i: Instance) {
    i.buffer.None? && i.claiming.None?
  }

  function DoSave(s: State, inst: nat, key: Key, fireAt: int): State {
    var i := Of(s, inst);
    var gen := |s.saves|;
    With(s.(rows := s.rows[key := gen], saves := s.saves + [Save(key, fireAt, key !in s.rows)]),
         inst, i.(arming := i.arming + {Copy(key, gen, fireAt)}))
  }

  /** After the save: arm inside the horizon, disarm beyond it. */
  function DoArmSaved(s: State, inst: nat, copy: Copy, known: bool): State {
    var i := Of(s, inst);
    if copy !in i.arming then s
    else
      var j := i.(arming := i.arming - {copy});
      if copy.fireAt > s.now + s.horizon then With(s, inst, j.(armed := i.armed - {copy.key}))
      else if known then With(s, inst, j.(armed := i.armed[copy.key := copy]))
      else With(s, inst, j)
  }

  function DoDelete(s: State, inst: nat, key: Key): State {
    var i := Of(s, inst);
    var t := With(s, inst, i.(dropping := i.dropping + {key}));
    if key in s.rows then t.(rows := s.rows - {key}, removals := s.removals + [Cancelled(s.rows[key])]) else t
  }

  function DoDrop(s: State, inst: nat, key: Key): State {
    var i := Of(s, inst);
    if key in i.dropping then With(s, inst, i.(armed := i.armed - {key}, dropping := i.dropping - {key})) else s
  }

  /** load_due(now + horizon). */
  function DueRows(s: State): map<Key, Copy> {
    map key | key in s.rows && s.rows[key] < |s.saves| &&
              s.saves[s.rows[key]].fireAt <= s.now + s.horizon :: CopyOf(s, key)
  }

  function DoLoad(s: State, inst: nat): State {
    var i := Of(s, inst);
    if !LoopIdle(i) then s
    else
      With(s, inst, i.(buffer := Some(DueRows(s))))
  }

  /** An entry already armed at the same time stays as it is; the rest are (re)armed. */
  function ArmAll(armed: map<Key, Copy>, due: map<Key, Copy>, known: set<Key>): map<Key, Copy> {
    armed + map key | key in due && key in known &&
                      !(key in armed && armed[key].fireAt == due[key].fireAt) :: due[key]
  }

  function DoArmLoaded(s: State, inst: nat, known: set<Key>): State {
    var i := Of(s, inst);
    if i.buffer.None? then s
    else With(s, inst, i.(armed := ArmAll(i.armed, i.buffer.value, known), buffer := None))
  }

  function DoPop(s: State, inst: nat, key: Key): State {
    var i := Of(s, inst);
    if LoopIdle(i) && key in i.armed && i.armed[key].fireAt <= s.now then
      With(s, inst, i.(armed := i.armed - {key}, claiming := Some(i.armed[key])))
    else s
  }

  /** The claim deletes by key alone: it does not look at which save owns the row. */
  function DoClaim(s: State, inst: nat, reply: Reply, known: bool): State {
    var i := Of(s, inst);
    if i.claiming.None? then s
    else
      var copy := i.claiming.value;
      var t := With(s, inst, i.(claiming := None));
      if reply.RaisedBeforeDelete? || copy.key !in s.rows then t
      else
        var row := s.rows[copy.key];
        var event := if reply.Answered? && known then Fired(row, copy, s.now) else Lost(row);
        t.(rows := s.rows - {copy.key}, removals := s.removals + [event])
  }

  ghost function Step(s: State, a: Action): State {
    match a
    case Tick(delta) => s.(now := s.now + delta)
    case SaveRow(inst, key, fireAt) => DoSave(s, inst, key, fireAt)
    case ArmSaved(inst, copy, known) => DoArmSaved(s, inst, copy, known)
    case DeleteRow(inst, key) => DoDelete(s, inst, key)
    case DropArmed(inst, key) => DoDrop(s, inst, key)
    case LoadDue(inst) => DoLoad(s, inst)
    case ArmLoaded(inst, known) => DoArmLoaded(s, inst, known)
    case PopDue(inst, key) => DoPop(s, inst, key)
    case Claim(inst, reply, known) => DoClaim(s, inst, reply, known)
    case Crash(inst) => With(s, inst, Empty)
  }

  ghost function Run(s: State, acts: seq<Action>): State {
    if acts == [] then s else Step(Run(s, acts[..|acts| - 1]), acts[|acts| - 1])
  }

  // ---- Invariant ----

  predicate Genuine(c: Copy, key: Key, saves: seq<Save>) {
    c.key == key && c.gen < |saves| && saves[c.gen].key == key && saves[c.gen].fireAt == c.fireAt
  }

  ghost predicate GenuineInstance(i: Instance, saves: seq<Save>) {
    && (forall key | key in i.armed :: Genuine(i.armed[key], key, saves))
    && (i.buffer.Some? ==> forall key | key in i.buffer.value :: Genuine(i.buffer.value[key], key, saves))
    && (i.claiming.Some? ==> Genuine(i.claiming.value, i.claiming.value.key, saves))
    && (forall c | c in i.arming :: Genuine(c, c.key, saves))
  }

  /** A row belongs to the latest save of its key and has not been removed before. */
  ghost predicate RowOk(s: State, key: Key)
    requires key in s.rows
  {
    && s.rows[key] < |s.saves| && s.saves[s.rows[key]].key == key
    && (forall g | s.rows[key] < g < |s.saves| :: s.saves[g].key != key)
    && (forall i | 0 <= i < |s.removals| :: s.removals[i].row != s.rows[key])
  }

  ghost predicate RemovalOk(s: State, r: Removal) {
    && r.row < |s.saves|
    && (r.Fired? ==>
          && Genuine(r.copy, s.saves[r.row].key, s.saves)
          && r.copy.gen <= r.row && r.copy.fireAt <= r.at)
  }

  ghost predicate Inv(s: State) {
    && (forall inst | inst in s.instances :: GenuineInstance(s.instances[inst], s.saves))
    && (forall key | key in s.rows :: RowOk(s, key))
    && (forall i | 0 <= i < |s.removals| :: RemovalOk(s, s.removals[i]))
    && (forall i, j | 0 <= i < j < |s.removals| :: s.removals[i].row != s.removals[j].row)
    && (forall inst | inst in s.instances && s.instances[inst].claiming.Some? ::
          s.instances[inst].claiming.value.fireAt <= s.now)
  }

  /** Rewriting one instance's memory with genuine entries. */
  lemma MemoryKeepsInv(s: State, inst: nat, i: Instance)
    requires Inv(s) && GenuineInstance(i, s.saves)
    requires i.claiming.Some? ==> i.claiming.value.fireAt <= s.now
    ensures Inv(With(s, inst, i))
  {
    var t := With(s, inst, i);
    assert forall k | k in t.rows :: RowOk(s, k) ==> RowOk(t, k);
    assert forall r | 0 <= r < |t.removals| :: RemovalOk(s, s.removals[r]) ==> RemovalOk(t, t.removals[r]);
  }

  lemma OfIsGenuine(s: State, inst: nat)
    requires Inv(s)
    ensures GenuineInstance(Of(s, inst), s.saves)
    ensures Of(s, inst).claiming.Some? ==> Of(s, inst).claiming.value.fireAt <= s.now
  {
  }

  lemma RowSaveKeepsInv(s: State, key: Key, fireAt: int)
    requires Inv(s)
    ensures Inv(s.(rows := s.rows[key := |s.saves|], saves := s.saves + [Save(key, fireAt, key !in s.rows)]))
  {
    var t := s.(rows := s.rows[key := |s.saves|], saves := s.saves + [Save(key, fireAt, key !in s.rows)]);
    forall i | 0 <= i < |t.removals|
      ensures RemovalOk(t, t.removals[i])
    {
      assert RemovalOk(s, s.removals[i]);
    }
    forall k | k in t.rows
      ensures RowOk(t, k)
    {
      assert k != key ==> RowOk(s, k);
    }
    forall inst | inst in t.instances
      ensures GenuineInstance(t.instances[inst], t.saves)
    {
      assert GenuineInstance(s.instances[inst], s.saves);
    }
  }

  lemma SaveKeepsInv(s: State, inst: nat, key: Key, fireAt: int)
    requires Inv(s)
    ensures Inv(DoSave(s, inst, key, fireAt))
  {
    RowSaveKeepsInv(s, key, fireAt);
    var t := s.(rows := s.rows[key := |s.saves|], saves := s.saves + [Save(key, fireAt, key !in s.rows)]);
    OfIsGenuine(t, inst);
    var i := Of(t, inst);
    var copy := Copy(key, |s.saves|, fireAt);
    assert Genuine(copy, key, t.saves);
    MemoryKeepsInv(t, inst, i.(arming := i.arming + {copy}));
  }

  lemma RemovalKeepsInv(s: State, key: Key, r: Removal)
    requires Inv(s) && key in s.rows && r.row == s.rows[key] && RemovalOk(s, r)
    ensures Inv(s.(rows := s.rows - {key}, removals := s.removals + [r]))
  {
    var t := s.(rows := s.rows - {key}, removals := s.removals + [r]);
    assert RowOk(s, key);
    forall k | k in t.rows
      ensures RowOk(t, k)
    {
      assert RowOk(s, k);
    }
    forall i | 0 <= i < |t.removals|
      ensures RemovalOk(t, t.removals[i])
    {
      assert i < |s.removals| ==> RemovalOk(s, s.removals[i]);
    }
  }

  lemma DeleteKeepsInv(s: State, inst: nat, key: Key)
    requires Inv(s)
    ensures Inv(DoDelete(s, inst, key))
  {
    OfIsGenuine(s, inst);
    var i := Of(s, inst);
    var t := With(s, inst, i.(dropping := i.dropping + {key}));
    MemoryKeepsInv(s, inst, i.(dropping := i.dropping + {key}));
    if key in s.rows {
      assert RowOk(s, key);
      RemovalKeepsInv(t, key, Cancelled(s.rows[key]));
    }
  }

  lemma ClaimKeepsInv(s: State, inst: nat, reply: Reply, known: bool)
    requires Inv(s)
    ensures Inv(DoClaim(s, inst, reply, known))
  {
    OfIsGenuine(s, inst);
    var i := Of(s, inst);
    if i.claiming.Some? {
      var copy := i.claiming.value;
      var t := With(s, inst, i.(claiming := None));
      MemoryKeepsInv(s, inst, i.(claiming := None));
      if copy.key in s.rows && !reply.RaisedBeforeDelete? {
        assert RowOk(s, copy.key);
        var row := s.rows[copy.key];
        RemovalKeepsInv(t, copy.key, if reply.Answered? && known then Fired(row, copy, s.now) else Lost(row));
      }
    }
  }

  lemma ArmSavedKeepsInv(s: State, inst: nat, copy: Copy, known: bool)
    requires Inv(s)
    ensures Inv(DoArmSaved(s, inst, copy, known))
  {
    OfIsGenuine(s, inst);
    if copy in Of(s, inst).arming {
      MemoryKeepsInv(s, inst, Of(DoArmSaved(s, inst, copy, known), inst));
    }
  }

  lemma DropKeepsInv(s: State, inst: nat, key: Key)
    requires Inv(s)
    ensures Inv(DoDrop(s, inst, key))
  {
    OfIsGenuine(s, inst);
    if key in Of(s, inst).dropping {
      MemoryKeepsInv(s, inst, Of(DoDrop(s, inst, key), inst));
    }
  }

  lemma LoadKeepsInv(s: State, inst: nat)
    requires Inv(s)
    ensures Inv(DoLoad(s, inst))
  {
    OfIsGenuine(s, inst);
    if LoopIdle(Of(s, inst)) {
      assert forall k | k in s.rows :: RowOk(s, k);
      MemoryKeepsInv(s, inst, Of(DoLoad(s, inst), inst));
    }
  }

  lemma ArmLoadedKeepsInv(s: State, inst: nat, registered: set<Key>)
    requires Inv(s)
    ensures Inv(DoArmLoaded(s, inst, registered))
  {
    OfIsGenuine(s, inst);
    if Of(s, inst).buffer.Some? {
      MemoryKeepsInv(s, inst, Of(DoArmLoaded(s, inst, registered), inst));
    }
  }

  lemma PopKeepsInv(s: State, inst: nat, key: Key)
    requires Inv(s)
    ensures Inv(DoPop(s, inst, key))
  {
    OfIsGenuine(s, inst);
    if DoPop(s, inst, key) != s {
      MemoryKeepsInv(s, inst, Of(DoPop(s, inst, key), inst));
    }
  }

  lemma TickKeepsInv(s: State, delta: nat)
    requires Inv(s)
    ensures Inv(s.(now := s.now + delta))
  {
    var t := s.(now := s.now + delta);
    assert forall k | k in t.rows :: RowOk(s, k) ==> RowOk(t, k);
    assert forall r | 0 <= r < |t.removals| :: RemovalOk(s, s.removals[r]) ==> RemovalOk(t, t.removals[r]);
  }

  lemma StepKeepsInv(s: State, a: Action)
    requires Inv(s)
    ensures Inv(Step(s, a))
  {
    match a
    case SaveRow(inst, key, fireAt) => SaveKeepsInv(s, inst, key, fireAt);
    case DeleteRow(inst, key) => DeleteKeepsInv(s, inst, key);
    case Claim(inst, reply, known) => ClaimKeepsInv(s, inst, reply, known);
    case Tick(delta) => TickKeepsInv(s, delta);
    case ArmSaved(inst, copy, known) => ArmSavedKeepsInv(s, inst, copy, known);
    case DropArmed(inst, key) => DropKeepsInv(s, inst, key);
    case LoadDue(inst) => LoadKeepsInv(s, inst);
    case ArmLoaded(inst, registered) => ArmLoadedKeepsInv(s, inst, registered);
    case PopDue(inst, key) => PopKeepsInv(s, inst, key);
    case Crash(inst) => MemoryKeepsInv(s, inst, Empty);
  }

  lemma {:induction false} RunKeepsInv(s: State, acts: seq<Action>)
    requires Inv(s)
    ensures Inv(Run(s, acts))
  {
    if acts != [] {
      RunKeepsInv(s, acts[..|acts| - 1]);
      StepKeepsInv(Run(s, acts[..|acts| - 1]), acts[|acts| - 1]);
    }
  }

  // ---- Conservation ----

  /** Saves of key that found no row. */
  function Inserts(saves: seq<Save>, key: Key): nat {
    if saves == [] then 0
    else
      var last := saves[|saves| - 1];
      Inserts(saves[..|saves| - 1], key) + if last.key == key && last.inserted then 1 else 0
  }

  predicate Removes(r: Removal, saves: seq<Save>, key: Key) {
    r.row < |saves| && saves[r.row].key == key
  }

  /** Rows of key that left the table. */
  function Removed(removals: seq<Removal>, saves: seq<Save>, key: Key): nat {
    if removals == [] then 0
    else
      Removed(removals[..|removals| - 1], saves, key) +
      if Removes(removals[|removals| - 1], saves, key) then 1 else 0
  }

  /** Firings of key. */
  function Firings(removals: seq<Removal>, key: Key): nat {
    if removals == [] then 0
    else
      var last := removals[|removals| - 1];
      Firings(removals[..|removals| - 1], key) + if last.Fired? && last.copy.key == key then 1 else 0
  }

  lemma {:induction false} RemovedIgnoresLaterSaves(removals: seq<Removal>, saves: seq<Save>, more: Save, key: Key)
    requires forall i | 0 <= i < |removals| :: removals[i].row < |saves|
    ensures Removed(removals, saves + [more], key) == Removed(removals, saves, key)
  {
    if removals != [] {
      RemovedIgnoresLaterSaves(removals[..|removals| - 1], saves, more, key);
    }
  }

  ghost predicate Balanced(s: State, key: Key) {
    Removed(s.removals, s.saves, key) + (if key in s.rows then 1 else 0) == Inserts(s.saves, key)
  }

  lemma SaveKeepsBalance(s: State, inst: nat, k: Key, fireAt: int, key: Key)
    requires Inv(s) && Balanced(s, key)
    ensures Balanced(DoSave(s, inst, k, fireAt), key)
  {
    var save := Save(k, fireAt, k !in s.rows);
    assert forall i | 0 <= i < |s.removals| :: RemovalOk(s, s.removals[i]);
    RemovedIgnoresLaterSaves(s.removals, s.saves, save, key);
    assert (s.saves + [save])[..|s.saves|] == s.saves;
  }

  lemma RemovalKeepsBalance(s: State, t: State, k: Key, r: Removal, key: Key)
    requires Inv(s) && Balanced(s, key) && k in s.rows && r.row == s.rows[k]
    requires t.rows == s.rows - {k} && t.removals == s.removals + [r] && t.saves == s.saves
    ensures Balanced(t, key)
  {
    assert RowOk(s, k);
    assert t.removals[..|s.removals|] == s.removals;
  }

  lemma ClaimKeepsBalance(s: State, inst: nat, reply: Reply, known: bool, key: Key)
    requires Inv(s) && Balanced(s, key)
    ensures Balanced(DoClaim(s, inst, reply, known), key)
  {
    var t := DoClaim(s, inst, reply, known);
    if t.removals != s.removals {
      RemovalKeepsBalance(s, t, Of(s, inst).claiming.value.key, t.removals[|s.removals|], key);
    }
  }

  /** Only saves, cancels and claims touch the table. */
  lemma QuietStep(s: State, a: Action)
    requires !a.SaveRow? && !a.DeleteRow? && !a.Claim?
    ensures Step(s, a).rows == s.rows && Step(s, a).removals == s.removals && Step(s, a).saves == s.saves
  {
  }

  lemma StepKeepsBalance(s: State, a: Action, key: Key)
    requires Inv(s) && Balanced(s, key)
    ensures Balanced(Step(s, a), key)
  {
    match a
    case SaveRow(inst, k, fireAt) => SaveKeepsBalance(s, inst, k, fireAt, key);
    case Claim(inst, reply, known) => ClaimKeepsBalance(s, inst, reply, known, key);
    case DeleteRow(_, k) =>
      if k in s.rows {
        RemovalKeepsBalance(s, Step(s, a), k, Cancelled(s.rows[k]), key);
      }
    case _ => QuietStep(s, a);
  }

  /** For every key and every interleaving: claims that took a row, successful cancels and
      the row still present add up to the saves that found no row. */
  lemma {:induction false} Conservation(now: int, horizon: int, acts: seq<Action>, key: Key)
    ensures var s := Run(Initial(now, horizon), acts);
            Inv(s) && Balanced(s, key)
  {
    if acts != [] {
      var front := acts[..|acts| - 1];
      Conservation(now, horizon, front, key);
      StepKeepsBalance(Run(Initial(now, horizon), front), acts[|acts| - 1], key);
      StepKeepsInv(Run(Initial(now, horizon), front), acts[|acts| - 1]);
    }
  }

  lemma {:induction false} FiringsAreRemovals(s: State, removals: seq<Removal>, key: Key)
    requires forall i | 0 <= i < |removals| :: RemovalOk(s, removals[i])
    ensures Firings(removals, key) <= Removed(removals, s.saves, key)
  {
    if removals != [] {
      FiringsAreRemovals(s, removals[..|removals| - 1], key);
      assert RemovalOk(s, removals[|removals| - 1]);
    }
  }

  /** A key fires in the whole deployment at most as often as it was scheduled afresh, less
      one while its row is still pending. */
  lemma KeyFiresAtMostOncePerInsert(now: int, horizon: int, acts: seq<Action>, key: Key)
    ensures var s := Run(Initial(now, horizon), acts);
            Firings(s.removals, key) + (if key in s.rows then 1 else 0) <= Inserts(s.saves, key)
  {
    Conservation(now, horizon, acts, key);
    var s := Run(Initial(now, horizon), acts);
    FiringsAreRemovals(s, s.removals, key);
  }

  // ---- What fires ----

  /** No later save of the same key was accepted. */
  ghost predicate Unsuperseded(saves: seq<Save>, gen: nat)
    requires gen < |saves|
  {
    forall g | gen < g < |saves| :: saves[g].key != saves[gen].key
  }

  /** A schedule_once whose key is not saved again fires at most once in the deployment, never
      before its time, and never once a cancel of it returned True or a claim lost it, whatever
      refill or stale copy re-arms it. */
  lemma UnsupersededFiresAtMostOnce(now: int, horizon: int, acts: seq<Action>, gen: nat)
    requires gen < |Run(Initial(now, horizon), acts).saves|
    requires Unsuperseded(Run(Initial(now, horizon), acts).saves, gen)
    ensures var s := Run(Initial(now, horizon), acts);
            && (forall i | 0 <= i < |s.removals| && s.removals[i].Fired? && s.removals[i].copy.gen == gen ::
                  s.removals[i].row == gen && s.saves[gen].fireAt <= s.removals[i].at)
            && (forall i, j | 0 <= i < |s.removals| && 0 <= j < |s.removals| &&
                              s.removals[i].row == gen && s.removals[j].Fired? && s.removals[j].copy.gen == gen ::
                  i == j)
  {
    Conservation(now, horizon, acts, "");
    var s := Run(Initial(now, horizon), acts);
    forall i | 0 <= i < |s.removals| && s.removals[i].Fired? && s.removals[i].copy.gen == gen
      ensures s.removals[i].row == gen && s.saves[gen].fireAt <= s.removals[i].at
    {
      assert RemovalOk(s, s.removals[i]);
    }
  }

  /** Which save's arguments run at the next pop and claim: those of the armed copy, exactly
      when that copy is due and some row for its key is there, whichever save owns the row. */
  lemma ClaimIgnoresTheRowsOwner(s: State, inst: nat, key: Key, gen: nat)
    requires Inv(s) && LoopIdle(Of(s, inst))
    ensures var t := Step(Step(s, PopDue(inst, key)), Claim(inst, Answered, true));
            (|t.removals| > |s.removals| && t.removals[|s.removals|].Fired? &&
             t.removals[|s.removals|].copy.gen == gen)
            <==>
            (key in Of(s, inst).armed && Of(s, inst).armed[key].gen == gen &&
             Of(s, inst).armed[key].fireAt <= s.now && key in s.rows)
  {
    OfIsGenuine(s, inst);
  }

  /** A save that a cancel reported as removed can still fire once its key is saved again:
      instance 1 keeps the copy it armed, and its claim takes the new row, at the old time. */
  lemma CancelledSaveFiresAfterResave(now: int, key: Key, oldTime: int, newTime: int)
    returns (acts: seq<Action>)
    requires now <= oldTime < newTime
    ensures var s := Run(Initial(now, oldTime - now), acts);
            && s.saves == [Save(key, oldTime, true), Save(key, newTime, true)]
            && s.removals == [Cancelled(0), Fired(1, Copy(key, 0, oldTime), oldTime)]
            && key !in s.rows
  {
    var s0 := Initial(now, oldTime - now);
    acts := ArmedElsewhere(now, key, oldTime);
    var s3 := Run(s0, acts);
    acts := Extend(s0, acts, DeleteRow(0, key));
    acts := Extend(s0, acts, SaveRow(0, key, newTime));
    var s5 := Run(s0, acts);
    CancelAndResave(s3, 0, key, newTime);
    StaleCopyWins(s5, 1, Copy(key, 0, oldTime), oldTime - now);
    acts := Extend(s0, acts, Tick(oldTime - now));
    acts := Extend(s0, acts, PopDue(1, key));
    acts := Extend(s0, acts, Claim(1, Answered, true));
  }

  /** Instance 0 saves, instance 1 refills. */
  lemma ArmedElsewhere(now: int, key: Key, oldTime: int) returns (acts: seq<Action>)
    requires now <= oldTime
    ensures var s := Run(Initial(now, oldTime - now), acts);
            && s.now == now && s.horizon == oldTime - now && s.rows == map[key := 0]
            && s.saves == [Save(key, oldTime, true)] && s.removals == []
            && Of(s, 1) == Empty.(armed := map[key := Copy(key, 0, oldTime)])
  {
    var s0 := Initial(now, oldTime - now);
    acts := Extend(s0, [], SaveRow(0, key, oldTime));
    RefillArms(Run(s0, acts), 1, key, 0);
    acts := Extend(s0, acts, LoadDue(1));
    acts := Extend(s0, acts, ArmLoaded(1, {key}));
  }

  lemma CancelAndResave(s: State, inst: nat, key: Key, fireAt: int)
    requires key in s.rows
    ensures var t := Step(Step(s, DeleteRow(inst, key)), SaveRow(inst, key, fireAt));
            && t.rows == s.rows[key := |s.saves|] && t.now == s.now
            && t.saves == s.saves + [Save(key, fireAt, true)]
            && t.removals == s.removals + [Cancelled(s.rows[key])]
            && forall other | other != inst :: Of(t, other) == Of(s, other)
  {
  }

  lemma StaleCopyWins(s: State, inst: nat, copy: Copy, wait: nat)
    requires Of(s, inst) == Empty.(armed := map[copy.key := copy])
    requires copy.key in s.rows && copy.fireAt <= s.now + wait
    ensures var t := Step(Step(Step(s, Tick(wait)), PopDue(inst, copy.key)), Claim(inst, Answered, true));
            && t.rows == s.rows - {copy.key} && t.saves == s.saves
            && t.removals == s.removals + [Fired(s.rows[copy.key], copy, s.now + wait)]
  {
  }

  /** A refill with nothing armed arms the one row that is inside the horizon. */
  lemma RefillArms(s: State, inst: nat, key: Key, gen: nat)
    requires inst !in s.instances && s.rows == map[key := gen] && gen < |s.saves|
    requires s.saves[gen].fireAt <= s.now + s.horizon
    ensures var t := Step(Step(s, LoadDue(inst)), ArmLoaded(inst, {key}));
            && Of(t, inst) == Empty.(armed := map[key := Copy(key, gen, s.saves[gen].fireAt)])
            && t.rows == s.rows && t.saves == s.saves && t.removals == s.removals
            && t.now == s.now && t.horizon == s.horizon
  {
    var due := map[key := Copy(key, gen, s.saves[gen].fireAt)];
    assert DueRows(s) == due;
    assert ArmAll(map[], due, {key}) == due;
  }

  lemma RunExtends(s: State, acts: seq<Action>, a: Action)
    ensures Run(s, acts + [a]) == Step(Run(s, acts), a)
  {
    assert (acts + [a])[..|acts|] == acts;
  }

  lemma Extend(s: State, acts: seq<Action>, a: Action) returns (longer: seq<Action>)
    ensures longer == acts + [a] && Run(s, longer) == Step(Run(s, acts), a)
  {
    RunExtends(s, acts, a);
    longer := acts + [a];
  }

  // ---- What each instance has in memory ----

  /** After its save, a schedule_once within the horizon is armed, and one beyond it disarmed; an
      instance without the function leaves its memory alone. */
  lemma ArmSavedArmsOrDisarms(s: State, inst: nat, copy: Copy, known: bool)
    requires copy in Of(s, inst).arming
    ensures var i, j := Of(s, inst), Of(Step(s, ArmSaved(inst, copy, known)), inst);
            && j.arming == i.arming - {copy} && j.buffer == i.buffer && j.claiming == i.claiming && j.dropping == i.dropping
            && (copy.fireAt > s.now + s.horizon ==> j.armed == i.armed - {copy.key})
            && (copy.fireAt <= s.now + s.horizon && known ==> j.armed == i.armed[copy.key := copy])
            && (copy.fireAt <= s.now + s.horizon && !known ==> j.armed == i.armed)
  {
  }

  /** A refill loads exactly the rows within the horizon, each as a copy of the save that owns it;
      then it arms those of the known functions, but for those armed at their time already. */
  lemma RefillLoadsAndArms(s: State, inst: nat, known: set<Key>, key: Key)
    requires Inv(s) && LoopIdle(Of(s, inst))
    ensures var i := Of(s, inst);
            var loaded := Of(Step(s, LoadDue(inst)), inst);
            var armed := Of(Step(Step(s, LoadDue(inst)), ArmLoaded(inst, known)), inst);
            var due := key in s.rows && s.saves[s.rows[key]].fireAt <= s.now + s.horizon;
            && loaded.armed == i.armed && loaded.buffer.Some? && (key in loaded.buffer.value <==> due)
            && (due ==> loaded.buffer.value[key] == Copy(key, s.rows[key], s.saves[s.rows[key]].fireAt))
            && armed.buffer == None
            && (due && key in known ==>
                  && key in armed.armed && armed.armed[key].fireAt == s.saves[s.rows[key]].fireAt
                  && (!(key in i.armed && i.armed[key].fireAt == s.saves[s.rows[key]].fireAt) ==>
                        armed.armed[key] == loaded.buffer.value[key]))
            && (!(due && key in known) ==>
                  && (key in armed.armed <==> key in i.armed)
                  && (key in i.armed ==> armed.armed[key] == i.armed[key]))
  {
    assert key in s.rows ==> RowOk(s, key);
  }

  // ---- When a save whose row is gone can still fire ----

  predicate FreeOf(copies: map<Key, Copy>, gen: nat) {
    forall k | k in copies :: copies[k].gen != gen
  }

  /** The instance holds no copy of this save: armed, loaded, being armed or being claimed. */
  predicate Lacks(i: Instance, gen: nat) {
    && FreeOf(i.armed, gen)
    && (i.buffer.Some? ==> FreeOf(i.buffer.value, gen))
    && (i.claiming.Some? ==> i.claiming.value.gen != gen)
    && (forall c | c in i.arming :: c.gen != gen)
  }

  predicate Held(s: State, gen: nat) {
    exists inst | inst in s.instances :: !Lacks(s.instances[inst], gen)
  }

  predicate RowGone(s: State, gen: nat) {
    gen < |s.saves| && forall k | k in s.rows :: s.rows[k] != gen
  }

  /** The actions make this save fire. */
  ghost predicate Fires(s: State, acts: seq<Action>, gen: nat) {
    exists i :: |s.removals| <= i < |Run(s, acts).removals| &&
      Run(s, acts).removals[i].Fired? && Run(s, acts).removals[i].copy.gen == gen
  }

  lemma StepKeepsGone(s: State, a: Action, gen: nat)
    requires RowGone(s, gen)
    ensures RowGone(Step(s, a), gen)
  {
  }

  lemma StepLacks(s: State, a: Action, gen: nat, inst: nat)
    requires RowGone(s, gen) && Lacks(Of(s, inst), gen)
    ensures Lacks(Of(Step(s, a), inst), gen)
  {
  }

  lemma StepFiresOthers(s: State, a: Action, gen: nat)
    requires RowGone(s, gen) && !Held(s, gen)
    ensures forall i | |s.removals| <= i < |Step(s, a).removals| && Step(s, a).removals[i].Fired? ::
              Step(s, a).removals[i].copy.gen != gen
  {
    if a.Claim? && a.inst in s.instances {
      assert Lacks(s.instances[a.inst], gen);
    }
  }

  lemma StepWithoutCopies(s: State, a: Action, gen: nat)
    requires RowGone(s, gen) && !Held(s, gen)
    ensures RowGone(Step(s, a), gen) && !Held(Step(s, a), gen)
  {
    var t := Step(s, a);
    StepKeepsGone(s, a, gen);
    forall inst | inst in t.instances ensures Lacks(t.instances[inst], gen) {
      assert inst in s.instances ==> Lacks(s.instances[inst], gen);
      StepLacks(s, a, gen, inst);
    }
  }

  lemma RemovalsGrow(s: State, a: Action)
    ensures s.removals <= Step(s, a).removals
  {
  }

  lemma {:induction false} NoCopyNoFiring(s: State, acts: seq<Action>, gen: nat)
    requires RowGone(s, gen) && !Held(s, gen)
    ensures RowGone(Run(s, acts), gen) && !Held(Run(s, acts), gen) && !Fires(s, acts, gen)
    ensures s.removals <= Run(s, acts).removals
  {
    if acts != [] {
      var front, a := acts[..|acts| - 1], acts[|acts| - 1];
      NoCopyNoFiring(s, front, gen);
      var p := Run(s, front);
      StepWithoutCopies(p, a, gen);
      StepFiresOthers(p, a, gen);
      RemovalsGrow(p, a);
      forall i | |s.removals| <= i < |Run(s, acts).removals| && Run(s, acts).removals[i].Fired?
        ensures Run(s, acts).removals[i].copy.gen != gen
      {
        if i < |p.removals| {
          assert Run(s, acts).removals[i] == p.removals[i];
        }
      }
    }
  }

  lemma {:induction false} RunThen(s: State, first: seq<Action>, more: seq<Action>)
    ensures Run(s, first + more) == Run(Run(s, first), more)
    ensures s.removals <= Run(s, first).removals
    decreases |more|, |first|
  {
    if more != [] {
      var front, a := more[..|more| - 1], more[|more| - 1];
      RunThen(s, first, front);
      assert first + more == (first + front) + [a];
      RunExtends(s, first + front, a);
    } else {
      assert first + more == first;
      if first != [] {
        RunThen(s, first[..|first| - 1], []);
        RemovalsGrow(Run(s, first[..|first| - 1]), first[|first| - 1]);
      }
    }
  }

  /** What a later state can make fire, this one can. */
  lemma FiresLater(s: State, first: seq<Action>, more: seq<Action>, gen: nat)
    requires Fires(Run(s, first), more, gen)
    ensures Fires(s, first + more, gen)
  {
    RunThen(s, first, more);
  }

  /** A claim under way fires once some row of its key is there. */
  lemma FireClaiming(s: State, inst: nat) returns (acts: seq<Action>)
    requires Of(s, inst).claiming.Some?
    ensures Fires(s, acts, Of(s, inst).claiming.value.gen)
  {
    var c := Of(s, inst).claiming.value;
    acts := [];
    if c.key !in s.rows {
      acts := Extend(s, acts, SaveRow(inst, c.key, 0));
    }
    var t := Run(s, acts);
    acts := Extend(s, acts, Claim(inst, Answered, true));
    assert Run(s, acts).removals == t.removals + [Fired(t.rows[c.key], c, t.now)];
    assert Run(s, acts).removals[|t.removals|].copy == c;
  }

  /** The run loop can finish whatever it is doing without touching what is armed. */
  lemma ToIdle(s: State, inst: nat) returns (acts: seq<Action>)
    ensures var t := Run(s, acts);
            && Of(t, inst) == Of(s, inst).(buffer := None, claiming := None) && t.now == s.now
  {
    acts := [];
    if Of(s, inst).claiming.Some? {
      acts := Extend(s, acts, Claim(inst, RaisedBeforeDelete, false));
    }
    var t := Run(s, acts);
    if Of(s, inst).buffer.Some? {
      assert ArmAll(Of(t, inst).armed, Of(t, inst).buffer.value, {}) == Of(t, inst).armed;
      acts := Extend(s, acts, ArmLoaded(inst, {}));
    }
  }

  lemma FireArmed(s: State, inst: nat, key: Key) returns (acts: seq<Action>)
    requires key in Of(s, inst).armed
    ensures Fires(s, acts, Of(s, inst).armed[key].gen)
  {
    var copy := Of(s, inst).armed[key];
    acts := ToIdle(s, inst);
    acts := Extend(s, acts, Tick(if copy.fireAt > s.now then copy.fireAt - s.now else 0));
    acts := Extend(s, acts, PopDue(inst, key));
    var more := FireClaiming(Run(s, acts), inst);
    FiresLater(s, acts, more, copy.gen);
    acts := acts + more;
  }

  lemma FireArming(s: State, inst: nat, copy: Copy) returns (acts: seq<Action>)
    requires copy in Of(s, inst).arming
    ensures Fires(s, acts, copy.gen)
  {
    var late := copy.fireAt - s.now - s.horizon;
    acts := Extend(s, [], Tick(if late > 0 then late else 0));
    acts := Extend(s, acts, ArmSaved(inst, copy, true));
    var more := FireArmed(Run(s, acts), inst, copy.key);
    FiresLater(s, acts, more, copy.gen);
    acts := acts + more;
  }

  lemma FireLoaded(s: State, inst: nat, key: Key) returns (acts: seq<Action>)
    requires Of(s, inst).buffer.Some? && key in Of(s, inst).buffer.value
    ensures Fires(s, acts, Of(s, inst).buffer.value[key].gen)
  {
    var copy := Of(s, inst).buffer.value[key];
    acts := Extend(s, [], DeleteRow(inst, key));
    acts := Extend(s, acts, DropArmed(inst, key));
    acts := Extend(s, acts, ArmLoaded(inst, {key}));
    var more := FireArmed(Run(s, acts), inst, key);
    FiresLater(s, acts, more, copy.gen);
    acts := acts + more;
  }

  lemma HeldCanFire(s: State, gen: nat) returns (acts: seq<Action>)
    requires Held(s, gen)
    ensures Fires(s, acts, gen)
  {
    var inst :| inst in s.instances && !Lacks(s.instances[inst], gen);
    var i := s.instances[inst];
    if k :| k in i.armed && i.armed[k].gen == gen {
      acts := FireArmed(s, inst, k);
    } else if i.claiming.Some? && i.claiming.value.gen == gen {
      acts := FireClaiming(s, inst);
    } else if c :| c in i.arming && c.gen == gen {
      acts := FireArming(s, inst, c);
    } else {
      var k :| k in i.buffer.value && i.buffer.value[k].gen == gen;
      acts := FireLoaded(s, inst, k);
    }
  }

  /** A save whose row is gone, cancelled, claimed or replaced, can fire in some continuation
      exactly if some instance still holds a copy of it. */
  lemma GoneSaveCanFireExactlyWhen(s: State, gen: nat)
    requires RowGone(s, gen)
    ensures (exists acts :: Fires(s, acts, gen)) <==> Held(s, gen)
  {
    if Held(s, gen) {
      var acts := HeldCanFire(s, gen);
    } else {
      forall acts ensures !Fires(s, acts, gen) {
        NoCopyNoFiring(s, acts, gen);
      }
    }
  }
}

/** Any number of instances saving and requeueing pending tasks in one shared table. A step is
    one backend statement of one instance; actions that do not apply leave the state alone. */
module RequeueProtocol {
  type Id = string

  /** One inserted row: the save that inserted it and the task. */
  datatype Row = Row(batch: nat, id: Id)

  /** How a row left the table: claimed and dispatched (from a copy read in some batch), claimed
      for a function this instance does not know, or deleted by save_pending or clear_pending. */
  datatype Fate = Dispatched(inst: nat, copy: nat) | Lost | Wiped

  /** An instance inside requeue(): the rows it loaded and has not visited, those it skipped
      because history has them as succeeded, and the number of saves when it loaded. */
  datatype Worker = Idle | Working(copies: map<Id, nat>, skipped: set<Id>, since: nat)

  /** table maps a task to the batch of its row. inserted, fates and dispatches are histories. */
  datatype State = State(table: map<Id, nat>, batches: nat, workers: map<nat, Worker>,
                         inserted: set<Row>, fates: map<Row, Fate>, dispatches: seq<Row>)

  datatype Action =
    | SaveAll(ids: set<Id>)
    | Load(inst: nat)
    | Skip(inst: nat, id: Id)
    | Claim(inst: nat, id: Id, known: bool)
    | Clear(inst: nat)
    | Crash(inst: nat)

  const Initial := State(map[], 0, map[], {}, map[], [])

  function Of(s: State, inst: nat): Worker {
    if inst in s.workers then s.workers[inst] else Idle
  }

  predicate Present(s: State, r: Row) {
    r.id in s.table && s.table[r.id] == r.batch
  }

  function Rows(s: State): set<Row> {
    set id | id in s.table :: Row(s.table[id], id)
  }

  /** Deletes every row. */
  function Wipe(s: State): State {
    s.(table := map[], fates := s.fates + map r | r in Rows(s) :: Wiped)
  }

  /** save_pending: deletes the whole table, then inserts. */
  function DoSaveAll(s: State, ids: set<Id>): State {
    var w := Wipe(s);
    w.(table := map id | id in ids :: s.batches, batches := s.batches + 1,
       inserted := s.inserted + set id | id in ids :: Row(s.batches, id))
  }

  function DoLoad(s: State, inst: nat): State {
    if Of(s, inst).Working? || s.table == map[] then s
    else s.(workers := s.workers[inst := Working(s.table, {}, s.batches)])
  }

  function DoSkip(s: State, inst: nat, id: Id): State {
    var w := Of(s, inst);
    if w.Idle? || id !in w.copies then s
    else s.(workers := s.workers[inst := w.(copies := w.copies - {id}, skipped := w.skipped + {id})])
  }

  /** claim_pending, and the dispatch if the row was still there. */
  function DoClaim(s: State, inst: nat, id: Id, known: bool): State {
    var w := Of(s, inst);
    if w.Idle? || id !in w.copies then s
    else
      var t := s.(workers := s.workers[inst := w.(copies := w.copies - {id})]);
      if id !in s.table then t
      else
        var r := Row(s.table[id], id);
        var fate := if known then Dispatched(inst, w.copies[id]) else Lost;
        var u := t.(table := s.table - {id}, fates := s.fates[r := fate]);
        if known then u.(dispatches := s.dispatches + [r]) else u
  }

  /** clear_pending, once every loaded row has been visited. */
  function DoClear(s: State, inst: nat): State {
    var w := Of(s, inst);
    if w.Idle? || w.copies != map[] then s
    else Wipe(s).(workers := s.workers[inst := Idle])
  }

  function Step(s: State, a: Action): State {
    match a
    case SaveAll(ids) => DoSaveAll(s, ids)
    case Load(inst) => DoLoad(s, inst)
    case Skip(inst, id) => DoSkip(s, inst, id)
    case Claim(inst, id, known) => DoClaim(s, inst, id, known)
    case Clear(inst) => DoClear(s, inst)
    case Crash(inst) => s.(workers := s.workers[inst := Idle])
  }

  function Run(s: State, acts: seq<Action>): State {
    if acts == [] then s else Step(Run(s, acts[..|acts| - 1]), acts[|acts| - 1])
  }

  // ---- Every row has one fate ----

  /** Inserted rows are those in the table and those with a fate, and no row is both. */
  ghost predicate Accounted(s: State, r: Row) {
    && (r in s.inserted <==> Present(s, r) || r in s.fates)
    && !(Present(s, r) && r in s.fates)
    && (r in s.inserted ==> r.batch < s.batches)
    && (r in s.dispatches <==> r in s.fates && s.fates[r].Dispatched?)
  }

  ghost predicate Balanced(s: State) {
    && (forall r: Row :: Accounted(s, r))
    && (forall i, j | 0 <= i < j < |s.dispatches| :: s.dispatches[i] != s.dispatches[j])
  }

  lemma WipeKeepsBalance(s: State)
    requires Balanced(s)
    ensures Balanced(Wipe(s))
    ensures forall r | r in s.fates :: r in Wipe(s).fates && Wipe(s).fates[r] == s.fates[r]
    ensures forall r | Present(s, r) :: r in Wipe(s).fates && Wipe(s).fates[r] == Wiped
  {
    var t := Wipe(s);
    forall r: Row ensures Accounted(t, r) {
      assert Accounted(s, r);
      assert r in Rows(s) <==> Present(s, r);
    }
    forall r | r in s.fates ensures t.fates[r] == s.fates[r] {
      assert Accounted(s, r);
      assert r !in Rows(s);
    }
  }

  lemma SaveKeepsBalance(s: State, ids: set<Id>)
    requires Balanced(s)
    ensures Balanced(DoSaveAll(s, ids))
  {
    WipeKeepsBalance(s);
    var w, t := Wipe(s), DoSaveAll(s, ids);
    forall r: Row ensures Accounted(t, r) {
      assert Accounted(w, r);
      assert Accounted(s, r);
    }
  }

  lemma ClaimKeepsBalance(s: State, inst: nat, id: Id, known: bool)
    requires Balanced(s)
    ensures Balanced(DoClaim(s, inst, id, known))
    ensures var fates := DoClaim(s, inst, id, known).fates;
            forall r | r in s.fates :: r in fates && fates[r] == s.fates[r]
  {
    var t := DoClaim(s, inst, id, known);
    if t.table != s.table {
      assert Accounted(s, Row(s.table[id], id));
    }
    forall r: Row ensures Accounted(t, r) {
      assert Accounted(s, r);
    }
    forall r | r in s.fates ensures r in t.fates && t.fates[r] == s.fates[r] {
      assert Accounted(s, r);
    }
  }

  lemma StepKeepsBalance(s: State, a: Action)
    requires Balanced(s)
    ensures Balanced(Step(s, a))
    ensures forall r | r in s.fates :: r in Step(s, a).fates && Step(s, a).fates[r] == s.fates[r]
  {
    WipeKeepsBalance(s);
    match a
    case SaveAll(ids) => SaveKeepsBalance(s, ids);
    case Claim(inst, id, known) => ClaimKeepsBalance(s, inst, id, known);
    case _ =>
      forall r: Row ensures Accounted(Step(s, a), r) {
        assert Accounted(Wipe(s), r) && Accounted(s, r);
      }
  }

  /** For any interleaving of any number of instances: a saved row is in the table or has
      exactly one fate, which never changes, and is dispatched at most once. */
  lemma {:induction false} EachRowHasOneFate(s: State, acts: seq<Action>)
    requires Balanced(s)
    ensures Balanced(Run(s, acts))
    ensures forall r | r in s.fates :: r in Run(s, acts).fates && Run(s, acts).fates[r] == s.fates[r]
  {
    if acts != [] {
      EachRowHasOneFate(s, acts[..|acts| - 1]);
      StepKeepsBalance(Run(s, acts[..|acts| - 1]), acts[|acts| - 1]);
    }
  }

  lemma InitialIsBalanced()
    ensures Balanced(Initial)
  {
    forall r: Row ensures Accounted(Initial, r) {
    }
  }

  // ---- Wiped rows ----

  /** A row the instance loaded and has neither still to visit nor skipped is gone. */
  ghost predicate Visited(s: State, w: Worker) {
    w.Working? ==>
      && w.since <= s.batches
      && forall id | id in s.table && s.table[id] < w.since :: id in w.copies || id in w.skipped
  }

  ghost predicate Orderly(s: State) {
    && (forall id | id in s.table :: s.table[id] < s.batches)
    && forall inst | inst in s.workers :: Visited(s, s.workers[inst])
  }

  lemma StepKeepsOrder(s: State, a: Action)
    requires Orderly(s)
    ensures Orderly(Step(s, a))
  {
    var t := Step(s, a);
    forall inst | inst in t.workers ensures Visited(t, t.workers[inst]) {
      assert inst in s.workers ==> Visited(s, s.workers[inst]);
    }
  }

  lemma {:induction false} RunKeepsOrder(s: State, acts: seq<Action>)
    requires Orderly(s)
    ensures Orderly(Run(s, acts))
  {
    if acts != [] {
      RunKeepsOrder(s, acts[..|acts| - 1]);
      StepKeepsOrder(Run(s, acts[..|acts| - 1]), acts[|acts| - 1]);
    }
  }

  /** The clear at the end of a requeue is not the harmless safety net it is meant to be
      exactly when the table holds a row saved since this instance loaded (by another
      instance's shutdown) or one it skipped: those rows are wiped. */
  lemma ClearWipesExactlyWhen(acts: seq<Action>, inst: nat, r: Row)
    ensures var s := Run(Initial, acts);
            var w := Of(s, inst);
            w.Working? && w.copies == map[] ==>
              ((r !in s.fates && r in Step(s, Clear(inst)).fates) <==>
               Present(s, r) && (r.batch >= w.since || r.id in w.skipped))
  {
    var s := Run(Initial, acts);
    RunKeepsOrder(Initial, acts);
    InitialIsBalanced();
    EachRowHasOneFate(Initial, acts);
    WipeKeepsBalance(s);
    assert Accounted(s, r) && Accounted(Wipe(s), r);
    if Of(s, inst).Working? {
      assert Visited(s, s.workers[inst]);
    }
  }

  lemma Extend(s: State, acts: seq<Action>, a: Action) returns (longer: seq<Action>)
    ensures longer == acts + [a] && Run(s, longer) == Step(Run(s, acts), a)
  {
    longer := acts + [a];
    assert longer[..|acts|] == acts;
  }

  /** The failing run: an instance loads, another one shuts down and saves its own task, and the
      first one's final clear wipes it undispatched. */
  lemma SaveDuringRequeueIsWiped(a: Id, b: Id) returns (acts: seq<Action>)
    requires a != b
    ensures var t := Run(Initial, acts);
            && t.table == map[] && t.dispatches == [] && Row(1, b) in t.inserted
            && Row(1, b) in t.fates && t.fates[Row(1, b)] == Wiped
  {
    acts := Extend(Initial, [], SaveAll({a}));
    var s1 := Run(Initial, acts);
    assert a in s1.table;
    acts := Extend(Initial, acts, Load(0));
    acts := Extend(Initial, acts, SaveAll({b}));
    var s3 := Run(Initial, acts);
    assert b in s3.table && s3.table[b] == 1 && a !in s3.table;
    acts := Extend(Initial, acts, Claim(0, a, true));
    var s4 := Run(Initial, acts);
    assert s4.table == s3.table && Of(s4, 0).Working? && Of(s4, 0).copies.Keys == {};
    assert Row(1, b) in Rows(s4);
    acts := Extend(Initial, acts, Clear(0));
  }

  // ---- Nothing is forgotten ----

  /** No shutdown saves, and nobody skips this task. */
  predicate Undisturbed(acts: seq<Action>, id: Id) {
    forall i | 0 <= i < |acts| :: !acts[i].SaveAll? && !(acts[i].Skip? && acts[i].id == id)
  }

  /** The row of this task is there, with every instance that loaded it still to visit it, or
      it was claimed. */
  ghost predicate Handled(s: State, r: Row) {
    && s.batches > r.batch
    && (Present(s, r) || (r in s.fates && s.fates[r] != Wiped))
    && forall inst | inst in s.workers && s.workers[inst].Working? :: Present(s, r) ==> r.id in s.workers[inst].copies
  }

  lemma {:induction false} HandledStays(s: State, acts: seq<Action>, r: Row)
    requires Balanced(s) && Handled(s, r) && Undisturbed(acts, r.id)
    ensures Handled(Run(s, acts), r)
  {
    if acts != [] {
      var front, a := acts[..|acts| - 1], acts[|acts| - 1];
      HandledStays(s, front, r);
      EachRowHasOneFate(s, front);
      HandledStep(Run(s, front), a, r);
    }
  }

  lemma HandledStep(s: State, a: Action, r: Row)
    requires Balanced(s) && Handled(s, r) && !a.SaveAll? && !(a.Skip? && a.id == r.id)
    ensures Handled(Step(s, a), r)
  {
    assert Accounted(s, r);
    StepKeepsBalance(s, a);
    assert Accounted(Step(s, a), r);
  }

  /** While no instance saves, a row is never wiped unless its task is known to have succeeded:
      starting with every instance idle, as soon as the row has left the table it has been
      claimed, so dispatched exactly once or dropped as unregistered. */
  lemma NothingIsForgotten(s: State, acts: seq<Action>, r: Row)
    requires Balanced(s) && Present(s, r) && Undisturbed(acts, r.id)
    requires forall inst | inst in s.workers :: s.workers[inst].Idle?
    ensures var t := Run(s, acts);
            && (!Present(t, r) ==> r in t.fates && t.fates[r] != Wiped)
            && (r in t.dispatches <==> !Present(t, r) && t.fates[r].Dispatched?)
  {
    assert Accounted(s, r);
    HandledStays(s, acts, r);
    EachRowHasOneFate(s, acts);
    assert Accounted(Run(s, acts), r);
  }

  /** So once any instance has finished its requeue, the row has been claimed. */
  lemma FinishedRequeueClaimsAll(s: State, acts: seq<Action>, inst: nat, r: Row)
    requires Balanced(s) && Present(s, r) && Undisturbed(acts, r.id)
    requires forall other | other in s.workers :: s.workers[other].Idle?
    requires Of(Run(s, acts), inst).Working? && Of(Run(s, acts), inst).copies == map[]
    ensures var t := Step(Run(s, acts), Clear(inst));
            t.table == map[] && r in t.fates && t.fates[r] != Wiped
  {
    assert Accounted(s, r);
    NothingIsForgotten(s, acts, r);
    HandledStays(s, acts, r);
    EachRowHasOneFate(s, acts);
    WipeKeepsBalance(Run(s, acts));
    assert Accounted(Run(s, acts), r);
  }
}

/** Executions of any number of tasks, on any number of instances, that share the table of
    idempotency keys. Each execution checks the key, runs, and records the key if it succeeded;
    every backend call is one step, and may fail. */
module IdempotencyProtocol {
  import Pipeline

  type Id = string
  type Keys = map<string, Id>

  datatype Place = Unchecked | Running | Recording | Done

  /** One task's execution. The empty key is no key: no check and no record. started tells
      whether its function ever ran. */
  datatype Execution = Execution(key: string, place: Place, started: bool, succeeded: bool)

  datatype State = State(keys: Keys, runs: map<Id, Execution>)

  /** Check and Record with answers false are calls that raised. */
  datatype Action =
    | Arrive(id: Id, key: string)
    | Check(id: Id, answers: bool)
    | Finish(id: Id, ok: bool)
    | Record(id: Id, answers: bool)

  const Initial := State(map[], map[])

  predicate At(s: State, id: Id, place: Place) {
    id in s.runs && s.runs[id].place == place
  }

  function Put(s: State, id: Id, e: Execution): State {
    s.(runs := s.runs[id := e])
  }

  function Step(s: State, a: Action): State {
    match a
    case Arrive(id, key) =>
      if id in s.runs then s else Put(s, id, Execution(key, Unchecked, false, false))
    case Check(id, answers) =>
      if !At(s, id, Unchecked) then s
      else
        var e := s.runs[id];
        if e.key != "" && answers && Pipeline.OwnedByOther(s.keys, e.key, id) then
          Put(s, id, e.(place := Done, succeeded := true))
        else Put(s, id, e.(place := Running, started := true))
    case Finish(id, ok) =>
      if !At(s, id, Running) then s
      else
        var e := s.runs[id];
        Put(s, id, e.(place := if ok && e.key != "" then Recording else Done, succeeded := ok))
    case Record(id, answers) =>
      if !At(s, id, Recording) then s
      else
        var e := s.runs[id];
        var t := Put(s, id, e.(place := Done));
        if answers then t.(keys := Pipeline.Recorded(s.keys, e.key, id)) else t
  }

  function Run(s: State, acts: seq<Action>): State {
    if acts == [] then s else Step(Run(s, acts[..|acts| - 1]), acts[|acts| - 1])
  }

  /** A recorded key keeps its owner for ever. */
  lemma {:induction false} OwnerNeverChanges(s: State, acts: seq<Action>)
    ensures forall key | key in s.keys :: key in Run(s, acts).keys && Run(s, acts).keys[key] == s.keys[key]
  {
    if acts != [] {
      OwnerNeverChanges(s, acts[..|acts| - 1]);
    }
  }

  /** The owner of a key is a task that was given this key, ran, and succeeded. */
  ghost predicate OwnersRan(s: State) {
    && (forall key | key in s.keys :: s.keys[key] in s.runs &&
          var e := s.runs[s.keys[key]]; e.key == key && e.started && e.succeeded && e.place == Done)
    && (forall id | id in s.runs :: s.runs[id].place in {Running, Recording} ==> s.runs[id].started)
    && (forall id | id in s.runs :: s.runs[id].place == Recording ==> s.runs[id].succeeded && s.runs[id].key != "")
    && (forall id | id in s.runs :: s.runs[id].place == Unchecked ==> !s.runs[id].started)
    && "" !in s.keys
  }

  lemma StepKeepsOwners(s: State, a: Action)
    requires OwnersRan(s)
    ensures OwnersRan(Step(s, a))
  {
  }

  lemma {:induction false} OwnersHaveRun(acts: seq<Action>)
    ensures OwnersRan(Run(Initial, acts))
  {
    if acts != [] {
      OwnersHaveRun(acts[..|acts| - 1]);
      StepKeepsOwners(Run(Initial, acts[..|acts| - 1]), acts[|acts| - 1]);
    }
  }

  predicate ChecksAnswer(acts: seq<Action>, id: Id) {
    forall i | 0 <= i < |acts| :: acts[i].Check? && acts[i].id == id ==> acts[i].answers
  }

  /** Once a key is recorded, no other task of this key that checks later starts its function:
      if its check answers, it ends as SUCCESS without a dispatch. */
  lemma {:induction false} LaterTasksSkip(s: State, id: Id, key: string, acts: seq<Action>)
    requires key != "" && key in s.keys && s.keys[key] != id && ChecksAnswer(acts, id)
    requires At(s, id, Unchecked) && s.runs[id].key == key && !s.runs[id].started
    ensures var t := Run(s, acts);
            && key in t.keys && t.keys[key] != id && id in t.runs
            && t.runs[id].key == key && !t.runs[id].started
            && (t.runs[id].place == Unchecked || (t.runs[id].place == Done && t.runs[id].succeeded))
  {
    if acts != [] {
      var front := acts[..|acts| - 1];
      LaterTasksSkip(s, id, key, front);
      OwnerNeverChanges(Run(s, front), [acts[|acts| - 1]]);
      assert acts[|acts| - 1].Check? && acts[|acts| - 1].id == id ==> acts[|acts| - 1].answers;
    }
  }

  /** A check lets the function start exactly if the check raised, there is no key, or the key
      is not recorded for another task at that very moment. */
  lemma StartsExactlyWhen(s: State, a: Action, id: Id)
    requires OwnersRan(s) && At(s, id, Unchecked)
    ensures id in Step(s, a).runs
    ensures Step(s, a).runs[id].started <==>
            var key := s.runs[id].key;
            a.Check? && a.id == id && (!a.answers || key == "" || key !in s.keys || s.keys[key] == id)
  {
  }

  lemma Extend(s: State, acts: seq<Action>, a: Action) returns (longer: seq<Action>)
    ensures longer == acts + [a] && Run(s, longer) == Step(Run(s, acts), a)
  {
    longer := acts + [a];
    assert longer[..|acts|] == acts;
  }

  /** So the key does not make two tasks exclusive: both run when both check before either
      records, though every backend call succeeds. */
  lemma BothCanRun(key: string, a: Id, b: Id) returns (acts: seq<Action>)
    requires key != "" && a != b
    ensures forall i | 0 <= i < |acts| :: (acts[i].Check? || acts[i].Record? ==> acts[i].answers)
    ensures var s := Run(Initial, acts);
            && a in s.runs && b in s.runs && s.runs[a].started && s.runs[b].started && s.keys == map[key := a]
  {
    acts := BothChecked(key, a, b);
    acts := Extend(Initial, acts, Finish(a, true));
    acts := Extend(Initial, acts, Finish(b, true));
    acts := Extend(Initial, acts, Record(a, true));
    acts := Extend(Initial, acts, Record(b, true));
  }

  lemma BothChecked(key: string, a: Id, b: Id) returns (acts: seq<Action>)
    requires key != "" && a != b
    ensures forall i | 0 <= i < |acts| :: (acts[i].Check? || acts[i].Record? ==> acts[i].answers)
    ensures var busy := Execution(key, Running, true, false);
            Run(Initial, acts) == State(map[], map[a := busy, b := busy])
  {
    acts := Extend(Initial, [], Arrive(a, key));
    acts := Extend(Initial, acts, Arrive(b, key));
    acts := Extend(Initial, acts, Check(a, true));
    acts := Extend(Initial, acts, Check(b, true));
  }
}

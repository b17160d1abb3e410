/** When a saved row is taken at the latest, whatever the instance still remembers of its key,
    and when a moved deadline is kept. */
module Timeliness {
  import opened Options
  import opened ScheduleState
  import opened RunLoop
  import opened ScheduleTiming

  // ---- Every row is taken in time ----

  /** Gentle, and no claim under this key raises, whoever's arguments it carries. */
  predicate Steady(w: World, a: RunLoop.Action, once: Once) {
    Gentle(w, a, once) && (a.Settle? && ClaimsKey(w, once.runKey) ==> !a.reply.Raised?)
  }

  predicate ClaimsKey(w: World, key: Key) {
    Claimed(w).Some? && Claimed(w).value.runKey == key
  }

  /** The loop is at hand to take the row at its time: it claims under the key, or the key is
      armed or loaded for that time and no older load is about to move it. */
  ghost predicate Ready(w: World, once: Once) {
    || ClaimsKey(w, once.runKey)
    || ((AlreadyArmed(w.mem, once) || Buffered(w, once)) && SameTimeLoaded(w, once))
  }

  ghost predicate SameTimeLoaded(w: World, once: Once) {
    w.place.Arming? ==>
      forall i | 0 <= i < |w.place.due| && w.place.due[i].runKey == once.runKey :: w.place.due[i].fireAt == once.fireAt
  }

  /** The row is there, the loop is at hand or will load it by the bound, and is not behind it. */
  ghost predicate InHand(cfg: Settings, lag: nat, bound: int, w: World, once: Once) {
    && once.runKey in w.rows && w.rows[once.runKey] == once
    && (!Ready(w, once) ==> NextLoad(cfg, w) <= bound)
    && (if w.place == Asleep then w.wakeBy <= bound else w.now <= bound + lag)
  }

  lemma {:induction false} RefillKeepsTime(s: State, due: seq<Once>, registry: set<string>, once: Once)
    requires Inv(s) && AlreadyArmed(s, once)
    requires forall i | 0 <= i < |due| && due[i].runKey == once.runKey :: due[i].fireAt == once.fireAt
    ensures AlreadyArmed(DoRefill(s, due, registry), once)
  {
    if due != [] {
      var front, last := due[..|due| - 1], due[|due| - 1];
      RefillKeepsTime(s, front, registry, once);
      RefillKeeps(s, front, registry);
      if last.runKey != once.runKey {
        AddLeavesOthers(DoRefill(s, front, registry), last, registry, once.runKey);
      } else {
        assert AlreadyArmed(DoRefill(s, front, registry), last);
      }
    }
  }

  lemma ArmInHand(cfg: Settings, lag: nat, bound: int, w: World, once: Once)
    requires Valid(cfg, w) && InHand(cfg, lag, bound, w, once) && once.funcName in cfg.registry
    ensures InHand(cfg, lag, bound, DoArm(cfg, w), once)
  {
    if w.place.Arming? && Ready(w, once) {
      if Buffered(w, once) {
        RefillArmsEveryRow(w.mem, w.place.due, cfg.registry);
      } else {
        RefillKeepsTime(w.mem, w.place.due, cfg.registry, once);
      }
    }
  }

  lemma LoadInHand(cfg: Settings, lag: nat, bound: int, w: World, due: seq<Once>, once: Once)
    requires Valid(cfg, w) && InHand(cfg, lag, bound, w, once) && cfg.interval <= cfg.horizon && once.fireAt <= bound
    ensures InHand(cfg, lag, bound, DoLoad(cfg, w, due), once)
  {
    var v := DoLoad(cfg, w, due);
    if v != w {
      forall i | 0 <= i < |due| && due[i].runKey == once.runKey ensures due[i] == once {
        assert due[i] in due;
      }
      assert once.fireAt <= w.now + cfg.horizon ==> Buffered(v, once);
    }
  }

  lemma PopInHand(cfg: Settings, lag: nat, bound: int, w: World, id: nat, once: Once)
    requires Valid(cfg, w) && InHand(cfg, lag, bound, w, once)
    ensures InHand(cfg, lag, bound, DoPopTop(w, id), once)
  {
    var v := DoPopTop(w, id);
    if w.place == Draining && v.mem != w.mem && LiveOneOff(w.mem, id) {
      var k := w.mem.table[id].kind.once.runKey;
      assert k in w.mem.index && w.mem.index[k] == id;
    }
  }

  lemma SettleInHand(cfg: Settings, lag: nat, bound: int, w: World, reply: Reply, once: Once)
    requires Valid(cfg, w) && InHand(cfg, lag, bound, w, once) && Steady(w, Settle(reply), once)
    ensures var v := DoSettle(cfg, w, reply);
            once.runKey in v.rows ==> InHand(cfg, lag, bound, v, once)
  {
    if w.place == Claiming && !ClaimsKey(w, once.runKey) {
      OtherSettles(cfg, w, w.mem.table[w.mem.firing.value], reply, once.runKey);
    }
  }

  lemma SleepInHand(cfg: Settings, lag: nat, bound: int, w: World, deadline: int, once: Once)
    requires Valid(cfg, w) && InHand(cfg, lag, bound, w, once) && once.fireAt <= bound
    ensures InHand(cfg, lag, bound, DoSleep(w, deadline), once)
  {
    if AlreadyArmed(w.mem, once) {
      assert w.mem.index[once.runKey] in w.mem.heap;
    }
  }

  lemma LeavingInHand(cfg: Settings, lag: nat, bound: int, w: World, mem: State, once: Once)
    requires Valid(cfg, w) && InHand(cfg, lag, bound, w, once) && Leaves(w.mem, mem, once.runKey)
    ensures InHand(cfg, lag, bound, w.(mem := mem), once) && InHand(cfg, lag, bound, Notified(w, mem), once)
  {
  }

  /** Its own schedule_once arms the row, or disarms it when it is beyond the horizon, and then
      the next refill comes before it. */
  lemma ArmSavedInHand(cfg: Settings, lag: nat, bound: int, w: World, other: Once, once: Once)
    requires Valid(cfg, w) && InHand(cfg, lag, bound, w, once) && once.funcName in cfg.registry
    requires cfg.interval <= cfg.horizon && once.fireAt <= bound
    requires other.runKey == once.runKey ==> other == once
    ensures InHand(cfg, lag, bound, DoArmSaved(cfg, w, other), once)
  {
    if other == once {
      AddCarries(w.mem, once, cfg.registry);
      AddArms(w.mem, once, cfg.registry);
    } else {
      AddLeaves(w.mem, other, cfg.registry, once.runKey);
      CancelLeaves(w.mem, other.runKey, once.runKey);
      LeavingInHand(cfg, lag, bound, w, DoAdd(w.mem, other, cfg.registry), once);
      LeavingInHand(cfg, lag, bound, w, DoCancel(w.mem, other.runKey), once);
    }
  }

  lemma RegisterInHand(cfg: Settings, lag: nat, bound: int, w: World,
                       kind: Kind, runOnStartup: bool, nextRun: int, once: Once)
    requires Valid(cfg, w) && InHand(cfg, lag, bound, w, once)
    ensures InHand(cfg, lag, bound, Notified(w, DoRegister(w.mem, kind, runOnStartup, nextRun)), once)
  {
    LeavingInHand(cfg, lag, bound, w, DoRegister(w.mem, kind, runOnStartup, nextRun), once);
  }

  lemma StepInHand(cfg: Settings, lag: nat, bound: int, w: World, a: RunLoop.Action, once: Once)
    requires Valid(cfg, w) && InHand(cfg, lag, bound, w, once) && OnTime(lag, w) && Steady(w, a, once)
    requires cfg.interval <= cfg.horizon && once.fireAt <= bound && once.funcName in cfg.registry
    requires OnTime(lag, RunLoop.Step(cfg, w, a))
    ensures var v := RunLoop.Step(cfg, w, a);
            once.runKey in v.rows ==> InHand(cfg, lag, bound, v, once)
  {
    match a
    case Tick(_) =>
    case Wake =>
    case Load(due) => LoadInHand(cfg, lag, bound, w, due, once);
    case LoadRaises =>
    case Arm => ArmInHand(cfg, lag, bound, w, once);
    case Pop(id) => PopInHand(cfg, lag, bound, w, id, once);
    case CronRaises(_) =>
    case Settle(reply) => SettleInHand(cfg, lag, bound, w, reply, once);
    case Sleep(deadline) => SleepInHand(cfg, lag, bound, w, deadline, once);
    case AddRecurring(kind, runOnStartup, nextRun) =>
      RegisterInHand(cfg, lag, bound, w, kind, runOnStartup, nextRun, once);
    case ArmSaved(other) => ArmSavedInHand(cfg, lag, bound, w, other, once);
    case Disarm(key) =>
      CancelLeaves(w.mem, key, once.runKey);
      LeavingInHand(cfg, lag, bound, w, DoCancel(w.mem, key), once);
    case SaveRow(_) =>
    case DeleteRow(_) =>
  }

  /** Every state of the run is on time, and every step steady. */
  ghost predicate SteadyRun(cfg: Settings, lag: nat, w: World, acts: seq<RunLoop.Action>, once: Once) {
    && OnTime(lag, w)
    && (acts != [] ==>
          var front, a := acts[..|acts| - 1], acts[|acts| - 1];
          && SteadyRun(cfg, lag, w, front, once)
          && Steady(RunLoop.Run(cfg, w, front), a, once) && OnTime(lag, RunLoop.Run(cfg, w, acts)))
  }

  lemma {:induction false} RunInHand(cfg: Settings, lag: nat, bound: int,
                                     w: World, acts: seq<RunLoop.Action>, once: Once)
    requires Valid(cfg, w) && InHand(cfg, lag, bound, w, once) && SteadyRun(cfg, lag, w, acts, once)
    requires cfg.interval <= cfg.horizon && once.fireAt <= bound && once.funcName in cfg.registry
    ensures var t := RunLoop.Run(cfg, w, acts);
            OnTime(lag, t) && (once.runKey in t.rows ==> InHand(cfg, lag, bound, t, once))
  {
    if acts != [] {
      var front, a := acts[..|acts| - 1], acts[|acts| - 1];
      RunInHand(cfg, lag, bound, w, front, once);
      RunKeepsValid(cfg, w, front);
      var p := RunLoop.Run(cfg, w, front);
      if once.runKey in p.rows {
        StepInHand(cfg, lag, bound, p, a, once);
      } else {
        GoneStaysGone(cfg, p, a, once);
      }
    }
  }

  /** Every row of a registered function is taken in time by an instance that keeps its
      deadlines: by its fire time, or, if that is past or comes before the next refill, at most
      one interval later, plus the lags. It does not matter what the instance still has of the
      key: a deadline moved either way, a copy loaded before, a claim under way. */
  lemma TakenInTime(cfg: Settings, lag: nat, w: World, once: Once, acts: seq<RunLoop.Action>)
    requires cfg.interval <= cfg.horizon && once.funcName in cfg.registry
    requires Valid(cfg, w) && once.runKey in w.rows && w.rows[once.runKey] == once
    requires SteadyRun(cfg, lag, w, acts, once)
    ensures var t := RunLoop.Run(cfg, w, acts);
            t.clock > FireBy(cfg, w, once) + 2 * lag ==> once.runKey !in t.rows
  {
    RunInHand(cfg, lag, FireBy(cfg, w, once), w, acts, once);
  }

  // ---- Moved deadlines ----

  /** What the memory has of the key at another time than the row's is due after the limit. */
  ghost predicate StaleLater(w: World, once: Once, limit: int) {
    var key := once.runKey;
    && (key in w.mem.index && !Carries(w.mem, once) ==>
          var e := EntryAt(w.mem, key); e.Some? && e.value.nextRun != once.fireAt && e.value.nextRun > limit)
    && (w.place.Arming? ==> forall i | 0 <= i < |w.place.due| && w.place.due[i].runKey == key ::
          w.place.due[i] == once || (w.place.due[i].fireAt != once.fireAt && w.place.due[i].fireAt > limit))
  }

  predicate HasStale(w: World, once: Once) {
    || (once.runKey in w.mem.index && !Carries(w.mem, once))
    || (w.place.Arming? && exists i | 0 <= i < |w.place.due| ::
          w.place.due[i].runKey == once.runKey && w.place.due[i] != once)
  }

  /** By when a refill replaces a stale copy: the next one if the row is within its horizon. */
  function RearmBy(cfg: Settings, w: World, once: Once): int {
    Max(w.clock, if once.fireAt <= NextLoad(cfg, w) + cfg.horizon then NextLoad(cfg, w) else once.fireAt)
  }

  /** The row is there, its stale copies are due after until + lag, and the refill that replaces
      them comes by then. */
  ghost predicate Settling(cfg: Settings, lag: nat, until: int, w: World, once: Once) {
    && once.runKey in w.rows && w.rows[once.runKey] == once && !ClaimsKey(w, once.runKey)
    && StaleLater(w, once, until + lag)
    && (Buffered(w, once) ||
        (NextLoad(cfg, w) <= until && (once.fireAt <= until || once.fireAt <= NextLoad(cfg, w) + cfg.horizon)))
    && (Carries(w.mem, once) || Buffered(w, once) ==> once.fireAt <= w.clock + cfg.horizon)
    && (if w.place == Asleep then w.wakeBy <= until else w.now <= until + lag)
  }

  /** Once nothing stale is left the row is followed as before. */
  ghost predicate SettlesInto(cfg: Settings, lag: nat, until: int, bound: int, v: World, once: Once) {
    if HasStale(v, once) then Settling(cfg, lag, until, v, once)
    else Clean(cfg, v, once) && Bounded(cfg, lag, bound, v, once)
  }

  lemma SettlingSettles(cfg: Settings, lag: nat, until: int, bound: int, v: World, once: Once)
    requires Settling(cfg, lag, until, v, once) && until <= bound
    ensures SettlesInto(cfg, lag, until, bound, v, once)
  {
  }

  /** What a refill leaves under a key: what was there, or a loaded row of the key. */
  lemma {:induction false} RefillEntry(s: State, due: seq<Once>, registry: set<string>, key: Key) returns (i: nat)
    requires Inv(s)
    ensures var e := EntryAt(DoRefill(s, due, registry), key);
            || e == EntryAt(s, key)
            || (i < |due| && due[i].runKey == key &&
                e.Some? && e.value.kind == OneOff(due[i]) && e.value.nextRun == due[i].fireAt)
  {
    i := 0;
    if due != [] {
      var front, last := due[..|due| - 1], due[|due| - 1];
      i := RefillEntry(s, front, registry, key);
      RefillKeeps(s, front, registry);
      var p := DoRefill(s, front, registry);
      if last.runKey != key {
        AddLeavesOthers(p, last, registry, key);
      } else if !AlreadyArmed(p, last) && last.funcName in registry {
        i := |front|;
      }
    }
  }

  lemma ArmSettles(cfg: Settings, lag: nat, until: int, bound: int, w: World, once: Once)
    requires Valid(cfg, w) && Settling(cfg, lag, until, w, once) && until <= bound && once.funcName in cfg.registry
    ensures SettlesInto(cfg, lag, until, bound, DoArm(cfg, w), once)
  {
    if w.place.Arming? {
      var due := w.place.due;
      RefillKeeps(w.mem, due, cfg.registry);
      RefillKeepsFiring(w.mem, due, cfg.registry);
      if Buffered(w, once) {
        RefillCarriesRowExactlyWhen(w.mem, due, once, cfg.registry);
      } else {
        var i := RefillEntry(w.mem, due, cfg.registry, once.runKey);
      }
    } else {
      SettlingSettles(cfg, lag, until, bound, w, once);
    }
  }

  lemma LoadSettles(cfg: Settings, lag: nat, until: int, w: World, due: seq<Once>, once: Once)
    requires Valid(cfg, w) && Settling(cfg, lag, until, w, once) && cfg.interval <= cfg.horizon
    ensures Settling(cfg, lag, until, DoLoad(cfg, w, due), once)
  {
    var v := DoLoad(cfg, w, due);
    if v != w {
      forall i | 0 <= i < |due| && due[i].runKey == once.runKey ensures due[i] == once {
        assert due[i] in due;
      }
      assert once.fireAt <= w.now + cfg.horizon ==> Buffered(v, once);
    }
  }

  /** A stale copy is not due yet, so it is not popped. */
  lemma PopSettles(cfg: Settings, lag: nat, until: int, w: World, id: nat, once: Once)
    requires Valid(cfg, w) && Settling(cfg, lag, until, w, once) && HasStale(w, once)
    ensures Settling(cfg, lag, until, DoPopTop(w, id), once)
  {
    var v := DoPopTop(w, id);
    if w.place == Draining && v.mem != w.mem && LiveOneOff(w.mem, id) {
      var k := w.mem.table[id].kind.once.runKey;
      assert k in w.mem.index && w.mem.index[k] == id;
    }
  }

  lemma SettleSettles(cfg: Settings, lag: nat, until: int, w: World, reply: Reply, once: Once)
    requires Valid(cfg, w) && Settling(cfg, lag, until, w, once)
    ensures Settling(cfg, lag, until, DoSettle(cfg, w, reply), once)
    ensures NoRecordOf(w, DoSettle(cfg, w, reply), once.runKey)
  {
    if w.place == Claiming {
      OtherSettles(cfg, w, w.mem.table[w.mem.firing.value], reply, once.runKey);
    }
  }

  lemma SleepSettles(cfg: Settings, lag: nat, until: int, w: World, deadline: int, once: Once)
    requires Valid(cfg, w) && Settling(cfg, lag, until, w, once)
    ensures Settling(cfg, lag, until, DoSleep(w, deadline), once)
  {
  }

  lemma LeavingSettles(cfg: Settings, lag: nat, until: int, w: World, mem: State, once: Once)
    requires Valid(cfg, w) && Settling(cfg, lag, until, w, once) && Leaves(w.mem, mem, once.runKey)
    ensures Settling(cfg, lag, until, w.(mem := mem), once) && Settling(cfg, lag, until, Notified(w, mem), once)
  {
  }

  lemma OwnArmSavedSettles(cfg: Settings, lag: nat, until: int, w: World, once: Once)
    requires Valid(cfg, w) && Settling(cfg, lag, until, w, once) && once.funcName in cfg.registry
    ensures Settling(cfg, lag, until, DoArmSaved(cfg, w, once), once)
  {
    AddCarries(w.mem, once, cfg.registry);
  }

  lemma OtherArmSavedSettles(cfg: Settings, lag: nat, until: int, w: World, other: Once, once: Once)
    requires Valid(cfg, w) && Settling(cfg, lag, until, w, once) && other.runKey != once.runKey
    ensures Settling(cfg, lag, until, DoArmSaved(cfg, w, other), once)
  {
    AddLeaves(w.mem, other, cfg.registry, once.runKey);
    CancelLeaves(w.mem, other.runKey, once.runKey);
    LeavingSettles(cfg, lag, until, w, DoAdd(w.mem, other, cfg.registry), once);
    LeavingSettles(cfg, lag, until, w, DoCancel(w.mem, other.runKey), once);
  }

  lemma RegisterSettles(cfg: Settings, lag: nat, until: int, w: World,
                        kind: Kind, runOnStartup: bool, nextRun: int, once: Once)
    requires Valid(cfg, w) && Settling(cfg, lag, until, w, once)
    ensures Settling(cfg, lag, until, Notified(w, DoRegister(w.mem, kind, runOnStartup, nextRun)), once)
  {
    LeavingSettles(cfg, lag, until, w, DoRegister(w.mem, kind, runOnStartup, nextRun), once);
  }

  lemma OutsideSettles(cfg: Settings, lag: nat, until: int, w: World, a: RunLoop.Action, once: Once)
    requires Valid(cfg, w) && Settling(cfg, lag, until, w, once) && OnTime(lag, w) && Gentle(w, a, once)
    requires a.Tick? || a.Wake? || a.LoadRaises? || a.SaveRow? || a.DeleteRow? || a.CronRaises?
    ensures Settling(cfg, lag, until, RunLoop.Step(cfg, w, a), once)
  {
  }

  lemma StaysSettling(cfg: Settings, lag: nat, until: int, w: World, a: RunLoop.Action, once: Once)
    requires Valid(cfg, w) && Settling(cfg, lag, until, w, once) && HasStale(w, once) && !a.Arm?
    requires OnTime(lag, w) && Gentle(w, a, once) && cfg.interval <= cfg.horizon && once.funcName in cfg.registry
    ensures Settling(cfg, lag, until, RunLoop.Step(cfg, w, a), once)
  {
    match a
    case Load(due) => LoadSettles(cfg, lag, until, w, due, once);
    case Pop(id) => PopSettles(cfg, lag, until, w, id, once);
    case Settle(reply) => SettleSettles(cfg, lag, until, w, reply, once);
    case Sleep(deadline) => SleepSettles(cfg, lag, until, w, deadline, once);
    case AddRecurring(kind, runOnStartup, nextRun) =>
      RegisterSettles(cfg, lag, until, w, kind, runOnStartup, nextRun, once);
    case ArmSaved(other) =>
      if other == once {
        OwnArmSavedSettles(cfg, lag, until, w, once);
      } else {
        OtherArmSavedSettles(cfg, lag, until, w, other, once);
      }
    case Disarm(key) =>
      CancelLeaves(w.mem, key, once.runKey);
      LeavingSettles(cfg, lag, until, w, DoCancel(w.mem, key), once);
    case _ => OutsideSettles(cfg, lag, until, w, a, once);
  }

  lemma OnlySettleRecords(cfg: Settings, w: World, a: RunLoop.Action)
    requires !a.Settle?
    ensures RunLoop.Step(cfg, w, a).records == w.records
  {
  }

  lemma StepSettles(cfg: Settings, lag: nat, until: int, bound: int, w: World, a: RunLoop.Action, once: Once)
    requires Valid(cfg, w) && Settling(cfg, lag, until, w, once) && HasStale(w, once) && until <= bound
    requires OnTime(lag, w) && Gentle(w, a, once) && cfg.interval <= cfg.horizon && once.funcName in cfg.registry
    ensures SettlesInto(cfg, lag, until, bound, RunLoop.Step(cfg, w, a), once)
    ensures NoRecordOf(w, RunLoop.Step(cfg, w, a), once.runKey)
  {
    if a.Settle? {
      SettleSettles(cfg, lag, until, w, a.reply, once);
    } else {
      OnlySettleRecords(cfg, w, a);
    }
    if a.Arm? {
      ArmSettles(cfg, lag, until, bound, w, once);
    } else {
      StaysSettling(cfg, lag, until, w, a, once);
      SettlingSettles(cfg, lag, until, bound, RunLoop.Step(cfg, w, a), once);
    }
  }

  /** Still with a stale copy, or with the outcome of a clean row. */
  ghost predicate MovedOutcome(cfg: Settings, lag: nat, until: int, bound: int, n: nat, t: World, once: Once) {
    || Outcome(cfg, lag, bound, n, t, once)
    || (Settling(cfg, lag, until, t, once) && HasStale(t, once) &&
        n <= |t.records| && NoneOf(t.records, n, once.runKey))
  }

  lemma MovedStep(cfg: Settings, lag: nat, until: int, bound: int, n: nat, w: World, a: RunLoop.Action, once: Once)
    requires Valid(cfg, w) && MovedOutcome(cfg, lag, until, bound, n, w, once) && until <= bound && once.fireAt <= bound
    requires OnTime(lag, w) && OnTime(lag, RunLoop.Step(cfg, w, a)) && Gentle(w, a, once)
    requires cfg.interval <= cfg.horizon && once.funcName in cfg.registry
    ensures MovedOutcome(cfg, lag, until, bound, n, RunLoop.Step(cfg, w, a), once)
  {
    if Outcome(cfg, lag, bound, n, w, once) {
      OutcomeStep(cfg, lag, bound, n, w, a, once);
    } else {
      StepSettles(cfg, lag, until, bound, w, a, once);
      assert NoneOf(RunLoop.Step(cfg, w, a).records, n, once.runKey);
    }
  }

  lemma {:induction false} RunMoves(cfg: Settings, lag: nat, until: int, bound: int, n: nat,
                                    w: World, acts: seq<RunLoop.Action>, once: Once)
    requires Valid(cfg, w) && MovedOutcome(cfg, lag, until, bound, n, w, once) && until <= bound && once.fireAt <= bound
    requires GoodRun(cfg, lag, w, acts, once) && cfg.interval <= cfg.horizon && once.funcName in cfg.registry
    ensures OnTime(lag, RunLoop.Run(cfg, w, acts))
    ensures MovedOutcome(cfg, lag, until, bound, n, RunLoop.Run(cfg, w, acts), once)
  {
    if acts != [] {
      var front := acts[..|acts| - 1];
      RunMoves(cfg, lag, until, bound, n, w, front, once);
      RunKeepsValid(cfg, w, front);
      MovedStep(cfg, lag, until, bound, n, RunLoop.Run(cfg, w, front), acts[|acts| - 1], once);
    }
  }

  /** A moved deadline is kept. Right after the row was saved anew, every copy of the key that
      the instance still has is of another time and due after the next load that replaces it (or
      the row's own time, if that load comes later). Then the row is fired exactly once, as
      itself, at its new time and within the usual bound; no stale copy takes it. */
  lemma MovedDeadlineIsKept(cfg: Settings, lag: nat, w: World, once: Once, acts: seq<RunLoop.Action>)
    requires cfg.interval <= cfg.horizon && once.funcName in cfg.registry
    requires Valid(cfg, w) && once.runKey in w.rows && w.rows[once.runKey] == once
    requires !ClaimsKey(w, once.runKey) && StaleLater(w, once, RearmBy(cfg, w, once) + lag)
    requires Carries(w.mem, once) || Buffered(w, once) ==> once.fireAt <= w.clock + cfg.horizon
    requires GoodRun(cfg, lag, w, acts, once)
    ensures var t, bound := RunLoop.Run(cfg, w, acts), FireBy(cfg, w, once);
            && (t.clock > bound + 2 * lag ==> once.runKey !in t.rows)
            && (once.runKey !in t.rows ==> FiredOnce(t.records, |w.records|, once, bound + 2 * lag))
            && (once.runKey in t.rows ==> NoneOf(t.records, |w.records|, once.runKey))
  {
    var until, bound := RearmBy(cfg, w, once), FireBy(cfg, w, once);
    SettlingSettles(cfg, lag, until, bound, w, once);
    RunMoves(cfg, lag, until, bound, |w.records|, w, acts, once);
  }

  /** The condition matters: a copy due sooner takes the moved row, early and with the old
      arguments. Here the deadline was moved out of the horizon, and the copy armed for 0 fires
      at 0. */
  lemma StaleCopyTakesItEarly(cfg: Settings, stale: Once, moved: Once) returns (w: World, acts: seq<RunLoop.Action>)
    requires stale.fireAt == 0 && moved.runKey == stale.runKey && moved.fireAt > cfg.horizon
    requires stale.funcName in cfg.registry && moved.funcName in cfg.registry
    ensures Valid(cfg, w) && w.rows == map[moved.runKey := moved] && GoodRun(cfg, 0, w, acts, moved)
    ensures var t := RunLoop.Run(cfg, w, acts);
            && moved.runKey !in t.rows && |t.records| == 1
            && t.records[0].entry.kind == OneOff(stale) && t.records[0].at < moved.fireAt
  {
    w := Started(0, DoAdd(DoStart(Empty(), 0), stale, cfg.registry), map[moved.runKey := moved]);
    AddKeeps(DoStart(Empty(), 0), stale, cfg.registry);
    acts := NothingLoaded(cfg, w, moved);
    PopAndSettle(cfg, RunLoop.Run(cfg, w, acts), 0);
    GoodThen(cfg, 0, w, acts, Pop(0), moved);
    acts := acts + [Pop(0)];
    GoodThen(cfg, 0, w, acts, Settle(Answered(true, false)), moved);
    acts := acts + [Settle(Answered(true, false))];
  }

  /** A first refill that finds no row in its horizon. */
  lemma NothingLoaded(cfg: Settings, w: World, moved: Once) returns (acts: seq<RunLoop.Action>)
    requires w == Started(0, w.mem, map[moved.runKey := moved]) && moved.fireAt > cfg.horizon
    ensures GoodRun(cfg, 0, w, acts, moved)
    ensures RunLoop.Run(cfg, w, acts) == w.(place := Draining, nextRefill := cfg.interval)
  {
    acts := [];
    GoodThen(cfg, 0, w, acts, Wake, moved);
    acts := acts + [Wake];
    var loading := w.(place := Loading);
    assert RunLoop.Run(cfg, w, acts) == loading;
    NothingInHorizon(moved, cfg.horizon);
    assert DoLoad(cfg, loading, []) == loading.(place := Arming([]));
    GoodThen(cfg, 0, w, acts, Load([]), moved);
    acts := acts + [Load([])];
    GoodThen(cfg, 0, w, acts, RunLoop.Action.Arm, moved);
    acts := acts + [RunLoop.Action.Arm];
  }

  lemma NothingInHorizon(moved: Once, bound: int)
    requires moved.fireAt > bound
    ensures Enumerates([], map[moved.runKey := moved], bound)
  {
  }

  /** The only entry of the heap is popped, and its claim won. */
  lemma PopAndSettle(cfg: Settings, w: World, id: nat)
    requires w.place == Draining && w.mem.firing.None? && w.mem.heap == {id} && id in w.mem.table
    requires w.mem.table[id].nextRun <= w.now && !w.mem.table[id].cancelled && w.mem.table[id].kind.OneOff?
    requires w.mem.table[id].kind.once.runKey in w.rows && w.mem.table[id].kind.once.funcName in cfg.registry
    ensures var once := w.mem.table[id].kind.once;
            var v := RunLoop.Step(cfg, w, Pop(id));
            var t := RunLoop.Step(cfg, v, Settle(Answered(true, false)));
            && Claimed(v) == Some(once) && v.now == w.now && v.clock == w.clock
            && t.place == Draining && t.now == w.now && t.clock == w.clock && t.rows == w.rows - {once.runKey}
            && t.records == w.records + [Record(w.mem.table[id], w.clock, true)]
  {
  }
}

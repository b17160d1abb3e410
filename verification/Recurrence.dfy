/** Recurring entries over time: how late a loop that keeps its deadlines tries one, and that each
    try either fires it or finds that another loop just has. */
module Recurrence {
  import opened Options
  import opened ScheduleState
  import opened RunLoop
  import opened ScheduleTiming
  import opened Deployments

  // ---- One loop ----

  /** The loop owes the recurring entry a turn at this time: it waits in the heap, or its turn has
      begun; and the loop is not behind the bound. */
  predicate Owed(lag: nat, bound: int, w: World, id: nat, kind: Kind, at: int) {
    && id in w.mem.table && w.mem.table[id].kind == kind && !kind.OneOff?
    && id in w.mem.heap && w.mem.table[id].nextRun == at
    && (if w.place == Asleep then w.wakeBy <= bound else w.now <= bound + lag)
  }

  /** Its turn has begun: popped no earlier than due, and next due as its kind says. */
  predicate InTurn(lag: nat, bound: int, w: World, id: nat, kind: Kind, at: int) {
    && id in w.mem.table && w.mem.table[id].kind == kind && !kind.OneOff?
    && w.place == Claiming && w.mem.firing == Some(id) && at <= w.now <= bound + lag
    && (kind.Interval? ==> w.mem.table[id].nextRun == w.now + kind.every)
    && (kind.Cron? ==> w.mem.table[id].nextRun > w.now)
  }

  lemma RefillOwes(lag: nat, bound: int, cfg: Settings, w: World, id: nat, kind: Kind, at: int)
    requires Valid(cfg, w) && Owed(lag, bound, w, id, kind, at)
    ensures Owed(lag, bound, DoArm(cfg, w), id, kind, at)
  {
    if w.place.Arming? {
      RefillKeepsRecurring(w.mem, w.place.due, cfg.registry, id);
      HeapGrows(w.mem, w.place.due, cfg.registry);
    }
  }

  lemma {:induction false} HeapGrows(s: State, due: seq<Once>, registry: set<string>)
    ensures s.heap <= DoRefill(s, due, registry).heap
  {
    if due != [] {
      HeapGrows(s, due[..|due| - 1], registry);
    }
  }

  lemma CallOwes(lag: nat, bound: int, cfg: Settings, w: World, a: RunLoop.Action, id: nat, kind: Kind, at: int)
    requires Valid(cfg, w) && Owed(lag, bound, w, id, kind, at)
    requires a.AddRecurring? || a.ArmSaved? || a.Disarm? || a.SaveRow? || a.DeleteRow?
    ensures Owed(lag, bound, RunLoop.Step(cfg, w, a), id, kind, at)
  {
    if a.ArmSaved? {
      AddKeepsRecurring(w.mem, a.once, cfg.registry, id);
    }
  }

  lemma SettleOwes(lag: nat, bound: int, cfg: Settings, w: World, reply: Reply, id: nat, kind: Kind, at: int)
    requires Valid(cfg, w) && Owed(lag, bound, w, id, kind, at)
    ensures Owed(lag, bound, DoSettle(cfg, w, reply), id, kind, at)
  {
  }

  lemma PopOwes(lag: nat, bound: int, cfg: Settings, w: World, top: nat, id: nat, kind: Kind, at: int)
    requires Valid(cfg, w) && Owed(lag, bound, w, id, kind, at)
    ensures var v := DoPopTop(w, top);
            Owed(lag, bound, v, id, kind, at) || (top == id && InTurn(lag, bound, v, id, kind, at))
  {
    if top == id {
      assert EntryOk(w.mem.table[id]);
      NextOccurrence(kind, w.now);
    }
  }

  /** A step of a loop that stays on time keeps the debt or begins the turn. */
  lemma StepOwes(lag: nat, bound: int, cfg: Settings, w: World, a: RunLoop.Action, id: nat, kind: Kind, at: int)
    requires Valid(cfg, w) && Owed(lag, bound, w, id, kind, at) && at <= bound && OnTime(lag, w)
    requires OnTime(lag, RunLoop.Step(cfg, w, a))
    ensures var v := RunLoop.Step(cfg, w, a);
            Owed(lag, bound, v, id, kind, at) || (a == Pop(id) && InTurn(lag, bound, v, id, kind, at))
  {
    match a
    case Arm => RefillOwes(lag, bound, cfg, w, id, kind, at);
    case Pop(top) => PopOwes(lag, bound, cfg, w, top, id, kind, at);
    case Settle(reply) => SettleOwes(lag, bound, cfg, w, reply, id, kind, at);
    case CronRaises(_) =>
    case Tick(_) =>
    case Wake =>
    case Load(_) =>
    case LoadRaises =>
    case Sleep(_) =>
    case _ => CallOwes(lag, bound, cfg, w, a, id, kind, at);
  }

  /** A turn lasts until its lock call is answered; then the entry is owed its next turn. */
  lemma StepInTurn(lag: nat, bound: int, cfg: Settings, w: World, a: RunLoop.Action, id: nat, kind: Kind, at: int)
    requires Valid(cfg, w) && InTurn(lag, bound, w, id, kind, at)
    requires OnTime(lag, RunLoop.Step(cfg, w, a)) && (kind.Interval? ==> kind.every >= 0)
    ensures var v := RunLoop.Step(cfg, w, a);
            if a.Settle? then Owed(lag, w.mem.table[id].nextRun, v, id, kind, w.mem.table[id].nextRun)
            else InTurn(lag, bound, v, id, kind, at)
  {
    match a
    case Arm =>
    case ArmSaved(once) => AddKeepsRecurring(w.mem, once, cfg.registry, id);
    case Settle(reply) => RecurringSettles(cfg, w, reply);
    case _ =>
  }

  // ---- On-time runs of one loop ----

  ghost predicate OnTimeRun(cfg: Settings, lag: nat, w: World, acts: seq<RunLoop.Action>) {
    && OnTime(lag, w)
    && (acts != [] ==>
          OnTimeRun(cfg, lag, w, acts[..|acts| - 1]) && OnTime(lag, RunLoop.Run(cfg, w, acts)))
  }

  /** Popping the entry here begins its turn, at a loop time within the bounds. */
  ghost predicate Begins(cfg: Settings, p: World, id: nat, from: int, to: int) {
    p.mem.firing.None? && RunLoop.Step(cfg, p, Pop(id)).mem.firing == Some(id) && from <= p.now <= to
  }

  /** The i-th step begins a turn of the entry. */
  ghost predicate TurnBegins(cfg: Settings, w: World, acts: seq<RunLoop.Action>, i: nat, id: nat, from: int, to: int) {
    i < |acts| && acts[i] == Pop(id) && Begins(cfg, RunLoop.Run(cfg, w, acts[..i]), id, from, to)
  }

  ghost predicate HasTurn(cfg: Settings, w: World, acts: seq<RunLoop.Action>, id: nat, from: int, to: int) {
    exists i: nat :: TurnBegins(cfg, w, acts, i, id, from, to)
  }

  lemma TurnStays(cfg: Settings, w: World, acts: seq<RunLoop.Action>, id: nat, from: int, to: int)
    requires acts != [] && HasTurn(cfg, w, acts[..|acts| - 1], id, from, to)
    ensures HasTurn(cfg, w, acts, id, from, to)
  {
    var front := acts[..|acts| - 1];
    var i: nat :| TurnBegins(cfg, w, front, i, id, from, to);
    assert front[..i] == acts[..i];
    assert TurnBegins(cfg, w, acts, i, id, from, to);
  }

  lemma TurnBeginsNow(cfg: Settings, w: World, acts: seq<RunLoop.Action>, id: nat, from: int, to: int)
    requires acts != [] && acts[|acts| - 1] == Pop(id)
    requires Begins(cfg, RunLoop.Run(cfg, w, acts[..|acts| - 1]), id, from, to)
    ensures HasTurn(cfg, w, acts, id, from, to)
  {
    assert TurnBegins(cfg, w, acts, |acts| - 1, id, from, to);
  }

  /** From a debt a step leads to the debt or begins the turn. */
  lemma OwedStep(cfg: Settings, lag: nat, bound: int, p: World, a: RunLoop.Action, id: nat, kind: Kind, at: int)
    requires Valid(cfg, p) && Owed(lag, bound, p, id, kind, at) && at <= bound
    requires OnTime(lag, p) && OnTime(lag, RunLoop.Step(cfg, p, a))
    ensures || Owed(lag, bound, RunLoop.Step(cfg, p, a), id, kind, at)
            || (a == Pop(id) && Begins(cfg, p, id, at, bound + lag))
  {
    StepOwes(lag, bound, cfg, p, a, id, kind, at);
    if a == Pop(id) && InTurn(lag, bound, RunLoop.Step(cfg, p, a), id, kind, at) {
      PopTakesFromDraining(cfg, p, id);
    }
  }

  lemma PopTakesFromDraining(cfg: Settings, p: World, id: nat)
    requires Valid(cfg, p) && id in p.mem.heap && RunLoop.Step(cfg, p, Pop(id)).mem.firing == Some(id)
    ensures p.mem.firing.None? && RunLoop.Step(cfg, p, Pop(id)).now == p.now
  {
  }

  lemma RunOwes(cfg: Settings, lag: nat, bound: int, w: World, acts: seq<RunLoop.Action>, id: nat, kind: Kind, at: int)
    requires acts != [] && OnTimeRun(cfg, lag, w, acts) && at <= bound
    requires Valid(cfg, RunLoop.Run(cfg, w, acts[..|acts| - 1]))
    requires Owed(lag, bound, RunLoop.Run(cfg, w, acts[..|acts| - 1]), id, kind, at)
    ensures Owed(lag, bound, RunLoop.Run(cfg, w, acts), id, kind, at) || HasTurn(cfg, w, acts, id, at, bound + lag)
  {
    var p, a := RunLoop.Run(cfg, w, acts[..|acts| - 1]), acts[|acts| - 1];
    OnTimeFront(cfg, lag, w, acts);
    OwedStep(cfg, lag, bound, p, a, id, kind, at);
    if a == Pop(id) && Begins(cfg, p, id, at, bound + lag) {
      TurnBeginsNow(cfg, w, acts, id, at, bound + lag);
    }
  }

  lemma {:induction false} OwedRun(cfg: Settings, lag: nat, bound: int, w: World, acts: seq<RunLoop.Action>,
                                   id: nat, kind: Kind, at: int)
    requires Valid(cfg, w) && Owed(lag, bound, w, id, kind, at) && at <= bound && OnTimeRun(cfg, lag, w, acts)
    ensures Owed(lag, bound, RunLoop.Run(cfg, w, acts), id, kind, at) || HasTurn(cfg, w, acts, id, at, bound + lag)
  {
    if acts != [] {
      var front := acts[..|acts| - 1];
      OwedRun(cfg, lag, bound, w, front, id, kind, at);
      if HasTurn(cfg, w, front, id, at, bound + lag) {
        TurnStays(cfg, w, acts, id, at, bound + lag);
      } else {
        RunKeepsValid(cfg, w, front);
        RunOwes(cfg, lag, bound, w, acts, id, kind, at);
      }
    }
  }

  lemma OnTimeFront(cfg: Settings, lag: nat, w: World, acts: seq<RunLoop.Action>)
    requires acts != [] && OnTimeRun(cfg, lag, w, acts)
    ensures var p, a := RunLoop.Run(cfg, w, acts[..|acts| - 1]), acts[|acts| - 1];
            OnTime(lag, p) && OnTime(lag, RunLoop.Step(cfg, p, a)) && RunLoop.Run(cfg, w, acts) == RunLoop.Step(cfg, p, a)
  {
  }

  /** A loop that keeps its deadlines begins an entry's turn by the time it is due (or now, if that
      is past), plus the lags of the wake and of the iteration, and not early. */
  lemma TurnBeginsInTime(cfg: Settings, lag: nat, w: World, acts: seq<RunLoop.Action>, id: nat)
    requires Valid(cfg, w) && id in w.mem.heap && !w.mem.table[id].kind.OneOff? && OnTimeRun(cfg, lag, w, acts)
    ensures var at := w.mem.table[id].nextRun;
            RunLoop.Run(cfg, w, acts).clock > Max(w.clock, at) + 2 * lag ==>
              HasTurn(cfg, w, acts, id, at, Max(w.clock, at) + lag)
  {
    var at := w.mem.table[id].nextRun;
    OwedRun(cfg, lag, Max(w.clock, at), w, acts, id, w.mem.table[id].kind, at);
    RunOnTime(cfg, lag, w, acts);
  }

  lemma RunOnTime(cfg: Settings, lag: nat, w: World, acts: seq<RunLoop.Action>)
    requires OnTimeRun(cfg, lag, w, acts)
    ensures OnTime(lag, RunLoop.Run(cfg, w, acts))
  {
  }

  /** In the turn begun at now, or owed the next one. */
  predicate TurnOrNext(lag: nat, now: int, w: World, id: nat, kind: Kind)
    requires kind.Interval?
  {
    || (InTurn(lag, now, w, id, kind, now) && w.now == now)
    || Owed(lag, now + kind.every, w, id, kind, now + kind.every)
  }

  lemma TurnToNext(cfg: Settings, lag: nat, now: int, w: World, a: RunLoop.Action, id: nat, kind: Kind)
    requires Valid(cfg, w) && kind.Interval? && kind.every >= 0
    requires InTurn(lag, now, w, id, kind, now) && w.now == now && OnTime(lag, RunLoop.Step(cfg, w, a))
    ensures TurnOrNext(lag, now, RunLoop.Step(cfg, w, a), id, kind)
  {
    StepInTurn(lag, now, cfg, w, a, id, kind, now);
    ClaimingKeepsNow(cfg, w, a);
  }

  lemma NextStep(cfg: Settings, lag: nat, now: int, p: World, a: RunLoop.Action, id: nat, kind: Kind)
    requires Valid(cfg, p) && kind.Interval? && kind.every >= 0 && TurnOrNext(lag, now, p, id, kind)
    requires OnTime(lag, p) && OnTime(lag, RunLoop.Step(cfg, p, a))
    ensures || TurnOrNext(lag, now, RunLoop.Step(cfg, p, a), id, kind)
            || (a == Pop(id) && Begins(cfg, p, id, now + kind.every, now + kind.every + lag))
  {
    var next := now + kind.every;
    if Owed(lag, next, p, id, kind, next) {
      OwedStep(cfg, lag, next, p, a, id, kind, next);
    } else {
      TurnToNext(cfg, lag, now, p, a, id, kind);
    }
  }

  lemma RunNext(cfg: Settings, lag: nat, now: int, next: int, w: World, acts: seq<RunLoop.Action>, id: nat, kind: Kind)
    returns (turned: bool)
    requires acts != [] && OnTimeRun(cfg, lag, w, acts) && kind.Interval? && kind.every >= 0 && next == now + kind.every
    requires Valid(cfg, RunLoop.Run(cfg, w, acts[..|acts| - 1]))
    requires TurnOrNext(lag, now, RunLoop.Run(cfg, w, acts[..|acts| - 1]), id, kind)
    ensures if turned then HasTurn(cfg, w, acts, id, next, next + lag)
            else TurnOrNext(lag, now, RunLoop.Run(cfg, w, acts), id, kind)
  {
    var p, a := RunLoop.Run(cfg, w, acts[..|acts| - 1]), acts[|acts| - 1];
    OnTimeFront(cfg, lag, w, acts);
    NextStep(cfg, lag, now, p, a, id, kind);
    turned := a == Pop(id) && Begins(cfg, p, id, next, next + lag);
    if turned {
      TurnBeginsNow(cfg, w, acts, id, next, next + lag);
    }
  }

  lemma {:induction false} InTurnRun(cfg: Settings, lag: nat, now: int, next: int, w: World, acts: seq<RunLoop.Action>,
                                     id: nat, kind: Kind)
    returns (turned: bool)
    requires Valid(cfg, w) && kind.Interval? && kind.every >= 0 && next == now + kind.every
    requires TurnOrNext(lag, now, w, id, kind) && OnTimeRun(cfg, lag, w, acts)
    ensures if turned then HasTurn(cfg, w, acts, id, next, next + lag)
            else TurnOrNext(lag, now, RunLoop.Run(cfg, w, acts), id, kind)
  {
    if acts == [] {
      turned := false;
    } else {
      turned := InTurnRun(cfg, lag, now, next, w, acts[..|acts| - 1], id, kind);
      if turned {
        TurnStays(cfg, w, acts, id, next, next + lag);
      } else {
        RunKeepsValid(cfg, w, acts[..|acts| - 1]);
        turned := RunNext(cfg, lag, now, next, w, acts, id, kind);
      }
    }
  }

  lemma ClaimingKeepsNow(cfg: Settings, w: World, a: RunLoop.Action)
    requires w.place == Claiming
    ensures RunLoop.Step(cfg, w, a).now == w.now
  {
  }

  /** The spacing of an entry's turns from above: after a turn at loop time now, the next one
      begins at a loop time of at least now + every and at most lag later. */
  lemma NextTurnInTime(cfg: Settings, lag: nat, w: World, acts: seq<RunLoop.Action>, id: nat)
    requires Valid(cfg, w) && w.place == Claiming && w.mem.firing == Some(id) && OnTimeRun(cfg, lag, w, acts)
    requires w.mem.table[id].kind.Interval? && w.mem.table[id].kind.every >= 0
    requires w.mem.table[id].nextRun == w.now + w.mem.table[id].kind.every
    ensures var next := w.now + w.mem.table[id].kind.every;
            RunLoop.Run(cfg, w, acts).clock > next + 2 * lag ==>
              HasTurn(cfg, w, acts, id, next, next + lag)
  {
    var turned := InTurnRun(cfg, lag, w.now, w.now + w.mem.table[id].kind.every, w, acts, id, w.mem.table[id].kind);
    RunOnTime(cfg, lag, w, acts);
  }

  // ---- Many loops ----

  ghost predicate AllOnTimeRun(cfgs: Fleet, lag: nat, d: Deployment, acts: seq<Act>) {
    && AllOnTime(lag, d)
    && (acts != [] ==>
          AllOnTimeRun(cfgs, lag, d, acts[..|acts| - 1]) && AllOnTime(lag, Deployments.Run(cfgs, d, acts)))
  }

  /** From the n-th on there is a lock call of the entry within these times. */
  ghost predicate Tried(attempts: seq<Attempt>, n: nat, func: string, from: int, to: int) {
    exists k: nat :: n <= k < |attempts| && attempts[k].key == LockKey(func) && from <= attempts[k].now <= to
  }

  /** The loop owes the turn, is in it, or has made its lock call. */
  ghost predicate TryOutcome(lag: nat, bound: int, n: nat, d: Deployment, i: nat, id: nat, kind: Kind, at: int)
    requires !kind.OneOff?
  {
    && i in d.worlds && n <= |d.attempts|
    && (|| Owed(lag, bound, View(d, i), id, kind, at)
        || InTurn(lag, bound, View(d, i), id, kind, at)
        || Tried(d.attempts, n, kind.func, at, bound + 2 * lag))
  }

  lemma TriedStays(attempts: seq<Attempt>, more: seq<Attempt>, n: nat, func: string, from: int, to: int)
    requires Tried(attempts, n, func, from, to)
    ensures Tried(attempts + more, n, func, from, to)
  {
    var k: nat :| n <= k < |attempts| && attempts[k].key == LockKey(func) && from <= attempts[k].now <= to;
    assert (attempts + more)[k] == attempts[k];
  }

  lemma TriedStaysTried(p: Deployment, w: World, a: RunLoop.Action, n: nat, func: string, from: int, to: int)
    requires Tried(p.attempts, n, func, from, to)
    ensures Tried(AttemptsAfter(p, w, a), n, func, from, to) && |p.attempts| <= |AttemptsAfter(p, w, a)|
  {
    if AttemptsAfter(p, w, a) != p.attempts {
      TriedStays(p.attempts, [LockCall(w).value], n, func, from, to);
    }
  }

  /** A turn ends with the lock call. */
  lemma SettleTries(cfgs: Fleet, lag: nat, bound: int, n: nat, p: Deployment, act: Act, id: nat, kind: Kind, at: int)
    requires AllValid(cfgs, p) && !kind.OneOff? && act.inst in p.worlds && n <= |p.attempts|
    requires Truthful(p, View(p, act.inst), act.action) && act.action.Settle? && OnTime(lag, View(p, act.inst))
    requires OnTime(lag, RunLoop.Step(cfgs[act.inst], View(p, act.inst), act.action))
    requires InTurn(lag, bound, View(p, act.inst), id, kind, at)
    ensures n <= |Deployments.Step(cfgs, p, act).attempts|
    ensures Tried(Deployments.Step(cfgs, p, act).attempts, n, kind.func, at, bound + 2 * lag)
  {
    var w, after := View(p, act.inst), AttemptsAfter(p, View(p, act.inst), act.action);
    RecurringSettles(cfgs[act.inst], w, act.action.reply);
    assert after == p.attempts + [LockCall(w).value] && after[|p.attempts|] == LockCall(w).value;
  }

  /** A loop's own step keeps its outcome. */
  lemma OwnStepTries(cfgs: Fleet, lag: nat, bound: int, n: nat, p: Deployment, act: Act, id: nat, kind: Kind, at: int)
    requires AllValid(cfgs, p) && !kind.OneOff? && act.inst in p.worlds && at <= bound
    requires Truthful(p, View(p, act.inst), act.action) && n <= |p.attempts|
    requires AllOnTime(lag, p) && AllOnTime(lag, Deployments.Step(cfgs, p, act))
    requires Owed(lag, bound, View(p, act.inst), id, kind, at) || InTurn(lag, bound, View(p, act.inst), id, kind, at)
    ensures TryOutcome(lag, bound, n, Deployments.Step(cfgs, p, act), act.inst, id, kind, at)
  {
    var a, cfg, w := act.action, cfgs[act.inst], View(p, act.inst);
    StepViews(cfgs, p, act);
    assert OnTime(lag, View(Deployments.Step(cfgs, p, act), act.inst)) && OnTime(lag, w);
    if Owed(lag, bound, w, id, kind, at) {
      StepOwes(lag, bound, cfg, w, a, id, kind, at);
    } else if a.Settle? {
      SettleTries(cfgs, lag, bound, n, p, act, id, kind, at);
    } else {
      StaysInTurn(lag, bound, cfg, w, a, id, kind, at);
    }
  }

  /** Another loop's step does not touch the debt. */
  lemma NeighbourTries(lag: nat, bound: int, w: World, rows: map<Key, Once>, clock: int, id: nat, kind: Kind, at: int)
    ensures var v := w.(rows := rows, clock := clock);
            && (Owed(lag, bound, w, id, kind, at) ==> Owed(lag, bound, v, id, kind, at))
            && (InTurn(lag, bound, w, id, kind, at) ==> InTurn(lag, bound, v, id, kind, at))
  {
  }

  lemma StaysInTurn(lag: nat, bound: int, cfg: Settings, w: World, a: RunLoop.Action, id: nat, kind: Kind, at: int)
    requires Valid(cfg, w) && InTurn(lag, bound, w, id, kind, at) && !a.Settle?
    ensures InTurn(lag, bound, RunLoop.Step(cfg, w, a), id, kind, at)
  {
    if a.ArmSaved? {
      AddKeepsRecurring(w.mem, a.once, cfg.registry, id);
    }
  }

  lemma TryStep(cfgs: Fleet, lag: nat, bound: int, n: nat, p: Deployment, act: Act, i: nat, id: nat, kind: Kind, at: int)
    requires AllValid(cfgs, p) && !kind.OneOff? && at <= bound && TryOutcome(lag, bound, n, p, i, id, kind, at)
    requires AllOnTime(lag, p) && AllOnTime(lag, Deployments.Step(cfgs, p, act))
    ensures TryOutcome(lag, bound, n, Deployments.Step(cfgs, p, act), i, id, kind, at)
  {
    if act.inst in p.worlds && Truthful(p, View(p, act.inst), act.action) {
      var t := Deployments.Step(cfgs, p, act);
      StepViews(cfgs, p, act);
      if Tried(p.attempts, n, kind.func, at, bound + 2 * lag) {
        TriedStaysTried(p, View(p, act.inst), act.action, n, kind.func, at, bound + 2 * lag);
      } else if act.inst == i {
        OwnStepTries(cfgs, lag, bound, n, p, act, id, kind, at);
      } else {
        NeighbourTries(lag, bound, View(p, i), t.rows, t.clock, id, kind, at);
      }
    }
  }

  lemma {:induction false} TryRun(cfgs: Fleet, lag: nat, bound: int, n: nat, d: Deployment, acts: seq<Act>,
                                  i: nat, id: nat, kind: Kind, at: int)
    requires AllValid(cfgs, d) && !kind.OneOff? && at <= bound && TryOutcome(lag, bound, n, d, i, id, kind, at)
    requires AllOnTimeRun(cfgs, lag, d, acts)
    ensures var t := Deployments.Run(cfgs, d, acts);
            AllValid(cfgs, t) && AllOnTime(lag, t) && TryOutcome(lag, bound, n, t, i, id, kind, at)
  {
    if acts != [] {
      var front, act := acts[..|acts| - 1], acts[|acts| - 1];
      TryRun(cfgs, lag, bound, n, d, front, i, id, kind, at);
      TryStep(cfgs, lag, bound, n, Deployments.Run(cfgs, d, front), act, i, id, kind, at);
      StepKeepsAllValid(cfgs, Deployments.Run(cfgs, d, front), act);
    }
  }

  /** Each loop tries each of its due entries in time. */
  lemma DueEntryIsTried(cfgs: Fleet, lag: nat, d: Deployment, acts: seq<Act>, i: nat, id: nat)
    requires AllValid(cfgs, d) && AllOnTimeRun(cfgs, lag, d, acts) && i in d.worlds
    requires var s := d.worlds[i].mem; id in s.heap && !s.table[id].kind.OneOff?
    ensures var e := d.worlds[i].mem.table[id];
            var bound := Max(d.clock, e.nextRun);
            Deployments.Run(cfgs, d, acts).clock > bound + 2 * lag ==>
              Tried(Deployments.Run(cfgs, d, acts).attempts, |d.attempts|, e.kind.func, e.nextRun, bound + 2 * lag)
  {
    var e := d.worlds[i].mem.table[id];
    var bound, t := Max(d.clock, e.nextRun), Deployments.Run(cfgs, d, acts);
    assert Valid(cfgs[i], View(d, i));
    TryRun(cfgs, lag, bound, |d.attempts|, d, acts, i, id, e.kind, e.nextRun);
    assert OnTime(lag, View(t, i));
  }

  // ---- What a try comes to ----

  /** A dispatched firing of the entry at this time. */
  ghost predicate FiredAt(log: seq<Record>, func: string, at: int) {
    exists j :: 0 <= j < |log| && RecordOf(log[j], func) && log[j].at == at && log[j].dispatched
  }

  lemma FiredAtStays(log: seq<Record>, more: seq<Record>, func: string, at: int)
    requires FiredAt(log, func, at)
    ensures FiredAt(log + more, func, at)
  {
    var j :| 0 <= j < |log| && RecordOf(log[j], func) && log[j].at == at && log[j].dispatched;
    assert (log + more)[j] == log[j];
  }

  /** Every lock won for the entry has fired it. */
  ghost predicate WinsFire(d: Deployment, func: string) {
    && ClockRuns(d.attempts) && (forall k | 0 <= k < |d.attempts| :: d.attempts[k].now <= d.clock)
    && forall k: nat | k < |d.attempts| && d.attempts[k].key == LockKey(func) && Won(d.attempts, k) ::
         FiredAt(d.log, func, d.attempts[k].now)
  }

  /** A lock call on time is answered, and a lock that is won fires its entry: the queue is not full. */
  lemma WonCallFires(cfgs: Fleet, lag: nat, p: Deployment, act: Act, func: string)
    requires AllValid(cfgs, p) && act.inst in p.worlds && Truthful(p, View(p, act.inst), act.action)
    requires AllOnTime(lag, Deployments.Step(cfgs, p, act))
    requires var w := View(p, act.inst);
             act.action.Settle? && LockCall(w).Some? && LockCall(w).value.key == LockKey(func)
    ensures var t := Deployments.Step(cfgs, p, act);
            && t.attempts == p.attempts + [LockCall(View(p, act.inst)).value]
            && (Won(t.attempts, |p.attempts|) ==> FiredAt(t.log, func, p.clock))
  {
    var w, t, a := View(p, act.inst), Deployments.Step(cfgs, p, act), act.action;
    var cfg := cfgs[act.inst];
    StepViews(cfgs, p, act);
    RecurringSettles(cfg, w, a.reply);
    assert OnTime(lag, View(t, act.inst));
    assert a.reply.Answered?;
    SameKeySameFunc(w.mem.table[w.mem.firing.value].kind.func, func);
    assert t.attempts[..|p.attempts|] == p.attempts && t.attempts[|p.attempts|] == LockCall(w).value;
    if Won(t.attempts, |p.attempts|) {
      var r := Record(w.mem.table[w.mem.firing.value], w.clock, true);
      assert RunLoop.Step(cfg, w, a).records == w.records + [r];
      assert NewRecords(w, RunLoop.Step(cfg, w, a)) == [r];
      assert t.log[|p.log|] == r;
    }
  }

  lemma SameKeySameFunc(f: string, g: string)
    requires LockKey(f) == LockKey(g)
    ensures f == g
  {
    assert LockKey(f)[9..] == f && LockKey(g)[9..] == g;
  }

  lemma WonStays(attempts: seq<Attempt>, a: Attempt, k: nat)
    requires k < |attempts|
    ensures Won(attempts + [a], k) == Won(attempts, k)
  {
    assert (attempts + [a])[..k] == attempts[..k] && (attempts + [a])[k] == attempts[k];
  }

  lemma OldWinStays(p: Deployment, w: World, a: RunLoop.Action, k: nat)
    requires k < |p.attempts|
    ensures k < |AttemptsAfter(p, w, a)| && AttemptsAfter(p, w, a)[k] == p.attempts[k]
    ensures Won(AttemptsAfter(p, w, a), k) == Won(p.attempts, k)
  {
    if AttemptsAfter(p, w, a) != p.attempts {
      WonStays(p.attempts, LockCall(w).value, k);
    }
  }

  lemma WinFires(cfgs: Fleet, lag: nat, p: Deployment, act: Act, func: string, k: nat)
    requires AllValid(cfgs, p) && WinsFire(p, func) && AllOnTime(lag, Deployments.Step(cfgs, p, act))
    requires act.inst in p.worlds && Truthful(p, View(p, act.inst), act.action)
    requires var attempts := AttemptsAfter(p, View(p, act.inst), act.action);
             k < |attempts| && attempts[k].key == LockKey(func) && Won(attempts, k)
    ensures var attempts := AttemptsAfter(p, View(p, act.inst), act.action);
            FiredAt(Deployments.Step(cfgs, p, act).log, func, attempts[k].now)
  {
    var w := View(p, act.inst);
    if k < |p.attempts| {
      OldWinStays(p, w, act.action, k);
      FiredAtStays(p.log, NewRecords(w, RunLoop.Step(cfgs[act.inst], w, act.action)), func, p.attempts[k].now);
    } else {
      WonCallFires(cfgs, lag, p, act, func);
    }
  }

  lemma WinsFireStep(cfgs: Fleet, lag: nat, p: Deployment, act: Act, func: string)
    requires AllValid(cfgs, p) && WinsFire(p, func) && AllOnTime(lag, Deployments.Step(cfgs, p, act))
    ensures WinsFire(Deployments.Step(cfgs, p, act), func)
  {
    if act.inst in p.worlds && Truthful(p, View(p, act.inst), act.action) {
      var w, t := View(p, act.inst), Deployments.Step(cfgs, p, act);
      StepViews(cfgs, p, act);
      AttemptsGrow(p, w, act.action, LockKey(func), 0);
      forall k: nat | k < |t.attempts| && t.attempts[k].key == LockKey(func) && Won(t.attempts, k)
        ensures FiredAt(t.log, func, t.attempts[k].now)
      {
        WinFires(cfgs, lag, p, act, func, k);
      }
    }
  }

  lemma {:induction false} RunWinsFire(cfgs: Fleet, lag: nat, d: Deployment, acts: seq<Act>, func: string)
    requires AllValid(cfgs, d) && d.attempts == [] && AllOnTimeRun(cfgs, lag, d, acts)
    ensures AllValid(cfgs, Deployments.Run(cfgs, d, acts)) && WinsFire(Deployments.Run(cfgs, d, acts), func)
  {
    if acts != [] {
      var front, act := acts[..|acts| - 1], acts[|acts| - 1];
      RunWinsFire(cfgs, lag, d, front, func);
      WinsFireStep(cfgs, lag, Deployments.Run(cfgs, d, front), act, func);
      StepKeepsAllValid(cfgs, Deployments.Run(cfgs, d, front), act);
    }
  }

  /** What each try of a recurring entry comes to, while all loops are on time: it wins its lock
      and fires, recorded and dispatched at that very time, or it is refused because another try
      won the same lock, and fired, less than that one's lifetime before. */
  lemma EveryTryFiresOrFollowsAFiring(cfgs: Fleet, lag: nat, d: Deployment, acts: seq<Act>, func: string, k: nat)
    returns (winner: nat)
    requires AllValid(cfgs, d) && d.attempts == [] && AllOnTimeRun(cfgs, lag, d, acts)
    requires var t := Deployments.Run(cfgs, d, acts); k < |t.attempts| && t.attempts[k].key == LockKey(func)
    ensures var t := Deployments.Run(cfgs, d, acts);
            && winner <= k && t.attempts[winner].key == LockKey(func) && FiredAt(t.log, func, t.attempts[winner].now)
            && (Won(t.attempts, k) ==> winner == k)
            && (!Won(t.attempts, k) ==>
                  t.attempts[winner].now <= t.attempts[k].now < t.attempts[winner].now + t.attempts[winner].ttl)
  {
    RunWinsFire(cfgs, lag, d, acts, func);
    var t := Deployments.Run(cfgs, d, acts);
    if Won(t.attempts, k) {
      winner := k;
    } else {
      winner := RefusedOnlyWithinTtl(t.attempts, k);
    }
  }

  /** So a recurring entry that is due in some loop is fired by one of them: dispatched no later
      than the loop's bound, and less than one lock lifetime before it was due. */
  lemma RecurringEntryIsServed(cfgs: Fleet, lag: nat, d: Deployment, acts: seq<Act>, i: nat, id: nat, ttl: nat)
    returns (at: int)
    requires AllValid(cfgs, d) && d.attempts == [] && AllOnTimeRun(cfgs, lag, d, acts) && i in d.worlds && ttl > 0
    requires var s := d.worlds[i].mem; id in s.heap && !s.table[id].kind.OneOff?
    requires var e, t := d.worlds[i].mem.table[id], Deployments.Run(cfgs, d, acts);
             && t.clock > Max(d.clock, e.nextRun) + 2 * lag
             && forall k | 0 <= k < |t.attempts| && t.attempts[k].key == LockKey(e.kind.func) :: t.attempts[k].ttl == ttl
    ensures var e := d.worlds[i].mem.table[id];
            e.nextRun - ttl < at <= Max(d.clock, e.nextRun) + 2 * lag
    ensures FiredAt(Deployments.Run(cfgs, d, acts).log, d.worlds[i].mem.table[id].kind.func, at)
  {
    var e := d.worlds[i].mem.table[id];
    DueEntryIsTried(cfgs, lag, d, acts, i, id);
    var t := Deployments.Run(cfgs, d, acts);
    var bound := Max(d.clock, e.nextRun) + 2 * lag;
    var k: nat :| k < |t.attempts| && t.attempts[k].key == LockKey(e.kind.func) && e.nextRun <= t.attempts[k].now <= bound;
    var winner := EveryTryFiresOrFollowsAFiring(cfgs, lag, d, acts, e.kind.func, k);
    at := t.attempts[winner].now;
  }
}

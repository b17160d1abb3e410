/** Any number of scheduler loops over one table of rows and one table of locks, under one clock.
    A step is one step of one loop; what it does to the rows and the clock all others see. */
module Deployments {
  import opened Options
  import opened ScheduleState
  import opened RunLoop
  import opened ScheduleTiming

  /** log lists the records of all loops in order, attempts the lock calls. */
  datatype Deployment = Deployment(
    clock: int, rows: map<Key, Once>, worlds: map<nat, World>, log: seq<Record>, attempts: seq<Attempt>)

  /** The settings of every process. */
  type Fleet = map<nat, Settings>

  datatype Act = Act(inst: nat, action: RunLoop.Action)

  /** One loop as it is, with the shared rows and the shared clock. */
  function View(d: Deployment, inst: nat): World
    requires inst in d.worlds
  {
    d.worlds[inst].(rows := d.rows, clock := d.clock)
  }

  /** The lock call of the recurring entry that the loop is firing. */
  function LockCall(w: World): Option<Attempt> {
    if w.place == Claiming && w.mem.firing.Some? && w.mem.firing.value in w.mem.table then
      match w.mem.table[w.mem.firing.value].kind
      case Interval(func, every) => Some(Attempt(LockKey(func), w.clock, LockTtl(Some(every))))
      case Cron(func, _) => Some(Attempt(LockKey(func), w.clock, LockTtl(None)))
      case OneOff(_) => None
    else None
  }

  function LockKey(func: string): string {
    "schedule:" + func
  }

  /** The call names the entry's function and asks for its interval in whole seconds, but at least
      for one, and for a minute for a cron entry. */
  lemma LockCallIsTheEntrys(w: World)
    requires w.place == Claiming && w.mem.firing.Some? && w.mem.firing.value in w.mem.table
    ensures var kind := w.mem.table[w.mem.firing.value].kind;
            if kind.OneOff? then LockCall(w) == None
            else
              && LockCall(w).Some?
              && var call := LockCall(w).value;
                 && call.key == "schedule:" + kind.func && call.now == w.clock
                 && (kind.Cron? ==> call.ttl == 60000000)
                 && (kind.Interval? && kind.every < 1000000 ==> call.ttl == 1000000)
                 && (kind.Interval? && kind.every >= 1000000 ==>
                       call.ttl % 1000000 == 0 && call.ttl <= kind.every < call.ttl + 1000000)
  {
  }

  /** The answer to a lock call is that of the lock table; a call that raises may still have
      taken effect. */
  predicate Truthful(d: Deployment, w: World, a: RunLoop.Action) {
    a.Settle? && a.reply.Answered? && LockCall(w).Some? ==>
      a.reply.acquired == Acquire(LocksAfter(d.attempts), LockCall(w).value).1
  }

  function AttemptsAfter(d: Deployment, w: World, a: RunLoop.Action): seq<Attempt> {
    if a.Settle? && LockCall(w).Some? && (a.reply.Answered? || a.reply.deleted) then d.attempts + [LockCall(w).value]
    else d.attempts
  }

  function NewRecords(w: World, v: World): seq<Record> {
    if |w.records| <= |v.records| then v.records[|w.records|..] else []
  }

  ghost function Step(cfgs: Fleet, d: Deployment, act: Act): Deployment {
    if act.inst !in d.worlds || act.inst !in cfgs || !Truthful(d, View(d, act.inst), act.action) then d
    else
      var w := View(d, act.inst);
      var v := RunLoop.Step(cfgs[act.inst], w, act.action);
      Deployment(v.clock, v.rows, d.worlds[act.inst := v], d.log + NewRecords(w, v), AttemptsAfter(d, w, act.action))
  }

  ghost function Run(cfgs: Fleet, d: Deployment, acts: seq<Act>): Deployment {
    if acts == [] then d else Step(cfgs, Run(cfgs, d, acts[..|acts| - 1]), acts[|acts| - 1])
  }

  // ---- One row, many loops ----

  /** Every loop keeps its deadlines. */
  ghost predicate AllOnTime(lag: nat, d: Deployment) {
    forall i | i in d.worlds :: OnTime(lag, View(d, i))
  }

  ghost predicate AllValid(cfgs: Fleet, d: Deployment) {
    d.worlds.Keys <= cfgs.Keys && forall i | i in d.worlds :: Valid(cfgs[i], View(d, i))
  }

  /** Every state is on time, and every step gentle to the row. */
  ghost predicate GoodRun(cfgs: Fleet, lag: nat, d: Deployment, acts: seq<Act>, once: Once) {
    && AllOnTime(lag, d)
    && (acts != [] ==>
          var front, act := acts[..|acts| - 1], acts[|acts| - 1];
          var p := Run(cfgs, d, front);
          && GoodRun(cfgs, lag, d, front, once) && AllOnTime(lag, Run(cfgs, d, acts))
          && (act.inst in p.worlds ==> Gentle(View(p, act.inst), act.action, once)))
  }

  /** Every loop can serve the row: its function is registered and the horizon wide enough. */
  predicate AllServe(cfgs: Fleet, once: Once) {
    forall i | i in cfgs :: cfgs[i].interval <= cfgs[i].horizon && once.funcName in cfgs[i].registry
  }

  /** By when loop i has the row taken, seen from the deployment d. */
  function Bound(cfgs: Fleet, d: Deployment, once: Once, i: nat): int
    requires i in d.worlds && i in cfgs
  {
    FireBy(cfgs[i], View(d, i), once)
  }

  ghost predicate AllClean(cfgs: Fleet, d: Deployment, once: Once)
    requires d.worlds.Keys <= cfgs.Keys
  {
    forall i | i in d.worlds :: Clean(cfgs[i], View(d, i), once)
  }

  /** Seen from d: in t the row is there, clean and in time for every loop and without a record,
      or all loops together have fired it once, within every loop's bound. */
  ghost predicate SharedOutcome(cfgs: Fleet, lag: nat, d: Deployment, t: Deployment, once: Once)
    requires d.worlds.Keys <= cfgs.Keys
  {
    && t.worlds.Keys == d.worlds.Keys && |d.log| <= |t.log|
    && if once.runKey in t.rows then
         NoneOf(t.log, |d.log|, once.runKey) && PendingForAll(cfgs, lag, d, t, once)
       else FiredForAll(cfgs, lag, d, t.log, once)
  }

  /** The row is clean and in time for every loop. */
  ghost predicate PendingForAll(cfgs: Fleet, lag: nat, d: Deployment, t: Deployment, once: Once)
    requires d.worlds.Keys <= cfgs.Keys && t.worlds.Keys == d.worlds.Keys
  {
    forall i | i in d.worlds ::
      Clean(cfgs[i], View(t, i), once) && Bounded(cfgs[i], lag, Bound(cfgs, d, once, i), View(t, i), once)
  }

  /** The one firing is within every loop's bound. */
  ghost predicate FiredForAll(cfgs: Fleet, lag: nat, d: Deployment, log: seq<Record>, once: Once)
    requires d.worlds.Keys <= cfgs.Keys
  {
    forall i | i in d.worlds :: FiredOnce(log, |d.log|, once, Bound(cfgs, d, once, i) + 2 * lag)
  }

  lemma ClockGrows(cfg: Settings, w: World, a: RunLoop.Action)
    ensures RunLoop.Step(cfg, w, a).clock >= w.clock
  {
  }

  /** What another loop does to the rows and the clock does not disturb this one. */
  lemma NeighbourKeepsValid(cfg: Settings, w: World, rows: map<Key, Once>, clock: int)
    requires Valid(cfg, w) && clock >= w.clock && forall k | k in rows :: rows[k].runKey == k
    ensures Valid(cfg, w.(rows := rows, clock := clock))
  {
  }

  lemma NeighbourKeepsClean(cfg: Settings, lag: nat, bound: int, w: World, rows: map<Key, Once>, clock: int, once: Once)
    requires Clean(cfg, w, once) && Bounded(cfg, lag, bound, w, once)
    requires clock >= w.clock && once.runKey in rows && rows[once.runKey] == once
    ensures var v := w.(rows := rows, clock := clock); Clean(cfg, v, once) && Bounded(cfg, lag, bound, v, once)
  {
  }

  lemma StepKeepsAllValid(cfgs: Fleet, d: Deployment, act: Act)
    requires AllValid(cfgs, d)
    ensures AllValid(cfgs, Step(cfgs, d, act))
  {
    var t := Step(cfgs, d, act);
    if act.inst in d.worlds && t != d {
      var w := View(d, act.inst);
      StepKeepsValid(cfgs[act.inst], w, act.action);
      ClockGrows(cfgs[act.inst], w, act.action);
      forall i | i in t.worlds ensures Valid(cfgs[i], View(t, i)) {
        if i == act.inst {
          assert View(t, i) == t.worlds[i];
        } else {
          NeighbourKeepsValid(cfgs[i], View(d, i), t.rows, t.clock);
          assert View(t, i) == View(d, i).(rows := t.rows, clock := t.clock);
        }
      }
    }
  }

  /** No record of the key is added. */
  lemma LogWithout(w: World, v: World, log: seq<Record>, from: nat, key: Key)
    requires NoRecordOf(w, v, key) && from <= |log| && NoneOf(log, from, key)
    ensures NoneOf(log + NewRecords(w, v), from, key)
  {
    NewRecordsWithout(w, v, key);
  }

  lemma FiringStays(log: seq<Record>, more: seq<Record>, n: nat, once: Once, bound: int)
    requires FiredOnce(log, n, once, bound) && forall i | 0 <= i < |more| :: !Of(more[i], once.runKey)
    ensures FiredOnce(log + more, n, once, bound)
  {
    var j :| n <= j < |log| &&
      log[j].entry.kind == OneOff(once) && log[j].dispatched && once.fireAt <= log[j].at <= bound &&
      forall i | n <= i < |log| && i != j :: !Of(log[i], once.runKey);
    assert (log + more)[j] == log[j];
    forall i | n <= i < |log + more| && i != j ensures !Of((log + more)[i], once.runKey) {
      assert i >= |log| ==> (log + more)[i] == more[i - |log|];
    }
  }

  lemma FiringAdded(w: World, v: World, log: seq<Record>, n: nat, once: Once, bound: int)
    requires TakesRow(w, v, once) && v.place != Dead && n <= |log| && NoneOf(log, n, once.runKey)
    requires w.now <= w.clock <= bound
    ensures |log| <= |log + NewRecords(w, v)| && FiredOnce(log + NewRecords(w, v), n, once, bound)
  {
    var e: Entry, dispatched: bool :|
      && e.kind == OneOff(once) && v.records == w.records + [Record(e, w.clock, dispatched)]
      && (!dispatched ==> v.place == Dead);
    assert NewRecords(w, v) == [Record(e, w.clock, dispatched)];
    var j, after := |log|, log + NewRecords(w, v);
    assert after[j] == Record(e, w.clock, dispatched);
    assert forall i | n <= i < |after| && i != j :: after[i] == log[i];
  }

  /** What one step does to the deployment: the loop that moves, and what the others see. */
  lemma StepViews(cfgs: Fleet, d: Deployment, act: Act)
    requires act.inst in d.worlds && act.inst in cfgs && Truthful(d, View(d, act.inst), act.action)
    ensures var t, w := Step(cfgs, d, act), View(d, act.inst);
            var v := RunLoop.Step(cfgs[act.inst], w, act.action);
            && t.worlds.Keys == d.worlds.Keys && t.rows == v.rows && t.clock == v.clock && t.clock >= d.clock
            && t.log == d.log + NewRecords(w, v) && View(t, act.inst) == v
            && forall i | i in d.worlds && i != act.inst :: View(t, i) == View(d, i).(rows := t.rows, clock := t.clock)
  {
    ClockGrows(cfgs[act.inst], View(d, act.inst), act.action);
  }

  /** For one loop, the row stays clean and in time through a step that leaves it. */
  lemma LoopStays(cfgs: Fleet, lag: nat, bound: int, p: Deployment, act: Act, once: Once, i: nat)
    requires act.inst in p.worlds && act.inst in cfgs && Truthful(p, View(p, act.inst), act.action)
    requires i in p.worlds && i in cfgs && once.fireAt <= bound && AllServe(cfgs, once)
    requires Valid(cfgs[i], View(p, i)) && OnTime(lag, View(p, i))
    requires Clean(cfgs[i], View(p, i), once) && Bounded(cfgs[i], lag, bound, View(p, i), once)
    requires Gentle(View(p, act.inst), act.action, once)
    requires once.runKey in Step(cfgs, p, act).rows && Step(cfgs, p, act).rows[once.runKey] == once
    ensures var v := View(Step(cfgs, p, act), i);
            Clean(cfgs[i], v, once) && Bounded(cfgs[i], lag, bound, v, once)
  {
    StepViews(cfgs, p, act);
    if i == act.inst {
      StepFollows(cfgs[i], View(p, i), act.action, once);
      StepIsBounded(cfgs[i], lag, bound, View(p, i), act.action, once);
    } else {
      var t := Step(cfgs, p, act);
      NeighbourKeepsClean(cfgs[i], lag, bound, View(p, i), t.rows, t.clock, once);
    }
  }

  lemma PendingStays(cfgs: Fleet, lag: nat, d: Deployment, p: Deployment, act: Act, once: Once)
    requires d.worlds.Keys <= cfgs.Keys && p.worlds.Keys == d.worlds.Keys && act.inst in p.worlds
    requires AllValid(cfgs, p) && AllServe(cfgs, once) && AllOnTime(lag, p) && PendingForAll(cfgs, lag, d, p, once)
    requires Gentle(View(p, act.inst), act.action, once) && Truthful(p, View(p, act.inst), act.action)
    requires once.runKey in Step(cfgs, p, act).rows && Step(cfgs, p, act).rows[once.runKey] == once
    ensures PendingForAll(cfgs, lag, d, Step(cfgs, p, act), once)
  {
    forall i | i in d.worlds
      ensures var v := View(Step(cfgs, p, act), i);
              Clean(cfgs[i], v, once) && Bounded(cfgs[i], lag, Bound(cfgs, d, once, i), v, once)
    {
      LoopStays(cfgs, lag, Bound(cfgs, d, once, i), p, act, once, i);
    }
  }

  /** A step that leaves the row: it stays clean and in time for every loop. */
  lemma RowStaysShared(cfgs: Fleet, lag: nat, d: Deployment, p: Deployment, act: Act, once: Once)
    requires d.worlds.Keys <= cfgs.Keys && AllValid(cfgs, p) && AllServe(cfgs, once) && AllOnTime(lag, p)
    requires SharedOutcome(cfgs, lag, d, p, once) && once.runKey in p.rows && act.inst in p.worlds
    requires Gentle(View(p, act.inst), act.action, once) && Truthful(p, View(p, act.inst), act.action)
    requires once.runKey in Step(cfgs, p, act).rows
    ensures SharedOutcome(cfgs, lag, d, Step(cfgs, p, act), once)
  {
    var w := View(p, act.inst);
    StepFollows(cfgs[act.inst], w, act.action, once);
    StepViews(cfgs, p, act);
    LogWithout(w, RunLoop.Step(cfgs[act.inst], w, act.action), p.log, |d.log|, once.runKey);
    PendingStays(cfgs, lag, d, p, act, once);
  }

  /** The clock is within every loop's bound as long as the row is there. */
  lemma ClockIsBounded(cfgs: Fleet, lag: nat, d: Deployment, p: Deployment, once: Once, i: nat)
    requires d.worlds.Keys <= cfgs.Keys && SharedOutcome(cfgs, lag, d, p, once)
    requires once.runKey in p.rows && AllOnTime(lag, p) && i in d.worlds
    ensures p.clock <= Bound(cfgs, d, once, i) + 2 * lag
  {
    assert OnTime(lag, View(p, i)) && Bounded(cfgs[i], lag, Bound(cfgs, d, once, i), View(p, i), once);
  }

  /** A step that takes the row: it is fired within every loop's bound. */
  lemma RowIsTaken(cfgs: Fleet, lag: nat, d: Deployment, p: Deployment, act: Act, once: Once)
    requires d.worlds.Keys <= cfgs.Keys && AllValid(cfgs, p) && AllServe(cfgs, once)
    requires SharedOutcome(cfgs, lag, d, p, once) && once.runKey in p.rows && act.inst in p.worlds
    requires Gentle(View(p, act.inst), act.action, once) && Truthful(p, View(p, act.inst), act.action)
    requires AllOnTime(lag, p) && AllOnTime(lag, Step(cfgs, p, act)) && once.runKey !in Step(cfgs, p, act).rows
    ensures SharedOutcome(cfgs, lag, d, Step(cfgs, p, act), once)
  {
    var w := View(p, act.inst);
    var v := RunLoop.Step(cfgs[act.inst], w, act.action);
    StepViews(cfgs, p, act);
    StepFollows(cfgs[act.inst], w, act.action, once);
    assert OnTime(lag, View(Step(cfgs, p, act), act.inst));
    TakenForAll(cfgs, lag, d, p, w, v, once);
  }

  lemma TakenForAll(cfgs: Fleet, lag: nat, d: Deployment, p: Deployment, w: World, v: World, once: Once)
    requires d.worlds.Keys <= cfgs.Keys && SharedOutcome(cfgs, lag, d, p, once) && AllOnTime(lag, p)
    requires once.runKey in p.rows && TakesRow(w, v, once) && v.place != Dead && w.now <= w.clock == p.clock
    ensures |p.log| <= |p.log + NewRecords(w, v)|
    ensures FiredForAll(cfgs, lag, d, p.log + NewRecords(w, v), once)
  {
    forall i | i in d.worlds
      ensures FiredOnce(p.log + NewRecords(w, v), |d.log|, once, Bound(cfgs, d, once, i) + 2 * lag)
    {
      ClockIsBounded(cfgs, lag, d, p, once, i);
      FiringAdded(w, v, p.log, |d.log|, once, Bound(cfgs, d, once, i) + 2 * lag);
    }
  }

  lemma RowStaysFired(cfgs: Fleet, lag: nat, d: Deployment, p: Deployment, act: Act, once: Once)
    requires d.worlds.Keys <= cfgs.Keys && AllValid(cfgs, p)
    requires SharedOutcome(cfgs, lag, d, p, once) && once.runKey !in p.rows && act.inst in p.worlds
    requires Gentle(View(p, act.inst), act.action, once) && Truthful(p, View(p, act.inst), act.action)
    ensures SharedOutcome(cfgs, lag, d, Step(cfgs, p, act), once)
  {
    var w := View(p, act.inst);
    var v := RunLoop.Step(cfgs[act.inst], w, act.action);
    StepViews(cfgs, p, act);
    GoneStaysGone(cfgs[act.inst], w, act.action, once);
    NewRecordsWithout(w, v, once.runKey);
    FiredForAllStays(cfgs, lag, d, p.log, NewRecords(w, v), once);
  }

  lemma FiredForAllStays(cfgs: Fleet, lag: nat, d: Deployment, log: seq<Record>, more: seq<Record>, once: Once)
    requires d.worlds.Keys <= cfgs.Keys && FiredForAll(cfgs, lag, d, log, once)
    requires forall i | 0 <= i < |more| :: !Of(more[i], once.runKey)
    ensures FiredForAll(cfgs, lag, d, log + more, once)
  {
    forall i | i in d.worlds
      ensures FiredOnce(log + more, |d.log|, once, Bound(cfgs, d, once, i) + 2 * lag)
    {
      FiringStays(log, more, |d.log|, once, Bound(cfgs, d, once, i) + 2 * lag);
    }
  }

  lemma NewRecordsWithout(w: World, v: World, key: Key)
    requires NoRecordOf(w, v, key)
    ensures forall i | 0 <= i < |NewRecords(w, v)| :: !Of(NewRecords(w, v)[i], key)
  {
    if v.records != w.records {
      var r :| v.records == w.records + [r] && !Of(r, key);
      assert NewRecords(w, v) == [r];
    }
  }

  lemma SharedStep(cfgs: Fleet, lag: nat, d: Deployment, p: Deployment, act: Act, once: Once)
    requires d.worlds.Keys <= cfgs.Keys && AllValid(cfgs, p) && AllServe(cfgs, once)
    requires SharedOutcome(cfgs, lag, d, p, once) && AllOnTime(lag, p) && AllOnTime(lag, Step(cfgs, p, act))
    requires act.inst in p.worlds ==> Gentle(View(p, act.inst), act.action, once)
    ensures SharedOutcome(cfgs, lag, d, Step(cfgs, p, act), once)
  {
    if act.inst in p.worlds && Truthful(p, View(p, act.inst), act.action) {
      if once.runKey !in p.rows {
        RowStaysFired(cfgs, lag, d, p, act, once);
      } else if once.runKey in Step(cfgs, p, act).rows {
        RowStaysShared(cfgs, lag, d, p, act, once);
      } else {
        RowIsTaken(cfgs, lag, d, p, act, once);
      }
    }
  }

  lemma {:induction false} SharedRun(cfgs: Fleet, lag: nat, d: Deployment, acts: seq<Act>, once: Once)
    requires AllValid(cfgs, d) && AllServe(cfgs, once) && AllClean(cfgs, d, once) && once.runKey in d.rows
    requires GoodRun(cfgs, lag, d, acts, once)
    ensures var t := Run(cfgs, d, acts);
            SharedOutcome(cfgs, lag, d, t, once) && AllOnTime(lag, t) && AllValid(cfgs, t)
  {
    if acts == [] {
      forall i | i in d.worlds
        ensures Bounded(cfgs[i], lag, Bound(cfgs, d, once, i), View(d, i), once)
      {
        assert Clean(cfgs[i], View(d, i), once) && Valid(cfgs[i], View(d, i));
      }
    } else {
      var front, act := acts[..|acts| - 1], acts[|acts| - 1];
      SharedRun(cfgs, lag, d, front, once);
      SharedStep(cfgs, lag, d, Run(cfgs, d, front), act, once);
      StepKeepsAllValid(cfgs, Run(cfgs, d, front), act);
    }
  }

  /** Exactly one instance runs it. Any number of loops that keep their deadlines, whose memory
      has the row or nothing of its key, and that can serve it: the row is gone by each loop's
      bound, and then there is exactly one record of its key in all loops together, of this row,
      dispatched, not early, and within every loop's bound. The loops claim it from each other;
      only a cancel, another save, and calls that raise are left out. */
  lemma ExactlyOneInstanceFires(cfgs: Fleet, lag: nat, d: Deployment, acts: seq<Act>, once: Once)
    requires AllValid(cfgs, d) && AllServe(cfgs, once) && AllClean(cfgs, d, once) && once.runKey in d.rows
    requires GoodRun(cfgs, lag, d, acts, once)
    ensures var t := Run(cfgs, d, acts);
            && (forall i | i in d.worlds :: t.clock > Bound(cfgs, d, once, i) + 2 * lag ==> once.runKey !in t.rows)
            && (once.runKey in t.rows ==> NoneOf(t.log, |d.log|, once.runKey))
            && (once.runKey !in t.rows ==> FiredForAll(cfgs, lag, d, t.log, once))
  {
    SharedRun(cfgs, lag, d, acts, once);
    var t := Run(cfgs, d, acts);
    forall i | i in d.worlds && once.runKey in t.rows
      ensures t.clock <= Bound(cfgs, d, once, i) + 2 * lag
    {
      assert OnTime(lag, View(t, i)) && Bounded(cfgs[i], lag, Bound(cfgs, d, once, i), View(t, i), once);
    }
  }

  // ---- One recurring entry, many loops ----

  /** A record of the recurring entry with this function. */
  predicate RecordOf(r: Record, func: string) {
    !r.entry.kind.OneOff? && r.entry.kind.func == func
  }

  /** Firings of the entry from a time on. */
  function Firings(log: seq<Record>, func: string, from: int): nat {
    if log == [] then 0
    else
      var last := log[|log| - 1];
      Firings(log[..|log| - 1], func, from) + if RecordOf(last, func) && last.at >= from then 1 else 0
  }

  /** Each firing of the entry has won its lock, and lock calls are in clock order. */
  ghost predicate LocksHold(d: Deployment, func: string, from: int) {
    && ClockRuns(d.attempts) && (forall i | 0 <= i < |d.attempts| :: d.attempts[i].now <= d.clock)
    && Firings(d.log, func, from) <= Wins(d.attempts, LockKey(func), from, |d.attempts|)
  }

  /** Later lock calls do not change who won the earlier ones. */
  lemma {:induction false} WinsStay(attempts: seq<Attempt>, a: Attempt, key: string, from: int, n: nat)
    requires n <= |attempts|
    ensures Wins(attempts + [a], key, from, n) == Wins(attempts, key, from, n)
  {
    if n > 0 {
      WinsStay(attempts, a, key, from, n - 1);
      assert (attempts + [a])[..n - 1] == attempts[..n - 1] && (attempts + [a])[n - 1] == attempts[n - 1];
    }
  }

  lemma FiringAddsAtMostOne(w: World, v: World, log: seq<Record>, func: string, from: int)
    requires v.records == w.records || exists r: Record :: v.records == w.records + [r]
    ensures Firings(log + NewRecords(w, v), func, from) <=
            Firings(log, func, from) +
            if |v.records| > |w.records| && RecordOf(v.records[|w.records|], func) && v.records[|w.records|].at >= from
            then 1 else 0
  {
    if v.records == w.records {
      assert log + NewRecords(w, v) == log;
    } else {
      var r: Record :| v.records == w.records + [r];
      assert NewRecords(w, v) == [r];
      assert (log + [r])[..|log|] == log;
    }
  }

  /** Only a settled firing makes a record, of the entry being fired, and a recurring one only
      with its lock. */
  lemma RecordsNeedTheLock(cfg: Settings, w: World, a: RunLoop.Action)
    requires Valid(cfg, w)
    ensures var v := RunLoop.Step(cfg, w, a);
            && (v.records == w.records ||
                (a.Settle? && a.reply.Answered? && w.place == Claiming &&
                 exists r: Record :: v.records == w.records + [r]))
            && (v.records != w.records ==>
                  var r := v.records[|w.records|];
                  && r.entry == w.mem.table[w.mem.firing.value] && r.at == w.clock
                  && (!r.entry.kind.OneOff? ==> a.reply.acquired))
  {
    if a.Settle? && w.place == Claiming && RunLoop.Step(cfg, w, a).records != w.records {
      var e := w.mem.table[w.mem.firing.value];
      assert RunLoop.Step(cfg, w, a).records == w.records + [Record(e, w.clock, !a.reply.full)];
    }
  }

  /** The firing that a step adds has won its lock in the same step. */
  lemma FiringWins(cfg: Settings, d: Deployment, w: World, a: RunLoop.Action, func: string, from: int)
    requires Valid(cfg, w) && w.clock == d.clock && Truthful(d, w, a)
    ensures var v := RunLoop.Step(cfg, w, a);
            v.records != w.records && RecordOf(v.records[|w.records|], func) && v.records[|w.records|].at >= from ==>
              && AttemptsAfter(d, w, a) == d.attempts + [LockCall(w).value]
              && Hit(AttemptsAfter(d, w, a), LockKey(func), from, |d.attempts|)
  {
    RecordsNeedTheLock(cfg, w, a);
    if LockCall(w).Some? {
      assert (d.attempts + [LockCall(w).value])[..|d.attempts|] == d.attempts;
    }
  }

  lemma AttemptsGrow(d: Deployment, w: World, a: RunLoop.Action, key: string, from: int)
    requires w.clock == d.clock && ClockRuns(d.attempts)
    requires forall i | 0 <= i < |d.attempts| :: d.attempts[i].now <= d.clock
    ensures var after := AttemptsAfter(d, w, a);
            && ClockRuns(after) && (forall i | 0 <= i < |after| :: after[i].now <= d.clock)
            && Wins(after, key, from, |after|) ==
               Wins(d.attempts, key, from, |d.attempts|) +
               if |after| > |d.attempts| && Hit(after, key, from, |d.attempts|) then 1 else 0
  {
    if AttemptsAfter(d, w, a) != d.attempts {
      WinsStay(d.attempts, LockCall(w).value, key, from, |d.attempts|);
    }
  }

  lemma LocksStep(cfgs: Fleet, d: Deployment, act: Act, func: string, from: int)
    requires AllValid(cfgs, d) && LocksHold(d, func, from)
    ensures LocksHold(Step(cfgs, d, act), func, from)
  {
    if act.inst in d.worlds && Truthful(d, View(d, act.inst), act.action) {
      var cfg, w := cfgs[act.inst], View(d, act.inst);
      var v := RunLoop.Step(cfg, w, act.action);
      RecordsNeedTheLock(cfg, w, act.action);
      FiringAddsAtMostOne(w, v, d.log, func, from);
      FiringWins(cfg, d, w, act.action, func, from);
      AttemptsGrow(d, w, act.action, LockKey(func), from);
      StepViews(cfgs, d, act);
    }
  }

  lemma {:induction false} RunLocksHold(cfgs: Fleet, d: Deployment, acts: seq<Act>, func: string, from: int)
    requires AllValid(cfgs, d) && d.log == [] && d.attempts == []
    ensures AllValid(cfgs, Run(cfgs, d, acts)) && LocksHold(Run(cfgs, d, acts), func, from)
  {
    if acts != [] {
      var front := acts[..|acts| - 1];
      RunLocksHold(cfgs, d, front, func, from);
      LocksStep(cfgs, Run(cfgs, d, front), acts[|acts| - 1], func, from);
      StepKeepsAllValid(cfgs, Run(cfgs, d, front), acts[|acts| - 1]);
    }
  }

  /** All loops together fire a recurring entry at most floor(L / ttl) + 1 times within a length
      L, if they ask for its lock with one lifetime ttl. */
  lemma FiringsInWindow(cfgs: Fleet, d: Deployment, acts: seq<Act>, func: string, from: int, length: nat, ttl: nat)
    requires AllValid(cfgs, d) && d.log == [] && d.attempts == [] && ttl > 0
    requires var t := Run(cfgs, d, acts);
             && t.clock <= from + length
             && forall i | 0 <= i < |t.attempts| && t.attempts[i].key == LockKey(func) :: t.attempts[i].ttl == ttl
    ensures Firings(Run(cfgs, d, acts).log, func, from) <= length / ttl + 1
  {
    RunLocksHold(cfgs, d, acts, func, from);
    var t := Run(cfgs, d, acts);
    AcquisitionsInWindow(t.attempts, LockKey(func), from, length, |t.attempts|, ttl);
  }
}

/** The periodic scheduler of one process with its real heap. Each method is one stretch of
    the original between awaits and is proved to take the corresponding step of
    ScheduleState; the due loop is then specified outright. */
module Scheduler {
  import opened Options
  import opened Heapq
  import opened ScheduleState

  ghost function Handles(h: seq<Item<nat>>): set<nat> {
    set it | it in h :: it.value
  }

  function HeapItem(table: map<nat, Entry>, id: nat): Item<nat>
    requires id in table
  {
    Item(Rank(table[id].nextRun, 0), id)
  }

  /** A heap over the table: each handle once, ranked by its entry's next_run. */
  ghost predicate HeapOver(h: seq<Item<nat>>, table: map<nat, Entry>) {
    && IsHeap(h)
    && (forall it | it in h :: it.value in table && it == HeapItem(table, it.value) && multiset(h)[it] == 1)
  }

  class PeriodicScheduler {
    const registry: set<string>
    var table: map<nat, Entry>
    var nextId: nat
    var heap: seq<Item<nat>>
    var index: map<Key, nat>
    var entries: seq<nat>
    var started: bool
    var firing: Option<nat>
    var wake: bool

    ghost function View(): State
      reads this
    {
      State(table, nextId, Handles(heap), index, entries, started, firing)
    }

    ghost predicate Sound()
      reads this
    {
      HeapOver(heap, table) && WellFormed(View())
    }

    ghost predicate Valid()
      reads this
    {
      Sound() && Inv(View())
    }

    constructor (registry: set<string>)
      ensures Valid() && View() == Empty() && this.registry == registry
    {
      this.registry := registry;
      table := map[];
      nextId := 0;
      heap := [];
      index := map[];
      entries := [];
      started := false;
      firing := None;
      wake := false;
    }

    method Push(id: nat)
      requires HeapOver(heap, table) && id in table && id !in Handles(heap)
      modifies this`heap
      ensures HeapOver(heap, table) && Handles(heap) == Handles(old(heap)) + {id}
    {
      ghost var was := heap;
      heap := HeapPush(heap, HeapItem(table, id));
      PushedHandle(was, table, id, heap);
    }

    method Pop() returns (id: nat)
      requires HeapOver(heap, table) && heap != []
      modifies this`heap
      ensures HeapOver(heap, table) && id == old(heap)[0].value
      ensures Handles(heap) == Handles(old(heap)) - {id} && id in Handles(old(heap))
      ensures forall other | other in Handles(old(heap)) ::
                id in table && other in table && table[id].nextRun <= table[other].nextRun
    {
      ghost var was := heap;
      var item;
      heap, item := HeapPop(heap);
      id := item.value;
      PoppedHandle(was, table, item, heap);
    }

    method Register(kind: Kind, runOnStartup: bool, now: int)
      requires Valid() && !kind.OneOff?
      modifies this
      ensures Valid() && View() == DoRegister(old(View()), kind, runOnStartup, now)
      ensures entries == old(entries) + [old(nextId)] && old(nextId) in table
      ensures table[old(nextId)] == Entry(kind, runOnStartup, now, false)
      ensures started ==> wake && old(nextId) in Handles(heap)
    {
      ghost var s := View();
      RegisterKeeps(s, kind, runOnStartup, now);
      var id := nextId;
      table := table[id := Entry(kind, runOnStartup, now, false)];
      nextId := nextId + 1;
      entries := entries + [id];
      if started {
        Push(id);
        wake := true;
      }
      assert View() == DoRegister(s, kind, runOnStartup, now);
    }

    /** cancel_one_off. */
    method CancelOneOff(runKey: Key)
      requires Valid()
      modifies this
      ensures Valid() && View() == DoCancel(old(View()), runKey)
      ensures index == old(index) - {runKey} && heap == old(heap)
      ensures runKey in old(index) ==> old(index)[runKey] in table && table[old(index)[runKey]].cancelled
    {
      CancelKeeps(View(), runKey);
      if runKey in index {
        var id := index[runKey];
        table := table[id := table[id].(cancelled := true)];
        index := index - {runKey};
      }
    }

    /** The entry is in the heap under its key, and the sleeping loop has been told. */
    ghost predicate Armed(once: Once)
      reads this
    {
      && wake && once.runKey in index && index[once.runKey] in Handles(heap) && index[once.runKey] in table
      && table[index[once.runKey]] == Entry(OneOff(once), false, once.fireAt, false)
    }

    /** add_one_off; false means the function is not registered in this process. */
    method AddOneOff(once: Once) returns (armed: bool)
      requires Valid()
      modifies this
      ensures Valid() && View() == DoAdd(old(View()), once, registry)
      ensures armed <==> once.funcName in registry
      ensures armed ==> Armed(once)
      ensures !armed ==> wake == old(wake) && View() == old(View())
    {
      if once.funcName !in registry {
        return false;
      }
      CancelOneOff(once.runKey);
      ArmOneOff(once);
      armed := true;
    }

    method ArmOneOff(once: Once)
      requires Valid() && once.runKey !in index
      modifies this
      ensures Valid() && View() == Arm(old(View()), once) && Armed(once)
    {
      ArmKeeps(View(), once);
      var id := nextId;
      table := table[id := Entry(OneOff(once), false, once.fireAt, false)];
      nextId := nextId + 1;
      index := index[once.runKey := id];
      Push(id);
      wake := true;
    }

    /** The loop of _refill over the rows that load_due returned. */
    method ArmLoaded(due: seq<Once>)
      requires Valid()
      modifies this
      ensures Valid() && View() == DoRefill(old(View()), due, registry)
    {
      var i := 0;
      assert due[..0] == [];
      while i < |due|
        invariant 0 <= i <= |due| && Valid()
        invariant View() == DoRefill(old(View()), due[..i], registry)
      {
        var once := due[i];
        RefillNext(old(View()), due, i, registry);
        if !(once.runKey in index && table[index[once.runKey]].nextRun == once.fireAt) {
          var armed := AddOneOff(once);
        }
        i := i + 1;
      }
      assert due[..i] == due;
    }

    /** start(), whatever is armed. */
    method Start(now: int)
      requires Valid() && firing.None?
      modifies this
      ensures Sound() && View() == DoStart(old(View()), now)
      ensures Valid() <==> old(index) == map[]
      // Each entry is due at once if it runs on startup, and else one interval from now.
      ensures forall i | 0 <= i < |entries| ::
                && entries[i] in table && entries[i] in Handles(heap)
                && var e := table[entries[i]];
                   if e.runOnStartup then e.nextRun == now
                   else if e.kind.Interval? then e.nextRun == now + e.kind.every
                   else e.nextRun > now
    {
      StartIsSafeExactlyWhen(View(), now);
      ghost var s := View();
      SetNextRuns(now);
      RebuildHeap();
      started := true;
      assert View() == DoStart(s, now);
    }

    /** heapify over the registered entries. */
    method RebuildHeap()
      requires forall i | 0 <= i < |entries| :: entries[i] in table
      requires forall i, j | 0 <= i < j < |entries| :: entries[i] != entries[j]
      modifies this`heap
      ensures HeapOver(heap, table) && Handles(heap) == set id | id in entries
    {
      var items := seq(|entries|, j requires 0 <= j < |entries| && entries[j] in table reads this =>
        HeapItem(table, entries[j]));
      heap := Heapify(items);
      HeapifiedHandles(entries, table, items, heap);
    }

    /** start()'s first loop. */
    method SetNextRuns(now: int)
      requires WellFormed(View())
      modifies this`table
      ensures table == DoStart(old(View()), now).table && table.Keys == old(table).Keys
    {
      var i := 0;
      StartedNone(table, entries, now);
      while i < |entries|
        invariant 0 <= i <= |entries| && table == StartedTable(old(table), entries[..i], now)
      {
        var id := entries[i];
        StartedOneMore(old(table), entries, i, now);
        var e := table[id];
        var next := if e.runOnStartup then now else ComputeNext(e.kind, now);
        table := table[id := e.(nextRun := next)];
        i := i + 1;
      }
    }

    /** The pop at the head of the due loop, with the bookkeeping up to the await. */
    method PopDue(now: int) returns (id: nat)
      requires Valid() && firing.None? && heap != [] && heap[0].rank.major <= now
      modifies this
      ensures Valid() && View() == DoPop(old(View()), id, now) && IsTop(old(View()), id)
      ensures old(table)[id].nextRun <= now && Handles(heap) == Handles(old(heap)) - {id}
      ensures firing == if old(table)[id].cancelled then None else Some(id)
      ensures firing.Some? && table[id].kind.Interval? ==> table[id].nextRun == now + table[id].kind.every
      ensures entries == old(entries)
      ensures id in table && table[id].cancelled == old(table)[id].cancelled
    {
      ghost var s := View();
      id := Pop();
      PopKeeps(s, id, now);
      var e := table[id];
      if e.cancelled {
        return;
      }
      if e.kind.OneOff? {
        index := index - {e.kind.once.runKey};
      } else {
        RankUntouched(heap, table, id, e.(nextRun := ComputeNext(e.kind, now)));
        table := table[id := e.(nextRun := ComputeNext(e.kind, now))];
      }
      firing := Some(id);
    }

    /** The rest of the turn, once the firing has been awaited. */
    method AfterFire()
      requires Valid() && firing.Some?
      modifies this
      ensures Valid() && View() == DoFired(old(View()))
      ensures entries == old(entries) && table == old(table) && firing.None?
    {
      FiredKeeps(View());
      var id := firing.value;
      firing := None;
      if !table[id].kind.OneOff? {
        Push(id);
      }
    }

    /** One turn of the due loop when nothing else runs during the await. */
    method RunTurn(now: int) returns (id: nat)
      requires Valid() && firing.None? && heap != [] && heap[0].rank.major <= now
      modifies this
      ensures Valid() && View() == DoFired(DoPop(old(View()), id, now)) && firing.None?
      ensures entries == old(entries)
      ensures IsTop(old(View()), id) && old(table)[id].nextRun <= now
      ensures id in table && table[id].cancelled == old(table)[id].cancelled
    {
      id := PopDue(now);
      if firing.Some? {
        AfterFire();
      }
    }

    /** The due loop with nothing added while it runs, when no due interval is zero or negative;
        otherwise it does not end (DueLoopNeverEnds). */
    method RunDueLoop(now: int) returns (fired: seq<nat>)
      requires Valid() && firing.None? && PositiveIntervals(View(), now)
      modifies this
      ensures Valid() && DueLoopDone(old(View()), View(), now, fired)
    {
      ghost var s := View();
      ghost var popped: set<nat> := {};
      fired := [];
      while heap != [] && heap[0].rank.major <= now
        invariant Valid() && firing.None? && entries == s.entries && Inv(s) && PositiveIntervals(s, now)
        invariant Progress(s, View(), now, popped, fired)
        decreases |s.heap - popped|
      {
        ghost var before := View();
        var id := RunTurn(now);
        TurnProgress(s, before, now, popped, fired, id);
        if !table[id].cancelled {
          fired := fired + [id];
        }
        SmallerSet(s.heap - (popped + {id}), s.heap - popped);
        popped := popped + {id};
      }
      LoopDone(s, View(), now, popped, fired, heap);
    }
  }

  // ---- The due loop ----

  /** The entry after the loop has dealt with it. */
  function Refreshed(e: Entry, now: int): Entry {
    if e.cancelled || e.kind.OneOff? then e else e.(nextRun := ComputeNext(e.kind, now))
  }

  /** Only due entries have been popped, none before an earlier one; fired lists the live
      ones in that order. */
  ghost predicate InOrder(s: State, now: int, popped: set<nat>, fired: seq<nat>)
    requires WellFormed(s)
  {
    && popped <= s.heap
    && (forall id | id in popped :: s.table[id].nextRun <= now)
    && (forall p, r | p in popped && r in s.heap && r !in popped :: s.table[p].nextRun <= s.table[r].nextRun)
    && (forall id :: id in fired <==> id in popped && !s.table[id].cancelled)
    && (forall i, j | 0 <= i < j < |fired| ::
          fired[i] != fired[j] && s.table[fired[i]].nextRun <= s.table[fired[j]].nextRun)
  }

  ghost predicate TableAfter(s: State, t: State, now: int, popped: set<nat>) {
    && t.table.Keys == s.table.Keys
    && (forall id | id in s.table ::
          t.table[id] == if id in popped then Refreshed(s.table[id], now) else s.table[id])
  }

  ghost predicate HeapAfter(s: State, t: State, popped: set<nat>) {
    forall id :: id in t.heap <==>
      id in s.heap && (id !in popped || (id in s.table && !s.table[id].cancelled && !s.table[id].kind.OneOff?))
  }

  ghost predicate IndexAfter(s: State, t: State, popped: set<nat>) {
    && (forall k :: k in t.index <==> k in s.index && s.index[k] !in popped)
    && (forall k | k in t.index :: t.index[k] == s.index[k])
  }

  /** No due entry comes back at once. */
  predicate PositiveIntervals(s: State, now: int) {
    forall id | id in s.heap && id in s.table && s.table[id].nextRun <= now && s.table[id].kind.Interval? ::
      s.table[id].kind.every > 0
  }

  /** State t after the loop has popped the handles in popped out of s. */
  ghost predicate Progress(s: State, t: State, now: int, popped: set<nat>, fired: seq<nat>)
    requires WellFormed(s)
  {
    InOrder(s, now, popped, fired) && TableAfter(s, t, now, popped) && HeapAfter(s, t, popped) && IndexAfter(s, t, popped)
  }

  /** A whole turn in closed form. */
  lemma TurnEffect(t: State, id: nat, now: int)
    requires WellFormed(t) && t.firing.None? && IsTop(t, id) && t.table[id].nextRun <= now
    ensures var u := DoFired(DoPop(t, id, now));
            var e := t.table[id];
            && u.table == t.table[id := Refreshed(e, now)]
            && u.heap == (if e.cancelled || e.kind.OneOff? then t.heap - {id} else t.heap)
            && u.index == (if !e.cancelled && e.kind.OneOff? then t.index - {e.kind.once.runKey} else t.index)
            && u.firing == None && u.entries == t.entries
  {
    assert t.table[id := t.table[id]] == t.table;
    assert t.heap - {id} + {id} == t.heap;
  }

  /** What was popped and is back in the heap is no longer due. */
  lemma TopIsUnpopped(s: State, t: State, now: int, popped: set<nat>, id: nat)
    requires WellFormed(s) && WellFormed(t) && PositiveIntervals(s, now)
    requires TableAfter(s, t, now, popped) && HeapAfter(s, t, popped)
    requires forall other | other in popped && other in s.table :: s.table[other].nextRun <= now
    requires id in t.heap && t.table[id].nextRun <= now
    ensures id in s.heap && id !in popped && t.table[id] == s.table[id]
  {
  }

  lemma TurnKeepsOrder(s: State, t: State, now: int, popped: set<nat>, fired: seq<nat>, id: nat)
    requires WellFormed(s) && WellFormed(t) && PositiveIntervals(s, now)
    requires InOrder(s, now, popped, fired) && TableAfter(s, t, now, popped) && HeapAfter(s, t, popped)
    requires IsTop(t, id) && t.table[id].nextRun <= now
    ensures InOrder(s, now, popped + {id}, if s.table[id].cancelled then fired else fired + [id])
  {
    TopIsUnpopped(s, t, now, popped, id);
    forall r | r in s.heap && r !in popped + {id}
      ensures s.table[id].nextRun <= s.table[r].nextRun
    {
      assert r in t.heap;
    }
  }

  /** One turn from state t, popping id. */
  lemma TurnProgress(s: State, t: State, now: int, popped: set<nat>, fired: seq<nat>, id: nat)
    requires Inv(s) && Inv(t) && t.firing.None? && PositiveIntervals(s, now)
    requires IsTop(t, id) && t.table[id].nextRun <= now
    requires Progress(s, t, now, popped, fired)
    ensures id in s.heap && id !in popped && t.table[id] == s.table[id]
    ensures Progress(s, DoFired(DoPop(t, id, now)), now, popped + {id},
                     if s.table[id].cancelled then fired else fired + [id])
  {
    TurnEffect(t, id, now);
    TopIsUnpopped(s, t, now, popped, id);
    TurnKeepsOrder(s, t, now, popped, fired, id);
    TurnKeepsTable(s, t, now, popped, id);
    TurnKeepsIndex(s, t, popped, id);
  }

  lemma TurnKeepsTable(s: State, t: State, now: int, popped: set<nat>, id: nat)
    requires TableAfter(s, t, now, popped) && HeapAfter(s, t, popped)
    requires id in s.heap && id in s.table && id in t.table && id !in popped && t.table[id] == s.table[id]
    ensures var e := t.table[id];
            var u := t.(table := t.table[id := Refreshed(e, now)],
                        heap := if e.cancelled || e.kind.OneOff? then t.heap - {id} else t.heap);
            TableAfter(s, u, now, popped + {id}) && HeapAfter(s, u, popped + {id})
  {
  }

  lemma TurnKeepsIndex(s: State, t: State, popped: set<nat>, id: nat)
    requires Inv(s) && Inv(t) && id in t.heap && id in s.table && t.table[id] == s.table[id]
    requires IndexAfter(s, t, popped)
    ensures var e := t.table[id];
            IndexAfter(s, t.(index := if !e.cancelled && e.kind.OneOff? then t.index - {e.kind.once.runKey} else t.index),
                       popped + {id})
  {
    var e := t.table[id];
    if !e.cancelled && e.kind.OneOff? {
      assert LiveOneOff(t, id);
      assert t.index[e.kind.once.runKey] == id;
      forall k | k in s.index && s.index[k] == id
        ensures k == e.kind.once.runKey
      {
      }
    } else {
      forall k | k in s.index
        ensures s.index[k] != id
      {
        assert LiveOneOff(s, s.index[k]);
      }
    }
  }

  ghost function AfterTurns(s: State, tops: seq<nat>, now: int): State {
    if tops == [] then s
    else DoFired(DoPop(AfterTurns(s, tops[..|tops| - 1], now), tops[|tops| - 1], now))
  }

  /** The entry is an interval entry that is due and comes back no later than now. */
  predicate AlwaysDue(s: State, id: nat, now: int) {
    && id in s.heap && id in s.table && s.table[id].nextRun <= now
    && s.table[id].kind.Interval? && s.table[id].kind.every <= 0
  }

  lemma TurnKeepsDue(s: State, top: nat, now: int, stuck: nat)
    requires WellFormed(s) && s.firing.None? && AlwaysDue(s, stuck, now)
    ensures DoFired(DoPop(s, top, now)).firing.None? && AlwaysDue(DoFired(DoPop(s, top, now)), stuck, now)
  {
  }

  /** A due interval entry that is not positive, which schedule() accepts, is due again after
      any number of turns: the loop's condition never becomes false. */
  lemma {:induction false} DueLoopNeverEnds(s: State, now: int, tops: seq<nat>, stuck: nat)
    requires Inv(s) && s.firing.None? && AlwaysDue(s, stuck, now)
    ensures var t := AfterTurns(s, tops, now);
            Inv(t) && t.firing.None? && AlwaysDue(t, stuck, now)
  {
    if tops != [] {
      var front := tops[..|tops| - 1];
      DueLoopNeverEnds(s, now, front, stuck);
      var t := AfterTurns(s, front, now);
      TurnKeepsDue(t, tops[|tops| - 1], now, stuck);
      PopKeeps(t, tops[|tops| - 1], now);
      FiredKeeps(DoPop(t, tops[|tops| - 1], now));
    }
  }

  /** What one run of the due loop from s to t amounts to. */
  ghost predicate DueLoopDone(s: State, t: State, now: int, fired: seq<nat>)
    requires WellFormed(s)
  {
    // It fires exactly the live due entries, each once, in next_run order.
    && (forall id :: id in fired <==> id in s.heap && !s.table[id].cancelled && s.table[id].nextRun <= now)
    && (forall i, j | 0 <= i < j < |fired| ::
          fired[i] != fired[j] && s.table[fired[i]].nextRun <= s.table[fired[j]].nextRun)
    // Fired recurring entries move to their next time after now; no other entry changes.
    && t.table.Keys == s.table.Keys
    && (forall id | id in s.table ::
          t.table[id] == if id in fired then Refreshed(s.table[id], now) else s.table[id])
    // That time is one interval after now for an interval entry.
    && (forall id | id in fired && id in s.table && s.table[id].kind.Interval? ::
          id in t.heap && t.table[id].nextRun == now + s.table[id].kind.every)
    // The heap keeps what was not due and the fired recurring entries: nothing due is left.
    && (forall id :: id in t.heap <==>
          id in s.heap && (s.table[id].nextRun > now || (id in fired && !s.table[id].kind.OneOff?)))
    && (forall id | id in t.heap :: id in t.table && t.table[id].nextRun > now)
    // Fired one-offs leave the index.
    && t.index == (map k | k in s.index && s.index[k] !in fired :: s.index[k])
    && t.firing == None && t.entries == s.entries
  }

  lemma LoopDone(s: State, t: State, now: int, popped: set<nat>, fired: seq<nat>, heap: seq<Item<nat>>)
    requires Inv(s) && Inv(t) && PositiveIntervals(s, now) && Progress(s, t, now, popped, fired)
    requires HeapOver(heap, t.table) && Handles(heap) == t.heap
    requires heap == [] || heap[0].rank.major > now
    requires t.firing == None && t.entries == s.entries
    ensures DueLoopDone(s, t, now, fired)
  {
    NothingDue(heap, t.table, now);
    PoppedIsDue(s, t, now, popped);
    forall id | id in s.table
      ensures t.table[id] == if id in fired then Refreshed(s.table[id], now) else s.table[id]
    {
      assert id in popped && id !in fired ==> s.table[id].cancelled;
    }
    forall k | k in s.index
      ensures s.index[k] in popped <==> s.index[k] in fired
    {
      assert LiveOneOff(s, s.index[k]);
    }
  }

  lemma NothingDue(heap: seq<Item<nat>>, table: map<nat, Entry>, now: int)
    requires HeapOver(heap, table) && (heap == [] || heap[0].rank.major > now)
    ensures forall id | id in Handles(heap) :: id in table && table[id].nextRun > now
  {
    if heap != [] {
      RootIsMinimal(heap);
    }
    forall id | id in Handles(heap)
      ensures id in table && table[id].nextRun > now
    {
      var it :| it in heap && it.value == id;
    }
  }

  /** With nothing due left, the popped handles are exactly the due ones. */
  lemma PoppedIsDue(s: State, t: State, now: int, popped: set<nat>)
    requires WellFormed(s) && popped <= s.heap && TableAfter(s, t, now, popped) && HeapAfter(s, t, popped)
    requires forall id | id in popped :: s.table[id].nextRun <= now
    requires forall id | id in t.heap :: id in t.table && t.table[id].nextRun > now
    ensures forall id | id in s.heap :: id in popped <==> s.table[id].nextRun <= now
  {
    forall id | id in s.heap && s.table[id].nextRun <= now
      ensures id in popped
    {
      assert id !in popped ==> id in t.heap;
    }
  }

  lemma SmallerSet<T>(a: set<T>, b: set<T>)
    requires a < b
    ensures |a| < |b|
  {
    assert b == a + (b - a);
  }

  // ---- Heaps of handles ----

  lemma StartedNone(table: map<nat, Entry>, ids: seq<nat>, now: int)
    ensures StartedTable(table, ids[..0], now) == table
    ensures StartedTable(table, ids[..|ids|], now) == StartedTable(table, ids, now)
  {
    assert ids[..|ids|] == ids;
  }

  lemma StartedOneMore(table: map<nat, Entry>, ids: seq<nat>, i: nat, now: int)
    requires i < |ids| && ids[i] in table
    requires forall i, j | 0 <= i < j < |ids| :: ids[i] != ids[j]
    ensures var t := StartedTable(table, ids[..i], now);
            && t[ids[i]] == table[ids[i]]
            && StartedTable(table, ids[..i + 1], now) == t[ids[i] := StartEntry(table[ids[i]], now)]
  {
    assert ids[..i + 1] == ids[..i] + [ids[i]];
    assert ids[i] !in ids[..i];
  }

  lemma PushedHandle(h: seq<Item<nat>>, table: map<nat, Entry>, id: nat, r: seq<Item<nat>>)
    requires HeapOver(h, table) && id in table && id !in Handles(h) && IsHeap(r)
    requires multiset(r) == multiset(h) + multiset{HeapItem(table, id)}
    ensures HeapOver(r, table) && Handles(r) == Handles(h) + {id}
  {
    var item := HeapItem(table, id);
    assert item in h ==> id in Handles(h);
    forall x: Item<nat>
      ensures x in r <==> x in h || x == item
    {
      assert x in r <==> x in multiset(r);
      assert x in h <==> x in multiset(h);
    }
  }

  lemma PoppedHandle(h: seq<Item<nat>>, table: map<nat, Entry>, item: Item<nat>, r: seq<Item<nat>>)
    requires HeapOver(h, table) && h != [] && item == h[0] && IsHeap(r)
    requires multiset(h) == multiset(r) + multiset{item}
    ensures HeapOver(r, table) && Handles(r) == Handles(h) - {item.value} && item.value in Handles(h)
    ensures forall other | other in Handles(h) ::
              other in table && table[item.value].nextRun <= table[other].nextRun
  {
    RootIsMinimal(h);
    assert multiset(h)[item] == 1;
    forall x: Item<nat>
      ensures x in r <==> x in h && x != item
    {
      assert x in r <==> x in multiset(r);
      assert x in h <==> x in multiset(h);
    }
    forall other | other in Handles(h)
      ensures other in table && table[item.value].nextRun <= table[other].nextRun
    {
      var it :| it in h && it.value == other;
    }
  }

  /** Changing an entry that is not in the heap leaves the heap's ranks right. */
  lemma RankUntouched(h: seq<Item<nat>>, table: map<nat, Entry>, id: nat, e: Entry)
    requires HeapOver(h, table) && id in table && id !in Handles(h)
    ensures HeapOver(h, table[id := e])
  {
    forall it | it in h
      ensures it == HeapItem(table[id := e], it.value)
    {
      assert it.value in Handles(h);
    }
  }

  lemma HeapifiedHandles(ids: seq<nat>, table: map<nat, Entry>, items: seq<Item<nat>>, h: seq<Item<nat>>)
    requires |items| == |ids| && IsHeap(h) && multiset(h) == multiset(items)
    requires forall i | 0 <= i < |ids| :: ids[i] in table && items[i] == HeapItem(table, ids[i])
    requires forall i, j | 0 <= i < j < |ids| :: ids[i] != ids[j]
    ensures HeapOver(h, table) && Handles(h) == set id | id in ids
  {
    forall x: Item<nat>
      ensures x in h <==> x in items
    {
      assert x in h <==> x in multiset(h);
      assert x in items <==> x in multiset(items);
    }
    forall x | x in items
      ensures multiset(items)[x] == 1
    {
      OccursOnce(items, x);
    }
    forall id | id in ids
      ensures id in Handles(h)
    {
      var i :| 0 <= i < |ids| && ids[i] == id;
      assert items[i] in h;
    }
  }

  lemma {:induction false} OccursOnce<T>(s: seq<T>, x: T)
    requires forall i, j | 0 <= i < j < |s| :: s[i] != s[j]
    ensures multiset(s)[x] == if x in s then 1 else 0
  {
    if s != [] {
      assert s == [s[0]] + s[1..];
      OccursOnce(s[1..], x);
    }
  }
}

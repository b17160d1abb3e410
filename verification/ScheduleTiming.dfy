/** Timing of the scheduler: when a persisted one-off is in memory, and how far apart the
    firings of a recurring entry are across instances. Times are microseconds. */
module ScheduleTiming {
  import opened Options

  function Max(a: int, b: int): int {
    if a > b then a else b
  }

  // ---- Refill ----

  /** The value of _next_refill after the loop has run at the given wake times. */
  function NextRefill(wakes: seq<int>, start: int, interval: nat): int {
    if wakes == [] then start
    else
      var before := NextRefill(wakes[..|wakes| - 1], start, interval);
      var now := wakes[|wakes| - 1];
      if now >= before then now + interval else before
  }

  /** The loop refills at its i-th wake. */
  predicate RefillsAt(wakes: seq<int>, start: int, interval: nat, i: nat)
    requires i < |wakes|
  {
    wakes[i] >= NextRefill(wakes[..i], start, interval)
  }

  /** The loop wakes at its refill deadline or earlier, never later. */
  predicate Punctual(wakes: seq<int>, start: int, interval: nat) {
    && wakes != [] && start <= wakes[0]
    && (forall i: nat | 0 < i < |wakes| :: InTime(wakes, start, interval, i))
  }

  predicate InTime(wakes: seq<int>, start: int, interval: nat, i: nat)
    requires 0 < i < |wakes|
  {
    wakes[i - 1] <= wakes[i] <= NextRefill(wakes[..i], start, interval)
  }

  lemma PunctualPrefix(wakes: seq<int>, start: int, interval: nat, n: nat)
    requires Punctual(wakes, start, interval) && 0 < n <= |wakes|
    ensures Punctual(wakes[..n], start, interval)
    ensures forall i: nat | i < n :: RefillsAt(wakes[..n], start, interval, i) == RefillsAt(wakes, start, interval, i)
  {
    assert forall i: nat | i < n :: wakes[..n][..i] == wakes[..i];
    forall i: nat | 0 < i < n
      ensures InTime(wakes[..n], start, interval, i)
    {
      assert InTime(wakes, start, interval, i);
    }
  }

  /** The last refill so far, which _next_refill is one interval after. */
  lemma {:induction false} LastRefill(wakes: seq<int>, start: int, interval: nat) returns (r: nat)
    requires Punctual(wakes, start, interval)
    ensures r < |wakes| && RefillsAt(wakes, start, interval, r)
    ensures NextRefill(wakes, start, interval) == wakes[r] + interval
    ensures wakes[r] <= wakes[|wakes| - 1] <= wakes[r] + interval
    decreases |wakes|
  {
    var n := |wakes|;
    if RefillsAt(wakes, start, interval, n - 1) {
      r := n - 1;
    } else {
      PunctualPrefix(wakes, start, interval, n - 1);
      r := LastRefill(wakes[..n - 1], start, interval);
      assert InTime(wakes, start, interval, n - 1);
    }
  }

  /** Any time during the run has a refill at most one interval before it. */
  lemma {:induction false} RefillBefore(wakes: seq<int>, start: int, interval: nat, x: int) returns (j: nat)
    requires Punctual(wakes, start, interval) && wakes[0] <= x <= wakes[|wakes| - 1]
    ensures j < |wakes| && RefillsAt(wakes, start, interval, j)
    ensures wakes[j] <= x <= wakes[j] + interval
    decreases |wakes|
  {
    var n := |wakes|;
    if n == 1 {
      j := 0;
    } else {
      PunctualPrefix(wakes, start, interval, n - 1);
      if x <= wakes[n - 2] {
        j := RefillBefore(wakes[..n - 1], start, interval, x);
      } else {
        j := LastRefill(wakes[..n - 1], start, interval);
        assert InTime(wakes, start, interval, n - 1);
      }
    }
  }

  /** A refill at time t loads a row saved by then whose fire time is inside the horizon. */
  predicate Loads(t: int, horizon: int, savedAt: int, fireAt: int) {
    savedAt <= t && fireAt <= t + horizon
  }

  /** With the interval within the horizon, every row saved during the run (by any instance)
      is loaded in time, or else by the first refill after its save and then late by at most
      one interval, counted from its fire time or its save, whichever is later. */
  lemma RefillIsTimely(wakes: seq<int>, start: int, interval: nat, horizon: nat, savedAt: int, fireAt: int)
    returns (j: nat)
    requires Punctual(wakes, start, interval) && interval <= horizon
    requires wakes[0] <= savedAt && savedAt + interval <= wakes[|wakes| - 1] && fireAt <= wakes[|wakes| - 1]
    ensures j < |wakes| && RefillsAt(wakes, start, interval, j) && Loads(wakes[j], horizon, savedAt, fireAt)
    ensures wakes[j] <= fireAt || wakes[j] <= Max(savedAt, fireAt) + interval
    ensures wakes[j] > fireAt ==> savedAt <= wakes[j] <= savedAt + interval
  {
    if fireAt >= savedAt {
      j := RefillBefore(wakes, start, interval, fireAt);
      if wakes[j] >= savedAt {
        return;
      }
    }
    j := RefillBefore(wakes, start, interval, savedAt + interval);
  }

  /** The bound on the interval is tight up to the clock's resolution: with any longer interval
      some row saved right after a refill is not loaded by any refill up to its fire time. */
  lemma LongerIntervalLeavesAGap(start: int, interval: nat, horizon: nat)
    requires interval > horizon + 1
    ensures var wakes := [start, start + interval];
            var fireAt := start + horizon + 1;
            && Punctual(wakes, start, interval)
            && forall j: nat | j < |wakes| && wakes[j] <= fireAt :: !Loads(wakes[j], horizon, start, fireAt)
  {
    var wakes := [start, start + interval];
    assert wakes[..1] == [start] && wakes[..1][..0] == [];
    assert NextRefill([start], start, interval) == start + interval;
  }

  // ---- The recurring lock ----

  /** Lock rows: the key and the time its row expires. */
  type Locks = map<string, int>

  datatype Attempt = Attempt(key: string, now: int, ttl: nat)

  /** One atomic acquire_schedule_lock: drop the key's row if expired, insert if absent. */
  function Acquire(locks: Locks, a: Attempt): (r: (Locks, bool)) {
    var rest := if a.key in locks && locks[a.key] <= a.now then locks - {a.key} else locks;
    if a.key in rest then (rest, false) else (rest[a.key := a.now + a.ttl], true)
  }

  function LocksAfter(attempts: seq<Attempt>): Locks {
    if attempts == [] then map[] else Acquire(LocksAfter(attempts[..|attempts| - 1]), attempts[|attempts| - 1]).0
  }

  predicate Won(attempts: seq<Attempt>, i: nat)
    requires i < |attempts|
  {
    Acquire(LocksAfter(attempts[..i]), attempts[i]).1
  }

  predicate ClockRuns(attempts: seq<Attempt>) {
    forall i, j | 0 <= i < j < |attempts| :: attempts[i].now <= attempts[j].now
  }

  /** The locks after n attempts. */
  function LocksAt(attempts: seq<Attempt>, n: nat): Locks
    requires n <= |attempts|
  {
    LocksAfter(attempts[..n])
  }

  lemma LocksStep(attempts: seq<Attempt>, n: nat)
    requires n < |attempts|
    ensures LocksAt(attempts, n + 1) == Acquire(LocksAt(attempts, n), attempts[n]).0
  {
    assert attempts[..n + 1][..n] == attempts[..n];
  }

  /** While nobody has won since, the winner's row stands until it expires. */
  lemma {:induction false} RowStands(attempts: seq<Attempt>, i: nat, n: nat)
    requires ClockRuns(attempts) && i < n <= |attempts| && Won(attempts, i)
    requires forall k: nat | i < k < n && attempts[k].key == attempts[i].key :: !Won(attempts, k)
    ensures var key := attempts[i].key;
            key in LocksAt(attempts, n) && LocksAt(attempts, n)[key] == attempts[i].now + attempts[i].ttl
    decreases n - i
  {
    LocksStep(attempts, n - 1);
    if n > i + 1 {
      RowStands(attempts, i, n - 1);
      assert attempts[n - 1].key == attempts[i].key ==> !Won(attempts, n - 1);
    }
  }

  /** Over all instances, two acquisitions of one lock are at least the first one's ttl apart. */
  lemma {:induction false} AcquisitionsAreApart(attempts: seq<Attempt>, i: nat, j: nat)
    requires ClockRuns(attempts) && i < j < |attempts|
    requires attempts[i].key == attempts[j].key && Won(attempts, i) && Won(attempts, j)
    ensures attempts[j].now >= attempts[i].now + attempts[i].ttl
    decreases j - i
  {
    if k: nat :| i < k < j && attempts[k].key == attempts[i].key && Won(attempts, k) {
      AcquisitionsAreApart(attempts, i, k);
    } else {
      RowStands(attempts, i, j);
    }
  }

  /** Acquisitions of key among the first n attempts made at or after from. */
  function Wins(attempts: seq<Attempt>, key: string, from: int, n: nat): nat
    requires n <= |attempts|
  {
    if n == 0 then 0
    else
      Wins(attempts, key, from, n - 1) +
      if Hit(attempts, key, from, n - 1) then 1 else 0
  }

  lemma TimesIsMonotone(a: int, b: int, ttl: nat)
    requires a <= b
    ensures a * ttl <= b * ttl
  {
    assert b * ttl == a * ttl + (b - a) * ttl;
  }

  lemma FitsIntoQuotient(q: nat, ttl: nat, length: nat)
    requires ttl > 0 && q * ttl <= length
    ensures q <= length / ttl
  {
    var d := length / ttl;
    assert length < (d + 1) * ttl;
    if q > d {
      TimesIsMonotone(d + 1, q, ttl);
    }
  }

  /** Every lock row is that of an acquisition. */
  lemma {:induction false} RowHasWinner(attempts: seq<Attempt>, n: nat, key: string) returns (k: nat)
    requires n <= |attempts| && key in LocksAt(attempts, n)
    ensures k < n && attempts[k].key == key && Won(attempts, k)
    ensures LocksAt(attempts, n)[key] == attempts[k].now + attempts[k].ttl
  {
    LocksStep(attempts, n - 1);
    if attempts[n - 1].key == key && Won(attempts, n - 1) {
      k := n - 1;
    } else {
      k := RowHasWinner(attempts, n - 1, key);
    }
  }

  /** An attempt is refused only within the lifetime of an earlier acquisition of the same lock. */
  lemma RefusedOnlyWithinTtl(attempts: seq<Attempt>, n: nat) returns (k: nat)
    requires ClockRuns(attempts) && n < |attempts| && !Won(attempts, n)
    ensures k < n && attempts[k].key == attempts[n].key && Won(attempts, k)
    ensures attempts[k].now <= attempts[n].now < attempts[k].now + attempts[k].ttl
  {
    k := RowHasWinner(attempts, n, attempts[n].key);
  }

  /** Attempt i is a win of key made at or after from. */
  predicate Hit(attempts: seq<Attempt>, key: string, from: int, i: nat)
    requires i < |attempts|
  {
    attempts[i].key == key && attempts[i].now >= from && Won(attempts, i)
  }

  /** The last win among the first n attempts. */
  lemma {:induction false} LastHit(attempts: seq<Attempt>, key: string, from: int, n: nat) returns (last: nat)
    requires n <= |attempts| && Wins(attempts, key, from, n) > 0
    ensures last < n && Hit(attempts, key, from, last)
    ensures Wins(attempts, key, from, last) == Wins(attempts, key, from, n) - 1
  {
    if Hit(attempts, key, from, n - 1) {
      last := n - 1;
    } else {
      last := LastHit(attempts, key, from, n - 1);
    }
  }

  /** w wins, the last of them at attempt n - 1, take at least w - 1 lifetimes. */
  lemma {:induction false} WinsTakeTime(attempts: seq<Attempt>, key: string, from: int, n: nat, ttl: nat)
    requires ClockRuns(attempts) && 0 < n <= |attempts| && Hit(attempts, key, from, n - 1)
    requires forall i | 0 <= i < n && attempts[i].key == key :: attempts[i].ttl == ttl
    ensures Wins(attempts, key, from, n - 1) * ttl <= attempts[n - 1].now - from
    decreases n
  {
    var w := Wins(attempts, key, from, n - 1);
    if w > 0 {
      var earlier := LastHit(attempts, key, from, n - 1);
      WinsTakeTime(attempts, key, from, earlier + 1, ttl);
      AcquisitionsAreApart(attempts, earlier, n - 1);
      OneMoreLifetime(w, ttl, attempts[earlier].now - from, attempts[n - 1].now - from);
    }
  }

  lemma OneMoreLifetime(w: nat, ttl: nat, earlier: int, later: int)
    requires w > 0 && (w - 1) * ttl <= earlier && earlier + ttl <= later
    ensures w * ttl <= later
  {
    assert w * ttl == (w - 1) * ttl + ttl;
  }

  /** In a window of length L all instances together acquire one lock at most
      floor(L / ttl) + 1 times, so they fire a recurring entry no more often. */
  lemma AcquisitionsInWindow(attempts: seq<Attempt>, key: string, from: int, length: nat, n: nat, ttl: nat)
    requires ClockRuns(attempts) && n <= |attempts| && ttl > 0
    requires forall i | 0 <= i < n && attempts[i].key == key :: attempts[i].ttl == ttl
    requires n > 0 ==> attempts[n - 1].now <= from + length
    ensures Wins(attempts, key, from, n) <= length / ttl + 1
  {
    if Wins(attempts, key, from, n) > 0 {
      var last := LastHit(attempts, key, from, n);
      WinsTakeTime(attempts, key, from, last + 1, ttl);
      assert attempts[last].now <= attempts[n - 1].now;
      FitsIntoQuotient(Wins(attempts, key, from, n) - 1, ttl, length);
    }
  }

  const SECOND := 1000000

  /** The lock lifetime _fire asks for: whole seconds of the interval, at least one; a
      minute for cron entries. int() truncates towards zero. */
  function LockTtl(every: Option<int>): (ttl: nat)
    ensures ttl >= SECOND && ttl % SECOND == 0
    ensures every.Some? && every.value >= SECOND ==> ttl <= every.value < ttl + SECOND
    ensures every.Some? && every.value < SECOND ==> ttl == SECOND
    ensures every.None? ==> ttl == 60 * SECOND
  {
    var seconds := if every.None? then 60 else if every.value >= 0 then every.value / SECOND else -(-every.value / SECOND);
    Max(1, seconds) * SECOND
  }
}

/** The table of pending one-offs in its two stored forms: a SQL table whose fire_at column is
    compared as text, and in Redis a hash per key beside a sorted set scored by epoch time.
    Both are proved to select the same rows of the same map from run_key to entry. */
module ScheduleIndex {
  import opened IsoTime

  type Key = string

  /** A UTC timestamp. Stored as text, and read back by IsoTime.IsoRoundTrip as the same fields. */
  type Timestamp = d: DateTime | Valid(d) witness DateTime(1, 1, 1, 0, 0, 0, 0)

  /** A pending one-off; payload stands for the columns that are stored and read back as is. */
  datatype Pending = Pending(fireAt: Timestamp, payload: int)

  type Entries = map<Key, Pending>

  function Epoch(t: Timestamp): int {
    Instant(t)
  }

  /** What load_due(before) means. */
  ghost function DueIn(table: Entries, before: Timestamp): Entries {
    map k | k in table && Epoch(table[k].fireAt) <= Epoch(before) :: table[k]
  }

  predicate TextUpTo(fireAt: Timestamp, before: Timestamp) {
    !LexLess(Iso(before, UTC), Iso(fireAt, UTC))
  }

  lemma TextUpToIsDue(fireAt: Timestamp, before: Timestamp)
    ensures TextUpTo(fireAt, before) <==> Epoch(fireAt) <= Epoch(before)
  {
    TextComparesAsTime(fireAt, before);
  }

  /** The due rows have been selected, except those still to look at. */
  ghost predicate SelectedBut(rows: Entries, before: Timestamp, entries: Entries, todo: set<Key>) {
    && todo <= rows.Keys && entries.Keys == DueIn(rows, before).Keys - todo
    && forall k | k in entries :: k in rows && entries[k] == rows[k]
  }

  lemma SelectOne(rows: Entries, before: Timestamp, entries: Entries, todo: set<Key>, key: Key)
    requires SelectedBut(rows, before, entries, todo) && key in todo
    ensures SelectedBut(rows, before,
                        if TextUpTo(rows[key].fireAt, before) then entries[key := rows[key]] else entries, todo - {key})
  {
    TextUpToIsDue(rows[key].fireAt, before);
  }

  class SqlSchedule {
    var rows: Entries

    constructor ()
      ensures rows == map[]
    {
      rows := map[];
    }

    /** INSERT OR REPLACE. */
    method SaveScheduled(key: Key, entry: Pending)
      modifies this
      ensures rows == old(rows)[key := entry]
    {
      rows := rows[key := entry];
    }

    /** SELECT with fire_at <= before as a text comparison, then one pass over the rows. */
    method LoadDue(before: Timestamp) returns (entries: Entries)
      ensures forall k :: k in entries <==> k in rows && Instant(rows[k].fireAt) <= Instant(before)
      ensures forall k | k in entries :: entries[k] == rows[k]
      ensures entries == DueIn(rows, before)
    {
      entries := map[];
      var todo := rows.Keys;
      while todo != {}
        invariant SelectedBut(rows, before, entries, todo)
        decreases |todo|
      {
        var key :| key in todo;
        SelectOne(rows, before, entries, todo, key);
        if TextUpTo(rows[key].fireAt, before) {
          entries := entries[key := rows[key]];
        }
        todo := todo - {key};
      }
    }

    /** DELETE by key; the row count tells whether this caller removed it. It is also the claim. */
    method DeleteScheduled(key: Key) returns (removed: bool)
      modifies this
      ensures rows == old(rows) - {key} && removed == (key in old(rows))
    {
      removed := key in rows;
      rows := rows - {key};
    }
  }

  // ---- Redis ----

  /** The hashes and the sorted set. */
  datatype RedisState = RedisState(hashes: Entries, scores: map<Key, int>)

  /** The sorted set has exactly the stored keys, at their fire times. */
  ghost predicate InSync(s: RedisState) {
    s.scores == map k | k in s.hashes :: Epoch(s.hashes[k].fireAt)
  }

  /** DEL, HSET and ZADD in one transaction. */
  function RedisSave(s: RedisState, key: Key, entry: Pending): RedisState {
    RedisState(s.hashes[key := entry], s.scores[key := Epoch(entry.fireAt)])
  }

  /** DEL and ZREM in one transaction. */
  function RedisDelete(s: RedisState, key: Key): RedisState {
    RedisState(s.hashes - {key}, s.scores - {key})
  }

  /** ZRANGEBYSCORE. */
  function KeysUpTo(s: RedisState, bound: int): set<Key> {
    set k | k in s.scores && s.scores[k] <= bound
  }

  /** ZREM of the keys whose hash was found missing. */
  function DropStale(s: RedisState, stale: set<Key>): RedisState {
    s.(scores := s.scores - stale)
  }

  datatype Write = Save(key: Key, entry: Pending) | Delete(key: Key)

  function Apply(s: RedisState, w: Write): RedisState {
    match w
    case Save(key, entry) => RedisSave(s, key, entry)
    case Delete(key) => RedisDelete(s, key)
  }

  function ApplyAll(s: RedisState, ws: seq<Write>): RedisState {
    if ws == [] then s else Apply(ApplyAll(s, ws[..|ws| - 1]), ws[|ws| - 1])
  }

  lemma {:induction false} WritesKeepSync(s: RedisState, ws: seq<Write>)
    requires InSync(s)
    ensures InSync(ApplyAll(s, ws))
  {
    if ws != [] {
      WritesKeepSync(s, ws[..|ws| - 1]);
    }
  }

  /** The sorted set selects what the meaning of load_due selects. */
  lemma IndexSelectsDue(s: RedisState, before: Timestamp)
    requires InSync(s)
    ensures KeysUpTo(s, Epoch(before)) == DueIn(s.hashes, before).Keys
  {
  }

  class RedisSchedule {
    var hashes: Entries
    var scores: map<Key, int>

    function View(): RedisState
      reads this
    {
      RedisState(hashes, scores)
    }

    constructor ()
      ensures InSync(View()) && hashes == map[]
    {
      hashes := map[];
      scores := map[];
    }

    method SaveScheduled(key: Key, entry: Pending)
      modifies this
      ensures hashes == old(hashes)[key := entry] && scores == old(scores)[key := Instant(entry.fireAt)]
      ensures View() == RedisSave(old(View()), key, entry)
      ensures old(InSync(View())) ==> InSync(View())
    {
      hashes := hashes[key := entry];
      scores := scores[key := Epoch(entry.fireAt)];
    }

    /** load_due with nothing between its round trips: with the index in step it returns the
        due rows and changes nothing; whatever the index was, no key without a hash is left
        in the queried range. */
    method LoadDue(before: Timestamp) returns (entries: Entries)
      modifies this
      ensures View() == DropStale(old(View()), KeysUpTo(old(View()), Epoch(before)) - hashes.Keys)
      ensures entries.Keys == KeysUpTo(View(), Epoch(before))
      ensures forall k | k in entries :: k in hashes && entries[k] == hashes[k]
      ensures old(InSync(View())) ==>
                && View() == old(View()) && entries == DueIn(hashes, before)
                && forall k :: k in entries <==> k in hashes && Instant(hashes[k].fireAt) <= Instant(before)
    {
      if InSync(View()) {
        IndexSelectsDue(View(), before);
      }
      var runKeys := KeysUpTo(View(), Epoch(before));
      var stale;
      entries, stale := ReadHashes(runKeys);
      scores := scores - stale;
    }

    /** The HGETALL round trip over the queried keys: decodes the hashes that are there and
        collects the keys whose hash is gone. */
    method ReadHashes(runKeys: set<Key>) returns (entries: Entries, stale: set<Key>)
      ensures entries == map k | k in runKeys && k in hashes :: hashes[k]
      ensures stale == runKeys - hashes.Keys
    {
      entries := map[];
      stale := {};
      var todo := runKeys;
      while todo != {}
        invariant todo <= runKeys
        invariant entries == map k | k in runKeys && k !in todo && k in hashes :: hashes[k]
        invariant stale == runKeys - todo - hashes.Keys
        decreases |todo|
      {
        var key :| key in todo;
        if key in hashes {
          entries := entries[key := hashes[key]];
        } else {
          stale := stale + {key};
        }
        todo := todo - {key};
      }
    }

    method DeleteScheduled(key: Key) returns (removed: bool)
      modifies this
      ensures hashes == old(hashes) - {key} && scores == old(scores) - {key} && removed == (key in old(hashes))
      ensures View() == RedisDelete(old(View()), key)
      ensures old(InSync(View())) ==> InSync(View())
    {
      removed := key in hashes;
      hashes := hashes - {key};
      scores := scores - {key};
    }
  }

  /** load_due with other writers between its three round trips. The keys are queried in
      state s, the hashes read after ws1, the stale keys dropped after ws2: the sorted set
      stays in step exactly when none of the stale keys was saved again before the drop.
      Otherwise the new row is there but no later load_due finds it. */
  lemma SplitLoadInSyncExactlyWhen(s: RedisState, before: Timestamp, ws1: seq<Write>, ws2: seq<Write>)
    requires InSync(s)
    ensures var read := ApplyAll(s, ws1);
            var stale := KeysUpTo(s, Epoch(before)) - read.hashes.Keys;
            var end := ApplyAll(read, ws2);
            && (InSync(DropStale(end, stale)) <==> stale !! end.hashes.Keys)
            && (forall k, bound | k in stale && k in end.hashes :: k !in KeysUpTo(DropStale(end, stale), bound))
  {
    WritesKeepSync(s, ws1);
    var read := ApplyAll(s, ws1);
    WritesKeepSync(read, ws2);
    var stale := KeysUpTo(s, Epoch(before)) - read.hashes.Keys;
    var end := ApplyAll(read, ws2);
    if k :| k in stale && k in end.hashes {
      assert k !in DropStale(end, stale).scores.Keys;
    } else {
      assert end.scores.Keys !! stale;
      assert end.scores - stale == end.scores;
    }
  }

  /** The failing family is reachable: a claim between the query and the read, a new save of
      the key before the drop. */
  lemma ResaveDuringLoadIsLost(key: Key, entry: Pending, again: Pending, before: Timestamp)
    requires Epoch(entry.fireAt) <= Epoch(before)
    ensures var s := RedisSave(RedisState(map[], map[]), key, entry);
            var read := ApplyAll(s, [Delete(key)]);
            var stale := KeysUpTo(s, Epoch(before)) - read.hashes.Keys;
            var end := ApplyAll(read, [Save(key, again)]);
            && InSync(s) && key in end.hashes && !InSync(DropStale(end, stale))
  {
    var s := RedisSave(RedisState(map[], map[]), key, entry);
    assert [Delete(key)][..0] == [] && [Save(key, again)][..0] == [];
    SplitLoadInSyncExactlyWhen(s, before, [Delete(key)], [Save(key, again)]);
    assert key in KeysUpTo(s, Epoch(before));
  }
}

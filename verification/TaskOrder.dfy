/** In which order a backlog leaves the priority heap: the stable sort by descending
    priority, whatever shape the heap has. */
module TaskOrder {
  import opened Options
  import opened Heapq

  datatype Request<+T> = Request(priority: Option<int>, task: T)

  /** A missing priority counts as 0. */
  function Level(priority: Option<int>): int {
    if priority.Some? then priority.value else 0
  }

  function RankFor(priority: Option<int>, arrival: nat): Rank {
    Rank(-Level(priority), arrival)
  }

  /** The heap items of a backlog: the k-th accepted request carries sequence number k. */
  function Ranked<T>(log: seq<Request<T>>): (items: seq<Item<T>>)
    ensures |items| == |log|
  {
    if log == [] then []
    else
      var last := log[|log| - 1];
      Ranked(log[..|log| - 1]) + [Item(RankFor(last.priority, |log|), last.task)]
  }

  /** Places x behind everything of at least its priority; sequence numbers are not read. */
  function StableInsert<T>(x: Item<T>, sorted: seq<Item<T>>): seq<Item<T>> {
    if sorted == [] then [x]
    else if x.rank.major < sorted[0].rank.major then [x] + sorted
    else [sorted[0]] + StableInsert(x, sorted[1..])
  }

  /** Stable insertion sort of the backlog by descending priority, in arrival order. */
  function StableByPriority<T>(log: seq<Request<T>>): seq<Item<T>> {
    if log == [] then []
    else StableInsert(Ranked(log)[|log| - 1], StableByPriority(log[..|log| - 1]))
  }

  ghost predicate Sorted<T>(s: seq<Item<T>>) {
    forall i, j :: 0 <= i < j < |s| ==> !s[j].rank.Before(s[i].rank)
  }

  ghost predicate StrictlySorted<T>(s: seq<Item<T>>) {
    forall i, j :: 0 <= i < j < |s| ==> s[i].rank.Before(s[j].rank)
  }

  /** Sequence numbers decide every tie: a tuple comparison of two different items never
      looks past them at the task id or the callable. */
  lemma {:induction false} ComparisonStopsAtSequenceNumber<T>(log: seq<Request<T>>, i: nat, j: nat)
    requires i < j < |log|
    ensures Ranked(log)[i].rank.minor < Ranked(log)[j].rank.minor
    ensures Ranked(log)[i].rank.Before(Ranked(log)[j].rank) <==>
            Level(log[i].priority) >= Level(log[j].priority)
  {
    RankedAt(log, i);
    RankedAt(log, j);
  }

  lemma {:induction false} RankedAt<T>(log: seq<Request<T>>, i: nat)
    requires i < |log|
    ensures Ranked(log)[i] == Item(RankFor(log[i].priority, i + 1), log[i].task)
  {
    if i < |log| - 1 {
      RankedAt(log[..|log| - 1], i);
    }
  }

  lemma {:induction false} StableInsertAdds<T>(x: Item<T>, s: seq<Item<T>>)
    ensures multiset(StableInsert(x, s)) == multiset(s) + multiset{x}
  {
    if s != [] && x.rank.major >= s[0].rank.major {
      assert s == [s[0]] + s[1..];
      StableInsertAdds(x, s[1..]);
    }
  }

  lemma StableInsertMembers<T>(x: Item<T>, s: seq<Item<T>>)
    ensures |StableInsert(x, s)| == |s| + 1
    ensures forall y :: y in StableInsert(x, s) <==> y == x || y in s
  {
    var r := StableInsert(x, s);
    StableInsertAdds(x, s);
    assert |r| == |multiset(r)| == |s| + 1;
    assert forall y :: y in r <==> y in multiset(r);
  }

  lemma {:induction false} StableInsertKeepsOrder<T>(x: Item<T>, s: seq<Item<T>>)
    requires StrictlySorted(s)
    requires forall y | y in s :: y.rank.minor < x.rank.minor
    ensures StrictlySorted(StableInsert(x, s))
  {
    if s != [] && x.rank.major >= s[0].rank.major {
      StableInsertKeepsOrder(x, s[1..]);
      StableInsertAdds(x, s[1..]);
      var r := StableInsert(x, s[1..]);
      forall k | 0 <= k < |r|
        ensures s[0].rank.Before(r[k].rank)
      {
        assert r[k] in multiset(r);
        assert r[k] in s[1..] || r[k] == x;
      }
    }
  }

  lemma {:induction false} StableSortIsOrderedPermutation<T>(log: seq<Request<T>>)
    ensures StrictlySorted(StableByPriority(log))
    ensures multiset(StableByPriority(log)) == multiset(Ranked(log))
  {
    if log != [] {
      var front := log[..|log| - 1];
      StableSortIsOrderedPermutation(front);
      var x := Ranked(log)[|log| - 1];
      forall y | y in StableByPriority(front)
        ensures y.rank.minor < x.rank.minor
      {
        assert y in multiset(Ranked(front));
        var k: nat :| k < |Ranked(front)| && Ranked(front)[k] == y;
        RankedAt(front, k);
      }
      StableInsertKeepsOrder(x, StableByPriority(front));
      StableInsertAdds(x, StableByPriority(front));
      assert Ranked(log) == Ranked(front) + [x];
    }
  }

  /** Two rank-ordered arrangements of the same items are equal when ranks are distinct. */
  lemma {:induction false} OrderIsUnique<T>(a: seq<Item<T>>, b: seq<Item<T>>)
    requires StrictlySorted(a) && Sorted(b) && multiset(a) == multiset(b)
    ensures a == b
  {
    if a == [] {
      assert |multiset(b)| == 0;
    } else {
      assert |multiset(b)| == |multiset(a)| > 0;
      SameFirst(a, b);
      assert a == [a[0]] + a[1..] && b == [b[0]] + b[1..];
      assert multiset(a[1..]) == multiset(a) - multiset{a[0]};
      assert multiset(b[1..]) == multiset(b) - multiset{b[0]};
      OrderIsUnique(a[1..], b[1..]);
    }
  }

  lemma SameFirst<T>(a: seq<Item<T>>, b: seq<Item<T>>)
    requires StrictlySorted(a) && Sorted(b) && multiset(a) == multiset(b)
    requires a != [] && b != []
    ensures a[0] == b[0]
  {
    assert a[0] in multiset(b) && b[0] in multiset(a);
    var i :| 0 <= i < |a| && a[i] == b[0];
    var j :| 0 <= j < |b| && b[j] == a[0];
  }

  /** Any rank-ordered arrangement of a backlog's items is its stable sort. */
  lemma DrainOrderIsStableSort<T>(log: seq<Request<T>>, out: seq<Item<T>>)
    requires Sorted(out) && multiset(out) == multiset(Ranked(log))
    ensures out == StableByPriority(log)
  {
    StableSortIsOrderedPermutation(log);
    OrderIsUnique(StableByPriority(log), out);
  }

  // ---- The order in terms of the requests ----

  /** The higher integer runs first, and no priority stands level with 0. */
  predicate Outranks(p: Option<int>, q: Option<int>) {
    match (p, q)
    case (Some(a), Some(b)) => a > b
    case (Some(a), None) => a > 0
    case (None, Some(b)) => 0 > b
    case (None, None) => false
  }

  /** The i-th request goes before the j-th: it outranks it, or is level with it and came first. */
  predicate GoesFirst(p: Option<int>, i: nat, q: Option<int>, j: nat) {
    Outranks(p, q) || (!Outranks(q, p) && i < j)
  }

  /** The heap's tuples are ordered as the requests are. */
  lemma RankIsRequestOrder(p: Option<int>, i: nat, q: Option<int>, j: nat)
    ensures RankFor(p, i + 1).Before(RankFor(q, j + 1)) <==> GoesFirst(p, i, q, j)
  {
  }

  /** The i-th request is dispatched at this position. */
  ghost predicate DispatchedAt<T>(out: seq<Item<T>>, log: seq<Request<T>>, i: nat, at: nat)
    requires i < |log|
  {
    at < |out| && out[at].rank.minor == i + 1 && out[at].value == log[i].task
  }

  ghost predicate ComesBefore<T>(out: seq<Item<T>>, log: seq<Request<T>>, i: nat, j: nat)
    requires i < |log| && j < |log|
  {
    exists x, y | DispatchedAt(out, log, i, x) && DispatchedAt(out, log, j, y) :: x < y
  }

  lemma StableSortOrdersRequests<T>(log: seq<Request<T>>, i: nat, j: nat)
    requires i < |log| && j < |log| && i != j
    ensures |StableByPriority(log)| == |log|
    ensures GoesFirst(log[i].priority, i, log[j].priority, j) ==> ComesBefore(StableByPriority(log), log, i, j)
  {
    var out := StableByPriority(log);
    StableSortIsOrderedPermutation(log);
    assert |multiset(out)| == |multiset(Ranked(log))|;
    if GoesFirst(log[i].priority, i, log[j].priority, j) {
      RankedAt(log, i);
      RankedAt(log, j);
      RankIsRequestOrder(log[i].priority, i, log[j].priority, j);
      assert Ranked(log)[i] in multiset(out) && Ranked(log)[j] in multiset(out);
      var x: nat :| x < |out| && out[x] == Ranked(log)[i];
      var y: nat :| y < |out| && out[y] == Ranked(log)[j];
      assert DispatchedAt(out, log, i, x) && DispatchedAt(out, log, j, y);
    }
  }

  /** Pops until the heap is empty, as the drainer does while slots are free. */
  method Drain<T>(heap: seq<Item<T>>) returns (out: seq<Item<T>>)
    requires IsHeap(heap)
    ensures Sorted(out) && multiset(out) == multiset(heap)
  {
    var h := heap;
    out := [];
    while h != []
      invariant IsHeap(h) && Sorted(out)
      invariant multiset(out) + multiset(h) == multiset(heap)
      invariant forall x, y | x in out && y in h :: !y.rank.Before(x.rank)
      decreases |h|
    {
      var item;
      ghost var before := h;
      h, item := HeapPop(h);
      forall y | y in h
        ensures y in before
      {
        assert y in multiset(h) && y in multiset(before);
      }
      out := out + [item];
    }
  }

  /** The legacy path: every request gets the next sequence number and is pushed, then
      the worker takes items until none is left. */
  method RunPriorityWorker<T>(log: seq<Request<T>>) returns (dispatched: seq<Item<T>>)
    ensures dispatched == StableByPriority(log) && |dispatched| == |log|
    // The greater integer first.
    ensures forall i: nat, j: nat | i < |log| && j < |log| && log[i].priority.Some? && log[j].priority.Some? &&
              log[i].priority.value > log[j].priority.value :: ComesBefore(dispatched, log, i, j)
    // Arrival order within a priority.
    ensures forall i: nat, j: nat | i < j < |log| && log[i].priority == log[j].priority ::
              ComesBefore(dispatched, log, i, j)
    // No priority is level with 0: by arrival against 0, behind the positive and before the negative ones.
    ensures forall i: nat, j: nat | i < |log| && j < |log| && i != j && GoesFirst(log[i].priority, i, log[j].priority, j) ::
              ComesBefore(dispatched, log, i, j)
  {
    var heap: seq<Item<T>> := [];
    var prioritySeq := 0;
    while prioritySeq < |log|
      invariant 0 <= prioritySeq <= |log| && IsHeap(heap)
      invariant multiset(heap) == multiset(Ranked(log[..prioritySeq]))
    {
      var request := log[prioritySeq];
      prioritySeq := prioritySeq + 1;
      assert log[..prioritySeq][..prioritySeq - 1] == log[..prioritySeq - 1];
      heap := HeapPush(heap, Item(RankFor(request.priority, prioritySeq), request.task));
    }
    assert log[..prioritySeq] == log;
    dispatched := Drain(heap);
    DrainOrderIsStableSort(log, dispatched);
    StableSortIsOrderedPermutation(log);
    assert |multiset(dispatched)| == |multiset(Ranked(log))|;
    forall i: nat, j: nat | i < |log| && j < |log| && i != j && GoesFirst(log[i].priority, i, log[j].priority, j)
      ensures ComesBefore(dispatched, log, i, j)
    {
      StableSortOrdersRequests(log, i, j);
    }
  }

  // ---- Puts and gets interleaved ----

  datatype Event<+T> = Put(request: Request<T>) | Get

  /** The waiting items in stable order, and what was dispatched, after some events. */
  datatype Service<+T> = Service(arrivals: nat, waiting: seq<Item<T>>, dispatched: seq<Item<T>>)

  function ServeOne<T>(s: Service<T>, event: Event<T>): Service<T> {
    match event
    case Put(request) =>
      var item := Item(RankFor(request.priority, s.arrivals + 1), request.task);
      Service(s.arrivals + 1, StableInsert(item, s.waiting), s.dispatched)
    case Get =>
      if s.waiting == [] then s else Service(s.arrivals, s.waiting[1..], s.dispatched + [s.waiting[0]])
  }

  /** The reference: a list kept in stable order, from whose front every get takes. */
  function Serve<T>(events: seq<Event<T>>): Service<T> {
    if events == [] then Service(0, [], [])
    else ServeOne(Serve(events[..|events| - 1]), events[|events| - 1])
  }

  /** The requests that were put, in order. */
  function Puts<T>(events: seq<Event<T>>): seq<Request<T>> {
    if events == [] then []
    else
      match events[|events| - 1]
      case Put(request) => Puts(events[..|events| - 1]) + [request]
      case Get => Puts(events[..|events| - 1])
  }

  /** The item is that of a request put before. */
  ghost predicate IsOf<T>(item: Item<T>, puts: seq<Request<T>>) {
    && 1 <= item.rank.minor <= |puts|
    && var r := puts[item.rank.minor - 1]; item == Item(RankFor(r.priority, item.rank.minor), r.task)
  }

  /** The line is in strict order and holds requests put before, each counted once. */
  ghost predicate InLine<T>(s: Service<T>, puts: seq<Request<T>>) {
    && StrictlySorted(s.waiting)
    && s.arrivals == |puts| == |s.waiting| + |s.dispatched|
    && forall x | x in s.waiting :: IsOf(x, puts)
  }

  lemma PutKeepsLine<T>(s: Service<T>, puts: seq<Request<T>>, request: Request<T>)
    requires InLine(s, puts)
    ensures InLine(ServeOne(s, Put(request)), puts + [request])
  {
    var item := Item(RankFor(request.priority, s.arrivals + 1), request.task);
    StableInsertKeepsOrder(item, s.waiting);
    StableInsertMembers(item, s.waiting);
    forall x | x in StableInsert(item, s.waiting) ensures IsOf(x, puts + [request]) {
      assert x != item ==> IsOf(x, puts);
    }
  }

  lemma GetKeepsLine<T>(s: Service<T>, puts: seq<Request<T>>)
    requires InLine(s, puts)
    ensures InLine(ServeOne(s, Get), puts)
  {
    if s.waiting != [] {
      assert forall x | x in s.waiting[1..] :: x in s.waiting;
    }
  }

  lemma {:induction false} ServeKeepsLine<T>(events: seq<Event<T>>)
    ensures InLine(Serve(events), Puts(events))
  {
    if events != [] {
      var front := events[..|events| - 1];
      ServeKeepsLine(front);
      match events[|events| - 1]
      case Put(request) => PutKeepsLine(Serve(front), Puts(front), request);
      case Get => GetKeepsLine(Serve(front), Puts(front));
    }
  }

  lemma FrontGoesFirst<T>(s: Service<T>, puts: seq<Request<T>>)
    requires InLine(s, puts) && s.waiting != []
    ensures IsOf(s.waiting[0], puts)
    ensures forall x | x in s.waiting && x != s.waiting[0] ::
              && IsOf(x, puts)
              && GoesFirst(puts[s.waiting[0].rank.minor - 1].priority, s.waiting[0].rank.minor - 1,
                           puts[x.rank.minor - 1].priority, x.rank.minor - 1)
  {
    var best := s.waiting[0];
    assert IsOf(best, puts);
    forall k | 0 < k < |s.waiting|
      ensures IsOf(s.waiting[k], puts)
      ensures GoesFirst(puts[best.rank.minor - 1].priority, best.rank.minor - 1,
                        puts[s.waiting[k].rank.minor - 1].priority, s.waiting[k].rank.minor - 1)
    {
      assert IsOf(s.waiting[k], puts);
      RankIsRequestOrder(puts[best.rank.minor - 1].priority, best.rank.minor - 1,
                         puts[s.waiting[k].rank.minor - 1].priority, s.waiting[k].rank.minor - 1);
    }
  }

  /** Each get of a queue that is not empty dispatches the request that goes before every other
      one waiting: of the greatest integer, and the oldest of that. */
  lemma GetTakesTheBest<T>(events: seq<Event<T>>)
    requires |Serve(events).dispatched| < |Puts(events)|
    ensures var s, puts := Serve(events), Puts(events);
            var t := Serve(events + [Get]);
            && |t.dispatched| == |s.dispatched| + 1 && t.dispatched[..|s.dispatched|] == s.dispatched
            && var best := t.dispatched[|s.dispatched|];
               && best in s.waiting && IsOf(best, puts) && best.value == puts[best.rank.minor - 1].task
               && forall x | x in s.waiting && x != best ::
                    && IsOf(x, puts)
                    && GoesFirst(puts[best.rank.minor - 1].priority, best.rank.minor - 1,
                                 puts[x.rank.minor - 1].priority, x.rank.minor - 1)
  {
    var s, puts := Serve(events), Puts(events);
    assert (events + [Get])[..|events|] == events;
    ServeKeepsLine(events);
    FrontGoesFirst(s, puts);
  }

  /** A first item of a heap is the front of the line. */
  lemma FrontOfLine<T>(waiting: seq<Item<T>>, heap: seq<Item<T>>, item: Item<T>)
    requires StrictlySorted(waiting) && multiset(waiting) == multiset(heap) && item in heap
    requires forall x | x in heap :: !x.rank.Before(item.rank)
    ensures waiting != [] && waiting[0] == item && multiset(waiting[1..]) == multiset(heap) - multiset{item}
  {
    assert item in multiset(waiting);
    var k :| 0 <= k < |waiting| && waiting[k] == item;
    assert waiting[0] in multiset(heap);
    assert waiting == [waiting[0]] + waiting[1..];
  }

  ghost predicate Holds<T>(heap: seq<Item<T>>, prioritySeq: nat, dispatched: seq<Item<T>>, s: Service<T>) {
    IsHeap(heap) && multiset(heap) == multiset(s.waiting) && prioritySeq == s.arrivals && dispatched == s.dispatched
  }

  /** One put or get; a get of an empty queue waits, so nothing happens. */
  method HandleEvent<T>(heap: seq<Item<T>>, prioritySeq: nat, dispatched: seq<Item<T>>, event: Event<T>,
                        ghost s: Service<T>)
    returns (heap': seq<Item<T>>, prioritySeq': nat, dispatched': seq<Item<T>>)
    requires Holds(heap, prioritySeq, dispatched, s) && StrictlySorted(s.waiting)
    ensures Holds(heap', prioritySeq', dispatched', ServeOne(s, event))
  {
    heap', prioritySeq', dispatched' := heap, prioritySeq, dispatched;
    match event
    case Put(request) =>
      prioritySeq' := prioritySeq + 1;
      var item := Item(RankFor(request.priority, prioritySeq'), request.task);
      StableInsertAdds(item, s.waiting);
      heap' := HeapPush(heap, item);
    case Get =>
      if heap != [] {
        var item;
        heap', item := HeapPop(heap);
        FrontOfLine(s.waiting, heap, item);
        dispatched' := dispatched + [item];
      } else {
        assert |multiset(s.waiting)| == 0;
      }
  }

  /** The legacy queue under any interleaving of puts and gets: the array heap hands out what
      the stable list would, so each get takes the oldest of the highest priority waiting. */
  method ServePriorityQueue<T>(events: seq<Event<T>>) returns (dispatched: seq<Item<T>>)
    ensures dispatched == Serve(events).dispatched
  {
    var heap: seq<Item<T>>, prioritySeq := [], 0;
    dispatched := [];
    for i := 0 to |events|
      invariant Holds(heap, prioritySeq, dispatched, Serve(events[..i]))
    {
      ServeKeepsLine(events[..i]);
      assert events[..i + 1][..i] == events[..i];
      heap, prioritySeq, dispatched := HandleEvent(heap, prioritySeq, dispatched, events[i], Serve(events[..i]));
    }
    assert events[..|events|] == events;
  }
}

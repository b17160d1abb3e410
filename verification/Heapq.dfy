/** The binary heap under the named queues, the legacy priority worker and the
    schedule loop. Both users compare items only through a rank: the queue compares
    (-priority, seq), the scheduler compares next_run (its minor part is always 0).
    The list the interpreter's heapq mutates is passed in and handed back. */
module Heapq {

  /** The part of a heap item that comparisons look at, ordered lexicographically. */
  datatype Rank = Rank(major: int, minor: int) {
    predicate Before(other: Rank) {
      major < other.major || (major == other.major && minor < other.minor)
    }
  }

  datatype Item<+T> = Item(rank: Rank, value: T)

  function Parent(i: nat): nat
    requires i > 0
  {
    (i - 1) / 2
  }

  ghost predicate EdgeOk<T>(h: seq<Item<T>>, j: nat)
    requires 0 < j < |h|
  {
    !h[j].rank.Before(h[Parent(j)].rank)
  }

  /** Every child whose parent sits at lo or later is not before that parent. */
  ghost predicate OrderedFrom<T>(h: seq<Item<T>>, lo: nat) {
    forall j: nat :: 0 < j < |h| && Parent(j) >= lo ==> EdgeOk(h, j)
  }

  ghost predicate IsHeap<T>(h: seq<Item<T>>) {
    OrderedFrom(h, 0)
  }

  /** pos lies in the subtree rooted at root. */
  ghost predicate Under(pos: nat, root: nat)
    decreases pos
  {
    pos == root || (pos > root && Under(Parent(pos), root))
  }

  /** Ordered except for the edge above pos, and pos's children respect pos's parent. */
  ghost predicate HoleAbove<T>(h: seq<Item<T>>, lo: nat, pos: nat)
    requires pos < |h|
  {
    && (forall j: nat :: 0 < j < |h| && Parent(j) >= lo && j != pos ==> EdgeOk(h, j))
    && GrandOk(h, lo, pos)
  }

  /** Ordered except for the edges that touch pos. */
  ghost predicate HoleAround<T>(h: seq<Item<T>>, lo: nat, pos: nat)
    requires pos < |h|
  {
    && (forall j: nat :: 0 < j < |h| && Parent(j) >= lo && j != pos && Parent(j) != pos ==> EdgeOk(h, j))
    && GrandOk(h, lo, pos)
  }

  ghost predicate GrandOk<T>(h: seq<Item<T>>, lo: nat, pos: nat)
    requires pos < |h|
  {
    pos > lo ==> forall c: nat :: 0 < c < |h| && Parent(c) == pos ==> !h[c].rank.Before(h[Parent(pos)].rank)
  }

  function Swapped<T>(h: seq<Item<T>>, i: nat, j: nat): seq<Item<T>>
    requires i < |h| && j < |h|
  {
    h[i := h[j]][j := h[i]]
  }

  lemma SwappedIsPermutation<T>(h: seq<Item<T>>, i: nat, j: nat)
    requires i < |h| && j < |h|
    ensures multiset(Swapped(h, i, j)) == multiset(h)
  {
  }

  /** Moving the new item one level up keeps everything ordered but the edge above it. */
  lemma ClimbStep<T>(h: seq<Item<T>>, lo: nat, pos: nat)
    requires lo < pos < |h| && Under(pos, lo) && HoleAbove(h, lo, pos)
    requires h[pos].rank.Before(h[Parent(pos)].rank)
    ensures HoleAbove(Swapped(h, pos, Parent(pos)), lo, Parent(pos))
  {
    var q := Parent(pos);
    var v := Swapped(h, pos, q);
    forall j: nat | 0 < j < |v| && Parent(j) >= lo && j != q
      ensures EdgeOk(v, j)
    {
      assert j != pos ==> EdgeOk(h, j);
    }
    if q > lo {
      assert Under(q, lo) && Under(Parent(q), lo);
      assert EdgeOk(h, q);
      forall c: nat | 0 < c < |v| && Parent(c) == q
        ensures !v[c].rank.Before(v[Parent(q)].rank)
      {
        assert c != pos ==> EdgeOk(h, c);
      }
    }
  }

  /** Moving the smaller child up keeps everything ordered but the edges at the hole. */
  lemma DescendStep<T>(h: seq<Item<T>>, lo: nat, pos: nat, child: nat)
    requires lo <= pos && Under(pos, lo) && child < |h| && (child == 2 * pos + 1 || child == 2 * pos + 2)
    requires HoleAround(h, lo, pos)
    requires !h[2 * pos + 1].rank.Before(h[child].rank)
    requires 2 * pos + 2 < |h| ==> !h[2 * pos + 2].rank.Before(h[child].rank)
    ensures HoleAround(Swapped(h, pos, child), lo, child) && Under(child, lo)
  {
    assert Parent(child) == pos;
    assert forall s: nat :: s > 0 && Parent(s) == pos ==> s == 2 * pos + 1 || s == 2 * pos + 2;
    var v := Swapped(h, pos, child);
    forall j: nat | 0 < j < |v| && Parent(j) >= lo && j != child && Parent(j) != child
      ensures EdgeOk(v, j)
    {
      if Parent(j) != pos && j != pos {
        assert EdgeOk(h, j);
      }
    }
    forall d: nat | 0 < d < |v| && Parent(d) == child
      ensures !v[d].rank.Before(v[Parent(child)].rank)
    {
      assert EdgeOk(h, d);
    }
  }

  /** The same step as the code takes it: the child moves into the hole, and the item would now
      go where the child was. */
  lemma SinkStep<T>(r: seq<Item<T>>, item: Item<T>, lo: nat, pos: nat, child: nat)
    requires lo <= pos && Under(pos, lo) && child < |r| && (child == 2 * pos + 1 || child == 2 * pos + 2)
    requires HoleAround(r[pos := item], lo, pos)
    requires !r[2 * pos + 1].rank.Before(r[child].rank)
    requires 2 * pos + 2 < |r| ==> !r[2 * pos + 2].rank.Before(r[child].rank)
    ensures var sunk := r[pos := r[child]][child := item];
            && HoleAround(sunk, lo, child) && Under(child, lo) && multiset(sunk) == multiset(r[pos := item])
  {
    var was := r[pos := item];
    DescendStep(was, lo, pos, child);
    SwappedIsPermutation(was, pos, child);
    assert r[pos := r[child]][child := item] == Swapped(was, pos, child);
  }

  /** Moves the item at pos towards startpos until its parent is not after it. */
  method SiftDown<T>(heap: seq<Item<T>>, startpos: nat, pos: nat) returns (r: seq<Item<T>>)
    requires pos < |heap| && Under(pos, startpos)
    requires HoleAbove(heap, startpos, pos)
    ensures OrderedFrom(r, startpos)
    ensures multiset(r) == multiset(heap) && |r| == |heap|
  {
    var newItem := heap[pos];
    var p := pos;
    r := heap;
    assert r[p := newItem] == heap;
    while p > startpos
      invariant |r| == |heap| && p < |r| && Under(p, startpos)
      invariant HoleAbove(r[p := newItem], startpos, p)
      invariant multiset(r[p := newItem]) == multiset(heap)
    {
      var parentPos := (p - 1) / 2;
      var parent := r[parentPos];
      ghost var was := r[p := newItem];
      if !newItem.rank.Before(parent.rank) {
        assert EdgeOk(was, p);
        break;
      }
      ClimbStep(was, startpos, p);
      SwappedIsPermutation(was, p, parentPos);
      r := r[p := parent];
      assert r[parentPos := newItem] == Swapped(was, p, parentPos);
      p := parentPos;
    }
    r := r[p := newItem];
  }

  /** Walks the hole at pos down to a leaf along the smaller children; r with the item put
      back into the hole is ordered but for the edges at the hole. */
  method SinkHole<T>(heap: seq<Item<T>>, pos: nat) returns (r: seq<Item<T>>, p: nat)
    requires pos < |heap| && HoleAround(heap, pos, pos)
    ensures |r| == |heap| && pos <= p < |r| && Under(p, pos) && 2 * p + 1 >= |r|
    ensures HoleAround(r[p := heap[pos]], pos, p) && multiset(r[p := heap[pos]]) == multiset(heap)
  {
    var newItem := heap[pos];
    p := pos;
    r := heap;
    assert r[p := newItem] == heap;
    var childPos := 2 * p + 1;
    while childPos < |heap|
      invariant |r| == |heap| && pos <= p < |r| && Under(p, pos)
      invariant childPos == 2 * p + 1
      invariant HoleAround(r[p := newItem], pos, p)
      invariant multiset(r[p := newItem]) == multiset(heap)
      decreases |heap| - p
    {
      var rightPos := childPos + 1;
      if rightPos < |heap| && !r[childPos].rank.Before(r[rightPos].rank) {
        childPos := rightPos;
      }
      SinkStep(r, newItem, pos, p, childPos);
      r := r[p := r[childPos]];
      p := childPos;
      childPos := 2 * p + 1;
    }
  }

  /** Sinks the hole to a leaf, then lets the displaced item climb back from there. */
  method SiftUp<T>(heap: seq<Item<T>>, pos: nat) returns (r: seq<Item<T>>)
    requires pos < |heap|
    requires OrderedFrom(heap, pos + 1)
    ensures OrderedFrom(r, pos)
    ensures multiset(r) == multiset(heap) && |r| == |heap|
  {
    var p;
    r, p := SinkHole(heap, pos);
    r := r[p := heap[pos]];
    r := SiftDown(r, pos, p);
  }

  method HeapPush<T>(heap: seq<Item<T>>, item: Item<T>) returns (r: seq<Item<T>>)
    requires IsHeap(heap)
    ensures IsHeap(r)
    ensures multiset(r) == multiset(heap) + multiset{item} && |r| == |heap| + 1
  {
    r := heap + [item];
    UnderRoot(|heap|);
    forall j: nat | 0 < j < |r| && j != |heap|
      ensures EdgeOk(r, j)
    {
      assert EdgeOk(heap, j);
    }
    r := SiftDown(r, 0, |heap|);
  }

  method HeapPop<T>(heap: seq<Item<T>>) returns (r: seq<Item<T>>, item: Item<T>)
    requires IsHeap(heap) && heap != []
    ensures IsHeap(r)
    ensures item == heap[0]
    ensures multiset(heap) == multiset(r) + multiset{item} && |heap| == |r| + 1
    ensures forall x | x in heap :: !x.rank.Before(item.rank)
  {
    RootIsMinimal(heap);
    item := heap[0];
    var last := heap[|heap| - 1];
    r := heap[..|heap| - 1];
    assert heap == r + [last];
    if r != [] {
      assert r == [item] + r[1..];
      forall j: nat | 0 < j < |r| && Parent(j) >= 1
        ensures EdgeOk(r[0 := last], j)
      {
        assert EdgeOk(heap, j);
      }
      r := SiftUp(r[0 := last], 0);
    }
  }

  method Heapify<T>(items: seq<Item<T>>) returns (r: seq<Item<T>>)
    ensures IsHeap(r)
    ensures multiset(r) == multiset(items) && |r| == |items|
  {
    r := items;
    var i := |items| / 2;
    while i > 0
      invariant 0 <= i <= |items| / 2 && |r| == |items|
      invariant OrderedFrom(r, i)
      invariant multiset(r) == multiset(items)
    {
      i := i - 1;
      r := SiftUp(r, i);
    }
  }

  lemma {:induction false} UnderRoot(pos: nat)
    ensures Under(pos, 0)
  {
    if pos > 0 {
      UnderRoot(Parent(pos));
    }
  }

  /** Nothing in a heap comes before its first item. */
  lemma RootIsMinimal<T>(h: seq<Item<T>>)
    requires IsHeap(h) && h != []
    ensures forall x | x in h :: !x.rank.Before(h[0].rank)
  {
    forall j: nat | j < |h|
      ensures !h[j].rank.Before(h[0].rank)
    {
      AboveRoot(h, j);
    }
  }

  lemma {:induction false} AboveRoot<T>(h: seq<Item<T>>, j: nat)
    requires IsHeap(h) && j < |h|
    ensures !h[j].rank.Before(h[0].rank)
  {
    if j > 0 {
      AboveRoot(h, Parent(j));
      assert EdgeOk(h, j);
    }
  }
}

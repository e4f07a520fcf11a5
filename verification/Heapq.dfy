/**
 * The binary heap behind the search's `PriorityQueue`: `put` is CPython's
 * `heapq.heappush` and `get` is `heapq.heappop`. The heap is a list whose
 * entry at index `i` is never below its parent at `(i - 1) / 2`. Entries
 * are `(priority, node)` tuples, and tuples compare by their first elements
 * before their second. `Node.__lt__` always answers false, so `a < b`
 * holds exactly when `a`'s priority is below `b`'s. Which of several
 * entries of least priority comes out first is decided by the layout of
 * the list, and this module computes that layout as CPython does.
 *
 * CPython's sift loops move a "hole" and write the moving entry once at
 * the end. Here each step swaps the moving entry with its parent or child,
 * which leaves the list in the same state after every step.
 */
module Heapq {
  import opened Grid

  /** A queue entry `(priority, node)`. */
  datatype Entry = Entry(priority: nat, pos: Pos)

  /** `a < b` on entries: a tie in priority falls to `Node.__lt__`, which is always false. */
  predicate Less(a: Entry, b: Entry)
  {
    a.priority < b.priority
  }

  function Parent(i: nat): nat
  {
    if i == 0 then 0 else (i - 1) / 2
  }

  /** The heap property: no entry is below its parent. */
  ghost predicate IsHeap(h: seq<Entry>)
  {
    forall i | 0 < i < |h| :: h[Parent(i)].priority <= h[i].priority
  }

  /** No two entries of `h` are for the same node. */
  ghost predicate DistinctPos(h: seq<Entry>)
  {
    forall i, j | 0 <= i < j < |h| :: h[i].pos != h[j].pos
  }

  /** `h` with the entries at `i` and `j` traded. */
  function Swap(h: seq<Entry>, i: nat, j: nat): (r: seq<Entry>)
    requires i < |h| && j < |h|
    ensures |r| == |h|
    ensures r[i] == h[j] && r[j] == h[i]
    ensures forall k | 0 <= k < |h| && k != i && k != j :: r[k] == h[k]
  {
    h[i := h[j]][j := h[i]]
  }

  /** Trading two entries keeps the entries and keeps them one per node. */
  lemma SwapPerm(h: seq<Entry>, i: nat, j: nat)
    requires i < |h| && j < |h|
    ensures multiset(Swap(h, i, j)) == multiset(h)
    ensures DistinctPos(h) ==> DistinctPos(Swap(h, i, j))
  {
    var r := Swap(h, i, j);
    if DistinctPos(h) {
      forall a, b | 0 <= a < b < |r|
        ensures r[a].pos != r[b].pos
      {
        var a' := if a == i then j else if a == j then i else a;
        var b' := if b == i then j else if b == j then i else b;
        assert r[a] == h[a'] && r[b] == h[b'] && a' != b';
      }
    }
  }

  /**
   * `_siftdown(heap, 0, pos)`: while the entry at `pos` is below its
   * parent, it trades places with the parent.
   */
  function SiftDown(h: seq<Entry>, pos: nat): (r: seq<Entry>)
    requires pos < |h|
    ensures |r| == |h|
    decreases pos
  {
    if pos > 0 && Less(h[pos], h[Parent(pos)]) then SiftDown(Swap(h, pos, Parent(pos)), Parent(pos))
    else h
  }

  /**
   * `_siftup(heap, 0)`, continued from `pos`, where the entry that started
   * at the root now is: it moves down to a leaf, trading places at each
   * level with the child that is not larger (the right one unless the left
   * one is strictly below it), then goes back up with `SiftDown`.
   */
  function SiftUp(h: seq<Entry>, pos: nat): (r: seq<Entry>)
    requires pos < |h|
    ensures |r| == |h|
    decreases |h| - pos
  {
    var child := 2 * pos + 1;
    if child < |h| then
      var c := if child + 1 < |h| && !Less(h[child], h[child + 1]) then child + 1 else child;
      SiftUp(Swap(h, pos, c), c)
    else
      SiftDown(h, pos)
  }

  /** Sifting keeps the entries and keeps them one per node. */
  lemma {:induction false} SiftDownPerm(h: seq<Entry>, pos: nat)
    requires pos < |h|
    ensures multiset(SiftDown(h, pos)) == multiset(h)
    ensures DistinctPos(h) ==> DistinctPos(SiftDown(h, pos))
    decreases pos
  {
    if pos > 0 && Less(h[pos], h[Parent(pos)]) {
      SwapPerm(h, pos, Parent(pos));
      SiftDownPerm(Swap(h, pos, Parent(pos)), Parent(pos));
    }
  }

  lemma {:induction false} SiftUpPerm(h: seq<Entry>, pos: nat)
    requires pos < |h|
    ensures multiset(SiftUp(h, pos)) == multiset(h)
    ensures DistinctPos(h) ==> DistinctPos(SiftUp(h, pos))
    decreases |h| - pos
  {
    var child := 2 * pos + 1;
    if child < |h| {
      var c := if child + 1 < |h| && !Less(h[child], h[child + 1]) then child + 1 else child;
      var r := Swap(h, pos, c);
      assert SiftUp(h, pos) == SiftUp(r, c);
      SwapPerm(h, pos, c);
      SiftUpPerm(r, c);
    } else {
      SiftDownPerm(h, pos);
    }
  }

  /** `heappush(heap, e)`: append `e`, then sift it towards the root. */
  function HeapPush(h: seq<Entry>, e: Entry): (r: seq<Entry>)
    ensures |r| == |h| + 1
  {
    SiftDown(h + [e], |h|)
  }

  /** `heappush` adds `e` to the entries and changes no other. */
  lemma HeapPushPerm(h: seq<Entry>, e: Entry)
    ensures multiset(HeapPush(h, e)) == multiset(h) + multiset{e}
  {
    SiftDownPerm(h + [e], |h|);
  }

  /** The result of `heappop`: the entry returned and the heap left behind. */
  datatype Popped = Popped(top: Entry, rest: seq<Entry>)

  /**
   * `heappop(heap)`: take the last entry off; if entries remain, return
   * the root, put the last entry in its place and sift it with `SiftUp`.
   */
  function HeapPop(h: seq<Entry>): (r: Popped)
    requires |h| > 0
    ensures r.top == h[0] && |r.rest| == |h| - 1
  {
    var last := h[|h| - 1];
    var rest := h[..|h| - 1];
    if rest == [] then Popped(last, [])
    else Popped(rest[0], SiftUp(rest[0 := last], 0))
  }

  /** `heappop` removes the entry it returns and changes no other. */
  lemma HeapPopPerm(h: seq<Entry>)
    requires |h| > 0
    ensures multiset(HeapPop(h).rest) + multiset{HeapPop(h).top} == multiset(h)
  {
    var last := h[|h| - 1];
    var rest := h[..|h| - 1];
    assert h == rest + [last];
    if rest != [] {
      SiftUpPerm(rest[0 := last], 0);
      calc {
        multiset(rest[0 := last]) + multiset{rest[0]};
        multiset(rest) - multiset{rest[0]} + multiset{last} + multiset{rest[0]};
        multiset(h);
      }
    }
  }

  // ----- The heap property -----

  /**
   * The heap property holds except between `pos` and its parent, and the
   * parent of `pos` is not above the children of `pos`: what `SiftDown`
   * keeps while it moves an entry towards the root.
   */
  ghost predicate HeapBut(h: seq<Entry>, pos: nat)
  {
    && (forall i | 0 < i < |h| && i != pos :: h[Parent(i)].priority <= h[i].priority)
    && (0 < pos ==> forall i | 0 < i < |h| && Parent(i) == pos :: h[Parent(pos)].priority <= h[i].priority)
  }

  lemma {:induction false} SiftDownHeap(h: seq<Entry>, pos: nat)
    requires pos < |h| && HeapBut(h, pos)
    ensures IsHeap(SiftDown(h, pos))
    decreases pos
  {
    if pos > 0 && Less(h[pos], h[Parent(pos)]) {
      var p := Parent(pos);
      var r := Swap(h, pos, p);
      forall i | 0 < i < |r| && i != p
        ensures r[Parent(i)].priority <= r[i].priority
      {
        if Parent(i) == p && i != pos {
          assert r[Parent(i)] == h[pos];
          assert h[p].priority <= h[i].priority;
        }
      }
      if 0 < p {
        forall i | 0 < i < |r| && Parent(i) == p
          ensures r[Parent(p)].priority <= r[i].priority
        {
          assert r[Parent(p)] == h[Parent(p)];
          assert h[Parent(p)].priority <= h[p].priority;
          if i != pos {
            assert h[p].priority <= h[i].priority;
          }
        }
      }
      SiftDownHeap(r, p);
    }
  }

  /**
   * What `SiftUp` keeps while the entry at `pos` moves down: the heap
   * property holds on every edge that does not touch `pos`, and the parent
   * of `pos` is not above the children of `pos`.
   */
  ghost predicate HeapAround(h: seq<Entry>, pos: nat)
  {
    && (forall i | 0 < i < |h| && i != pos && Parent(i) != pos :: h[Parent(i)].priority <= h[i].priority)
    && (0 < pos ==> forall i | 0 < i < |h| && Parent(i) == pos :: h[Parent(pos)].priority <= h[i].priority)
  }

  lemma ChildParent(i: nat, pos: nat)
    requires 0 < i
    ensures Parent(i) == pos <==> i == 2 * pos + 1 || i == 2 * pos + 2
  {
  }

  lemma {:induction false} SiftUpHeap(h: seq<Entry>, pos: nat)
    requires pos < |h| && HeapAround(h, pos)
    ensures IsHeap(SiftUp(h, pos))
    decreases |h| - pos
  {
    var child := 2 * pos + 1;
    if child < |h| {
      var c := if child + 1 < |h| && !Less(h[child], h[child + 1]) then child + 1 else child;
      var r := Swap(h, pos, c);
      assert Parent(c) == pos by { ChildParent(c, pos); }
      forall i | 0 < i < |r| && i != c && Parent(i) != c
        ensures r[Parent(i)].priority <= r[i].priority
      {
        ChildParent(i, pos);
        if i == pos {
          assert r[Parent(i)] == h[Parent(pos)];
          assert h[Parent(pos)].priority <= h[c].priority;
        } else if Parent(i) == pos {
          assert i == child || i == child + 1;
        }
      }
      forall i | 0 < i < |r| && Parent(i) == c
        ensures r[Parent(c)].priority <= r[i].priority
      {
        ChildParent(i, pos);
        assert r[i] == h[i];
      }
      SiftUpHeap(r, c);
    } else {
      forall i | 0 < i < |h|
        ensures Parent(i) != pos
      {
        ChildParent(i, pos);
      }
      SiftDownHeap(h, pos);
    }
  }

  /** `heappush` keeps the heap property. */
  lemma HeapPushHeap(h: seq<Entry>, e: Entry)
    requires IsHeap(h)
    ensures IsHeap(HeapPush(h, e))
  {
    SiftDownHeap(h + [e], |h|);
  }

  /** The root of a heap is below no entry. */
  lemma {:induction false} RootIsLeast(h: seq<Entry>, i: nat)
    requires IsHeap(h) && i < |h|
    ensures h[0].priority <= h[i].priority
    decreases i
  {
    if i > 0 {
      RootIsLeast(h, Parent(i));
    }
  }

  /**
   * `heappop` on a heap returns an entry of least priority, and what it
   * leaves behind is a heap again.
   */
  lemma HeapPopHeap(h: seq<Entry>)
    requires |h| > 0 && IsHeap(h)
    ensures IsHeap(HeapPop(h).rest)
    ensures forall f | f in h :: HeapPop(h).top.priority <= f.priority
  {
    forall f | f in h
      ensures h[0].priority <= f.priority
    {
      var i :| 0 <= i < |h| && h[i] == f;
      RootIsLeast(h, i);
    }
    var rest := h[..|h| - 1];
    if rest != [] {
      var g := rest[0 := h[|h| - 1]];
      forall i | 0 < i < |g| && Parent(i) != 0
        ensures g[Parent(i)].priority <= g[i].priority
      {
        assert g[i] == h[i] && g[Parent(i)] == h[Parent(i)];
      }
      SiftUpHeap(g, 0);
    }
  }

  // ----- One entry per node -----

  /** `heappush` of an entry for a node the heap does not hold keeps one entry per node. */
  lemma HeapPushDistinct(h: seq<Entry>, e: Entry)
    requires DistinctPos(h) && forall f | f in h :: f.pos != e.pos
    ensures DistinctPos(HeapPush(h, e))
  {
    var g := h + [e];
    forall i, j | 0 <= i < j < |g|
      ensures g[i].pos != g[j].pos
    {
      if j == |h| {
        assert g[i] in h;
      }
    }
    SiftDownPerm(g, |h|);
  }

  /**
   * `heappop` keeps one entry per node, and the node it returns has no
   * entry left.
   */
  lemma HeapPopDistinct(h: seq<Entry>)
    requires |h| > 0 && DistinctPos(h)
    ensures DistinctPos(HeapPop(h).rest)
    ensures forall f | f in HeapPop(h).rest :: f.pos != HeapPop(h).top.pos
  {
    var n := |h|;
    var rest := h[..n - 1];
    if rest != [] {
      var g := rest[0 := h[n - 1]];
      forall i, j | 0 <= i < j < |g|
        ensures g[i].pos != g[j].pos
      {
        var i' := if i == 0 then n - 1 else i;
        assert g[i] == h[i'] && g[j] == h[j];
      }
      SiftUpPerm(g, 0);
      forall f | f in HeapPop(h).rest
        ensures f.pos != h[0].pos
      {
        assert f in multiset(SiftUp(g, 0));
        assert f in g;
        var k :| 0 <= k < |g| && g[k] == f;
        var k' := if k == 0 then n - 1 else k;
        assert f == h[k'];
      }
    }
  }
}

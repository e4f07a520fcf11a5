/**
 * The search of `Astar` as the source writes it, on positions, kept beside
 * the corrected search of `Search` to exhibit where the two differ:
 *
 *  - an entry's priority is never lowered: a queued node whose cost drops
 *    keeps the entry it was queued with;
 *  - the path is rebuilt by following `previous` until a cell has none,
 *    including links an earlier search left behind.
 *
 * The search's tables are plain lists, so that a concrete run is a value
 * the verifier can compute: `cost` and the `previous` links are
 * association lists from cells, the newest binding first (a cell without
 * a cost has an infinite one, a cell without a link has `None`); `tSet`
 * is the list of its members, newest first. The queue is the heap of
 * `Heapq`, so the order in which entries of equal priority come out is
 * the one CPython's heap gives. Colours are left to `Search`.
 */
module AsWritten {
  import opened Grid
  import opened Heapq

  datatype List<T> = Nil | Cons(head: T, tail: List<T>)

  /** A value for some cells: the newest binding of a cell is the one that counts. */
  datatype Cells<T> = Empty | Bind(key: Pos, val: T, rest: Cells<T>)

  /**
   * The search's variables: `cost`, the heap, `tSet`, and every cell's
   * `previous` link, including those set by earlier searches on the
   * same grid.
   */
  datatype Search = Search(cost: Cells<nat>, queue: seq<Entry>, tSet: List<Pos>, prev: Cells<Pos>)

  /**
   * How the main loop ends: it pops the goal, or the heap runs empty, or
   * (in the model only) the bound on its rounds is reached first.
   */
  datatype Outcome = Found(final: Search) | Exhausted | OutOfFuel

  /** The elements of `s` from index `k` on, as a list. */
  function Items<T>(s: seq<T>, k: nat): List<T>
    decreases |s| - k
  {
    if k >= |s| then Nil else Cons(s[k], Items(s, k + 1))
  }

  /** The value held for the cell at `p`. */
  function Get<T>(t: Cells<T>, p: Pos): Option<T>
  {
    if t.Empty? then None else if t.key == p then Some(t.val) else Get(t.rest, p)
  }

  /** `t` with `v` held for the cell at `p`. */
  function Set<T>(t: Cells<T>, p: Pos, v: T): (r: Cells<T>)
    ensures forall q {:trigger Get(r, q)} :: Get(r, q) == if q == p then Some(v) else Get(t, q)
  {
    Bind(p, v, t)
  }

  /** Every cell holding a value lies inside a `rows` by `rows` grid. */
  ghost predicate Inside<T>(t: Cells<T>, rows: int)
  {
    forall p :: Get(t, p).Some? ==> InBounds(rows, p)
  }

  predicate Has<T(==)>(l: List<T>, x: T)
  {
    l.Cons? && (l.head == x || Has(l.tail, x))
  }

  /** No element occurs twice in `l`: `l` stands for a set. */
  predicate NoDup<T(==)>(l: List<T>)
  {
    l.Cons? ==> !Has(l.tail, l.head) && NoDup(l.tail)
  }

  /** `l` without the first occurrence of `x`: the set's `remove`. */
  function Remove<T(==)>(l: List<T>, x: T): List<T>
  {
    if l.Nil? then Nil else if l.head == x then l.tail else Cons(l.head, Remove(l.tail, x))
  }

  /** `c` is below `p`'s cost (a missing cost is infinite). */
  predicate Improves(cost: Cells<nat>, p: Pos, c: nat)
  {
    Get(cost, p).None? || c < Get(cost, p).value
  }

  /** `p` has a cost of at most `n`. */
  predicate AtMost(cost: Cells<nat>, p: Pos, n: nat)
  {
    Get<nat>(cost, p).Some? && Get<nat>(cost, p).value <= n
  }

  /**
   * The tables hold only cells of the `rows` by `rows` grid; the queue is
   * a heap; the nodes with an entry are exactly the members of `tSet`, each
   * with one entry and a cost; and `tSet` holds no node twice. So
   * `tSet.remove` never fails, and `tSet` tells whether a node is queued.
   */
  ghost predicate Tracked(rows: nat, s: Search)
  {
    && Inside(s.cost, rows) && Inside(s.prev, rows)
    && IsHeap(s.queue)
    && (forall e | e in s.queue :: Has(s.tSet, e.pos))
    && (forall p | Has(s.tSet, p) :: Get(s.cost, p).Some? && exists e | e in s.queue :: e.pos == p)
    && DistinctPos(s.queue)
    && NoDup(s.tSet)
  }

  /**
   * The state before the first pop, with the `previous` links `prev`
   * the cells already hold: only `start` has a cost, 0, and only `start`
   * is queued.
   */
  function Start(start: Pos, goal: Pos, prev: Cells<Pos>): Search
  {
    Search(Set(Empty, start, 0), HeapPush([], Entry(Heuristic(start, goal), start)), Cons(start, Nil), prev)
  }

  /**
   * One pass of the neighbour loop, `c` being the cost of `current`: a
   * cheaper route through `current` updates the cost and the predecessor,
   * and queues the neighbour only when it is not in `tSet` already.
   */
  function RelaxOne(goal: Pos, current: Pos, c: nat, s: Search, neighbor: Pos): Search
  {
    if Improves(s.cost, neighbor, c + 1) then
      if !Has(s.tSet, neighbor) then
        Search(Set<nat>(s.cost, neighbor, c + 1), HeapPush(s.queue, Entry(c + 1 + Heuristic(neighbor, goal), neighbor)),
               Cons(neighbor, s.tSet), Set(s.prev, neighbor, current))
      else
        Search(Set<nat>(s.cost, neighbor, c + 1), s.queue, s.tSet, Set(s.prev, neighbor, current))
    else
      s
  }

  /** The neighbour loop over `ns`, front to back. */
  function RelaxAll(goal: Pos, current: Pos, c: nat, s: Search, ns: List<Pos>): Search
    decreases ns
  {
    if ns.Nil? then s else RelaxAll(goal, current, c, RelaxOne(goal, current, c, s, ns.head), ns.tail)
  }

  /** The popped entry and the state after the pop. */
  datatype Step = Step(entry: Entry, after: Search)

  /** `pqueue.get()` and `tSet.remove(current)`: the heap's root leaves the heap and its node leaves `tSet`. */
  function Pop(s: Search): Step
    requires |s.queue| > 0
  {
    var p := HeapPop(s.queue);
    Step(p.top, Search(s.cost, p.rest, Remove(s.tSet, p.top.pos), s.prev))
  }

  /**
   * The neighbour loop of a popped node `current` that is not the goal. A
   * node without a cost has an infinite one, through which no neighbour
   * improves (a tracked state never pops one: `PoppedIsTracked`).
   */
  function Round(rows: nat, barriers: set<Pos>, goal: Pos, s: Search, current: Pos): Search
  {
    match Get(s.cost, current)
    case None => s
    case Some(c) => RelaxAll(goal, current, c, s, Items(NeighborPositions(rows, barriers, current), 0))
  }

  /**
   * The main loop of `Astar`, for at most `fuel` more rounds. Popping the
   * goal ends the search with `Found`; an empty heap ends it with
   * `Exhausted`.
   */
  function Loop(rows: nat, barriers: set<Pos>, goal: Pos, s: Search, fuel: nat): Outcome
    decreases fuel
  {
    if |s.queue| == 0 then Exhausted
    else if fuel == 0 then OutOfFuel
    else
      var step := Pop(s);
      if step.entry.pos == goal then Found(step.after)
      else Loop(rows, barriers, goal, Round(rows, barriers, goal, step.after, step.entry.pos), fuel - 1)
  }

  /** `Astar` from `start` to `goal` on cells that already hold the `previous` links `prev`. */
  function Run(rows: nat, barriers: set<Pos>, start: Pos, goal: Pos, prev: Cells<Pos>, fuel: nat): Outcome
  {
    Loop(rows, barriers, goal, Start(start, goal, prev), fuel)
  }

  /**
   * The reconstruction loop as written: starting at `n`, paint and step
   * back while the cell has a `previous`. Returns the painted cells, or
   * `None` when `fuel` steps did not reach a cell without `previous`.
   * The cells painted are a chain of `previous` links from `n`, each with a
   * `previous`, and the loop stops at the first cell without one.
   */
  function Painted(prev: Cells<Pos>, n: Pos, fuel: nat): (r: Option<seq<Pos>>)
    ensures r == Some([]) <==> Get(prev, n).None?
    ensures r.Some? && r.value != [] ==>
      && r.value[0] == n
      && (forall i | 0 <= i < |r.value| :: Get(prev, r.value[i]).Some?)
      && (forall i | 0 <= i < |r.value| - 1 :: Get(prev, r.value[i]).value == r.value[i + 1])
      && Get(prev, Get(prev, r.value[|r.value| - 1]).value).None?
    ensures r.Some? ==> |r.value| <= fuel
    decreases fuel
  {
    if Get(prev, n).None? then Some([])
    else if fuel == 0 then None
    else
      match Painted(prev, Get(prev, n).value, fuel - 1)
      case Some(rest) => Some([n] + rest)
      case None => None
  }

  // ----- What the loop keeps -----

  /** The list of `s[k..]` holds exactly the elements of `s[k..]`. */
  lemma {:induction false} ItemsHas<T>(s: seq<T>, k: nat, x: T)
    requires k <= |s|
    ensures Has(Items(s, k), x) <==> x in s[k..]
    decreases |s| - k
  {
    if k < |s| {
      ItemsHas(s, k + 1, x);
      assert s[k..] == [s[k]] + s[k + 1..];
    }
  }

  /** Removing `x` from a list without duplicates keeps every other member, drops `x`, and adds none. */
  lemma {:induction false} RemoveHas<T>(l: List<T>, x: T, y: T)
    requires NoDup(l)
    ensures NoDup(Remove(l, x))
    ensures Has(Remove(l, x), y) <==> Has(l, y) && y != x
    decreases l
  {
    if l.Cons? && l.head != x {
      RemoveHas(l.tail, x, y);
      RemoveHas(l.tail, x, l.head);
    }
  }

  /** The start state is tracked: only `start` is queued, with cost 0. */
  lemma StartIsTracked(rows: nat, start: Pos, goal: Pos, prev: Cells<Pos>)
    requires InBounds(rows, start) && Inside(prev, rows)
    ensures var s := Start(start, goal, prev);
      && Tracked(rows, s) && Get(s.cost, start) == Some(0)
      && (forall p :: p != start ==> Get(s.cost, p).None?)
      && s.queue == [Entry(Heuristic(start, goal), start)]
  {
    var s := Start(start, goal, prev);
    assert s.queue == [Entry(Heuristic(start, goal), start)];
    assert s.queue[0] in s.queue;
  }

  /**
   * The node popped from a tracked heap has an entry of least priority, is
   * in `tSet` and has a cost; after the pop it is neither queued nor in
   * `tSet`, every other member of `tSet` stays, and the state is tracked.
   * So the pop's `tSet.remove` never fails and the loop's lookup of the
   * popped node's cost never misses.
   */
  lemma PoppedIsTracked(rows: nat, s: Search)
    requires Tracked(rows, s) && |s.queue| > 0
    ensures var step := Pop(s); var e := step.entry; var t := step.after;
      && e in s.queue && (forall f | f in s.queue :: e.priority <= f.priority)
      && Has(s.tSet, e.pos) && Get(s.cost, e.pos).Some? && InBounds(rows, e.pos)
      && multiset(t.queue) == multiset(s.queue) - multiset{e}
      && (forall p :: Has(t.tSet, p) <==> Has(s.tSet, p) && p != e.pos)
      && t.cost == s.cost && t.prev == s.prev
      && Tracked(rows, t)
  {
    var step := Pop(s);
    var e := step.entry;
    var t := step.after;
    assert e in s.queue by { assert s.queue[0] == e; }
    HeapPopHeap(s.queue);
    HeapPopPerm(s.queue);
    HeapPopDistinct(s.queue);
    forall p
      ensures Has(t.tSet, p) <==> Has(s.tSet, p) && p != e.pos
    {
      RemoveHas(s.tSet, e.pos, p);
    }
    RemoveHas(s.tSet, e.pos, e.pos);
    TrackedAfterPop(rows, s, e, t);
  }

  /** The invariant after a pop, from what the pop does to the heap and to `tSet`. */
  lemma TrackedAfterPop(rows: nat, s: Search, e: Entry, t: Search)
    requires Tracked(rows, s) && e in s.queue
    requires multiset(t.queue) == multiset(s.queue) - multiset{e} && IsHeap(t.queue)
    requires DistinctPos(t.queue) && forall f | f in t.queue :: f.pos != e.pos
    requires forall p :: Has(t.tSet, p) <==> Has(s.tSet, p) && p != e.pos
    requires NoDup(t.tSet) && t.cost == s.cost && t.prev == s.prev
    ensures Tracked(rows, t)
  {
    var q := multiset(s.queue);
    forall f | f in t.queue
      ensures Has(t.tSet, f.pos)
    {
      assert f in multiset(t.queue);
      assert f in q;
    }
    forall p | Has(t.tSet, p)
      ensures Get(t.cost, p).Some? && exists f | f in t.queue :: f.pos == p
    {
      var f :| f in s.queue && f.pos == p;
      assert f != e;
      assert f in multiset(t.queue);
    }
  }

  /**
   * What one relaxation of `neighbor` through `current`, at cost `c`, does
   * (lines 121-129): when `c + 1` improves the neighbour's cost, the
   * neighbour gets that cost and `current` as its `previous`; if it was not
   * in `tSet`, it joins `tSet` and one entry at `c + 1` plus its heuristic
   * joins the heap; if it was, the heap is left as it was, whatever its
   * entry's priority (the stale priority). No other cost, link or member
   * changes.
   */
  ghost predicate RelaxedOnce(goal: Pos, current: Pos, c: nat, s: Search, neighbor: Pos, r: Search)
  {
    var improves := Improves(s.cost, neighbor, c + 1);
    var pushes := improves && !Has(s.tSet, neighbor);
    && Get(r.cost, neighbor) == (if improves then Some(c + 1) else Get(s.cost, neighbor))
    && Get(r.prev, neighbor) == (if improves then Some(current) else Get(s.prev, neighbor))
    && (forall p :: p != neighbor ==> Get(r.cost, p) == Get(s.cost, p) && Get(r.prev, p) == Get(s.prev, p))
    && multiset(r.queue) == multiset(s.queue) + (if pushes then multiset{Entry(c + 1 + Heuristic(neighbor, goal), neighbor)} else multiset{})
    && (forall p :: Has(r.tSet, p) <==> Has(s.tSet, p) || (pushes && p == neighbor))
  }

  lemma RelaxOneEffect(goal: Pos, current: Pos, c: nat, s: Search, neighbor: Pos)
    ensures RelaxedOnce(goal, current, c, s, neighbor, RelaxOne(goal, current, c, s, neighbor))
  {
    HeapPushPerm(s.queue, Entry(c + 1 + Heuristic(neighbor, goal), neighbor));
  }

  /** One relaxation of a neighbour inside the grid does what `RelaxedOnce` says and keeps the state tracked. */
  lemma RelaxOneSpec(rows: nat, goal: Pos, current: Pos, c: nat, s: Search, neighbor: Pos)
    requires Tracked(rows, s) && InBounds(rows, neighbor) && InBounds(rows, current)
    ensures var r := RelaxOne(goal, current, c, s, neighbor);
      RelaxedOnce(goal, current, c, s, neighbor, r) && Tracked(rows, r)
  {
    RelaxOneEffect(goal, current, c, s, neighbor);
    var r := RelaxOne(goal, current, c, s, neighbor);
    if Improves(s.cost, neighbor, c + 1) && !Has(s.tSet, neighbor) {
      var e := Entry(c + 1 + Heuristic(neighbor, goal), neighbor);
      HeapPushHeap(s.queue, e);
      HeapPushDistinct(s.queue, e);
      TrackedAfterPush(rows, s, e, r);
    } else if Improves(s.cost, neighbor, c + 1) {
      TrackedAfterImprove(rows, s, neighbor, c + 1, current, r);
    }
  }

  /** The invariant after a neighbour not in `tSet` gets a cost, a link, an entry and a place in `tSet`. */
  lemma TrackedAfterPush(rows: nat, s: Search, e: Entry, r: Search)
    requires Tracked(rows, s) && InBounds(rows, e.pos) && !Has(s.tSet, e.pos)
    requires multiset(r.queue) == multiset(s.queue) + multiset{e} && IsHeap(r.queue) && DistinctPos(r.queue)
    requires r.tSet == Cons(e.pos, s.tSet)
    requires Get(r.cost, e.pos).Some? && forall p :: p != e.pos ==> Get(r.cost, p) == Get(s.cost, p)
    requires Get(r.prev, e.pos).Some? && forall p :: p != e.pos ==> Get(r.prev, p) == Get(s.prev, p)
    ensures Tracked(rows, r)
  {
    var rq := multiset(r.queue);
    forall f | f in r.queue
      ensures Has(r.tSet, f.pos)
    {
      assert f in rq;
    }
    forall p | Has(r.tSet, p)
      ensures Get(r.cost, p).Some? && exists f | f in r.queue :: f.pos == p
    {
      if p == e.pos {
        assert e in rq;
      } else {
        assert Has(s.tSet, p);
        var f :| f in s.queue && f.pos == p;
        assert f in rq;
      }
    }
  }

  /** The invariant after a neighbour in `tSet` gets a lower cost and a new link, the heap and `tSet` unchanged. */
  lemma TrackedAfterImprove(rows: nat, s: Search, n: Pos, c: nat, current: Pos, r: Search)
    requires Tracked(rows, s) && InBounds(rows, n) && InBounds(rows, current)
    requires r == Search(Set<nat>(s.cost, n, c), s.queue, s.tSet, Set(s.prev, n, current))
    ensures Tracked(rows, r)
  {
    forall p | Has(r.tSet, p)
      ensures Get(r.cost, p).Some? && exists f | f in r.queue :: f.pos == p
    {
      var f :| f in s.queue && f.pos == p;
    }
  }

  /**
   * The whole neighbour loop keeps every queued entry and every member of
   * `tSet`, only lowers costs, and leaves every neighbour listed with a cost
   * of at most `c + 1`; a cell that gains a cost joins `tSet`.
   */
  lemma {:induction false} RelaxAllEffect(goal: Pos, current: Pos, c: nat, s: Search, ns: List<Pos>)
    ensures var r := RelaxAll(goal, current, c, s, ns);
      && multiset(s.queue) <= multiset(r.queue)
      && (forall p :: Has(s.tSet, p) ==> Has(r.tSet, p))
      && (forall p :: Get(s.cost, p).Some? ==> AtMost(r.cost, p, Get(s.cost, p).value))
      && (forall p :: Get(s.cost, p).None? && Get(r.cost, p).Some? ==> Has(r.tSet, p))
      && (forall p :: Has(ns, p) ==> AtMost(r.cost, p, c + 1))
    decreases ns
  {
    if ns.Cons? {
      var t := RelaxOne(goal, current, c, s, ns.head);
      RelaxOneEffect(goal, current, c, s, ns.head);
      RelaxAllEffect(goal, current, c, t, ns.tail);
    }
  }

  /** The whole neighbour loop over cells inside the grid keeps the state tracked. */
  lemma {:induction false} RelaxAllSpec(rows: nat, goal: Pos, current: Pos, c: nat, s: Search, ns: List<Pos>)
    requires Tracked(rows, s) && InBounds(rows, current) && forall p :: Has(ns, p) ==> InBounds(rows, p)
    ensures Tracked(rows, RelaxAll(goal, current, c, s, ns))
    decreases ns
  {
    if ns.Cons? {
      RelaxOneSpec(rows, goal, current, c, s, ns.head);
      RelaxAllSpec(rows, goal, current, c, RelaxOne(goal, current, c, s, ns.head), ns.tail);
    }
  }

  /**
   * Every state the loop reaches from a tracked state is tracked, so every
   * pop finds its node in `tSet` and with a cost (`PoppedIsTracked`); when
   * the loop finds the goal, the goal has a cost and is no longer queued.
   */
  lemma {:induction false} LoopKeepsTracked(rows: nat, barriers: set<Pos>, goal: Pos, s: Search, fuel: nat)
    requires Tracked(rows, s)
    ensures var o := Loop(rows, barriers, goal, s, fuel);
      o.Found? ==> Tracked(rows, o.final) && Get(o.final.cost, goal).Some? && !Has(o.final.tSet, goal)
    decreases fuel
  {
    if |s.queue| > 0 && fuel > 0 {
      PoppedIsTracked(rows, s);
      var step := Pop(s);
      if step.entry.pos != goal {
        RoundSpec(rows, barriers, goal, step.after, step.entry.pos);
        LoopKeepsTracked(rows, barriers, goal, Round(rows, barriers, goal, step.after, step.entry.pos), fuel - 1);
      }
    }
  }

  /**
   * The fuel bound only cuts the loop short: once `fuel` rounds end the
   * search, any larger fuel ends it the same way.
   */
  lemma {:induction false} LoopMoreFuel(rows: nat, barriers: set<Pos>, goal: Pos, s: Search, fuel: nat, more: nat)
    requires Loop(rows, barriers, goal, s, fuel) != OutOfFuel && fuel <= more
    ensures Loop(rows, barriers, goal, s, more) == Loop(rows, barriers, goal, s, fuel)
    decreases fuel
  {
    if |s.queue| > 0 {
      var step := Pop(s);
      if step.entry.pos != goal {
        LoopMoreFuel(rows, barriers, goal, Round(rows, barriers, goal, step.after, step.entry.pos), fuel - 1, more - 1);
      }
    }
  }

  /** A round over the neighbours of a tracked node with a cost keeps the state tracked and gives every neighbour a cost. */
  lemma RoundSpec(rows: nat, barriers: set<Pos>, goal: Pos, t: Search, current: Pos)
    requires Tracked(rows, t) && InBounds(rows, current)
    ensures var r := Round(rows, barriers, goal, t, current);
      && Tracked(rows, r)
      && (forall p :: Has(t.tSet, p) ==> Has(r.tSet, p))
      && (forall p :: Get(t.cost, p).Some? ==> Get(r.cost, p).Some?)
      && (forall p :: Get(t.cost, p).None? && Get(r.cost, p).Some? ==> Has(r.tSet, p))
      && (Get(t.cost, current).Some? ==> forall q | q in NeighborPositions(rows, barriers, current) :: Get(r.cost, q).Some?)
  {
    if Get(t.cost, current).Some? {
      var ns := NeighborPositions(rows, barriers, current);
      NeighborPositionsSound(rows, barriers, current);
      forall p | Has(Items(ns, 0), p)
        ensures InBounds(rows, p)
      {
        ItemsHas(ns, 0, p);
      }
      forall q | q in ns
        ensures Has(Items(ns, 0), q)
      {
        ItemsHas(ns, 0, q);
      }
      RelaxAllSpec(rows, goal, current, Get(t.cost, current).value, t, Items(ns, 0));
      RelaxAllEffect(goal, current, Get(t.cost, current).value, t, Items(ns, 0));
    }
  }

  // ----- What an empty heap means -----

  /**
   * Every cell with a cost that has left `tSet` has all its neighbours
   * with a cost, and the goal, once it has a cost, is in `tSet` until it is
   * popped.
   */
  ghost predicate Closed(rows: nat, barriers: set<Pos>, goal: Pos, s: Search)
  {
    && (forall p | Get(s.cost, p).Some? && !Has(s.tSet, p) ::
          forall q | q in NeighborPositions(rows, barriers, p) :: Get(s.cost, q).Some?)
    && (Get(s.cost, goal).Some? ==> Has(s.tSet, goal))
  }

  /** A round of the loop that pops a node other than the goal keeps `Closed`. */
  lemma RoundKeepsClosed(rows: nat, barriers: set<Pos>, goal: Pos, s: Search)
    requires Tracked(rows, s) && Closed(rows, barriers, goal, s) && |s.queue| > 0
    requires Pop(s).entry.pos != goal
    ensures var step := Pop(s); var r := Round(rows, barriers, goal, step.after, step.entry.pos);
      && Tracked(rows, r) && Closed(rows, barriers, goal, r)
      && (forall p :: Get(s.cost, p).Some? ==> Get(r.cost, p).Some?)
  {
    PoppedIsTracked(rows, s);
    var step := Pop(s);
    var t := step.after;
    var cur := step.entry.pos;
    RoundSpec(rows, barriers, goal, t, cur);
    var r := Round(rows, barriers, goal, t, cur);
    forall p | Get(r.cost, p).Some? && !Has(r.tSet, p)
      ensures forall q | q in NeighborPositions(rows, barriers, p) :: Get(r.cost, q).Some?
    {
      assert Get(t.cost, p).Some? && !Has(t.tSet, p);
      if p != cur {
        assert !Has(s.tSet, p);
      }
    }
  }

  /** `q` is a walk of cells, each a neighbour of the one before under the neighbour rule. */
  predicate PosWalk(rows: int, barriers: set<Pos>, q: seq<Pos>)
  {
    && |q| > 0
    && forall i :: 0 <= i < |q| - 1 ==> q[i + 1] in NeighborPositions(rows, barriers, q[i])
  }

  /** When `tSet` is empty and `Closed` holds, every cell of a walk from a cell with a cost has a cost, and none is the goal. */
  lemma {:induction false} WalkStaysCosted(rows: nat, barriers: set<Pos>, goal: Pos, s: Search, w: seq<Pos>, k: nat)
    requires Closed(rows, barriers, goal, s) && s.tSet.Nil?
    requires PosWalk(rows, barriers, w) && Get(s.cost, w[0]).Some? && k < |w|
    ensures Get(s.cost, w[k]).Some? && w[k] != goal
    decreases k
  {
    if k > 0 {
      WalkStaysCosted(rows, barriers, goal, s, w, k - 1);
    }
  }

  /** A tracked state with an empty heap has an empty `tSet`. */
  lemma EmptyQueueEmptyTSet(rows: nat, s: Search)
    requires Tracked(rows, s) && |s.queue| == 0
    ensures s.tSet.Nil?
  {
    if s.tSet.Cons? {
      assert Has(s.tSet, s.tSet.head);
    }
  }

  /**
   * If the loop ends with an empty heap, it ends in a state `f` that keeps
   * every cost of `s`, whose `tSet` is empty and which is still `Closed`:
   * every neighbour of a cell with a cost has one, and the goal has none.
   */
  lemma {:induction false} LoopExhausted(rows: nat, barriers: set<Pos>, goal: Pos, s: Search, fuel: nat) returns (f: Search)
    requires Tracked(rows, s) && Closed(rows, barriers, goal, s)
    requires Loop(rows, barriers, goal, s, fuel) == Exhausted
    ensures Closed(rows, barriers, goal, f) && f.tSet.Nil?
    ensures forall p :: Get(s.cost, p).Some? ==> Get(f.cost, p).Some?
    decreases fuel
  {
    if |s.queue| == 0 {
      EmptyQueueEmptyTSet(rows, s);
      f := s;
    } else {
      var r := ExhaustedRound(rows, barriers, goal, s, fuel);
      f := LoopExhausted(rows, barriers, goal, r, fuel - 1);
    }
  }

  /**
   * A loop that ends with `Exhausted` from a state with a non-empty heap
   * pops a node other than the goal; the round after it, `r`, keeps
   * `Tracked` and `Closed`, keeps every cost, and ends the same way.
   */
  lemma ExhaustedRound(rows: nat, barriers: set<Pos>, goal: Pos, s: Search, fuel: nat) returns (r: Search)
    requires Tracked(rows, s) && Closed(rows, barriers, goal, s)
    requires |s.queue| > 0 && Loop(rows, barriers, goal, s, fuel) == Exhausted
    ensures fuel > 0 && Loop(rows, barriers, goal, r, fuel - 1) == Exhausted
    ensures Tracked(rows, r) && Closed(rows, barriers, goal, r)
    ensures forall p :: Get(s.cost, p).Some? ==> Get(r.cost, p).Some?
  {
    var step := Pop(s);
    assert fuel > 0 && step.entry.pos != goal;
    RoundKeepsClosed(rows, barriers, goal, s);
    r := Round(rows, barriers, goal, step.after, step.entry.pos);
  }

  /**
   * The search as written ends with `Exhausted` only when the goal cannot
   * be reached: no walk under the neighbour rule leads from `start` to it.
   */
  lemma ExhaustedMeansUnreachable(rows: nat, barriers: set<Pos>, start: Pos, goal: Pos, prev: Cells<Pos>, fuel: nat, w: seq<Pos>)
    requires InBounds(rows, start) && Inside(prev, rows)
    requires Run(rows, barriers, start, goal, prev, fuel) == Exhausted
    requires PosWalk(rows, barriers, w) && w[0] == start
    ensures w[|w| - 1] != goal
  {
    StartIsTracked(rows, start, goal, prev);
    var f := LoopExhausted(rows, barriers, goal, Start(start, goal, prev), fuel);
    WalkStaysCosted(rows, barriers, goal, f, w, |w| - 1);
  }

  /** Following `previous` around a two-cell cycle never reaches a cell without one. */
  lemma {:induction false} CycleNeverEnds(prev: Cells<Pos>, a: Pos, b: Pos, fuel: nat)
    requires Get(prev, a) == Some(b) && Get(prev, b) == Some(a)
    ensures Painted(prev, a, fuel) == None && Painted(prev, b, fuel) == None
    ensures forall n :: Get(prev, n) == Some(a) ==> Painted(prev, n, fuel) == None
    decreases fuel
  {
    if fuel > 0 {
      CycleNeverEnds(prev, a, b, fuel - 1);
    }
  }
}

/**
 * What the search as written paints when it pops the goal on cells that
 * hold no `previous` links yet, as `make_grid` leaves them: the loop at
 * the top of `Astar`'s success branch ends, and the cells it paints are a
 * chain of neighbour steps back to `start` whose length is the goal's cost.
 *
 * The links a run sets are not always tight: a cell whose cost drops after
 * it was expanded leaves the cells linked to it one step too dear. The
 * invariant `Settled` says that such a cell is queued with an entry that
 * comes out before the goal's, so no loose link lies on the goal's chain
 * when the goal is popped.
 */
module FoundPath {
  import opened Grid
  import opened Heapq
  import opened AsWritten

  /** The link of `n` to `m` is tight: `m` costs exactly one less than `n` and is not queued. */
  ghost predicate TightLink(s: Search, n: Pos, m: Pos)
  {
    && Get<nat>(s.cost, m).Some? && Get<nat>(s.cost, n).Some?
    && Get<nat>(s.cost, m).value + 1 == Get<nat>(s.cost, n).value
    && !Has(s.tSet, m)
  }

  /**
   * The link of `n` to `m` is loose: `m` costs less than `n`, and `m` has
   * an entry whose priority is at least two below `n`'s cost plus `m`'s
   * heuristic.
   */
  ghost predicate QueuedLink(goal: Pos, s: Search, n: Pos, m: Pos)
  {
    && Get<nat>(s.cost, m).Some? && Get<nat>(s.cost, n).Some?
    && Get<nat>(s.cost, m).value < Get<nat>(s.cost, n).value
    && exists e | e in s.queue :: e.pos == m && e.priority + 2 <= Get<nat>(s.cost, n).value + Heuristic(m, goal)
  }

  /**
   * Inside the neighbour loop of `current`, at cost `c`: the link of `n`
   * to `current` is loose, and `n` is still to be relaxed.
   */
  ghost predicate Pending(s: Search, current: Pos, c: nat, ns: List<Pos>, n: Pos, m: Pos)
  {
    m == current && Has(ns, n) && Get<nat>(s.cost, n).Some? && c + 1 < Get<nat>(s.cost, n).value
  }

  /** `n` is a cell of the grid, not a barrier, one step from `m`: a neighbour of `m` under the neighbour rule. */
  predicate StepFrom(rows: nat, barriers: set<Pos>, m: Pos, n: Pos)
  {
    InBounds(rows, n) && n !in barriers && Adjacent(m, n)
  }

  /**
   * The links of a run that started on cells without links, while the
   * neighbours `ns` of `current` are still to be relaxed: `start` costs 0;
   * every other cell with a cost has a link; every link is a step of the
   * neighbour rule and is tight, queued or pending; and no entry's
   * priority is below its node's cost plus heuristic.
   */
  ghost predicate Linked(rows: nat, barriers: set<Pos>, start: Pos, goal: Pos, s: Search, current: Pos, c: nat, ns: List<Pos>)
  {
    && Get<nat>(s.cost, start) == Some(0)
    && (forall n :: Get<nat>(s.cost, n).Some? && n != start ==> Get(s.prev, n).Some?)
    && (forall n :: Get(s.prev, n).Some? ==>
          && StepFrom(rows, barriers, Get(s.prev, n).value, n)
          && (|| TightLink(s, n, Get(s.prev, n).value)
              || QueuedLink(goal, s, n, Get(s.prev, n).value)
              || Pending(s, current, c, ns, n, Get(s.prev, n).value)))
    && (forall e | e in s.queue :: Get<nat>(s.cost, e.pos).Some? && Get<nat>(s.cost, e.pos).value + Heuristic(e.pos, goal) <= e.priority)
  }

  /** `Linked` between rounds, with nothing pending. */
  ghost predicate Settled(rows: nat, barriers: set<Pos>, start: Pos, goal: Pos, s: Search)
  {
    Linked(rows, barriers, start, goal, s, start, 0, Nil)
  }

  /** The state before the first pop, on cells without links, is settled. */
  lemma StartSettled(rows: nat, barriers: set<Pos>, start: Pos, goal: Pos)
    ensures Settled(rows, barriers, start, goal, Start(start, goal, Empty))
  {
    var s := Start(start, goal, Empty);
    assert s.queue == [Entry(Heuristic(start, goal), start)];
  }

  /**
   * A pop of the entry `e0` from a settled state, `t` being the state
   * after it: every loose link to the popped node is pending on the
   * neighbour loop `ns` of the neighbour rule the popped node is about to
   * run, and every other link stays as it was.
   */
  lemma PopLinked(rows: nat, barriers: set<Pos>, start: Pos, goal: Pos, s: Search, e0: Entry, t: Search, c: nat)
    requires Settled(rows, barriers, start, goal, s) && InBounds(rows, e0.pos)
    requires e0 in s.queue && Has(s.tSet, e0.pos) && Get<nat>(s.cost, e0.pos) == Some(c)
    requires multiset(t.queue) == multiset(s.queue) - multiset{e0}
    requires forall p :: Has(t.tSet, p) <==> Has(s.tSet, p) && p != e0.pos
    requires t.cost == s.cost && t.prev == s.prev
    ensures Linked(rows, barriers, start, goal, t, e0.pos, c, Items(NeighborPositions(rows, barriers, e0.pos), 0))
  {
    var cur := e0.pos;
    var ns := Items(NeighborPositions(rows, barriers, cur), 0);
    forall n | Get(t.prev, n).Some?
      ensures var m := Get(t.prev, n).value;
        TightLink(t, n, m) || QueuedLink(goal, t, n, m) || Pending(t, cur, c, ns, n, m)
    {
      var m := Get(t.prev, n).value;
      if m == cur {
        assert !TightLink(s, n, m);
        var e :| e in s.queue && e.pos == m && e.priority + 2 <= Get<nat>(s.cost, n).value + Heuristic(m, goal);
        NeighborPositionsComplete(rows, barriers, cur, n);
        ItemsHas(NeighborPositions(rows, barriers, cur), 0, n);
      } else if QueuedLink(goal, s, n, m) {
        var e :| e in s.queue && e.pos == m && e.priority + 2 <= Get<nat>(s.cost, n).value + Heuristic(m, goal);
        assert e in multiset(t.queue);
      }
    }
    forall f | f in t.queue
      ensures Get<nat>(t.cost, f.pos).Some? && Get<nat>(t.cost, f.pos).value + Heuristic(f.pos, goal) <= f.priority
    {
      assert f in multiset(t.queue);
      assert f in multiset(s.queue);
    }
  }

  /**
   * One relaxation of the neighbour `nb` of `current`, `r` being the state
   * after it, keeps the links `Linked`, with `nb` no longer pending.
   */
  lemma RelaxOneLinked(rows: nat, barriers: set<Pos>, start: Pos, goal: Pos, current: Pos, c: nat, s: Search, nb: Pos, ns: List<Pos>, r: Search)
    requires Linked(rows, barriers, start, goal, s, current, c, Cons(nb, ns))
    requires Get<nat>(s.cost, current) == Some(c) && !Has(s.tSet, current)
    requires StepFrom(rows, barriers, current, nb)
    requires RelaxedOnce(goal, current, c, s, nb, r)
    ensures Linked(rows, barriers, start, goal, r, current, c, ns)
  {
    var improves := Improves(s.cost, nb, c + 1);
    var pushes := improves && !Has(s.tSet, nb);
    var e := Entry(c + 1 + Heuristic(nb, goal), nb);
    forall n | Get(r.prev, n).Some?
      ensures var m := Get(r.prev, n).value;
        StepFrom(rows, barriers, m, n) && (TightLink(r, n, m) || QueuedLink(goal, r, n, m) || Pending(r, current, c, ns, n, m))
    {
      var m := Get(r.prev, n).value;
      if n == nb && improves {
        assert TightLink(r, n, m);
      } else if QueuedLink(goal, s, n, m) {
        var f :| f in s.queue && f.pos == m && f.priority + 2 <= Get<nat>(s.cost, n).value + Heuristic(m, goal);
        assert f in multiset(r.queue);
        assert QueuedLink(goal, r, n, m);
      } else if TightLink(s, n, m) && m == nb && improves {
        assert e in multiset(r.queue);
        assert QueuedLink(goal, r, n, m);
      }
    }
    forall f | f in r.queue
      ensures Get<nat>(r.cost, f.pos).Some? && Get<nat>(r.cost, f.pos).value + Heuristic(f.pos, goal) <= f.priority
    {
      assert f in multiset(r.queue);
      if f != e || !pushes {
        assert f in multiset(s.queue);
      }
    }
  }

  /** The whole neighbour loop of `current` over steps of the neighbour rule leaves nothing pending. */
  lemma {:induction false} RelaxAllLinked(rows: nat, barriers: set<Pos>, start: Pos, goal: Pos, current: Pos, c: nat, s: Search, ns: List<Pos>)
    requires Linked(rows, barriers, start, goal, s, current, c, ns)
    requires Get<nat>(s.cost, current) == Some(c) && !Has(s.tSet, current)
    requires forall p :: Has(ns, p) ==> StepFrom(rows, barriers, current, p)
    ensures Linked(rows, barriers, start, goal, RelaxAll(goal, current, c, s, ns), current, c, Nil)
    decreases ns
  {
    if ns.Cons? {
      var r := RelaxOne(goal, current, c, s, ns.head);
      RelaxOneEffect(goal, current, c, s, ns.head);
      RelaxOneLinked(rows, barriers, start, goal, current, c, s, ns.head, ns.tail, r);
      RelaxAllLinked(rows, barriers, start, goal, current, c, r, ns.tail);
    }
  }

  /** A round of the loop from a settled, tracked state, popping a node other than the goal, leaves a settled, tracked state `r`. */
  lemma RoundSettled(rows: nat, barriers: set<Pos>, start: Pos, goal: Pos, s: Search) returns (r: Search)
    requires Tracked(rows, s) && Settled(rows, barriers, start, goal, s) && |s.queue| > 0
    ensures r == Round(rows, barriers, goal, Pop(s).after, Pop(s).entry.pos)
    ensures Tracked(rows, r) && Settled(rows, barriers, start, goal, r)
  {
    PoppedIsTracked(rows, s);
    var step := Pop(s);
    var cur := step.entry.pos;
    var t := step.after;
    var c := Get<nat>(t.cost, cur).value;
    var ns := NeighborPositions(rows, barriers, cur);
    PopLinked(rows, barriers, start, goal, s, step.entry, t, c);
    NeighborPositionsSound(rows, barriers, cur);
    forall p | Has(Items(ns, 0), p)
      ensures StepFrom(rows, barriers, cur, p)
    {
      ItemsHas(ns, 0, p);
    }
    RelaxAllLinked(rows, barriers, start, goal, cur, c, t, Items(ns, 0));
    RoundSpec(rows, barriers, goal, t, cur);
    r := Round(rows, barriers, goal, t, cur);
  }

  /**
   * In a settled state whose least entry `eg` is the goal's, the chain of
   * links from a cell `n` whose cost plus heuristic is at most the goal's
   * cost is tight all the way back to `start`: it is painted with exactly
   * `n`'s cost cells, the last one linked to `start`.
   */
  lemma {:induction false} ChainTight(rows: nat, barriers: set<Pos>, start: Pos, goal: Pos, s: Search, eg: Entry, n: Pos, fuel: nat)
    requires Settled(rows, barriers, start, goal, s)
    requires eg in s.queue && eg.pos == goal && (forall f | f in s.queue :: eg.priority <= f.priority)
    requires Get<nat>(s.cost, goal).Some? && Get<nat>(s.cost, n).Some?
    requires Get<nat>(s.cost, n).value + Heuristic(n, goal) <= Get<nat>(s.cost, goal).value
    requires Get<nat>(s.cost, n).value <= fuel
    ensures var r := Painted(s.prev, n, fuel);
      && r.Some? && |r.value| == Get<nat>(s.cost, n).value
      && (|r.value| > 0 ==> Get(s.prev, r.value[|r.value| - 1]) == Some(start))
    decreases fuel
  {
    if Get(s.prev, n).Some? {
      var m := Get(s.prev, n).value;
      assert StepFrom(rows, barriers, m, n);
      HeuristicStep(m, n, goal);
      if !TightLink(s, n, m) {
        var e :| e in s.queue && e.pos == m && e.priority + 2 <= Get<nat>(s.cost, n).value + Heuristic(m, goal);
        HeuristicIsMetric(goal, goal, goal);
        assert false;
      }
      ChainTight(rows, barriers, start, goal, s, eg, m, fuel - 1);
    }
  }

  /**
   * What a found search leaves in `f`: the goal has a cost, and a link
   * unless it is `start`; every link is a step of the neighbour rule; and
   * the chain painted from the goal has as many cells as the goal's cost,
   * the last linked to `start`.
   */
  ghost predicate PathBack(rows: nat, barriers: set<Pos>, start: Pos, goal: Pos, f: Search)
  {
    && Get<nat>(f.cost, goal).Some? && (goal != start ==> Get(f.prev, goal).Some?)
    && (forall n :: Get(f.prev, n).Some? ==> StepFrom(rows, barriers, Get(f.prev, n).value, n))
    && var c := Get<nat>(f.cost, goal).value; var r := Painted(f.prev, goal, c);
       r.Some? && |r.value| == c && (c > 0 ==> Get(f.prev, r.value[c - 1]) == Some(start))
  }

  /** Popping the goal's entry `eg` from a settled state leaves `PathBack` in the state `f` after the pop. */
  lemma FoundHere(rows: nat, barriers: set<Pos>, start: Pos, goal: Pos, s: Search, eg: Entry, f: Search)
    requires Settled(rows, barriers, start, goal, s)
    requires eg in s.queue && eg.pos == goal && (forall e | e in s.queue :: eg.priority <= e.priority)
    requires f.cost == s.cost && f.prev == s.prev
    ensures PathBack(rows, barriers, start, goal, f)
  {
    HeuristicIsMetric(goal, goal, goal);
    ChainTight(rows, barriers, start, goal, s, eg, goal, Get<nat>(s.cost, goal).value);
  }

  /** Popping the goal from a settled, tracked state leaves `PathBack`. */
  lemma GoalPopped(rows: nat, barriers: set<Pos>, start: Pos, goal: Pos, s: Search)
    requires Tracked(rows, s) && Settled(rows, barriers, start, goal, s) && |s.queue| > 0
    requires Pop(s).entry.pos == goal
    ensures PathBack(rows, barriers, start, goal, Pop(s).after)
  {
    PoppedIsTracked(rows, s);
    FoundHere(rows, barriers, start, goal, s, Pop(s).entry, Pop(s).after);
  }

  /** A loop that finds the goal in the state `f` pops at least once: the goal, ending in `f`, or another node, going on to `f`. */
  lemma FoundUnfold(rows: nat, barriers: set<Pos>, goal: Pos, s: Search, fuel: nat, f: Search)
    requires Loop(rows, barriers, goal, s, fuel) == Found(f)
    ensures |s.queue| > 0 && fuel > 0
    ensures Pop(s).entry.pos == goal ==> f == Pop(s).after
    ensures Pop(s).entry.pos != goal ==>
      Loop(rows, barriers, goal, Round(rows, barriers, goal, Pop(s).after, Pop(s).entry.pos), fuel - 1) == Found(f)
  {
  }

  /** A loop from a settled, tracked state that finds the goal ends in a state `f` with `PathBack`. */
  lemma {:induction false} LoopFound(rows: nat, barriers: set<Pos>, start: Pos, goal: Pos, s: Search, fuel: nat, f: Search)
    requires Tracked(rows, s) && Settled(rows, barriers, start, goal, s)
    requires Loop(rows, barriers, goal, s, fuel) == Found(f)
    ensures PathBack(rows, barriers, start, goal, f)
    decreases fuel
  {
    FoundUnfold(rows, barriers, goal, s, fuel, f);
    if Pop(s).entry.pos == goal {
      GoalPopped(rows, barriers, start, goal, s);
    } else {
      var r := RoundSettled(rows, barriers, start, goal, s);
      LoopFound(rows, barriers, start, goal, r, fuel - 1, f);
    }
  }

  /** Once the reconstruction loop ends within `fuel` steps, more fuel paints the same cells. */
  lemma {:induction false} PaintedMoreFuel(prev: Cells<Pos>, n: Pos, fuel: nat, more: nat)
    requires Painted(prev, n, fuel).Some? && fuel <= more
    ensures Painted(prev, n, more) == Painted(prev, n, fuel)
    decreases fuel
  {
    if Get(prev, n).Some? {
      PaintedMoreFuel(prev, Get(prev, n).value, fuel - 1, more - 1);
    }
  }

  /**
   * A first search, on cells without `previous` links, that pops the goal
   * paints a path: the reconstruction loop ends, and the cells it paints,
   * from the goal back, are as many as the goal's cost; each is a grid
   * cell, not a barrier, one step from the next, and the last is one step
   * from `start` and linked to it.
   */
  lemma FoundPaintsPath(rows: nat, barriers: set<Pos>, start: Pos, goal: Pos, fuel: nat)
    requires InBounds(rows, start) && start != goal
    requires Run(rows, barriers, start, goal, Empty, fuel).Found?
    ensures var s := Run(rows, barriers, start, goal, Empty, fuel).final;
      && Get<nat>(s.cost, goal).Some? && Get<nat>(s.cost, goal).value > 0
      && var c := Get<nat>(s.cost, goal).value; var p := Painted(s.prev, goal, c);
         && p.Some? && |p.value| == c && p.value[0] == goal
         && Get(s.prev, p.value[c - 1]) == Some(start)
         && (forall i | 0 <= i < c - 1 :: StepFrom(rows, barriers, p.value[i + 1], p.value[i]))
         && StepFrom(rows, barriers, start, p.value[c - 1])
         && (forall k | k >= c :: Painted(s.prev, goal, k) == p)
  {
    var s0 := Start(start, goal, Empty);
    StartIsTracked(rows, start, goal, Empty);
    StartSettled(rows, barriers, start, goal);
    var f := Loop(rows, barriers, goal, s0, fuel).final;
    LoopFound(rows, barriers, start, goal, s0, fuel, f);
    PathBackPaints(rows, barriers, start, goal, f);
  }

  /** `PathBack`, for a goal other than `start`, in the terms of `FoundPaintsPath`. */
  lemma PathBackPaints(rows: nat, barriers: set<Pos>, start: Pos, goal: Pos, s: Search)
    requires PathBack(rows, barriers, start, goal, s) && start != goal
    ensures && Get<nat>(s.cost, goal).value > 0
      && var c := Get<nat>(s.cost, goal).value; var p := Painted(s.prev, goal, c);
         && p.Some? && |p.value| == c && p.value[0] == goal
         && Get(s.prev, p.value[c - 1]) == Some(start)
         && (forall i | 0 <= i < c - 1 :: StepFrom(rows, barriers, p.value[i + 1], p.value[i]))
         && StepFrom(rows, barriers, start, p.value[c - 1])
         && (forall k | k >= c :: Painted(s.prev, goal, k) == p)
  {
    var c := Get<nat>(s.cost, goal).value;
    var p := Painted(s.prev, goal, c);
    forall k | k >= c
      ensures Painted(s.prev, goal, k) == p
    {
      PaintedMoreFuel(s.prev, goal, c, k);
    }
  }
}

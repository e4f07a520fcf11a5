/**
 * The state of the A* search of `Astar` as a value, with the invariants the
 * search keeps and the facts that make it correct: the cost table, the
 * priority queue, the set `tSet` of queued nodes and the predecessor links.
 *
 * This is the search with decrease-key: the queue maps each queued node to
 * its priority, so lowering a queued node's cost lowers its priority too.
 * The search as written keeps the stale priority; `AsWritten` models that.
 */
module SearchState {
  import opened Grid

  /** A cost-table entry: a path length, or the source's `float("inf")`. */
  datatype Cost = Finite(n: nat) | Infinite

  /** `a < c`, comparing a path length with a possibly infinite cost. */
  predicate Below(a: nat, c: Cost)
  {
    c.Infinite? || a < c.n
  }

  /** `c1 <= c2` on costs, infinity being the largest. */
  predicate AtMost(c1: Cost, c2: Cost)
  {
    c2.Infinite? || (c1.Finite? && c1.n <= c2.n)
  }

  /** The neighbour graph: each node with its neighbour list. */
  type Graph = map<Node, seq<Node>>

  /** Every neighbour of a node of `g` is itself a node of `g`. */
  predicate Closed(g: Graph)
  {
    forall n, m {:trigger m in g[n]} :: n in g && m in g[n] ==> m in g
  }

  /** Every edge of `g` is one 4-adjacent step on the grid. */
  predicate UnitSteps(g: Graph)
  {
    forall n, m {:trigger m in g[n]} :: n in g && m in g[n] ==> Adjacent(n.GetPos(), m.GetPos())
  }

  /** `q` is a walk along the neighbour lists of `g`. */
  predicate IsWalk(g: Graph, q: seq<Node>)
  {
    && |q| > 0
    && (forall i :: 0 <= i < |q| ==> q[i] in g)
    && (forall i :: 0 <= i < |q| - 1 ==> q[i + 1] in g[q[i]])
  }

  /** The heuristic estimate from `n` to `goal`. */
  function H(n: Node, goal: Node): nat
  {
    Heuristic(n.GetPos(), goal.GetPos())
  }

  /**
   * The search state: `cost` for every node, the queue as a map from each
   * queued node to its priority, `tSet`, and the predecessor links the
   * search has set (`prev`, mirrored by the cells' `previous` fields).
   */
  datatype State = State(cost: map<Node, Cost>, pqueue: map<Node, nat>, tSet: set<Node>, prev: map<Node, Node>)

  /** The state before the first iteration: only `start` is reached, and it is queued. */
  function Initial(nodes: set<Node>, start: Node, goal: Node): (st: State)
    requires start in nodes
    ensures st.cost.Keys == nodes && st.cost[start] == Finite(0)
    ensures forall n :: n in nodes && n != start ==> st.cost[n] == Infinite
    ensures st.pqueue == map[start := H(start, goal)] && st.tSet == {start} && st.prev == map[]
  {
    var cost := map n | n in nodes :: Infinite;
    State(cost[start := Finite(0)], map[start := H(start, goal)], {start}, map[])
  }

  /** `current` is taken off the queue. */
  function Pop(st: State, current: Node): State
  {
    State(st.cost, st.pqueue - {current}, st.tSet - {current}, st.prev)
  }

  /**
   * One pass of the neighbour loop: when going through `current` is
   * cheaper, `neighbor` gets the new cost and `current` as predecessor,
   * and is queued at its new priority (added, or its priority lowered).
   */
  function RelaxNeighbor(goal: Node, current: Node, st: State, neighbor: Node): State
  {
    if current in st.cost && st.cost[current].Finite? && neighbor in st.cost
       && Below(st.cost[current].n + 1, st.cost[neighbor])
    then
      var tempCost := st.cost[current].n + 1;
      State(st.cost[neighbor := Finite(tempCost)],
            st.pqueue[neighbor := tempCost + H(neighbor, goal)],
            st.tSet + {neighbor},
            st.prev[neighbor := current])
    else
      st
  }

  /** The neighbour loop over `ns`, in order. */
  function RelaxAll(goal: Node, current: Node, st: State, ns: seq<Node>): State
  {
    if ns == [] then st
    else RelaxNeighbor(goal, current, RelaxAll(goal, current, st, ns[..|ns| - 1]), ns[|ns| - 1])
  }

  /** The neighbour loop over the first `i + 1` neighbours is the loop over the first `i`, then one more pass. */
  lemma RelaxAllStep(goal: Node, current: Node, st: State, ns: seq<Node>, i: nat)
    requires i < |ns|
    ensures RelaxAll(goal, current, st, ns[..i + 1]) == RelaxNeighbor(goal, current, RelaxAll(goal, current, st, ns[..i]), ns[i])
  {
    assert ns[..i + 1][..i] == ns[..i];
  }

  /** The queue holds exactly the nodes of `tSet`, each at its cost plus its heuristic estimate. */
  predicate QueueExact(st: State, goal: Node)
  {
    && st.tSet == st.pqueue.Keys
    && forall n {:trigger st.pqueue[n]} {:trigger st.cost[n]} ::
         n in st.pqueue ==> n in st.cost && st.cost[n].Finite? && st.pqueue[n] == st.cost[n].n + H(n, goal)
  }

  /**
   * Every reached node other than `start` has a predecessor, one step
   * cheaper, that lists it as a neighbour.
   */
  predicate ChainOK(g: Graph, st: State, start: Node)
  {
    && start !in st.prev
    && (forall n {:trigger st.cost[n]} :: n in st.cost && st.cost[n].Finite? && n != start ==> n in st.prev)
    && (forall n {:trigger st.prev[n]} :: n in st.prev ==>
         && st.prev[n] in g && n in g[st.prev[n]] && n in st.cost && st.cost[n].Finite?
         && st.prev[n] in st.cost && st.cost[st.prev[n]].Finite? && st.cost[st.prev[n]].n + 1 <= st.cost[n].n)
  }

  /** The search's invariant, apart from relaxation. */
  predicate SearchInv(g: Graph, start: Node, goal: Node, st: State)
  {
    && st.cost.Keys == g.Keys && start in g && goal in g
    && st.cost[start] == Finite(0)
    && QueueExact(st, goal)
    && ChainOK(g, st, start)
    && (goal in st.tSet || st.cost[goal] == Infinite)
  }

  /** A closed node (reached, not queued) has every neighbour within one step of its own cost. */
  predicate RelaxedAt(g: Graph, st: State, v: Node)
    requires v in g
  {
    v in st.cost && st.cost[v].Finite? && v !in st.tSet ==>
      forall w {:trigger w in g[v]} :: w in g[v] ==> w in st.cost && st.cost[w].Finite? && st.cost[w].n <= st.cost[v].n + 1
  }

  predicate AllRelaxed(g: Graph, st: State)
  {
    forall v {:trigger RelaxedAt(g, st, v)} :: v in g ==> RelaxedAt(g, st, v)
  }

  /** The invariant of the main loop. */
  predicate Inv(g: Graph, start: Node, goal: Node, st: State)
  {
    SearchInv(g, start, goal, st) && AllRelaxed(g, st)
  }

  /**
   * The invariant of the neighbour loop of `current` (cost `c0`) once the
   * neighbours in `done` are relaxed.
   */
  predicate RelaxInv(g: Graph, start: Node, goal: Node, current: Node, c0: nat, st: State, done: seq<Node>)
  {
    && SearchInv(g, start, goal, st)
    && current in g && st.cost[current] == Finite(c0) && current !in st.tSet
    && (forall v {:trigger RelaxedAt(g, st, v)} :: v in g && v != current ==> RelaxedAt(g, st, v))
    && (forall w {:trigger w in done} :: w in done ==> w in st.cost && st.cost[w].Finite? && st.cost[w].n <= c0 + 1)
  }

  /** Costs only drop from `st0` to `st`. */
  predicate CostsDrop(st: State, st0: State)
  {
    st.cost.Keys == st0.cost.Keys && forall n :: n in st0.cost ==> AtMost(st.cost[n], st0.cost[n])
  }

  /** The nodes whose cost is still infinite. */
  function InfSet(cost: map<Node, Cost>): set<Node>
  {
    set n | n in cost && cost[n] == Infinite
  }

  /** One pair (n, k) per unit of each finite cost: it shrinks whenever a finite cost drops. */
  function FinitePairs(cost: map<Node, Cost>): set<(Node, int)>
  {
    set n, k | n in cost && cost[n].Finite? && 0 <= k < cost[n].n :: (n, k)
  }

  // ---------------------------------------------------------------------
  // The initial state and popping

  /** The initial state satisfies the invariant. */
  lemma InitialInv(g: Graph, start: Node, goal: Node)
    requires start in g && goal in g
    ensures Inv(g, start, goal, Initial(g.Keys, start, goal))
  {
    var st := Initial(g.Keys, start, goal);
    forall v | v in g
      ensures RelaxedAt(g, st, v)
    {
      if v != start {
        assert st.cost[v] == Infinite;
      }
    }
  }

  /** Among the non-empty set `s` of queued nodes, one has the least priority. */
  lemma {:induction false} MinExists(q: map<Node, nat>, s: set<Node>)
    requires s != {} && s <= q.Keys
    ensures exists n :: n in s && forall m :: m in s ==> q[n] <= q[m]
    decreases s
  {
    var x :| x in s;
    var n := x;
    if s != {x} {
      var rest := s - {x};
      MinExists(q, rest);
      var y :| y in rest && forall m :: m in rest ==> q[y] <= q[m];
      n := if q[x] < q[y] then x else y;
      forall m | m in s
        ensures q[n] <= q[m]
      {
        if m != x {
          assert m in rest;
        }
      }
    }
    assert n in s && forall m :: m in s ==> q[n] <= q[m];
  }

  /** Popping any queued node other than the goal starts its neighbour loop with its invariant. */
  lemma PopStartsRelax(g: Graph, start: Node, goal: Node, st: State, current: Node)
    requires Inv(g, start, goal, st)
    requires current in st.pqueue && current != goal
    ensures st.cost[current].Finite?
    ensures RelaxInv(g, start, goal, current, st.cost[current].n, Pop(st, current), [])
  {
    var st1 := Pop(st, current);
    assert QueueExact(st1, goal);
    forall v | v in g && v != current
      ensures RelaxedAt(g, st1, v)
    {
      assert RelaxedAt(g, st, v);
    }
  }

  // ---------------------------------------------------------------------
  // One pass of the neighbour loop

  /** A step of the neighbour loop keeps the queue exact and the bookkeeping facts. */
  lemma RelaxNeighborQueue(g: Graph, start: Node, goal: Node, current: Node, c0: nat, st: State, neighbor: Node)
    requires SearchInv(g, start, goal, st) && current in g && st.cost[current] == Finite(c0)
    requires neighbor in g
    ensures var st' := RelaxNeighbor(goal, current, st, neighbor);
      && st'.cost.Keys == g.Keys && st'.cost[start] == Finite(0)
      && QueueExact(st', goal)
      && (goal in st'.tSet || st'.cost[goal] == Infinite)
  {
  }

  /** A step of the neighbour loop keeps every predecessor link valid. */
  lemma RelaxNeighborChain(g: Graph, start: Node, goal: Node, current: Node, c0: nat, st: State, neighbor: Node)
    requires SearchInv(g, start, goal, st) && current in g && st.cost[current] == Finite(c0)
    requires neighbor in g[current]
    ensures ChainOK(g, RelaxNeighbor(goal, current, st, neighbor), start)
  {
    var st' := RelaxNeighbor(goal, current, st, neighbor);
    if st' != st {
      assert neighbor != start;
      forall n | n in st'.cost && st'.cost[n].Finite? && n != start
        ensures && n in st'.prev && st'.prev[n] in g && n in g[st'.prev[n]]
                && st'.prev[n] in st'.cost && st'.cost[st'.prev[n]].Finite?
                && st'.cost[st'.prev[n]].n + 1 <= st'.cost[n].n
      {
        if n != neighbor {
          assert st.cost[n].Finite? && st'.cost[n] == st.cost[n];
        }
      }
    }
  }

  /** A step of the neighbour loop keeps the other closed nodes relaxed and relaxes `neighbor`. */
  lemma RelaxNeighborRelaxed(g: Graph, start: Node, goal: Node, current: Node, c0: nat, st: State,
                             done: seq<Node>, neighbor: Node)
    requires Closed(g) && UnitSteps(g)
    requires RelaxInv(g, start, goal, current, c0, st, done)
    requires neighbor in g[current]
    ensures var st' := RelaxNeighbor(goal, current, st, neighbor);
      && st'.cost[current] == Finite(c0) && current !in st'.tSet
      && (forall v :: v in g && v != current ==> RelaxedAt(g, st', v))
      && (forall w :: w in done + [neighbor] ==> w in st'.cost && st'.cost[w].Finite? && st'.cost[w].n <= c0 + 1)
  {
    var st' := RelaxNeighbor(goal, current, st, neighbor);
    assert Adjacent(current.GetPos(), neighbor.GetPos());
    assert neighbor != current;
    forall v | v in g && v != current
      ensures RelaxedAt(g, st', v)
    {
      assert RelaxedAt(g, st, v);
      if v in st'.cost && st'.cost[v].Finite? && v !in st'.tSet {
        forall w | w in g[v]
          ensures w in st'.cost && st'.cost[w].Finite? && st'.cost[w].n <= st'.cost[v].n + 1
        {
          assert w in g;
        }
      }
    }
    forall w | w in done + [neighbor]
      ensures w in st'.cost && st'.cost[w].Finite? && st'.cost[w].n <= c0 + 1
    {
      if w != neighbor {
        assert w in done;
      }
    }
  }

  /** A step of the neighbour loop only lowers costs, and changes nothing when no cost drops. */
  lemma RelaxNeighborDrops(goal: Node, current: Node, st: State, neighbor: Node)
    ensures var st' := RelaxNeighbor(goal, current, st, neighbor);
      CostsDrop(st', st) && (st'.cost == st.cost ==> st' == st)
  {
    var st' := RelaxNeighbor(goal, current, st, neighbor);
    if st' != st {
      assert st'.cost[neighbor] != st.cost[neighbor];
    }
  }

  /** Costs dropping twice is costs dropping; and if the end is back at the start, nothing dropped. */
  lemma CostsDropTrans(a: State, b: State, c: State)
    requires CostsDrop(a, b) && CostsDrop(b, c)
    ensures CostsDrop(a, c)
    ensures a.cost == c.cost ==> b.cost == c.cost
  {
    if a.cost == c.cost {
      forall n | n in c.cost
        ensures b.cost[n] == c.cost[n]
      {
        assert AtMost(a.cost[n], b.cost[n]) && AtMost(b.cost[n], c.cost[n]);
      }
    }
  }

  /** One pass of the neighbour loop keeps its invariant and adds `neighbor` to the relaxed ones. */
  lemma RelaxNeighborInv(g: Graph, start: Node, goal: Node, current: Node, c0: nat, st: State,
                         done: seq<Node>, neighbor: Node)
    requires Closed(g) && UnitSteps(g)
    requires RelaxInv(g, start, goal, current, c0, st, done)
    requires neighbor in g[current]
    ensures RelaxInv(g, start, goal, current, c0, RelaxNeighbor(goal, current, st, neighbor), done + [neighbor])
  {
    RelaxNeighborQueue(g, start, goal, current, c0, st, neighbor);
    RelaxNeighborChain(g, start, goal, current, c0, st, neighbor);
    RelaxNeighborRelaxed(g, start, goal, current, c0, st, done, neighbor);
  }

  /** The whole neighbour loop keeps its invariant. */
  lemma {:induction false} RelaxAllInv(g: Graph, start: Node, goal: Node, current: Node, c0: nat, st: State, ns: seq<Node>)
    requires Closed(g) && UnitSteps(g)
    requires RelaxInv(g, start, goal, current, c0, st, [])
    requires forall w :: w in ns ==> w in g[current]
    ensures RelaxInv(g, start, goal, current, c0, RelaxAll(goal, current, st, ns), ns)
  {
    if ns != [] {
      var init := ns[..|ns| - 1];
      var w := ns[|ns| - 1];
      assert ns == init + [w];
      assert forall x :: x in init ==> x in ns;
      RelaxAllInv(g, start, goal, current, c0, st, init);
      RelaxNeighborInv(g, start, goal, current, c0, RelaxAll(goal, current, st, init), init, w);
    }
  }

  /** The whole neighbour loop only lowers costs, and leaves the state as it was when no cost drops. */
  lemma {:induction false} RelaxAllDrops(goal: Node, current: Node, st: State, ns: seq<Node>)
    ensures var st' := RelaxAll(goal, current, st, ns);
      CostsDrop(st', st) && (st'.cost == st.cost ==> st' == st)
  {
    if ns != [] {
      var init := ns[..|ns| - 1];
      RelaxAllDrops(goal, current, st, init);
      var mid := RelaxAll(goal, current, st, init);
      RelaxNeighborDrops(goal, current, mid, ns[|ns| - 1]);
      CostsDropTrans(RelaxNeighbor(goal, current, mid, ns[|ns| - 1]), mid, st);
    }
  }

  /** After the whole neighbour loop of a popped node, the main invariant holds again. */
  lemma IterationKeepsInv(g: Graph, start: Node, goal: Node, st: State, current: Node)
    requires Closed(g) && UnitSteps(g)
    requires Inv(g, start, goal, st)
    requires current in st.pqueue && current != goal
    ensures var st' := RelaxAll(goal, current, Pop(st, current), g[current]);
      && Inv(g, start, goal, st')
      && CostsDrop(st', st)
      && (st'.cost == st.cost ==> st'.pqueue == st.pqueue - {current})
  {
    PopStartsRelax(g, start, goal, st, current);
    var c0 := st.cost[current].n;
    var st1 := Pop(st, current);
    RelaxAllInv(g, start, goal, current, c0, st1, g[current]);
    RelaxAllDrops(goal, current, st1, g[current]);
    var st' := RelaxAll(goal, current, st1, g[current]);
    assert RelaxedAt(g, st', current);
  }

  /**
   * When costs only drop and at least one does, the termination measure
   * falls: fewer infinite costs, or the same ones and fewer finite units.
   */
  lemma CostDropShrinks(cost: map<Node, Cost>, cost': map<Node, Cost>)
    requires cost'.Keys == cost.Keys
    requires forall n :: n in cost ==> AtMost(cost'[n], cost[n])
    requires cost' != cost
    ensures InfSet(cost') < InfSet(cost)
      || (InfSet(cost') == InfSet(cost) && FinitePairs(cost') < FinitePairs(cost))
  {
    assert InfSet(cost') <= InfSet(cost);
    if InfSet(cost') == InfSet(cost) {
      var d :| d in cost && cost'[d] != cost[d];
      assert d !in InfSet(cost);
      assert cost'[d].Finite? && cost[d].Finite? && cost'[d].n < cost[d].n;
      assert (d, cost'[d].n) in FinitePairs(cost);
      assert FinitePairs(cost') <= FinitePairs(cost) by {
        forall pr | pr in FinitePairs(cost')
          ensures pr in FinitePairs(cost)
        {
          var n, k :| n in cost' && cost'[n].Finite? && 0 <= k < cost'[n].n && pr == (n, k);
          assert n !in InfSet(cost');
        }
      }
    }
  }

  // ---------------------------------------------------------------------
  // Optimality and completeness

  /**
   * The frontier property: along any walk from `start`, either some node
   * is queued with a cost no greater than its index on the walk, or the
   * walk's last node already has a cost no greater than the walk's length.
   */
  lemma {:induction false} Frontier(g: Graph, start: Node, st: State, q: seq<Node>)
    requires st.cost.Keys == g.Keys && start in g && st.cost[start] == Finite(0)
    requires AllRelaxed(g, st)
    requires IsWalk(g, q) && q[0] == start
    ensures || (exists j :: 0 <= j < |q| && q[j] in st.tSet && st.cost[q[j]].Finite? && st.cost[q[j]].n <= j)
            || (st.cost[q[|q| - 1]].Finite? && st.cost[q[|q| - 1]].n <= |q| - 1)
    decreases |q|
  {
    if |q| > 1 {
      var p := q[..|q| - 1];
      assert IsWalk(g, p);
      Frontier(g, start, st, p);
      if exists j :: 0 <= j < |p| && p[j] in st.tSet && st.cost[p[j]].Finite? && st.cost[p[j]].n <= j {
        var j :| 0 <= j < |p| && p[j] in st.tSet && st.cost[p[j]].Finite? && st.cost[p[j]].n <= j;
        assert q[j] == p[j];
      } else {
        var last := q[|q| - 2];
        assert last == p[|p| - 1];
        if last !in st.tSet {
          assert RelaxedAt(g, st, last);
          assert q[|q| - 1] in g[last];
        }
      }
    }
  }

  /** The grid positions of a sequence of nodes. */
  function Positions(q: seq<Node>): (ps: seq<Pos>)
    ensures |ps| == |q| && forall i :: 0 <= i < |q| ==> ps[i] == q[i].GetPos()
  {
    seq(|q|, i requires 0 <= i < |q| => q[i].GetPos())
  }

  /** Along a walk of unit steps the heuristic never exceeds the remaining length (admissibility). */
  lemma WalkHeuristic(g: Graph, q: seq<Node>, goal: Node)
    requires UnitSteps(g) && IsWalk(g, q)
    ensures H(q[0], goal) <= |q| - 1 + H(q[|q| - 1], goal)
  {
    var ps := Positions(q);
    forall i | 0 <= i < |ps| - 1
      ensures Adjacent(ps[i], ps[i + 1])
    {
      assert q[i + 1] in g[q[i]];
    }
    HeuristicAlongWalk(ps, goal.GetPos());
  }

  /**
   * When the goal has the least priority in the queue, its cost is no
   * more than the length of any walk from `start` to the goal.
   */
  lemma PopIsOptimal(g: Graph, start: Node, goal: Node, st: State)
    requires UnitSteps(g) && Inv(g, start, goal, st)
    requires goal in st.pqueue && forall m :: m in st.pqueue ==> st.pqueue[goal] <= st.pqueue[m]
    ensures st.cost[goal].Finite?
    ensures forall q :: IsWalk(g, q) && q[0] == start && q[|q| - 1] == goal ==> st.cost[goal].n <= |q| - 1
  {
    assert H(goal, goal) == 0;
    forall q | IsWalk(g, q) && q[0] == start && q[|q| - 1] == goal
      ensures st.cost[goal].n <= |q| - 1
    {
      Frontier(g, start, st, q);
      if exists j :: 0 <= j < |q| && q[j] in st.tSet && st.cost[q[j]].Finite? && st.cost[q[j]].n <= j {
        var j :| 0 <= j < |q| && q[j] in st.tSet && st.cost[q[j]].Finite? && st.cost[q[j]].n <= j;
        var rest := q[j..];
        assert IsWalk(g, rest);
        WalkHeuristic(g, rest, goal);
        assert q[j] in st.pqueue;
      }
    }
  }

  /**
   * The path the predecessor links spell out from `start` to `n`: the
   * path the reconstruction loop walks back along.
   */
  function PathTo(g: Graph, st: State, start: Node, n: Node): seq<Node>
    requires ChainOK(g, st, start) && n in st.cost && st.cost[n].Finite?
    decreases st.cost[n].n
  {
    if n == start then [start] else PathTo(g, st, start, st.prev[n]) + [n]
  }

  /** One step back along the predecessor links, towards `start`. */
  lemma PathToStep(g: Graph, st: State, start: Node, n: Node)
    requires ChainOK(g, st, start) && n in st.cost && st.cost[n].Finite? && n != start
    ensures n in st.prev && st.prev[n] in st.cost && st.cost[st.prev[n]].Finite?
    ensures st.cost[st.prev[n]].n < st.cost[n].n
    ensures PathTo(g, st, start, n) == PathTo(g, st, start, st.prev[n]) + [n]
  {
  }

  /**
   * The predecessor links from a reached node lead back to `start` along a
   * walk no longer than the node's cost, each node linked to the one before,
   * and never passing through `start` or `n` in between.
   */
  lemma {:induction false} PathToIsWalk(g: Graph, st: State, start: Node, n: Node)
    requires ChainOK(g, st, start) && n in st.cost && st.cost[n].Finite?
    requires start in st.cost && st.cost[start] == Finite(0)
    ensures var p := PathTo(g, st, start, n);
      && (n in g ==> IsWalk(g, p)) && p[0] == start && p[|p| - 1] == n
      && |p| - 1 <= st.cost[n].n
      && (forall i :: 0 < i < |p| ==> p[i] in st.prev && st.prev[p[i]] == p[i - 1])
      && (forall i :: 0 <= i < |p| ==> p[i] in st.cost && st.cost[p[i]].Finite?
                                       && i <= st.cost[p[i]].n && st.cost[p[i]].n + (|p| - 1 - i) <= st.cost[n].n)
    decreases st.cost[n].n
  {
    if n != start {
      var m := st.prev[n];
      PathToIsWalk(g, st, start, m);
      var p := PathTo(g, st, start, n);
      var pm := PathTo(g, st, start, m);
      assert p == pm + [n];
      assert forall i :: 0 <= i < |pm| ==> p[i] == pm[i];
    }
  }

  /** The nodes strictly inside the path to `n` are neither `start` nor `n`. */
  lemma PathToInterior(g: Graph, st: State, start: Node, n: Node)
    requires ChainOK(g, st, start) && n in st.cost && st.cost[n].Finite?
    requires start in st.cost && st.cost[start] == Finite(0)
    ensures var p := PathTo(g, st, start, n);
      forall i :: 0 < i < |p| - 1 ==> p[i] != start && p[i] != n
  {
    PathToIsWalk(g, st, start, n);
  }

  /** With the queue empty, no walk from `start` reaches the goal. */
  lemma ExhaustedMeansUnreachable(g: Graph, start: Node, goal: Node, st: State)
    requires Inv(g, start, goal, st) && st.pqueue == map[]
    ensures forall q :: IsWalk(g, q) && q[0] == start ==> q[|q| - 1] != goal
  {
    forall q | IsWalk(g, q) && q[0] == start
      ensures q[|q| - 1] != goal
    {
      Frontier(g, start, st, q);
    }
  }
}

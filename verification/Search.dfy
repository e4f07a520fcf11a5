/**
 * The A* search of `Astar` over the cells of the grid: the cost table, the
 * queue and `tSet` live in local variables, as in the source, and the cells
 * change in place (their colour and their `previous` link).
 *
 * Each method states its effect on the search state as a function of
 * `SearchState`, where the invariants and the optimality argument live.
 * This is the search with decrease-key and with a reconstruction loop that
 * stops at `start`; `AsWritten` models the two places where the source
 * differs.
 */
module Search {
  import opened Grid
  import opened SearchState

  /** The cells' neighbour lists are those of `g`. */
  ghost predicate HasGraph(nodes: set<Node>, g: Graph)
    reads nodes`neighbors
  {
    forall n :: n in nodes ==> n in g && n.neighbors == g[n]
  }

  /** The ghost map `prev` mirrors the cells' `previous` links. */
  ghost predicate Mirror(nodes: set<Node>, prev: map<Node, Node>)
    reads nodes`previous
  {
    forall n :: n in prev ==> n in nodes && n.previous == prev[n]
  }

  /**
   * What a successful search leaves behind: `path` is a walk from `start`
   * to `end`, linked backwards by `previous`, with `start` painted
   * orange, `end` purple and the cells in between blue.
   */
  ghost predicate FoundPath(g: Graph, start: Node, end: Node, path: seq<Node>)
    reads start, end, path
  {
    && IsWalk(g, path) && path[0] == start && path[|path| - 1] == end
    && (forall i :: 0 < i < |path| ==> path[i].previous == path[i - 1])
    && start.color == Orange && (start != end ==> end.color == Purple)
    && (forall i :: 0 < i < |path| - 1 ==> path[i].color == Blue)
  }

  /**
   * The reconstruction loop of `Astar`: follows `previous` from the goal
   * back to `start`, painting every node it leaves blue. Returns the path
   * it followed, from `start` to the goal.
   */
  method Reconstruct(ghost g: Graph, nodes: set<Node>, ghost st: State, start: Node, goal: Node)
    returns (ghost path: seq<Node>)
    requires ChainOK(g, st, start) && Mirror(nodes, st.prev)
    requires goal in nodes && goal in st.cost && st.cost[goal].Finite?
    requires start in st.cost && st.cost[start] == Finite(0)
    modifies nodes`color
    ensures path == PathTo(g, st, start, goal)
    ensures goal in g ==> IsWalk(g, path)
    ensures path[0] == start && path[|path| - 1] == goal && |path| - 1 <= st.cost[goal].n
    ensures forall i :: 0 < i < |path| ==> path[i].previous == path[i - 1]
    ensures forall i :: 0 < i < |path| - 1 ==> path[i] != start && path[i] != goal
    ensures forall i :: 0 < i < |path| ==> path[i].color == Blue
    ensures forall n :: n in nodes && n !in path[1..] ==> n.color == old(n.color)
  {
    var current := goal;
    ghost var painted: seq<Node> := [];
    while current != start
      invariant current in st.cost && st.cost[current].Finite?
      invariant PathTo(g, st, start, goal) == PathTo(g, st, start, current) + painted
      invariant forall j :: 0 <= j < |painted| ==> painted[j].color == Blue
      invariant forall n :: n in nodes && n !in painted ==> n.color == old(n.color)
      decreases st.cost[current].n
    {
      PathToStep(g, st, start, current);
      current.MakePath();
      painted := [current] + painted;
      current := current.previous;
    }
    path := [start] + painted;
    PathToIsWalk(g, st, start, goal);
    PathToInterior(g, st, start, goal);
  }

  /**
   * One pass of the neighbour loop of `Astar`: `neighbor` is painted red;
   * when it is reached more cheaply through `current` it gets the new
   * cost, `current` as its predecessor, and is queued (painted green) or
   * has its queued priority lowered.
   */
  method RelaxNeighborStep(ghost nodes: set<Node>, goal: Node, current: Node, neighbor: Node,
                           cost0: map<Node, Cost>, pqueue0: map<Node, nat>, tSet0: set<Node>, ghost prev0: map<Node, Node>)
    returns (cost: map<Node, Cost>, pqueue: map<Node, nat>, tSet: set<Node>, ghost prev: map<Node, Node>)
    requires current in cost0 && cost0[current].Finite? && neighbor in cost0
    requires neighbor in nodes && Mirror(nodes, prev0)
    modifies neighbor`color, neighbor`previous
    ensures State(cost, pqueue, tSet, prev) == RelaxNeighbor(goal, current, State(cost0, pqueue0, tSet0, prev0), neighbor)
    ensures cost.Keys == cost0.Keys && cost[current] == cost0[current] && tSet0 <= tSet
    ensures neighbor.color == Red || (neighbor.color == Green && neighbor in tSet && neighbor !in tSet0)
    ensures Mirror(nodes, prev)
  {
    cost, pqueue, tSet, prev := cost0, pqueue0, tSet0, prev0;
    neighbor.MakeClosed();
    var tempCost := cost[current].n + 1;
    if Below(tempCost, cost[neighbor]) {
      cost := cost[neighbor := Finite(tempCost)];
      neighbor.previous := current;
      prev := prev[neighbor := current];
      var priority := tempCost + Heuristic(neighbor.GetPos(), goal.GetPos());
      if neighbor !in tSet {
        pqueue := pqueue[neighbor := priority];
        tSet := tSet + {neighbor};
        neighbor.MakeOpen();
      } else {
        // decrease-key: the queued entry takes the new, lower priority
        pqueue := pqueue[neighbor := priority];
      }
    }
  }

  /**
   * The neighbour loop of `Astar`: one `RelaxNeighborStep` per neighbour of
   * `current`, in the order of its neighbour list.
   */
  method Relax(ghost g: Graph, nodes: set<Node>, goal: Node, current: Node,
               cost0: map<Node, Cost>, pqueue0: map<Node, nat>, tSet0: set<Node>, ghost prev0: map<Node, Node>)
    returns (cost: map<Node, Cost>, pqueue: map<Node, nat>, tSet: set<Node>, ghost prev: map<Node, Node>)
    requires g.Keys == nodes && current in g && current.neighbors == g[current]
    requires forall w :: w in g[current] ==> w in nodes
    requires cost0.Keys == nodes && cost0[current].Finite?
    requires Mirror(nodes, prev0)
    modifies nodes`color, nodes`previous
    ensures State(cost, pqueue, tSet, prev) == RelaxAll(goal, current, State(cost0, pqueue0, tSet0, prev0), g[current])
    ensures Mirror(nodes, prev)
    ensures forall n :: n in nodes && n !in g[current] ==> n.color == old(n.color)
    ensures forall n :: n in g[current] ==> n.color == Red || (n.color == Green && n in tSet && n !in tSet0)
  {
    ghost var st0 := State(cost0, pqueue0, tSet0, prev0);
    cost, pqueue, tSet, prev := cost0, pqueue0, tSet0, prev0;
    var ns := current.neighbors;
    var i := 0;
    while i < |ns|
      invariant 0 <= i <= |ns|
      invariant State(cost, pqueue, tSet, prev) == RelaxAll(goal, current, st0, ns[..i])
      invariant cost.Keys == nodes && cost[current] == cost0[current]
      invariant tSet0 <= tSet
      invariant Mirror(nodes, prev)
      invariant forall n :: n in nodes && n !in ns[..i] ==> n.color == old(n.color)
      invariant forall j :: 0 <= j < i ==> ns[j].color == Red || (ns[j].color == Green && ns[j] in tSet && ns[j] !in tSet0)
    {
      RelaxAllStep(goal, current, st0, ns, i);
      ghost var tSetBefore := tSet;
      label before:
      cost, pqueue, tSet, prev := RelaxNeighborStep(nodes, goal, current, ns[i], cost, pqueue, tSet, prev);
      forall j | 0 <= j < i + 1
        ensures ns[j].color == Red || (ns[j].color == Green && ns[j] in tSet && ns[j] !in tSet0)
      {
        if ns[j] != ns[i] {
          assert ns[j].color == old@before(ns[j].color) && tSetBefore <= tSet;
        }
      }
      forall n | n in nodes && n !in ns[..i + 1]
        ensures n.color == old(n.color)
      {
        assert n !in ns[..i] && n != ns[i];
      }
      i := i + 1;
    }
    assert ns[..|ns|] == ns;
    assert forall n :: n in ns ==> exists j :: 0 <= j < |ns| && ns[j] == n;
  }

  /**
   * The head of the main loop of `Astar`: takes a node of least priority
   * off the queue and out of `tSet`, and paints it red.
   */
  method PopMin(ghost g: Graph, nodes: set<Node>, pqueue0: map<Node, nat>, tSet0: set<Node>)
    returns (current: Node, pqueue: map<Node, nat>, tSet: set<Node>)
    requires pqueue0 != map[] && pqueue0.Keys <= nodes && HasGraph(nodes, g)
    modifies nodes`color
    ensures HasGraph(nodes, g)
    ensures current in pqueue0 && forall m :: m in pqueue0 ==> pqueue0[current] <= pqueue0[m]
    ensures pqueue == pqueue0 - {current} && tSet == tSet0 - {current}
    ensures current.color == Red
    ensures forall n :: n in nodes && n != current ==> n.color == old(n.color)
  {
    MinExists(pqueue0, pqueue0.Keys);
    current :| current in pqueue0 && forall m :: m in pqueue0 ==> pqueue0[current] <= pqueue0[m];
    pqueue := pqueue0 - {current};
    tSet := tSet0 - {current};
    current.MakeClosed();
  }

  /**
   * The end of a successful search, once the goal is popped with a cost no
   * greater than the length of any walk to it: the path is reconstructed
   * and painted, then the goal is painted purple and `start` orange. The
   * path is a shortest walk.
   */
  method Finish(ghost g: Graph, nodes: set<Node>, ghost st: State, start: Node, end: Node)
    returns (ghost path: seq<Node>)
    requires ChainOK(g, st, start) && Mirror(nodes, st.prev)
    requires start in st.cost && st.cost[start] == Finite(0)
    requires start in nodes && end in g && end in nodes && end in st.cost && st.cost[end].Finite?
    requires forall q :: IsWalk(g, q) && q[0] == start && q[|q| - 1] == end ==> st.cost[end].n <= |q| - 1
    modifies nodes`color
    ensures FoundPath(g, start, end, path)
    ensures forall q :: IsWalk(g, q) && q[0] == start && q[|q| - 1] == end ==> |path| <= |q|
  {
    path := Reconstruct(g, nodes, st, start, end);
    end.MakeEnd();
    start.MakeStart();
  }

  /**
   * The neighbour loop of a popped node other than the goal, with what the
   * main loop of `Astar` needs of it: its invariant holds again, and the
   * search has progressed (a cost dropped, or the queue shrank).
   */
  method Expand(ghost g: Graph, nodes: set<Node>, start: Node, end: Node, current: Node, ghost st: State,
                cost0: map<Node, Cost>, pqueue0: map<Node, nat>, tSet0: set<Node>, ghost prev0: map<Node, Node>)
    returns (cost: map<Node, Cost>, pqueue: map<Node, nat>, tSet: set<Node>, ghost prev: map<Node, Node>)
    requires g.Keys == nodes && Closed(g) && UnitSteps(g)
    requires Inv(g, start, end, st) && current in st.pqueue && current != end
    requires State(cost0, pqueue0, tSet0, prev0) == Pop(st, current)
    requires current in nodes && HasGraph(nodes, g) && Mirror(nodes, prev0)
    modifies nodes`color, nodes`previous
    ensures Inv(g, start, end, State(cost, pqueue, tSet, prev)) && Mirror(nodes, prev) && HasGraph(nodes, g)
    ensures || InfSet(cost) < InfSet(st.cost)
            || (InfSet(cost) == InfSet(st.cost) && FinitePairs(cost) < FinitePairs(st.cost))
            || (cost == st.cost && |pqueue| < |st.pqueue|)
  {
    IterationKeepsInv(g, start, end, st, current);
    assert current.neighbors == g[current];
    cost, pqueue, tSet, prev := Relax(g, nodes, end, current, cost0, pqueue0, tSet0, prev0);
    if cost != st.cost {
      CostDropShrinks(st.cost, cost);
    } else {
      assert pqueue == st.pqueue - {current};
    }
  }

  /**
   * One iteration of the main loop of `Astar`: pop a node of least priority;
   * if it is the goal, paint the path and report success, otherwise relax
   * its neighbours, keeping the loop invariant and making progress.
   */
  method Step(ghost g: Graph, nodes: set<Node>, start: Node, end: Node,
              cost0: map<Node, Cost>, pqueue0: map<Node, nat>, tSet0: set<Node>, ghost prev0: map<Node, Node>)
    returns (found: bool, ghost path: seq<Node>,
             cost: map<Node, Cost>, pqueue: map<Node, nat>, tSet: set<Node>, ghost prev: map<Node, Node>)
    requires start in nodes && end in nodes && g.Keys == nodes && HasGraph(nodes, g)
    requires Closed(g) && UnitSteps(g)
    requires Inv(g, start, end, State(cost0, pqueue0, tSet0, prev0)) && Mirror(nodes, prev0) && pqueue0 != map[]
    modifies nodes`color, nodes`previous
    ensures found ==> FoundPath(g, start, end, path)
    ensures found ==> forall q :: IsWalk(g, q) && q[0] == start && q[|q| - 1] == end ==> |path| <= |q|
    ensures !found ==> Inv(g, start, end, State(cost, pqueue, tSet, prev)) && Mirror(nodes, prev) && HasGraph(nodes, g)
    ensures !found ==>
            || InfSet(cost) < InfSet(cost0)
            || (InfSet(cost) == InfSet(cost0) && FinitePairs(cost) < FinitePairs(cost0))
            || (cost == cost0 && |pqueue| < |pqueue0|)
  {
    ghost var st := State(cost0, pqueue0, tSet0, prev0);
    var current;
    current, pqueue, tSet := PopMin(g, nodes, pqueue0, tSet0);
    if current == end {
      PopIsOptimal(g, start, end, st);
      path := Finish(g, nodes, st, start, end);
      return true, path, cost0, pqueue, tSet, prev0;
    }
    cost, pqueue, tSet, prev := Expand(g, nodes, start, end, current, st, cost0, pqueue, tSet, prev0);
    found, path := false, [];
  }

  /**
   * `Astar` with decrease-key: searches from `start` for `end` over the
   * neighbour lists of `nodes`, the cells of the grid. On success the cells of a shortest path are painted
   * (start orange, end purple, the rest blue) and linked by `previous`;
   * on failure no walk from `start` reaches `end`.
   */
  method Astar(ghost g: Graph, nodes: set<Node>, start: Node, end: Node) returns (found: bool, ghost path: seq<Node>)
    requires start in nodes && end in nodes && g.Keys == nodes && HasGraph(nodes, g)
    requires Closed(g) && UnitSteps(g)
    modifies nodes`color, nodes`previous
    ensures HasGraph(nodes, g)
    ensures found ==> FoundPath(g, start, end, path)
    ensures found ==> forall q :: IsWalk(g, q) && q[0] == start && q[|q| - 1] == end ==> |path| <= |q|
    ensures !found ==> forall q :: IsWalk(g, q) && q[0] == start ==> q[|q| - 1] != end
  {
    var cost: map<Node, Cost> := map n: Node | n in nodes :: Infinite;
    cost := cost[start := Finite(0)];
    var pqueue: map<Node, nat> := map[start := Heuristic(start.GetPos(), end.GetPos())];
    var tSet := {start};
    ghost var prev: map<Node, Node> := map[];
    assert State(cost, pqueue, tSet, prev) == Initial(nodes, start, end);
    InitialInv(g, start, end);
    while pqueue != map[]
      invariant HasGraph(nodes, g)
      invariant Inv(g, start, end, State(cost, pqueue, tSet, prev))
      invariant Mirror(nodes, prev)
      decreases InfSet(cost), FinitePairs(cost), |pqueue|
    {
      found, path, cost, pqueue, tSet, prev := Step(g, nodes, start, end, cost, pqueue, tSet, prev);
      if found {
        return;
      }
    }
    ExhaustedMeansUnreachable(g, start, end, State(cost, pqueue, tSet, prev));
    return false, [];
  }
}

/**
 * The editing part of `main`'s event loop: the grid, the `start` and `end`
 * references, and what a left click, a right click, SPACE and C do to them.
 *
 * The click rules are pure functions from the current references and the
 * clicked cell to the new references and the colour to paint; the
 * `Editor` class applies them to its fields and to the cells in place.
 */
module Editor {
  import opened Grid
  import opened SearchState
  import Search

  /** `ROWS` in `main`: the grid has 50 by 50 cells. */
  const Rows := 50

  /** The effect of a click: the new `start` and `end`, and the colour the clicked cell takes, if any. */
  datatype Edit = Edit(start: Node?, end: Node?, paint: Option<Colour>)

  /**
   * A left click on `node`: it becomes the start if there is none (and it
   * is not the end), else the end if there is none (and it is not the
   * start), else a barrier unless it is the start or the end.
   */
  function LeftClickRule(start: Node?, end: Node?, node: Node): (e: Edit)
    ensures start != end || start == null ==> e.start != e.end || e.start == null
    ensures e.paint == Some(Black) ==> node != e.start && node != e.end
    ensures e.start == start || (start == null && node != end && e.start == node && e.paint == Some(Orange))
    ensures e.end == end || (end == null && node != start && e.end == node && e.paint == Some(Purple))
    ensures e.paint.None? <==> node == start || node == end
    ensures e.start != null || e.end == end
    ensures start == null && node != end ==> e == Edit(node, end, Some(Orange))
    ensures start != null && end == null && node != start ==> e == Edit(start, node, Some(Purple))
    ensures start != null && end != null && node != start && node != end ==> e == Edit(start, end, Some(Black))
    ensures node == start || node == end ==> e.start == start && e.end == end
  {
    if start == null && node != end then Edit(node, end, Some(Orange))
    else if end == null && node != start then Edit(start, node, Some(Purple))
    else if node != start && node != end then Edit(start, end, Some(Black))
    else Edit(start, end, None)
  }

  /**
   * A right click on `node`: it is reset to white, and the reference to it
   * as start or end is dropped.
   */
  function RightClickRule(start: Node?, end: Node?, node: Node): (e: Edit)
    ensures e.paint == Some(White)
    ensures start != end || start == null ==> e.start != node && e.end != node
    ensures e.start == (if start == node then null else start)
    ensures node != start ==> e.end == (if end == node then null else end)
    ensures node == start ==> e.end == end
    ensures start != end || start == null ==> e.start != e.end || e.start == null
  {
    if node == start then Edit(null, end, Some(White))
    else if node == end then Edit(start, null, Some(White))
    else Edit(start, end, Some(White))
  }

  /** Any sequence of clicks keeps `start` and `end` apart. */
  datatype Click = Left(node: Node) | Right(node: Node)

  /** The references after the clicks `cs`, from `start` and `end`. */
  function Clicks(start: Node?, end: Node?, cs: seq<Click>): (e: Edit)
    ensures start != end || start == null ==> e.start != e.end || e.start == null
    decreases |cs|
  {
    if cs == [] then Edit(start, end, None)
    else
      var e := if cs[0].Left? then LeftClickRule(start, end, cs[0].node) else RightClickRule(start, end, cs[0].node);
      Clicks(e.start, e.end, cs[1..])
  }

  /** The neighbour graph the cells' lists make: each cell with its list. */
  ghost function NeighborGraph(grid: seq<seq<Node>>): (g: Graph)
    reads Cells(grid)`neighbors
    ensures g.Keys == Cells(grid)
  {
    map n | n in Cells(grid) :: n.neighbors
  }

  /** An entry of a list that follows the neighbour rule is a cell of the grid one step away. */
  lemma RuleEdge(grid: seq<seq<Node>>, bar: set<Pos>, i: int, j: int, k: int)
    requires WellFormed(grid) && 0 <= i < |grid| && 0 <= j < |grid|
    requires Follows(grid, bar, grid[i][j]) && 0 <= k < |grid[i][j].neighbors|
    ensures grid[i][j].neighbors[k] in Cells(grid)
    ensures Adjacent(grid[i][j].GetPos(), grid[i][j].neighbors[k].GetPos())
    ensures grid[i][j].neighbors[k].GetPos() !in bar
  {
    var ps := NeighborPositions(|grid|, bar, Pos(i, j));
    NeighborPositionsSound(|grid|, bar, Pos(i, j));
    var m := grid[i][j].neighbors[k];
    assert m == grid[ps[k].row][ps[k].col];
    assert m.GetPos() == ps[k];
  }

  /** When every cell's list follows the neighbour rule, the graph is closed and its edges are unit steps. */
  lemma RuleGraph(grid: seq<seq<Node>>, bar: set<Pos>)
    requires WellFormed(grid) && Done(grid, bar, |grid|, 0)
    ensures Closed(NeighborGraph(grid)) && UnitSteps(NeighborGraph(grid))
  {
    var g := NeighborGraph(grid);
    forall n, m | n in g && m in g[n]
      ensures m in g && Adjacent(n.GetPos(), m.GetPos())
    {
      var i, j :| 0 <= i < |grid| && 0 <= j < |grid[i]| && grid[i][j] == n;
      var k :| 0 <= k < |n.neighbors| && n.neighbors[k] == m;
      RuleEdge(grid, bar, i, j, k);
    }
  }

  /** Along a walk of neighbour lists that follow the rule, every cell after the first is not a barrier. */
  lemma WalkAvoidsBarriers(grid: seq<seq<Node>>, bar: set<Pos>, g: Graph, path: seq<Node>)
    requires WellFormed(grid) && Done(grid, bar, |grid|, 0)
    requires g.Keys == Cells(grid) && Search.HasGraph(Cells(grid), g)
    requires IsWalk(g, path)
    ensures forall i :: 0 < i < |path| ==> path[i].GetPos() !in bar
  {
    forall i | 0 < i < |path|
      ensures path[i].GetPos() !in bar
    {
      var n := path[i - 1];
      var a, b :| 0 <= a < |grid| && 0 <= b < |grid[a]| && grid[a][b] == n;
      var k :| 0 <= k < |n.neighbors| && n.neighbors[k] == path[i];
      RuleEdge(grid, bar, a, b, k);
    }
  }

  /** Every cell's neighbour list follows the neighbour rule. */
  ghost predicate AllFollowRule(grid: seq<seq<Node>>)
    reads Cells(grid)`color, Cells(grid)`neighbors
  {
    forall i, j :: 0 <= i < |grid| && 0 <= j < |grid[i]| ==> NeighborsFollowRule(grid, grid[i][j])
  }

  /** The neighbour list of `n` is the neighbour rule applied to `n`'s position and the barriers `bar`. */
  ghost predicate Follows(grid: seq<seq<Node>>, bar: set<Pos>, n: Node)
    reads n`neighbors
  {
    Lists(grid, n.neighbors, NeighborPositions(n.totalRows, bar, n.GetPos()))
  }

  /** The cells before (i, j) in row-major order follow the neighbour rule for the barriers `bar`. */
  ghost predicate Done(grid: seq<seq<Node>>, bar: set<Pos>, i: int, j: int)
    reads Cells(grid)`neighbors
  {
    forall a, b :: 0 <= a < |grid| && 0 <= b < |grid[a]| && (a < i || (a == i && b < j)) ==>
      Follows(grid, bar, grid[a][b])
  }

  /** `update_neighbors` on the cell at (i, j), the next one in row-major order. */
  method UpdateOne(grid: seq<seq<Node>>, ghost bar: set<Pos>, i: int, j: int)
    requires WellFormed(grid) && 0 <= i < |grid| && 0 <= j < |grid|
    requires bar == Barriers(grid) && Done(grid, bar, i, j)
    modifies {grid[i][j]}`neighbors
    ensures Done(grid, bar, i, j + 1)
  {
    label before:
    grid[i][j].UpdateNeighbors(grid);
    forall a, b | 0 <= a < |grid| && 0 <= b < |grid[a]| && (a < i || (a == i && b < j + 1))
      ensures Follows(grid, bar, grid[a][b])
    {
      if a != i || b != j {
        assert grid[a][b].row != i || grid[a][b].col != j;
        assert old@before(Follows(grid, bar, grid[a][b]));
      }
    }
  }

  /** The state `main` keeps between events. */
  class Editor {
    var grid: seq<seq<Node>>
    var start: Node?
    var end: Node?
    /** The window's side in pixels. */
    const width: int

    /** The grid is 50 by 50, and `start` and `end` are distinct cells of it. */
    ghost predicate Valid()
      reads this
    {
      && WellFormed(grid) && |grid| == Rows
      && (start != null ==> start in Cells(grid))
      && (end != null ==> end in Cells(grid))
      && (start != end || start == null)
    }

    /** The state `main` starts in: a fresh grid, no start, no end. */
    constructor (width: int)
      requires FloorDiv(width, Rows) > 0
      ensures Valid() && this.width == width && start == null && end == null
      ensures forall i, j :: 0 <= i < Rows && 0 <= j < Rows ==> NewCell(grid[i][j], FloorDiv(width, Rows))
    {
      this.width := width;
      new;
      grid := MakeGrid(Rows, width);
      start := null;
      end := null;
    }

    /** The cell under the pixel (px, py). */
    function CellAt(px: int, py: int): (n: Node)
      requires Valid() && FloorDiv(width, Rows) > 0
      requires 0 <= px < Rows * FloorDiv(width, Rows) && 0 <= py < Rows * FloorDiv(width, Rows)
      reads this
      ensures n in Cells(grid) && n.GetPos() == GetMousePos(px, py, Rows, width)
    {
      MousePosInBounds(px, py, Rows, width);
      var p := GetMousePos(px, py, Rows, width);
      grid[p.row][p.col]
    }

    /** Paints `node` with `paint` when there is one; no other cell changes. */
    method Apply(node: Node, paint: Option<Colour>)
      modifies node`color
      ensures paint.Some? ==> node.color == paint.value
      ensures paint.None? ==> node.color == old(node.color)
    {
      if paint.Some? {
        match paint.value
        case White => node.Reset();
        case Orange => node.MakeStart();
        case Purple => node.MakeEnd();
        case Black => node.MakeBarrier();
        case Red => node.MakeClosed();
        case Green => node.MakeOpen();
        case Blue => node.MakePath();
      }
    }

    /** A left click at pixel (px, py), by `LeftClickRule`. */
    method LeftClick(px: int, py: int)
      requires Valid() && FloorDiv(width, Rows) > 0
      requires 0 <= px < Rows * FloorDiv(width, Rows) && 0 <= py < Rows * FloorDiv(width, Rows)
      modifies this`start, this`end, Cells(grid)`color
      ensures Valid() && grid == old(grid)
      ensures var e := LeftClickRule(old(start), old(end), old(CellAt(px, py)));
        start == e.start && end == e.end
        && (e.paint.Some? ==> old(CellAt(px, py)).color == e.paint.value)
      ensures var c := old(CellAt(px, py));
        LeftClickRule(old(start), old(end), c).paint.None? ==> c.color == old(c.color)
      ensures forall n :: n in Cells(grid) && n != old(CellAt(px, py)) ==> n.color == old(n.color)
    {
      var node := CellAt(px, py);
      var e := LeftClickRule(start, end, node);
      Apply(node, e.paint);
      start, end := e.start, e.end;
    }

    /** A right click at pixel (px, py), by `RightClickRule`. */
    method RightClick(px: int, py: int)
      requires Valid() && FloorDiv(width, Rows) > 0
      requires 0 <= px < Rows * FloorDiv(width, Rows) && 0 <= py < Rows * FloorDiv(width, Rows)
      modifies this`start, this`end, Cells(grid)`color
      ensures Valid() && grid == old(grid)
      ensures var e := RightClickRule(old(start), old(end), old(CellAt(px, py)));
        start == e.start && end == e.end && old(CellAt(px, py)).color == White
      ensures forall n :: n in Cells(grid) && n != old(CellAt(px, py)) ==> n.color == old(n.color)
    {
      var node := CellAt(px, py);
      var e := RightClickRule(start, end, node);
      Apply(node, e.paint);
      start, end := e.start, e.end;
    }

    /** The C key: a fresh grid, and neither start nor end. */
    method ClearKey()
      requires Valid() && FloorDiv(width, Rows) > 0
      modifies this`grid, this`start, this`end
      ensures Valid() && start == null && end == null
      ensures forall i, j :: 0 <= i < Rows && 0 <= j < Rows ==> NewCell(grid[i][j], FloorDiv(width, Rows))
      ensures forall i, j :: 0 <= i < Rows && 0 <= j < Rows ==> fresh(grid[i][j])
    {
      start := null;
      end := null;
      grid := MakeGrid(Rows, width);
    }

    /** The two loops before the search: every cell rebuilds its neighbour list from the current barriers. */
    method UpdateAllNeighbors()
      requires Valid()
      modifies Cells(grid)`neighbors
      ensures Valid()
      ensures AllFollowRule(grid) && Done(grid, Barriers(grid), Rows, 0)
      ensures Barriers(grid) == old(Barriers(grid))
    {
      ghost var bar := Barriers(grid);
      var i := 0;
      while i < Rows
        invariant 0 <= i <= Rows && Valid() && bar == Barriers(grid)
        invariant Done(grid, bar, i, 0)
      {
        var j := 0;
        while j < Rows
          invariant 0 <= j <= Rows && Valid() && bar == Barriers(grid)
          invariant Done(grid, bar, i, j)
        {
          UpdateOne(grid, bar, i, j);
          j := j + 1;
        }
        i := i + 1;
      }
      forall a, b | 0 <= a < |grid| && 0 <= b < |grid[a]|
        ensures NeighborsFollowRule(grid, grid[a][b])
      {
        assert Follows(grid, bar, grid[a][b]);
      }
    }

    /**
     * The search itself, once every neighbour list follows the rule for the
     * barriers `bar`: a path it reports is a shortest walk along the lists
     * that avoids the barriers; when it reports none, there is none.
     */
    method RunSearch(ghost bar: set<Pos>) returns (found: bool, ghost g: Graph, ghost path: seq<Node>)
      requires Valid() && start != null && end != null
      requires Done(grid, bar, Rows, 0)
      modifies Cells(grid)`color, Cells(grid)`previous
      ensures Done(grid, bar, Rows, 0)
      ensures g.Keys == Cells(grid) && Search.HasGraph(Cells(grid), g)
      ensures found ==> Search.FoundPath(g, start, end, path)
      ensures found ==> forall i :: 0 < i < |path| ==> path[i].GetPos() !in bar
      ensures found ==> forall q :: IsWalk(g, q) && q[0] == start && q[|q| - 1] == end ==> |path| <= |q|
      ensures !found ==> forall q :: IsWalk(g, q) && q[0] == start ==> q[|q| - 1] != end
    {
      g := NeighborGraph(grid);
      RuleGraph(grid, bar);
      var nodes := Cells(grid);
      found, path := Search.Astar(g, nodes, start, end);
      if found {
        WalkAvoidsBarriers(grid, bar, g, path);
      }
    }

    /**
     * The SPACE key: when both start and end are set, the neighbour lists
     * are rebuilt from the current barriers and the search runs.
     */
    method SpaceKey() returns (ran: bool, found: bool, ghost g: Graph, ghost path: seq<Node>)
      requires Valid()
      modifies Cells(grid)`neighbors, Cells(grid)`color, Cells(grid)`previous
      ensures Valid() && grid == old(grid) && start == old(start) && end == old(end)
      ensures ran <==> start != null && end != null
      ensures !ran ==> !found
      ensures ran ==> Done(grid, old(Barriers(grid)), Rows, 0)
      ensures ran ==> g.Keys == Cells(grid) && Search.HasGraph(Cells(grid), g)
      ensures ran && found ==> Search.FoundPath(g, start, end, path)
      ensures ran && found ==> forall i :: 0 < i < |path| ==> path[i].GetPos() !in old(Barriers(grid))
      ensures ran && found ==> forall q :: IsWalk(g, q) && q[0] == start && q[|q| - 1] == end ==> |path| <= |q|
      ensures ran && !found ==> forall q :: IsWalk(g, q) && q[0] == start ==> q[|q| - 1] != end
    {
      ran, found, g, path := false, false, map[], [];
      ghost var bar := Barriers(grid);
      if start != null && end != null {
        UpdateAllNeighbors();
        found, g, path := RunSearch(bar);
        ran := true;
      }
    }
  }
}

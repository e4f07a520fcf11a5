/**
 * The square grid of cells: the `Node` class with its colour-as-state,
 * the neighbour rule, grid construction, the Manhattan heuristic and the
 * pixel-to-cell mapping.
 */
module Grid {

  /** A cell's state is the colour it is painted with. */
  datatype Colour = White | Red | Green | Black | Orange | Purple | Blue

  /** An optional value: a reference that may be `None`. */
  datatype Option<T> = None | Some(value: T)

  /** A cell position: `row` and `col` as returned by `get_pos`. */
  datatype Pos = Pos(row: int, col: int)

  /** Python's `a // b` (floor division), which differs from Dafny's `/` for a negative divisor. */
  function FloorDiv(a: int, b: int): (q: int)
    requires b != 0
    ensures b * q <= a < b * q + b || b * q + b < a <= b * q
  {
    if b > 0 then a / b else (-a) / (-b)
  }

  function Abs(n: int): nat { if n < 0 then -n else n }

  /** The Manhattan distance between two positions: the search's heuristic. */
  function Heuristic(p1: Pos, p2: Pos): nat
  {
    Abs(p2.row - p1.row) + Abs(p2.col - p1.col)
  }

  /** Two positions are 4-adjacent: one step up, down, left or right. */
  predicate Adjacent(p: Pos, q: Pos)
  {
    Heuristic(p, q) == 1
  }

  /** The heuristic is a metric: symmetric, zero exactly on equal positions, and it obeys the triangle inequality. */
  lemma HeuristicIsMetric(a: Pos, b: Pos, c: Pos)
    ensures Heuristic(a, b) == Heuristic(b, a)
    ensures Heuristic(a, b) == 0 <==> a == b
    ensures Heuristic(a, c) <= Heuristic(a, b) + Heuristic(b, c)
  {
  }

  /**
   * Between 4-adjacent cells the heuristic changes by exactly one, so it is
   * consistent (and hence admissible) for unit-cost moves.
   */
  lemma HeuristicStep(p: Pos, q: Pos, goal: Pos)
    requires Adjacent(p, q)
    ensures Heuristic(p, goal) == Heuristic(q, goal) + 1 || Heuristic(q, goal) == Heuristic(p, goal) + 1
  {
  }

  /** Along a walk of 4-adjacent positions the heuristic never drops faster than one per step. */
  lemma {:induction false} HeuristicAlongWalk(ps: seq<Pos>, goal: Pos)
    requires |ps| > 0
    requires forall i :: 0 <= i < |ps| - 1 ==> Adjacent(ps[i], ps[i + 1])
    ensures Heuristic(ps[0], goal) <= |ps| - 1 + Heuristic(ps[|ps| - 1], goal)
  {
    if |ps| > 1 {
      HeuristicAlongWalk(ps[1..], goal);
      HeuristicStep(ps[0], ps[1], goal);
    }
  }

  /**
   * The neighbour rule of `update_neighbors`: the cells below, above, to the
   * right and to the left of `p`, in that order, that lie inside a grid of
   * `rows` by `rows` cells and are not barriers.
   */
  function NeighborPositions(rows: int, barriers: set<Pos>, p: Pos): seq<Pos>
  {
    KeepIf(p.row < rows - 1, Pos(p.row + 1, p.col), barriers)
    + KeepIf(p.row > 0, Pos(p.row - 1, p.col), barriers)
    + KeepIf(p.col < rows - 1, Pos(p.row, p.col + 1), barriers)
    + KeepIf(p.col > 0, Pos(p.row, p.col - 1), barriers)
  }

  /** `[q]` when `q` passes the bounds test `inside` and is not a barrier, else nothing. */
  function KeepIf(inside: bool, q: Pos, barriers: set<Pos>): seq<Pos>
  {
    if inside && q !in barriers then [q] else []
  }

  predicate InBounds(rows: int, p: Pos)
  {
    0 <= p.row < rows && 0 <= p.col < rows
  }

  /**
   * Every entry of the neighbour rule lies inside the grid, is not a barrier
   * and is 4-adjacent to `p`; there are at most four.
   */
  lemma NeighborPositionsSound(rows: int, barriers: set<Pos>, p: Pos)
    requires InBounds(rows, p)
    ensures var ns := NeighborPositions(rows, barriers, p);
      && |ns| <= 4
      && forall i :: 0 <= i < |ns| ==> InBounds(rows, ns[i]) && ns[i] !in barriers && Adjacent(p, ns[i])
  {
  }

  /** Every 4-adjacent cell inside the grid that is not a barrier is a neighbour. */
  lemma NeighborPositionsComplete(rows: int, barriers: set<Pos>, p: Pos, q: Pos)
    requires InBounds(rows, p)
    requires InBounds(rows, q) && q !in barriers && Adjacent(p, q)
    ensures q in NeighborPositions(rows, barriers, p)
  {
    var down := KeepIf(p.row < rows - 1, Pos(p.row + 1, p.col), barriers);
    var up := KeepIf(p.row > 0, Pos(p.row - 1, p.col), barriers);
    var right := KeepIf(p.col < rows - 1, Pos(p.row, p.col + 1), barriers);
    var left := KeepIf(p.col > 0, Pos(p.row, p.col - 1), barriers);
    assert NeighborPositions(rows, barriers, p) == down + up + right + left;
    if q.row > p.row {
      assert q == Pos(p.row + 1, p.col);
      assert down == [q];
    } else if q.row < p.row {
      assert q == Pos(p.row - 1, p.col);
      assert up == [q];
    } else if q.col > p.col {
      assert q == Pos(p.row, p.col + 1);
      assert right == [q];
    } else {
      assert q == Pos(p.row, p.col - 1);
      assert left == [q];
    }
  }

  /** The neighbours come in the order down, up, right, left. */
  lemma NeighborPositionsOrdered(rows: int, barriers: set<Pos>, p: Pos)
    ensures var ns := NeighborPositions(rows, barriers, p);
      forall i, j :: 0 <= i < j < |ns| ==> DirectionRank(p, ns[i]) < DirectionRank(p, ns[j])
  {
  }

  /** The position of a 4-adjacent cell in the order down, up, right, left. */
  function DirectionRank(p: Pos, q: Pos): int
  {
    if q.row > p.row then 0 else if q.row < p.row then 1 else if q.col > p.col then 2 else 3
  }

  /** One cell of the grid; colour, neighbour list and predecessor change in place. */
  class Node {
    const row: int
    const col: int
    const x: int
    const y: int
    const width: int
    const totalRows: int
    var color: Colour
    var neighbors: seq<Node>
    var previous: Node?

    /** A white cell at (row, col), drawn at pixel (row * width, col * width). */
    constructor (row: int, col: int, width: int, totalRows: int)
      ensures this.row == row && this.col == col
      ensures x == row * width && y == col * width
      ensures this.width == width && this.totalRows == totalRows
      ensures color == White && neighbors == [] && previous == null
    {
      this.row := row;
      this.col := col;
      this.x := row * width;
      this.y := col * width;
      this.width := width;
      this.totalRows := totalRows;
      color := White;
      neighbors := [];
      previous := null;
    }

    function GetPos(): Pos { Pos(row, col) }

    predicate IsClosed() reads this { color == Red }
    predicate IsOpen() reads this { color == Green }
    predicate IsBarrier() reads this { color == Black }
    predicate IsStart() reads this { color == Orange }
    predicate IsEnd() reads this { color == Purple }

    method Reset()
      modifies this`color
      ensures color == White
    {
      color := White;
    }

    method MakeStart()
      modifies this`color
      ensures color == Orange
    {
      color := Orange;
    }

    method MakeClosed()
      modifies this`color
      ensures color == Red
    {
      color := Red;
    }

    method MakeOpen()
      modifies this`color
      ensures color == Green
    {
      color := Green;
    }

    method MakeBarrier()
      modifies this`color
      ensures color == Black
    {
      color := Black;
    }

    method MakeEnd()
      modifies this`color
      ensures color == Purple
    {
      color := Purple;
    }

    method MakePath()
      modifies this`color
      ensures color == Blue
    {
      color := Blue;
    }

    /** Rebuilds `neighbors` from the grid's current barriers by the neighbour rule. */
    method UpdateNeighbors(grid: seq<seq<Node>>)
      requires IsSquare(grid, totalRows)
      requires InBounds(totalRows, GetPos())
      modifies this`neighbors
      ensures Lists(grid, neighbors, NeighborPositions(totalRows, old(Barriers(grid)), GetPos()))
    {
      ghost var barriers := Barriers(grid);
      var ns: seq<Node> := [];
      var down := NodeIf(grid, row < totalRows - 1, Pos(row + 1, col));
      ns := ns + down;
      var up := NodeIf(grid, row > 0, Pos(row - 1, col));
      ns := ns + up;
      var right := NodeIf(grid, col < totalRows - 1, Pos(row, col + 1));
      ns := ns + right;
      var left := NodeIf(grid, col > 0, Pos(row, col - 1));
      ns := ns + left;
      assert Lists(grid, ns, NeighborPositions(totalRows, barriers, GetPos())) by {
        assert ns == down + up + right + left;
        PiecesFollowRule(grid, totalRows, GetPos(), down, up, right, left);
      }
      neighbors := ns;
    }
  }

  /** `grid` has `rows` rows of `rows` cells each. */
  predicate IsSquare(grid: seq<seq<Node>>, rows: int)
  {
    |grid| == rows && forall i :: 0 <= i < |grid| ==> |grid[i]| == rows
  }

  /** A square grid whose cell at (i, j) knows its own position and the grid's size. */
  predicate WellFormed(grid: seq<seq<Node>>)
  {
    && IsSquare(grid, |grid|)
    && forall i, j :: 0 <= i < |grid| && 0 <= j < |grid| ==>
         grid[i][j].row == i && grid[i][j].col == j && grid[i][j].totalRows == |grid|
  }

  /** Every cell of the grid. */
  function Cells(grid: seq<seq<Node>>): set<Node>
  {
    set i, j | 0 <= i < |grid| && 0 <= j < |grid[i]| :: grid[i][j]
  }

  /** The positions of the cells painted black. */
  ghost function Barriers(grid: seq<seq<Node>>): set<Pos>
    reads Cells(grid)`color
  {
    set i, j | 0 <= i < |grid| && 0 <= j < |grid[i]| && grid[i][j].color == Black :: Pos(i, j)
  }

  /** A position inside the grid is a barrier exactly when its cell is painted black. */
  lemma BarrierAt(grid: seq<seq<Node>>, p: Pos)
    requires 0 <= p.row < |grid| && 0 <= p.col < |grid[p.row]|
    ensures p in Barriers(grid) <==> grid[p.row][p.col].color == Black
  {
  }

  /** `ns` lists the cells at the positions `ps`, in the same order. */
  predicate Lists(grid: seq<seq<Node>>, ns: seq<Node>, ps: seq<Pos>)
  {
    && |ns| == |ps|
    && forall k :: 0 <= k < |ps| ==>
         0 <= ps[k].row < |grid| && 0 <= ps[k].col < |grid[ps[k].row]| && ns[k] == grid[ps[k].row][ps[k].col]
  }

  /**
   * The neighbour list of `n` is the neighbour rule applied to `n`'s position
   * and the grid's current barriers.
   */
  ghost predicate NeighborsFollowRule(grid: seq<seq<Node>>, n: Node)
    reads Cells(grid)`color, n`neighbors
  {
    Lists(grid, n.neighbors, NeighborPositions(n.totalRows, Barriers(grid), n.GetPos()))
  }

  /** `[cell at q]` when `q` passes the bounds test `inside` and its cell is not black, else nothing. */
  function NodeIf(grid: seq<seq<Node>>, inside: bool, q: Pos): seq<Node>
    requires inside ==> 0 <= q.row < |grid| && 0 <= q.col < |grid[q.row]|
    reads Cells(grid)`color
  {
    if inside && grid[q.row][q.col].color != Black then [grid[q.row][q.col]] else []
  }

  /**
   * The four pieces `update_neighbors` appends, read off the cells' colours,
   * make up the neighbour rule applied to the grid's barriers.
   */
  lemma PiecesFollowRule(grid: seq<seq<Node>>, rows: int, p: Pos, down: seq<Node>, up: seq<Node>, right: seq<Node>, left: seq<Node>)
    requires IsSquare(grid, rows) && InBounds(rows, p)
    requires down == NodeIf(grid, p.row < rows - 1, Pos(p.row + 1, p.col))
    requires up == NodeIf(grid, p.row > 0, Pos(p.row - 1, p.col))
    requires right == NodeIf(grid, p.col < rows - 1, Pos(p.row, p.col + 1))
    requires left == NodeIf(grid, p.col > 0, Pos(p.row, p.col - 1))
    ensures Lists(grid, down + up + right + left, NeighborPositions(rows, Barriers(grid), p))
  {
    var b := Barriers(grid);
    PieceLists(grid, p.row < rows - 1, Pos(p.row + 1, p.col));
    PieceLists(grid, p.row > 0, Pos(p.row - 1, p.col));
    PieceLists(grid, p.col < rows - 1, Pos(p.row, p.col + 1));
    PieceLists(grid, p.col > 0, Pos(p.row, p.col - 1));
    ListsConcat4(grid, down, up, right, left,
      KeepIf(p.row < rows - 1, Pos(p.row + 1, p.col), b), KeepIf(p.row > 0, Pos(p.row - 1, p.col), b),
      KeepIf(p.col < rows - 1, Pos(p.row, p.col + 1), b), KeepIf(p.col > 0, Pos(p.row, p.col - 1), b));
  }

  lemma ListsConcat4(grid: seq<seq<Node>>, n1: seq<Node>, n2: seq<Node>, n3: seq<Node>, n4: seq<Node>,
                     p1: seq<Pos>, p2: seq<Pos>, p3: seq<Pos>, p4: seq<Pos>)
    requires Lists(grid, n1, p1) && Lists(grid, n2, p2) && Lists(grid, n3, p3) && Lists(grid, n4, p4)
    ensures Lists(grid, n1 + n2 + n3 + n4, p1 + p2 + p3 + p4)
  {
    ListsConcat(grid, n1, p1, n2, p2);
    ListsConcat(grid, n1 + n2, p1 + p2, n3, p3);
    ListsConcat(grid, n1 + n2 + n3, p1 + p2 + p3, n4, p4);
  }

  lemma PieceLists(grid: seq<seq<Node>>, inside: bool, q: Pos)
    requires inside ==> 0 <= q.row < |grid| && 0 <= q.col < |grid[q.row]|
    ensures Lists(grid, NodeIf(grid, inside, q), KeepIf(inside, q, Barriers(grid)))
  {
    if inside {
      BarrierAt(grid, q);
    }
  }

  lemma ListsConcat(grid: seq<seq<Node>>, ns1: seq<Node>, ps1: seq<Pos>, ns2: seq<Node>, ps2: seq<Pos>)
    requires Lists(grid, ns1, ps1) && Lists(grid, ns2, ps2)
    ensures Lists(grid, ns1 + ns2, ps1 + ps2)
  {
    forall k | 0 <= k < |ps1 + ps2|
      ensures 0 <= (ps1 + ps2)[k].row < |grid| && 0 <= (ps1 + ps2)[k].col < |grid[(ps1 + ps2)[k].row]|
      ensures (ns1 + ns2)[k] == grid[(ps1 + ps2)[k].row][(ps1 + ps2)[k].col]
    {
      if k >= |ps1| {
        assert (ps1 + ps2)[k] == ps2[k - |ps1|];
      }
    }
  }

  /** A freshly made cell: white, no neighbours, no predecessor, drawn with side `gap` at its own position. */
  ghost predicate NewCell(n: Node, gap: int)
    reads n
  {
    && n.color == White && n.neighbors == [] && n.previous == null
    && n.width == gap && n.x == n.row * gap && n.y == n.col * gap
  }

  /**
   * `make_grid`: `rows` rows of `rows` new white cells of side `width // rows`,
   * the cell at (i, j) knowing its own position. A negative `rows` gives an
   * empty grid, as `range` does; `rows == 0` divides by zero.
   */
  method MakeGrid(rows: int, width: int) returns (grid: seq<seq<Node>>)
    requires rows != 0
    ensures |grid| == if rows < 0 then 0 else rows
    ensures WellFormed(grid)
    ensures forall i, j :: 0 <= i < |grid| && 0 <= j < |grid| ==> NewCell(grid[i][j], FloorDiv(width, rows))
    ensures forall i, j :: 0 <= i < |grid| && 0 <= j < |grid| ==> fresh(grid[i][j])
  {
    var gap := FloorDiv(width, rows);
    grid := [];
    var i := 0;
    while i < rows
      invariant 0 <= i && (rows >= 0 ==> i <= rows) && (rows < 0 ==> i == 0)
      invariant |grid| == i
      invariant forall a :: 0 <= a < i ==> |grid[a]| == rows
      invariant forall a, b :: 0 <= a < i && 0 <= b < rows ==>
        grid[a][b].row == a && grid[a][b].col == b && grid[a][b].totalRows == rows
        && NewCell(grid[a][b], gap) && fresh(grid[a][b])
    {
      var line: seq<Node> := [];
      var j := 0;
      while j < rows
        invariant 0 <= j <= rows
        invariant |line| == j
        invariant forall a, b :: 0 <= a < i && 0 <= b < rows ==> NewCell(grid[a][b], gap)
        invariant forall b :: 0 <= b < j ==>
          line[b].row == i && line[b].col == b && line[b].totalRows == rows
          && NewCell(line[b], gap) && fresh(line[b])
      {
        var node := new Node(i, j, gap, rows);
        line := line + [node];
        j := j + 1;
      }
      assert forall b :: 0 <= b < rows ==> (grid + [line])[i][b] == line[b];
      grid := grid + [line];
      i := i + 1;
    }
  }

  /**
   * `get_mouse_pos`: the cell under pixel (px, py) when cells have side
   * `width // rows`. The pixel lies inside the returned cell's square.
   */
  function GetMousePos(px: int, py: int, rows: int, width: int): (p: Pos)
    requires rows != 0 && FloorDiv(width, rows) != 0
    ensures var gap := FloorDiv(width, rows);
      gap > 0 ==> p.row * gap <= px < p.row * gap + gap && p.col * gap <= py < p.col * gap + gap
  {
    var gap := FloorDiv(width, rows);
    Pos(FloorDiv(px, gap), FloorDiv(py, gap))
  }

  /** Multiplying by a positive number keeps a strict order, with a whole `gap` to spare. */
  lemma {:induction false} MulMono(a: int, b: int, gap: int)
    requires gap > 0 && a < b
    ensures a * gap + gap <= b * gap
    decreases b - a
  {
    if a + 1 < b {
      MulMono(a, b - 1, gap);
    }
    assert (b - 1) * gap + gap == b * gap;
  }

  /** Floor division by a positive number has a unique quotient. */
  lemma QuotientUnique(a: int, gap: int, q1: int, q2: int)
    requires gap > 0
    requires q1 * gap <= a < q1 * gap + gap
    requires q2 * gap <= a < q2 * gap + gap
    ensures q1 == q2
  {
    if q1 < q2 {
      MulMono(q1, q2, gap);
    } else if q2 < q1 {
      MulMono(q2, q1, gap);
    }
  }

  /**
   * Every pixel of the square drawn for the cell at (i, j) maps back to
   * (i, j): `get_mouse_pos` inverts the drawing position `x = row * gap`.
   */
  lemma MousePosInvertsDrawing(i: int, j: int, dx: int, dy: int, rows: int, width: int)
    requires rows != 0 && FloorDiv(width, rows) > 0
    requires 0 <= dx < FloorDiv(width, rows) && 0 <= dy < FloorDiv(width, rows)
    ensures var gap := FloorDiv(width, rows);
      GetMousePos(i * gap + dx, j * gap + dy, rows, width) == Pos(i, j)
  {
    var gap := FloorDiv(width, rows);
    var p := GetMousePos(i * gap + dx, j * gap + dy, rows, width);
    QuotientUnique(i * gap + dx, gap, p.row, i);
    QuotientUnique(j * gap + dy, gap, p.col, j);
  }

  /** A pixel of the `rows * gap` square covered by cells maps to a cell inside the grid. */
  lemma MousePosInBounds(px: int, py: int, rows: int, width: int)
    requires rows > 0 && FloorDiv(width, rows) > 0
    requires 0 <= px < rows * FloorDiv(width, rows) && 0 <= py < rows * FloorDiv(width, rows)
    ensures InBounds(rows, GetMousePos(px, py, rows, width))
  {
    var gap := FloorDiv(width, rows);
    var p := GetMousePos(px, py, rows, width);
    if p.row < 0 {
      MulMono(p.row, 0, gap);
    }
    if p.row >= rows {
      MulMono(rows - 1, p.row, gap);
    }
    if p.col < 0 {
      MulMono(p.col, 0, gap);
    }
    if p.col >= rows {
      MulMono(rows - 1, p.col, gap);
    }
  }
}

/**
 * The grid `main` builds has 50 by 50 cells. A search confined to the
 * top-left `k` by `k` corner by a wall of barriers along row `k` and
 * column `k` runs on that grid exactly as on a `k` by `k` grid: every cell
 * of the corner has the same neighbour list on both. So the two runs of
 * `Counterexamples` are runs of the program on its own grid.
 */
module MainGrid {
  import opened Grid
  import opened AsWritten
  import opened Counterexamples
  import Editor

  /** `barriers` with a wall of barriers along row `k` and column `k`, closing off the top-left `k` by `k` corner. */
  function Walled(k: nat, barriers: set<Pos>): (w: set<Pos>)
    ensures barriers <= w
    ensures forall j | 0 <= j < k :: Pos(k, j) in w && Pos(j, k) in w
  {
    barriers + (set j | 0 <= j < k :: Pos(k, j)) + (set j | 0 <= j < k :: Pos(j, k))
  }

  /** A cell of the corner has the same neighbour list on the walled large grid as on the `k` by `k` grid. */
  lemma WalledNeighbors(rows: int, k: nat, barriers: set<Pos>, p: Pos)
    requires k < rows && InBounds(k, p)
    ensures NeighborPositions(rows, Walled(k, barriers), p) == NeighborPositions(k, barriers, p)
  {
    var w := Walled(k, barriers);
    forall q | InBounds(k, q)
      ensures q in w <==> q in barriers
    {
    }
    assert p.row + 1 == k ==> Pos(p.row + 1, p.col) in w;
    assert p.col + 1 == k ==> Pos(p.row, p.col + 1) in w;
  }

  /** A walk inside the corner under the neighbour rule of the `k` by `k` grid is one on the walled large grid. */
  lemma WalledWalk(rows: int, k: nat, barriers: set<Pos>, w: seq<Pos>)
    requires k < rows && PosWalk(k, barriers, w) && forall i | 0 <= i < |w| :: InBounds(k, w[i])
    ensures PosWalk(rows, Walled(k, barriers), w)
  {
    forall i | 0 <= i < |w| - 1
      ensures w[i + 1] in NeighborPositions(rows, Walled(k, barriers), w[i])
    {
      WalledNeighbors(rows, k, barriers, w[i]);
    }
  }

  /** From a state tracked on the `k` by `k` grid, the loop runs the same on the walled large grid. */
  lemma {:induction false} WalledLoop(rows: nat, k: nat, barriers: set<Pos>, goal: Pos, s: Search, fuel: nat)
    requires k < rows && Tracked(k, s)
    ensures Loop(rows, Walled(k, barriers), goal, s, fuel) == Loop(k, barriers, goal, s, fuel)
    decreases fuel
  {
    if |s.queue| > 0 && fuel > 0 {
      PoppedIsTracked(k, s);
      var step := Pop(s);
      var cur := step.entry.pos;
      if cur != goal {
        WalledNeighbors(rows, k, barriers, cur);
        RoundSpec(k, barriers, goal, step.after, cur);
        WalledLoop(rows, k, barriers, goal, Round(k, barriers, goal, step.after, cur), fuel - 1);
      }
    }
  }

  /** A search from a cell of the corner, over links inside it, runs the same on the walled large grid. */
  lemma WalledRun(rows: nat, k: nat, barriers: set<Pos>, start: Pos, goal: Pos, prev: Cells<Pos>, fuel: nat)
    requires k < rows && InBounds(k, start) && Inside(prev, k)
    ensures Run(rows, Walled(k, barriers), start, goal, prev, fuel) == Run(k, barriers, start, goal, prev, fuel)
  {
    StartIsTracked(k, start, goal, prev);
    WalledLoop(rows, k, barriers, goal, Start(start, goal, prev), fuel);
  }

  /** Every cell with a link lies inside the `k` by `k` corner, checked binding by binding. */
  function AllInside(t: Cells<Pos>, k: nat): (b: bool)
    ensures b ==> Inside(t, k)
  {
    t.Empty? || (InBounds(k, t.key) && AllInside(t.rest, k))
  }

  /**
   * The stale-priority run on the 50 by 50 grid of `main`, walled off
   * along row 6 and column 6: the goal is found in the same state, at
   * cost 9, while a 7-step walk reaches it.
   */
  lemma StalePriorityOnMainGrid()
    ensures PosWalk(Editor.Rows, Walled(StaleRows, StaleBarriers),
                    [Pos(3, 5), Pos(3, 4), Pos(3, 3), Pos(3, 2), Pos(3, 1), Pos(3, 0), Pos(2, 0), Pos(1, 0)])
    ensures forall fuel: nat | fuel >= 20 ::
      Run(Editor.Rows, Walled(StaleRows, StaleBarriers), Pos(3, 5), StaleGoal, Empty, fuel) == Found(StaleFinal)
    ensures Get(StaleFinal.cost, StaleGoal) == Some(9)
  {
    StalePriorityCounterexample();
    WalledWalk(Editor.Rows, StaleRows, StaleBarriers, [Pos(3, 5), Pos(3, 4), Pos(3, 3), Pos(3, 2), Pos(3, 1), Pos(3, 0), Pos(2, 0), Pos(1, 0)]);
    forall fuel: nat | fuel >= 20
      ensures Run(Editor.Rows, Walled(StaleRows, StaleBarriers), Pos(3, 5), StaleGoal, Empty, fuel) == Found(StaleFinal)
    {
      WalledRun(Editor.Rows, StaleRows, StaleBarriers, Pos(3, 5), StaleGoal, Empty, fuel);
    }
  }

  /**
   * The stale-link run on the 50 by 50 grid of `main`, walled off along
   * row 2 and column 2: both searches find the goal in the same states, and
   * the second reconstruction never ends.
   */
  lemma StalePreviousOnMainGrid()
    ensures Run(Editor.Rows, Walled(SmallRows, SmallBarriers), Pos(0, 0), SmallGoal, Empty, 3) == Found(FirstFinal)
    ensures Run(Editor.Rows, Walled(SmallRows, SmallBarriers), Pos(1, 0), SmallGoal, FirstFinal.prev, 2) == Found(SecondFinal)
    ensures forall fuel: nat :: Painted(SecondFinal.prev, SmallGoal, fuel) == None
  {
    StalePreviousCounterexample();
    WalledRun(Editor.Rows, SmallRows, SmallBarriers, Pos(0, 0), SmallGoal, Empty, 3);
    assert AllInside(FirstFinal.prev, SmallRows);
    WalledRun(Editor.Rows, SmallRows, SmallBarriers, Pos(1, 0), SmallGoal, FirstFinal.prev, 2);
  }
}

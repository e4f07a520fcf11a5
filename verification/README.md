# Trailblazer in Dafny

Trailblazer is a small interactive A* path finder on a square grid. The user
clicks cells to place a start, an end and barriers. SPACE searches for a
shortest 4-connected path and paints it. C clears the grid. This project
models the program's core, `Trailblazer.py`, and proves its properties:

- `Grid.dfy`: the cell (`Node`) as a class whose colour is its state.
  - The neighbour rule of `update_neighbors`, the Manhattan heuristic, `make_grid`.
  - The pixel-to-cell mapping `get_mouse_pos`.
- `SearchState.dfy`: the state of the A* search as a value.
  - The cost table, the queue as a map from node to priority, `tSet` and the predecessor links.
  - The loop invariants of the search, and the lemmas that make it correct and optimal.
- `Search.dfy`: `Astar` as imperative code over the cells.
  - The cost table, queue and `tSet` are local variables.
  - Colours and `previous` links change in place.
  - Each method is proved against the functions of `SearchState`.
  - This is the corrected search. See "Findings".
- `Heapq.dfy`: the binary heap behind `PriorityQueue`, as CPython's `heapq` lays it out.
  - `heappush` and `heappop` with their sift loops, on `(priority, node)` entries.
  - The heap property, the least entry at the root, and one entry per node.
- `AsWritten.dfy`: `Astar` exactly as the source writes it, on positions.
  - The queue is the heap of `Heapq`; an entry keeps the priority it was pushed with.
  - A reconstruction loop that follows `previous` until a cell has none.
  - The invariants the search keeps, and that an empty heap means the goal is unreachable.
- `Counterexamples.dfy`: two concrete runs of `AsWritten`, computed pop by pop with the heap's own layout.
  - Each shows one of the two defects listed under "Findings".
- `FoundPath.dfy`: what the search as written paints when it pops the goal on cells that hold no `previous` links yet.
  - The reconstruction loop ends, and paints exactly as many cells as the goal's cost, each one step from the next.
- `MainGrid.dfy`: the two runs of `Counterexamples` on the 50 by 50 grid `main` builds, with the small grid walled off by barriers.
- `Editor.dfy`: the editing state machine of `main`, as a class holding the grid, `start` and `end`.
  - Left and right clicks, the C key, and the SPACE key.
  - SPACE rebuilds every neighbour list, then runs the search.

Four facts about the code shape the model:

- `make_closed` returns `None`, so the guard `if not neighbor.make_closed()` at Trailblazer.py:121 is always true, and every neighbour examined turns red. `Search.RelaxNeighborStep` and `AsWritten.RelaxOne` do the same.
- `Astar` does not need `start != end`, and `Search.Astar` does not require it. The editor keeps the two apart (`Editor.LeftClickRule`).
- As written, the search does not always return a shortest path (first finding).
- A quit event inside the search calls `pygame.quit()`, and the loop goes on.

## Model

| member | source | states |
|---|---|---|
| Grid.FloorDiv | Trailblazer.py:167-170 | Python's `//`: the quotient `q` satisfies `b*q <= a < b*q + b` for a positive divisor, and the mirror bounds for a negative one |
| Grid.Heuristic | Trailblazer.py:133-137 | the Manhattan distance between two positions; its properties are stated by `HeuristicIsMetric`, `HeuristicStep` and `HeuristicAlongWalk` |
| Grid.HeuristicIsMetric | Trailblazer.py:133-137 | the Manhattan heuristic is symmetric, is zero exactly on equal positions, and obeys the triangle inequality |
| Grid.HeuristicStep | Trailblazer.py:133-137 | between 4-adjacent cells the heuristic changes by exactly one, so it is consistent |
| Grid.HeuristicAlongWalk | Trailblazer.py:133-137 | along a walk of adjacent cells, the heuristic drops by at most one per step (admissibility) |
| Grid.NeighborPositions | Trailblazer.py:76-88 | the cells below, above, right and left of a cell that lie in the grid and are not barriers, in that order; stated by the three lemmas below |
| Grid.NeighborPositionsSound | Trailblazer.py:76-88 | the neighbour rule yields at most four cells; each is in bounds, not a barrier, and at Manhattan distance 1 |
| Grid.NeighborPositionsComplete | Trailblazer.py:76-88 | every in-bounds, non-barrier, 4-adjacent cell is among the neighbours |
| Grid.NeighborPositionsOrdered | Trailblazer.py:76-88 | the neighbours come in the order down, up, right, left |
| Grid.Node.constructor | Trailblazer.py:23-32 | a new cell keeps its row, column, size and grid size, is drawn at `(row*width, col*width)`, and is white with no neighbours and no `previous` |
| Grid.Node.GetPos | Trailblazer.py:34-35 | the cell's row and column |
| Grid.Node.IsClosed | Trailblazer.py:37-38 | true exactly when the cell is red |
| Grid.Node.IsOpen | Trailblazer.py:40-41 | true exactly when the cell is green |
| Grid.Node.IsBarrier | Trailblazer.py:43-44 | true exactly when the cell is black |
| Grid.Node.IsStart | Trailblazer.py:46-47 | true exactly when the cell is orange |
| Grid.Node.IsEnd | Trailblazer.py:49-50 | true exactly when the cell is purple |
| Grid.Node.Reset | Trailblazer.py:52-53 | the cell becomes white; only its colour changes |
| Grid.Node.MakeStart | Trailblazer.py:55-56 | the cell becomes orange; only its colour changes |
| Grid.Node.MakeClosed | Trailblazer.py:58-59 | the cell becomes red; only its colour changes |
| Grid.Node.MakeOpen | Trailblazer.py:61-62 | the cell becomes green; only its colour changes |
| Grid.Node.MakeBarrier | Trailblazer.py:64-65 | the cell becomes black; only its colour changes |
| Grid.Node.MakeEnd | Trailblazer.py:67-68 | the cell becomes purple; only its colour changes |
| Grid.Node.MakePath | Trailblazer.py:70-71 | the cell becomes blue; only its colour changes |
| Grid.PiecesFollowRule | Trailblazer.py:76-88 | the four conditional appends, reading the cells' colours, list exactly the cells of the neighbour rule for the grid's barriers |
| Grid.Node.UpdateNeighbors | Trailblazer.py:76-88 | the new neighbour list holds the cells of the neighbour rule for the current barriers, in rule order; only `neighbors` changes |
| Grid.MakeGrid | Trailblazer.py:139-147 | `rows` rows of `rows` fresh cells; the cell at (i, j) has row i, column j, side `width // rows`, is drawn at `(i*gap, j*gap)`, and is white with no `previous` |
| Grid.GetMousePos | Trailblazer.py:166-172 | for a positive cell size, the pixel lies inside the square of the cell returned |
| Grid.MousePosInvertsDrawing | Trailblazer.py:166-172 | every pixel of the square drawn for cell (i, j) maps back to (i, j) |
| Grid.MousePosInBounds | Trailblazer.py:166-172 | a pixel of the `rows*gap` square covered by cells maps to a cell inside the grid |
| SearchState.Initial | Trailblazer.py:96-100 | before the loop, only `start` has a cost, 0; every other cell's cost is infinite; only `start` is queued, at its heuristic |
| SearchState.InitialInv | Trailblazer.py:96-100 | the initial state satisfies the loop invariant |
| SearchState.MinExists | Trailblazer.py:108 | a non-empty queue has an entry of least priority to pop |
| SearchState.Pop | Trailblazer.py:108-109 | the popped node leaves the queue and `tSet`; costs and links stay |
| SearchState.RelaxNeighbor | Trailblazer.py:121-129 | one pass of the corrected neighbour loop, with decrease-key on the queue; stated by the `RelaxNeighbor...` lemmas below |
| SearchState.RelaxAll | Trailblazer.py:120-129 | the corrected neighbour loop over a list of neighbours, front to back; stated by `RelaxAllInv` and `RelaxAllDrops` |
| SearchState.PopStartsRelax | Trailblazer.py:108-110 | a popped node other than the goal has a finite cost, and popping it starts the neighbour loop's invariant |
| SearchState.RelaxNeighborQueue | Trailblazer.py:122-129 | after a relaxation the queue holds exactly `tSet`, each node at cost plus heuristic; `cost[start]` stays 0 |
| SearchState.RelaxNeighborChain | Trailblazer.py:122-125 | after a relaxation, each reached node except `start` has a predecessor that lists it as a neighbour and costs at least one less |
| SearchState.RelaxNeighborRelaxed | Trailblazer.py:120-129 | a relaxation leaves every closed node relaxed, and leaves each handled neighbour at most one step above the current node |
| SearchState.RelaxNeighborDrops | Trailblazer.py:122-124 | a relaxation only lowers costs; if no cost changes, nothing changes |
| SearchState.RelaxNeighborInv | Trailblazer.py:120-129 | one pass of the neighbour loop keeps the neighbour loop's invariant |
| SearchState.RelaxAllInv | Trailblazer.py:120-129 | the whole neighbour loop keeps the neighbour loop's invariant |
| SearchState.RelaxAllDrops | Trailblazer.py:120-129 | the neighbour loop only lowers costs; if none changes, the state is unchanged |
| SearchState.IterationKeepsInv | Trailblazer.py:102-129 | one iteration that does not pop the goal keeps the main invariant and only lowers costs; if no cost changes, the queue loses the popped node |
| SearchState.CostDropShrinks | Trailblazer.py:102 | a drop of some cost shrinks the termination measure (the infinite costs, then the finite cost units) |
| SearchState.Frontier | Trailblazer.py:102-129 | any walk from `start` either meets a queued node whose cost is at most its index on the walk, or ends at a node whose cost is at most the walk's length |
| SearchState.WalkHeuristic | Trailblazer.py:133-137 | along a walk of the neighbour graph, the heuristic is admissible |
| SearchState.PopIsOptimal | Trailblazer.py:108-111 | when the goal has the least priority, its cost is at most the length of every walk from `start` to it |
| SearchState.PathToStep | Trailblazer.py:112-114 | one step back along `previous` goes to a strictly cheaper node and extends the path |
| SearchState.PathToIsWalk | Trailblazer.py:112-114 | the predecessor chain from a reached node back to `start` is a walk of the neighbour graph, no longer than the node's cost |
| SearchState.PathToInterior | Trailblazer.py:112-114 | the chain's interior contains neither `start` nor its last node |
| SearchState.ExhaustedMeansUnreachable | Trailblazer.py:102-131 | when the queue empties without the goal, no walk from `start` reaches it |
| Search.PopMin | Trailblazer.py:108-110 | the popped node has least priority; it leaves the queue and `tSet` and turns red; no other cell's colour changes |
| Search.RelaxNeighborStep | Trailblazer.py:120-129 | one pass of the neighbour loop: the neighbour turns red; if the new cost is lower, it gets the cost and `previous`, and it is queued (green) or its priority lowered |
| Search.Relax | Trailblazer.py:120-129 | the neighbour loop leaves the state of `RelaxAll`, and each neighbour red or newly green; other cells keep their colour |
| Search.Reconstruct | Trailblazer.py:112-117 | follows `previous` from the goal to `start`, painting the path blue; the cells it visits form a walk no longer than the goal's cost |
| Search.Finish | Trailblazer.py:111-118 | on popping the goal: the painted path is a shortest walk from start to end, linked by `previous`, with start orange and end purple |
| Search.Expand | Trailblazer.py:120-129 | the neighbour loop of a non-goal node restores the main invariant and decreases the termination measure |
| Search.Step | Trailblazer.py:102-129 | one iteration of the main loop: success with a shortest path, or the invariant again with progress |
| Search.Astar | Trailblazer.py:94-131 | returns true with a shortest path painted and linked, or false when no walk from start reaches end |
| Heapq.HeapPush | Trailblazer.py:127 | `heappush` grows the heap by one entry |
| Heapq.HeapPushPerm | Trailblazer.py:127 | `heappush` adds exactly the entry given to the heap's entries |
| Heapq.SiftDownHeap | Trailblazer.py:127 | sifting an entry towards the root repairs the one edge it breaks, giving a heap |
| Heapq.HeapPushHeap | Trailblazer.py:127 | `heappush` on a heap gives a heap |
| Heapq.HeapPushDistinct | Trailblazer.py:127 | pushing an entry for a node the heap does not hold keeps one entry per node |
| Heapq.HeapPop | Trailblazer.py:108 | `heappop` returns the root and leaves one entry fewer |
| Heapq.HeapPopPerm | Trailblazer.py:108 | `heappop` removes exactly the entry it returns |
| Heapq.RootIsLeast | Trailblazer.py:108 | the root of a heap has the least priority |
| Heapq.SiftUpHeap | Trailblazer.py:108 | moving the last entry from the root down to a leaf and back up gives a heap |
| Heapq.HeapPopHeap | Trailblazer.py:108 | `heappop` on a heap returns an entry of least priority and leaves a heap |
| Heapq.HeapPopDistinct | Trailblazer.py:108 | `heappop` keeps one entry per node, and the popped node has no entry left |
| AsWritten.Start | Trailblazer.py:96-100 | the state before the loop: only `start` has a cost, 0, and only `start` is queued and in `tSet`; stated by `StartIsTracked` |
| AsWritten.RelaxOne | Trailblazer.py:121-129 | one pass of the neighbour loop as written; stated by `RelaxOneSpec` |
| AsWritten.RelaxAll | Trailblazer.py:120-129 | the neighbour loop as written; stated by `RelaxAllEffect` and `RelaxAllSpec` |
| AsWritten.Pop | Trailblazer.py:108-109 | `pqueue.get()` then `tSet.remove`; stated by `PoppedIsTracked` |
| AsWritten.Round | Trailblazer.py:120-129 | the neighbour loop of a popped node, reading its cost; stated by `RoundSpec` and `RoundKeepsClosed` |
| AsWritten.Loop | Trailblazer.py:102-131 | the main loop as written, up to a bound on its rounds; stated by `LoopKeepsTracked`, `LoopExhausted` and `LoopMoreFuel` |
| AsWritten.Run | Trailblazer.py:94-131 | `Astar` as written on cells holding earlier `previous` links; stated by `ExhaustedMeansUnreachable`, `FoundPath.FoundPaintsPath` and the counterexamples |
| AsWritten.Set | Trailblazer.py:122-124 | after a dictionary assignment, the key reads the new value and every other key its old one |
| AsWritten.Painted | Trailblazer.py:112-114 | the as-written reconstruction: an empty result exactly when the cell has no `previous`; otherwise the cells painted start at the cell given, each has a `previous` that is the next cell, the last one's `previous` has none, and there are at most `fuel` of them |
| AsWritten.RemoveHas | Trailblazer.py:109 | `tSet.remove` on a set without duplicates keeps every other member, drops the removed one, and keeps the set free of duplicates |
| AsWritten.StartIsTracked | Trailblazer.py:96-100 | the initial state holds only `start`, at cost 0, and the heap is the single entry of `start` at its heuristic; the state is tracked |
| AsWritten.PoppedIsTracked | Trailblazer.py:108-109 | on a tracked state the popped entry has least priority, its node is in `tSet` (so `tSet.remove` succeeds) and has a cost; the heap loses exactly that entry, `tSet` exactly that node, and the state stays tracked |
| AsWritten.RelaxOneSpec | Trailblazer.py:121-129 | when the new cost is lower, the neighbour gets it and `previous := current`, and, if it is not in `tSet`, an entry at the new cost plus heuristic is pushed and it joins `tSet`; otherwise the heap is left as it was (the stale priority); nothing else changes and the state stays tracked |
| AsWritten.RelaxAllEffect | Trailblazer.py:120-129 | the neighbour loop never drops a heap entry or a `tSet` member, only lowers costs, leaves every listed neighbour at most one above the current node, and puts every newly reached cell in `tSet` |
| AsWritten.RelaxAllSpec | Trailblazer.py:120-129 | the neighbour loop keeps the state tracked |
| AsWritten.RoundSpec | Trailblazer.py:120-129 | a round keeps the state tracked, keeps `tSet` members and costs, and gives every neighbour of a node with a cost a cost |
| AsWritten.LoopKeepsTracked | Trailblazer.py:102-131 | when the as-written loop pops the goal, its final state is tracked, the goal has a cost and is no longer in `tSet` |
| AsWritten.LoopMoreFuel | Trailblazer.py:102-131 | the bound on rounds only cuts the loop short: once the loop ends, more rounds give the same result |
| AsWritten.RoundKeepsClosed | Trailblazer.py:102-129 | a round that does not pop the goal keeps every cell that left `tSet` with all its neighbours costed, and keeps the goal queued once it has a cost |
| AsWritten.ExhaustedRound | Trailblazer.py:102-131 | a loop that ends with an empty heap pops a non-goal node each round; the next round's state keeps the invariants and every cost, and ends the same way |
| AsWritten.LoopExhausted | Trailblazer.py:102-131 | if the loop empties the heap, its final state keeps every earlier cost, has an empty `tSet`, and is closed: every neighbour of a cell with a cost has one, and the goal has none |
| AsWritten.ExhaustedMeansUnreachable | Trailblazer.py:94-131 | the search as written returns false only when no walk under the neighbour rule leads from `start` to the goal |
| AsWritten.CycleNeverEnds | Trailblazer.py:112-114 | if two cells' `previous` point to each other, following `previous` from either, or from a cell pointing into them, never ends |
| Counterexamples.StalePriorityCounterexample | Trailblazer.py:120-129 | on the 6 by 6 grid of the first finding, with the heap's own order, a 7-step walk exists, yet the as-written search pops the goal at cost 9 and paints 9 cells, for every bound on rounds from 20 on |
| Counterexamples.StalePreviousCounterexample | Trailblazer.py:112-114 | on the 2 by 2 grid of the second finding, both searches pop the goal, but the second reconstruction never ends, for any number of steps |
| FoundPath.StartSettled | Trailblazer.py:96-100 | before the first pop, on cells without links, the links invariant holds: only `start` has a cost, 0, and its one entry is at cost plus heuristic |
| FoundPath.PopLinked | Trailblazer.py:108-109 | a pop from a state with the links invariant leaves every loose link to the popped node pending on its neighbour loop, and every other link as it was |
| FoundPath.RelaxOneLinked | Trailblazer.py:121-129 | one pass of the neighbour loop as written keeps every link a step of the neighbour rule that is tight, queued below the goal's entry, or still pending |
| FoundPath.RelaxAllLinked | Trailblazer.py:120-129 | the whole neighbour loop of a popped node leaves no link pending |
| FoundPath.RoundSettled | Trailblazer.py:108-129 | a round that pops a node other than the goal keeps the state tracked and the links invariant |
| FoundPath.ChainTight | Trailblazer.py:111-114 | when the goal's entry is the least, the chain of links from any cell whose cost plus heuristic is at most the goal's cost is tight: it has exactly that cell's cost cells, the last linked to `start` |
| FoundPath.FoundHere | Trailblazer.py:108-114 | popping the goal's least entry leaves the goal costed and linked, every link a step of the neighbour rule, and a painted chain as long as the goal's cost ending at `start` |
| FoundPath.GoalPopped | Trailblazer.py:108-114 | the same, for the entry `heappop` returns from a tracked state |
| FoundPath.FoundUnfold | Trailblazer.py:102-111 | a loop that finds the goal pops at least once: either the goal, ending in that state, or another node, after which the loop finds the goal in the same state |
| FoundPath.LoopFound | Trailblazer.py:102-131 | a loop from a tracked state with the links invariant that finds the goal ends with the goal's chain painted, as long as its cost, ending at `start` |
| FoundPath.PaintedMoreFuel | Trailblazer.py:112-114 | once the reconstruction loop ends, more steps paint the same cells |
| FoundPath.PathBackPaints | Trailblazer.py:112-114 | a state with the goal's chain tight gives a painted path from the goal, of the goal's cost, of neighbour-rule steps, ending next to and linked to `start`, the same for every larger bound |
| FoundPath.FoundPaintsPath | Trailblazer.py:94-117 | a first search (no `previous` links yet) from `start` to another goal that pops the goal paints, from the goal back, exactly as many cells as the goal's cost: each a grid cell, not a barrier, one step from the next, the last one step from `start` with `previous` = `start`; the loop ends, and more steps paint the same cells |
| MainGrid.Walled | Trailblazer.py:175-176 | the barriers given, plus a wall of barriers along row `k` and column `k` |
| MainGrid.WalledNeighbors | Trailblazer.py:76-88 | a cell of the `k` by `k` corner has the same neighbour list on the walled 50 by 50 grid as on a `k` by `k` grid |
| MainGrid.WalledWalk | Trailblazer.py:76-88 | a walk inside the corner is a walk of the neighbour rule on the walled large grid |
| MainGrid.WalledLoop | Trailblazer.py:102-131 | from a state tracked in the corner, the loop as written gives the same outcome on the walled large grid as on the small grid |
| MainGrid.WalledRun | Trailblazer.py:94-131 | a search from a cell of the corner, over links inside it, gives the same outcome on the walled large grid |
| MainGrid.AllInside | Trailblazer.py:112-114 | links checked one binding at a time all lie inside the corner |
| MainGrid.StalePriorityOnMainGrid | Trailblazer.py:120-129 | on the 50 by 50 grid with a wall along row 6 and column 6, a 7-step walk exists, yet the as-written search pops the goal at cost 9, for every bound on rounds from 20 on |
| MainGrid.StalePreviousOnMainGrid | Trailblazer.py:112-114 | on the 50 by 50 grid with a wall along row 2 and column 2, both searches pop the goal in the same states as on the 2 by 2 grid, and the second reconstruction never ends |
| Editor.LeftClickRule | Trailblazer.py:189-203 | a left click on a cell other than the end sets the start (orange) if there is none; else, on a cell other than the start, sets the end (purple) if there is none; else, on a cell that is neither, paints a barrier; a click on the start or end changes nothing; start and end stay apart |
| Editor.RightClickRule | Trailblazer.py:204-212 | a right click paints the cell white; on the start it clears the start and keeps the end, on the end it clears the end, and on any other cell it keeps both; start and end stay apart |
| Editor.Clicks | Trailblazer.py:189-212 | any sequence of clicks keeps start and end apart |
| Editor.RuleEdge | Trailblazer.py:76-88 | an entry of a neighbour list that follows the rule is a grid cell one step away, and not a barrier |
| Editor.RuleGraph | Trailblazer.py:214-218 | after the refresh, the neighbour graph is closed over the grid, and each edge is one 4-adjacent step |
| Editor.WalkAvoidsBarriers | Trailblazer.py:214-220 | on a walk along refreshed neighbour lists, no cell after the first is a barrier |
| Editor.UpdateOne | Trailblazer.py:216-218 | refreshing one cell in row-major order extends the prefix of cells whose lists follow the rule |
| Editor.Editor.constructor | Trailblazer.py:175-179 | `main` starts with a fresh 50 by 50 grid of white cells and no start or end |
| Editor.Editor.CellAt | Trailblazer.py:190-192 | the clicked cell is the grid cell at the position `get_mouse_pos` returns |
| Editor.Editor.Apply | Trailblazer.py:52-71 | the clicked cell takes the colour given by its `make_...` method, or keeps its colour when there is none |
| Editor.Editor.LeftClick | Trailblazer.py:189-203 | the references become those of `LeftClickRule`; the clicked cell takes its colour, or keeps its own when the rule paints nothing (a click on the start or the end); no other cell changes |
| Editor.Editor.RightClick | Trailblazer.py:204-212 | the references become those of `RightClickRule`, and the clicked cell turns white; no other cell changes |
| Editor.Editor.ClearKey | Trailblazer.py:222-225 | C drops start and end and installs a fresh grid of white cells |
| Editor.Editor.UpdateAllNeighbors | Trailblazer.py:216-218 | after the two loops, every cell's neighbour list follows the rule for the current barriers |
| Editor.Editor.RunSearch | Trailblazer.py:220 | once every list follows the rule, the search reports a shortest walk along the lists that avoids the barriers, or that none exists; the lists stay as they were |
| Editor.Editor.SpaceKey | Trailblazer.py:214-220 | the search runs exactly when start and end are both set; it first refreshes every list from the barriers as they were, and then reports a shortest barrier-free walk, or that none exists |

## Left out

- Rendering and the window: the RGB colour constants, `Node.draw`, `draw_grid` and `draw` (Trailblazer.py:7-20, 73-74, 149-164). Colours are a closed datatype.
- The event polling and `pygame.quit()` inside the search loop (Trailblazer.py:104-106), and `main`'s frame loop, quit event and mouse and key polling. The handlers take the pixel or key as parameters.
- The `draw` argument of `Astar`. It is never called.
- The unused imports and the commented-out Euclidean heuristic. The module-level call `main(WIN, WIDTH)`.
- `Node.__lt__` (Trailblazer.py:90-91) is not a member: it always answers false, so `Heapq.Less` compares priorities only.
- Heapq: CPython's sift loops move a hole and write the moving entry once; the model swaps at each step, which leaves the list in the same state after every step.
- Search.PopMin: it takes any entry of least priority, not the one the heap's layout gives. Its contract holds for every such choice.
- Search.Astar: it keeps the queue as a map from node to priority, with decrease-key, instead of the heap with stale entries. It follows `previous` only back to `start`. Both are the corrections of "Findings". The heap as written is modelled in `Heapq` and `AsWritten`.
- SearchState.RelaxNeighbor: it lowers a queued node's priority (decrease-key), which the program does not do; this is the correction of the first finding.
- Editor.Editor.SpaceKey: it runs the corrected `Search.Astar`, so the model always ends with a shortest path or a proof that none exists. The program may instead return a longer path (first finding) or, on a second search without C, loop forever (second finding). It states the colours of a found path but not the colours of a failed search.
- Editor.Editor.RunSearch: it runs the corrected `Search.Astar`, so it always returns, with a shortest path or none. The program's search may return a longer path or never return (both findings).
- AsWritten: colours are not modelled there. `Search` models them for the corrected search.
- AsWritten.Loop: a bound on the number of rounds stands for the loop's unbounded iteration; `OutOfFuel` means the bound was reached. `AsWritten.LoopMoreFuel` shows that a larger bound changes nothing once the loop has ended.
- AsWritten.Painted: a `fuel` bound stands for the loop's unbounded iteration. `None` means the walk did not end within `fuel` steps.
- Grid.MakeGrid: requires `rows != 0`. The program would raise `ZeroDivisionError` there; its only call passes 50.
- Editor.Editor.LeftClick: requires the pixel to lie in the square the cells cover, `50 * (width // 50)` wide. With the source's 800-pixel window that is the whole window.
- Editor.Editor.RightClick: requires the pixel to lie in the same square as `LeftClick`, for the same reason.
- Editor.Editor.CellAt: requires the pixel to lie in the same square as `LeftClick`, for the same reason.
- Search.Reconstruct: it loops while the current cell is not `start`; the program loops while `current.previous` is set. This is the correction of the second finding. On cells without earlier links the program's loop also stops at `start`: the last cell it paints links to `start`, which has no link (`FoundPath.FoundPaintsPath`).
- That a barrier is never dequeued is not stated on its own. `Editor.WalkAvoidsBarriers` states that no cell after the start of a found path is a barrier.

## Findings

| source | as written | input that shows it | evidently intended | confidence | as-written member | corrected member |
|---|---|---|---|---|---|---|
| Trailblazer.py:126-129 | when the cost of a node already in `tSet` drops, its heap entry keeps the old, higher priority | 6 by 6 grid, barriers at (0, 4), (1, 1), (2, 1), (5, 2), start (3, 5), end (1, 0); the same run happens on the 50 by 50 grid of `main` with barriers also along row 6 and column 6 (`MainGrid.StalePriorityOnMainGrid`): (3, 2) is queued at priority 9 with cost 5, then its cost drops to 3 with no new entry; among the entries of priority 9, `heapq`'s layout keeps it behind the route over row 0, and the end is popped at cost 9 with a 9-cell path painted, while a 7-step walk exists | lower the queued node's priority to its new cost plus heuristic, so that the end is popped at its shortest distance | high: the pops follow CPython's `heapq` layout step by step; not executed | Counterexamples.StalePriorityCounterexample | Search.Astar |
| Trailblazer.py:112-114 | the path is rebuilt by following `previous` until a cell has none, and no search clears `previous` | 2 by 2 grid, barrier at (0, 1): search from (0, 0) to (1, 1); right-click (0, 0), left-click (1, 0), search again; the second reconstruction goes (1, 1), (1, 0), (0, 0), (1, 0), ... forever; the same runs happen on the 50 by 50 grid of `main` with barriers also along row 2 and column 2 (`MainGrid.StalePreviousOnMainGrid`) | stop the reconstruction at `start` (or clear `previous` before a search) | high: every step is forced; not executed | Counterexamples.StalePreviousCounterexample | Search.Reconstruct |

/**
 * Two concrete runs of the search as written, each exhibiting one of the
 * ways it differs from the corrected search. The states between pops are
 * written out, with the heap in the layout `heapq` gives it; each
 * `...PopN` lemma computes one `heappop`, each `...RoundN` the neighbour
 * loop after it, and the `...FromN` lemmas chain the rounds through `Loop`.
 */
module Counterexamples {
  import opened Grid
  import opened Heapq
  import opened AsWritten

  /** The grids and endpoints of the two examples. */
  const StaleRows := 6
  const StaleBarriers := {Pos(0, 4), Pos(1, 1), Pos(2, 1), Pos(5, 2)}
  const StaleGoal := Pos(1, 0)
  const SmallRows := 2
  const SmallBarriers := {Pos(0, 1)}
  const SmallGoal := Pos(1, 1)

  // ----- Stale priorities: a 6 by 6 grid searched from (3, 5) to (1, 0) -----

  const StaleState0 :=
    Search(
      Bind(Pos(3, 5), 0, Empty),
      [Entry(7, Pos(3, 5))],
      Cons(Pos(3, 5), Nil),
      Empty)

  const StaleState1 :=
    Search(
      Bind(Pos(3, 4), 1, Bind(Pos(2, 5), 1, Bind(Pos(4, 5), 1, Bind(Pos(3, 5), 0, Empty)))),
      [Entry(7, Pos(2, 5)), Entry(9, Pos(4, 5)), Entry(7, Pos(3, 4))],
      Cons(Pos(3, 4), Cons(Pos(2, 5), Cons(Pos(4, 5), Nil))),
      Bind(Pos(3, 4), Pos(3, 5), Bind(Pos(2, 5), Pos(3, 5), Bind(Pos(4, 5), Pos(3, 5), Empty))))

  const StaleState2 :=
    Search(
      Bind(Pos(2, 4), 2, Bind(Pos(1, 5), 2, Bind(Pos(3, 4), 1, Bind(Pos(2, 5), 1, Bind(Pos(4, 5), 1, Bind(Pos(3, 5), 0, Empty)))))),
      [Entry(7, Pos(3, 4)), Entry(7, Pos(2, 4)), Entry(7, Pos(1, 5)), Entry(9, Pos(4, 5))],
      Cons(Pos(2, 4), Cons(Pos(1, 5), Cons(Pos(3, 4), Cons(Pos(4, 5), Nil)))),
      Bind(Pos(2, 4), Pos(2, 5), Bind(Pos(1, 5), Pos(2, 5), Bind(Pos(3, 4), Pos(3, 5), Bind(Pos(2, 5), Pos(3, 5), Bind(Pos(4, 5), Pos(3, 5), Empty))))))

  const StaleState3 :=
    Search(
      Bind(Pos(3, 3), 2, Bind(Pos(4, 4), 2, Bind(Pos(2, 4), 2, Bind(Pos(1, 5), 2, Bind(Pos(3, 4), 1, Bind(Pos(2, 5), 1, Bind(Pos(4, 5), 1, Bind(Pos(3, 5), 0, Empty)))))))),
      [Entry(7, Pos(1, 5)), Entry(7, Pos(2, 4)), Entry(9, Pos(4, 5)), Entry(9, Pos(4, 4)), Entry(7, Pos(3, 3))],
      Cons(Pos(3, 3), Cons(Pos(4, 4), Cons(Pos(2, 4), Cons(Pos(1, 5), Cons(Pos(4, 5), Nil))))),
      Bind(Pos(3, 3), Pos(3, 4), Bind(Pos(4, 4), Pos(3, 4), Bind(Pos(2, 4), Pos(2, 5), Bind(Pos(1, 5), Pos(2, 5), Bind(Pos(3, 4), Pos(3, 5), Bind(Pos(2, 5), Pos(3, 5), Bind(Pos(4, 5), Pos(3, 5), Empty))))))))

  const StaleState4 :=
    Search(
      Bind(Pos(1, 4), 3, Bind(Pos(0, 5), 3, Bind(Pos(3, 3), 2, Bind(Pos(4, 4), 2, Bind(Pos(2, 4), 2, Bind(Pos(1, 5), 2, Bind(Pos(3, 4), 1, Bind(Pos(2, 5), 1, Bind(Pos(4, 5), 1, Bind(Pos(3, 5), 0, Empty)))))))))),
      [Entry(7, Pos(2, 4)), Entry(7, Pos(3, 3)), Entry(7, Pos(1, 4)), Entry(9, Pos(4, 4)), Entry(9, Pos(0, 5)), Entry(9, Pos(4, 5))],
      Cons(Pos(1, 4), Cons(Pos(0, 5), Cons(Pos(3, 3), Cons(Pos(4, 4), Cons(Pos(2, 4), Cons(Pos(4, 5), Nil)))))),
      Bind(Pos(1, 4), Pos(1, 5), Bind(Pos(0, 5), Pos(1, 5), Bind(Pos(3, 3), Pos(3, 4), Bind(Pos(4, 4), Pos(3, 4), Bind(Pos(2, 4), Pos(2, 5), Bind(Pos(1, 5), Pos(2, 5), Bind(Pos(3, 4), Pos(3, 5), Bind(Pos(2, 5), Pos(3, 5), Bind(Pos(4, 5), Pos(3, 5), Empty))))))))))

  const StaleState5 :=
    Search(
      Bind(Pos(2, 3), 3, Bind(Pos(1, 4), 3, Bind(Pos(0, 5), 3, Bind(Pos(3, 3), 2, Bind(Pos(4, 4), 2, Bind(Pos(2, 4), 2, Bind(Pos(1, 5), 2, Bind(Pos(3, 4), 1, Bind(Pos(2, 5), 1, Bind(Pos(4, 5), 1, Bind(Pos(3, 5), 0, Empty))))))))))),
      [Entry(7, Pos(1, 4)), Entry(7, Pos(3, 3)), Entry(7, Pos(2, 3)), Entry(9, Pos(4, 4)), Entry(9, Pos(0, 5)), Entry(9, Pos(4, 5))],
      Cons(Pos(2, 3), Cons(Pos(1, 4), Cons(Pos(0, 5), Cons(Pos(3, 3), Cons(Pos(4, 4), Cons(Pos(4, 5), Nil)))))),
      Bind(Pos(2, 3), Pos(2, 4), Bind(Pos(1, 4), Pos(1, 5), Bind(Pos(0, 5), Pos(1, 5), Bind(Pos(3, 3), Pos(3, 4), Bind(Pos(4, 4), Pos(3, 4), Bind(Pos(2, 4), Pos(2, 5), Bind(Pos(1, 5), Pos(2, 5), Bind(Pos(3, 4), Pos(3, 5), Bind(Pos(2, 5), Pos(3, 5), Bind(Pos(4, 5), Pos(3, 5), Empty)))))))))))

  const StaleState6 :=
    Search(
      Bind(Pos(1, 3), 4, Bind(Pos(2, 3), 3, Bind(Pos(1, 4), 3, Bind(Pos(0, 5), 3, Bind(Pos(3, 3), 2, Bind(Pos(4, 4), 2, Bind(Pos(2, 4), 2, Bind(Pos(1, 5), 2, Bind(Pos(3, 4), 1, Bind(Pos(2, 5), 1, Bind(Pos(4, 5), 1, Bind(Pos(3, 5), 0, Empty)))))))))))),
      [Entry(7, Pos(2, 3)), Entry(7, Pos(3, 3)), Entry(7, Pos(1, 3)), Entry(9, Pos(4, 4)), Entry(9, Pos(0, 5)), Entry(9, Pos(4, 5))],
      Cons(Pos(1, 3), Cons(Pos(2, 3), Cons(Pos(0, 5), Cons(Pos(3, 3), Cons(Pos(4, 4), Cons(Pos(4, 5), Nil)))))),
      Bind(Pos(1, 3), Pos(1, 4), Bind(Pos(2, 3), Pos(2, 4), Bind(Pos(1, 4), Pos(1, 5), Bind(Pos(0, 5), Pos(1, 5), Bind(Pos(3, 3), Pos(3, 4), Bind(Pos(4, 4), Pos(3, 4), Bind(Pos(2, 4), Pos(2, 5), Bind(Pos(1, 5), Pos(2, 5), Bind(Pos(3, 4), Pos(3, 5), Bind(Pos(2, 5), Pos(3, 5), Bind(Pos(4, 5), Pos(3, 5), Empty))))))))))))

  const StaleState7 :=
    Search(
      Bind(Pos(2, 2), 4, Bind(Pos(1, 3), 4, Bind(Pos(2, 3), 3, Bind(Pos(1, 4), 3, Bind(Pos(0, 5), 3, Bind(Pos(3, 3), 2, Bind(Pos(4, 4), 2, Bind(Pos(2, 4), 2, Bind(Pos(1, 5), 2, Bind(Pos(3, 4), 1, Bind(Pos(2, 5), 1, Bind(Pos(4, 5), 1, Bind(Pos(3, 5), 0, Empty))))))))))))),
      [Entry(7, Pos(1, 3)), Entry(7, Pos(3, 3)), Entry(7, Pos(2, 2)), Entry(9, Pos(4, 4)), Entry(9, Pos(0, 5)), Entry(9, Pos(4, 5))],
      Cons(Pos(2, 2), Cons(Pos(1, 3), Cons(Pos(0, 5), Cons(Pos(3, 3), Cons(Pos(4, 4), Cons(Pos(4, 5), Nil)))))),
      Bind(Pos(2, 2), Pos(2, 3), Bind(Pos(1, 3), Pos(1, 4), Bind(Pos(2, 3), Pos(2, 4), Bind(Pos(1, 4), Pos(1, 5), Bind(Pos(0, 5), Pos(1, 5), Bind(Pos(3, 3), Pos(3, 4), Bind(Pos(4, 4), Pos(3, 4), Bind(Pos(2, 4), Pos(2, 5), Bind(Pos(1, 5), Pos(2, 5), Bind(Pos(3, 4), Pos(3, 5), Bind(Pos(2, 5), Pos(3, 5), Bind(Pos(4, 5), Pos(3, 5), Empty)))))))))))))

  const StaleState8 :=
    Search(
      Bind(Pos(1, 2), 5, Bind(Pos(0, 3), 5, Bind(Pos(2, 2), 4, Bind(Pos(1, 3), 4, Bind(Pos(2, 3), 3, Bind(Pos(1, 4), 3, Bind(Pos(0, 5), 3, Bind(Pos(3, 3), 2, Bind(Pos(4, 4), 2, Bind(Pos(2, 4), 2, Bind(Pos(1, 5), 2, Bind(Pos(3, 4), 1, Bind(Pos(2, 5), 1, Bind(Pos(4, 5), 1, Bind(Pos(3, 5), 0, Empty))))))))))))))),
      [Entry(7, Pos(2, 2)), Entry(7, Pos(3, 3)), Entry(7, Pos(1, 2)), Entry(9, Pos(4, 4)), Entry(9, Pos(0, 5)), Entry(9, Pos(0, 3)), Entry(9, Pos(4, 5))],
      Cons(Pos(1, 2), Cons(Pos(0, 3), Cons(Pos(2, 2), Cons(Pos(0, 5), Cons(Pos(3, 3), Cons(Pos(4, 4), Cons(Pos(4, 5), Nil))))))),
      Bind(Pos(1, 2), Pos(1, 3), Bind(Pos(0, 3), Pos(1, 3), Bind(Pos(2, 2), Pos(2, 3), Bind(Pos(1, 3), Pos(1, 4), Bind(Pos(2, 3), Pos(2, 4), Bind(Pos(1, 4), Pos(1, 5), Bind(Pos(0, 5), Pos(1, 5), Bind(Pos(3, 3), Pos(3, 4), Bind(Pos(4, 4), Pos(3, 4), Bind(Pos(2, 4), Pos(2, 5), Bind(Pos(1, 5), Pos(2, 5), Bind(Pos(3, 4), Pos(3, 5), Bind(Pos(2, 5), Pos(3, 5), Bind(Pos(4, 5), Pos(3, 5), Empty)))))))))))))))

  const StaleState9 :=
    Search(
      Bind(Pos(3, 2), 5, Bind(Pos(1, 2), 5, Bind(Pos(0, 3), 5, Bind(Pos(2, 2), 4, Bind(Pos(1, 3), 4, Bind(Pos(2, 3), 3, Bind(Pos(1, 4), 3, Bind(Pos(0, 5), 3, Bind(Pos(3, 3), 2, Bind(Pos(4, 4), 2, Bind(Pos(2, 4), 2, Bind(Pos(1, 5), 2, Bind(Pos(3, 4), 1, Bind(Pos(2, 5), 1, Bind(Pos(4, 5), 1, Bind(Pos(3, 5), 0, Empty)))))))))))))))),
      [Entry(7, Pos(1, 2)), Entry(7, Pos(3, 3)), Entry(9, Pos(0, 3)), Entry(9, Pos(4, 4)), Entry(9, Pos(0, 5)), Entry(9, Pos(4, 5)), Entry(9, Pos(3, 2))],
      Cons(Pos(3, 2), Cons(Pos(1, 2), Cons(Pos(0, 3), Cons(Pos(0, 5), Cons(Pos(3, 3), Cons(Pos(4, 4), Cons(Pos(4, 5), Nil))))))),
      Bind(Pos(3, 2), Pos(2, 2), Bind(Pos(1, 2), Pos(1, 3), Bind(Pos(0, 3), Pos(1, 3), Bind(Pos(2, 2), Pos(2, 3), Bind(Pos(1, 3), Pos(1, 4), Bind(Pos(2, 3), Pos(2, 4), Bind(Pos(1, 4), Pos(1, 5), Bind(Pos(0, 5), Pos(1, 5), Bind(Pos(3, 3), Pos(3, 4), Bind(Pos(4, 4), Pos(3, 4), Bind(Pos(2, 4), Pos(2, 5), Bind(Pos(1, 5), Pos(2, 5), Bind(Pos(3, 4), Pos(3, 5), Bind(Pos(2, 5), Pos(3, 5), Bind(Pos(4, 5), Pos(3, 5), Empty))))))))))))))))

  const StaleState10 :=
    Search(
      Bind(Pos(0, 2), 6, Bind(Pos(3, 2), 5, Bind(Pos(1, 2), 5, Bind(Pos(0, 3), 5, Bind(Pos(2, 2), 4, Bind(Pos(1, 3), 4, Bind(Pos(2, 3), 3, Bind(Pos(1, 4), 3, Bind(Pos(0, 5), 3, Bind(Pos(3, 3), 2, Bind(Pos(4, 4), 2, Bind(Pos(2, 4), 2, Bind(Pos(1, 5), 2, Bind(Pos(3, 4), 1, Bind(Pos(2, 5), 1, Bind(Pos(4, 5), 1, Bind(Pos(3, 5), 0, Empty))))))))))))))))),
      [Entry(7, Pos(3, 3)), Entry(9, Pos(0, 5)), Entry(9, Pos(0, 3)), Entry(9, Pos(4, 4)), Entry(9, Pos(3, 2)), Entry(9, Pos(4, 5)), Entry(9, Pos(0, 2))],
      Cons(Pos(0, 2), Cons(Pos(3, 2), Cons(Pos(0, 3), Cons(Pos(0, 5), Cons(Pos(3, 3), Cons(Pos(4, 4), Cons(Pos(4, 5), Nil))))))),
      Bind(Pos(0, 2), Pos(1, 2), Bind(Pos(3, 2), Pos(2, 2), Bind(Pos(1, 2), Pos(1, 3), Bind(Pos(0, 3), Pos(1, 3), Bind(Pos(2, 2), Pos(2, 3), Bind(Pos(1, 3), Pos(1, 4), Bind(Pos(2, 3), Pos(2, 4), Bind(Pos(1, 4), Pos(1, 5), Bind(Pos(0, 5), Pos(1, 5), Bind(Pos(3, 3), Pos(3, 4), Bind(Pos(4, 4), Pos(3, 4), Bind(Pos(2, 4), Pos(2, 5), Bind(Pos(1, 5), Pos(2, 5), Bind(Pos(3, 4), Pos(3, 5), Bind(Pos(2, 5), Pos(3, 5), Bind(Pos(4, 5), Pos(3, 5), Empty)))))))))))))))))

  const StaleState11 :=
    Search(
      Bind(Pos(3, 2), 3, Bind(Pos(4, 3), 3, Bind(Pos(0, 2), 6, Bind(Pos(3, 2), 5, Bind(Pos(1, 2), 5, Bind(Pos(0, 3), 5, Bind(Pos(2, 2), 4, Bind(Pos(1, 3), 4, Bind(Pos(2, 3), 3, Bind(Pos(1, 4), 3, Bind(Pos(0, 5), 3, Bind(Pos(3, 3), 2, Bind(Pos(4, 4), 2, Bind(Pos(2, 4), 2, Bind(Pos(1, 5), 2, Bind(Pos(3, 4), 1, Bind(Pos(2, 5), 1, Bind(Pos(4, 5), 1, Bind(Pos(3, 5), 0, Empty))))))))))))))))))),
      [Entry(9, Pos(0, 3)), Entry(9, Pos(0, 5)), Entry(9, Pos(4, 5)), Entry(9, Pos(4, 4)), Entry(9, Pos(3, 2)), Entry(9, Pos(0, 2)), Entry(9, Pos(4, 3))],
      Cons(Pos(4, 3), Cons(Pos(0, 2), Cons(Pos(3, 2), Cons(Pos(0, 3), Cons(Pos(0, 5), Cons(Pos(4, 4), Cons(Pos(4, 5), Nil))))))),
      Bind(Pos(3, 2), Pos(3, 3), Bind(Pos(4, 3), Pos(3, 3), Bind(Pos(0, 2), Pos(1, 2), Bind(Pos(3, 2), Pos(2, 2), Bind(Pos(1, 2), Pos(1, 3), Bind(Pos(0, 3), Pos(1, 3), Bind(Pos(2, 2), Pos(2, 3), Bind(Pos(1, 3), Pos(1, 4), Bind(Pos(2, 3), Pos(2, 4), Bind(Pos(1, 4), Pos(1, 5), Bind(Pos(0, 5), Pos(1, 5), Bind(Pos(3, 3), Pos(3, 4), Bind(Pos(4, 4), Pos(3, 4), Bind(Pos(2, 4), Pos(2, 5), Bind(Pos(1, 5), Pos(2, 5), Bind(Pos(3, 4), Pos(3, 5), Bind(Pos(2, 5), Pos(3, 5), Bind(Pos(4, 5), Pos(3, 5), Empty)))))))))))))))))))

  const StaleState12 :=
    Search(
      Bind(Pos(3, 2), 3, Bind(Pos(4, 3), 3, Bind(Pos(0, 2), 6, Bind(Pos(3, 2), 5, Bind(Pos(1, 2), 5, Bind(Pos(0, 3), 5, Bind(Pos(2, 2), 4, Bind(Pos(1, 3), 4, Bind(Pos(2, 3), 3, Bind(Pos(1, 4), 3, Bind(Pos(0, 5), 3, Bind(Pos(3, 3), 2, Bind(Pos(4, 4), 2, Bind(Pos(2, 4), 2, Bind(Pos(1, 5), 2, Bind(Pos(3, 4), 1, Bind(Pos(2, 5), 1, Bind(Pos(4, 5), 1, Bind(Pos(3, 5), 0, Empty))))))))))))))))))),
      [Entry(9, Pos(4, 5)), Entry(9, Pos(0, 5)), Entry(9, Pos(0, 2)), Entry(9, Pos(4, 4)), Entry(9, Pos(3, 2)), Entry(9, Pos(4, 3))],
      Cons(Pos(4, 3), Cons(Pos(0, 2), Cons(Pos(3, 2), Cons(Pos(0, 5), Cons(Pos(4, 4), Cons(Pos(4, 5), Nil)))))),
      Bind(Pos(3, 2), Pos(3, 3), Bind(Pos(4, 3), Pos(3, 3), Bind(Pos(0, 2), Pos(1, 2), Bind(Pos(3, 2), Pos(2, 2), Bind(Pos(1, 2), Pos(1, 3), Bind(Pos(0, 3), Pos(1, 3), Bind(Pos(2, 2), Pos(2, 3), Bind(Pos(1, 3), Pos(1, 4), Bind(Pos(2, 3), Pos(2, 4), Bind(Pos(1, 4), Pos(1, 5), Bind(Pos(0, 5), Pos(1, 5), Bind(Pos(3, 3), Pos(3, 4), Bind(Pos(4, 4), Pos(3, 4), Bind(Pos(2, 4), Pos(2, 5), Bind(Pos(1, 5), Pos(2, 5), Bind(Pos(3, 4), Pos(3, 5), Bind(Pos(2, 5), Pos(3, 5), Bind(Pos(4, 5), Pos(3, 5), Empty)))))))))))))))))))

  const StaleState13 :=
    Search(
      Bind(Pos(5, 5), 2, Bind(Pos(3, 2), 3, Bind(Pos(4, 3), 3, Bind(Pos(0, 2), 6, Bind(Pos(3, 2), 5, Bind(Pos(1, 2), 5, Bind(Pos(0, 3), 5, Bind(Pos(2, 2), 4, Bind(Pos(1, 3), 4, Bind(Pos(2, 3), 3, Bind(Pos(1, 4), 3, Bind(Pos(0, 5), 3, Bind(Pos(3, 3), 2, Bind(Pos(4, 4), 2, Bind(Pos(2, 4), 2, Bind(Pos(1, 5), 2, Bind(Pos(3, 4), 1, Bind(Pos(2, 5), 1, Bind(Pos(4, 5), 1, Bind(Pos(3, 5), 0, Empty)))))))))))))))))))),
      [Entry(9, Pos(0, 2)), Entry(9, Pos(0, 5)), Entry(9, Pos(4, 3)), Entry(9, Pos(4, 4)), Entry(9, Pos(3, 2)), Entry(11, Pos(5, 5))],
      Cons(Pos(5, 5), Cons(Pos(4, 3), Cons(Pos(0, 2), Cons(Pos(3, 2), Cons(Pos(0, 5), Cons(Pos(4, 4), Nil)))))),
      Bind(Pos(5, 5), Pos(4, 5), Bind(Pos(3, 2), Pos(3, 3), Bind(Pos(4, 3), Pos(3, 3), Bind(Pos(0, 2), Pos(1, 2), Bind(Pos(3, 2), Pos(2, 2), Bind(Pos(1, 2), Pos(1, 3), Bind(Pos(0, 3), Pos(1, 3), Bind(Pos(2, 2), Pos(2, 3), Bind(Pos(1, 3), Pos(1, 4), Bind(Pos(2, 3), Pos(2, 4), Bind(Pos(1, 4), Pos(1, 5), Bind(Pos(0, 5), Pos(1, 5), Bind(Pos(3, 3), Pos(3, 4), Bind(Pos(4, 4), Pos(3, 4), Bind(Pos(2, 4), Pos(2, 5), Bind(Pos(1, 5), Pos(2, 5), Bind(Pos(3, 4), Pos(3, 5), Bind(Pos(2, 5), Pos(3, 5), Bind(Pos(4, 5), Pos(3, 5), Empty))))))))))))))))))))

  const StaleState14 :=
    Search(
      Bind(Pos(0, 1), 7, Bind(Pos(5, 5), 2, Bind(Pos(3, 2), 3, Bind(Pos(4, 3), 3, Bind(Pos(0, 2), 6, Bind(Pos(3, 2), 5, Bind(Pos(1, 2), 5, Bind(Pos(0, 3), 5, Bind(Pos(2, 2), 4, Bind(Pos(1, 3), 4, Bind(Pos(2, 3), 3, Bind(Pos(1, 4), 3, Bind(Pos(0, 5), 3, Bind(Pos(3, 3), 2, Bind(Pos(4, 4), 2, Bind(Pos(2, 4), 2, Bind(Pos(1, 5), 2, Bind(Pos(3, 4), 1, Bind(Pos(2, 5), 1, Bind(Pos(4, 5), 1, Bind(Pos(3, 5), 0, Empty))))))))))))))))))))),
      [Entry(9, Pos(4, 3)), Entry(9, Pos(0, 5)), Entry(9, Pos(0, 1)), Entry(9, Pos(4, 4)), Entry(9, Pos(3, 2)), Entry(11, Pos(5, 5))],
      Cons(Pos(0, 1), Cons(Pos(5, 5), Cons(Pos(4, 3), Cons(Pos(3, 2), Cons(Pos(0, 5), Cons(Pos(4, 4), Nil)))))),
      Bind(Pos(0, 1), Pos(0, 2), Bind(Pos(5, 5), Pos(4, 5), Bind(Pos(3, 2), Pos(3, 3), Bind(Pos(4, 3), Pos(3, 3), Bind(Pos(0, 2), Pos(1, 2), Bind(Pos(3, 2), Pos(2, 2), Bind(Pos(1, 2), Pos(1, 3), Bind(Pos(0, 3), Pos(1, 3), Bind(Pos(2, 2), Pos(2, 3), Bind(Pos(1, 3), Pos(1, 4), Bind(Pos(2, 3), Pos(2, 4), Bind(Pos(1, 4), Pos(1, 5), Bind(Pos(0, 5), Pos(1, 5), Bind(Pos(3, 3), Pos(3, 4), Bind(Pos(4, 4), Pos(3, 4), Bind(Pos(2, 4), Pos(2, 5), Bind(Pos(1, 5), Pos(2, 5), Bind(Pos(3, 4), Pos(3, 5), Bind(Pos(2, 5), Pos(3, 5), Bind(Pos(4, 5), Pos(3, 5), Empty)))))))))))))))))))))

  const StaleState15 :=
    Search(
      Bind(Pos(4, 2), 4, Bind(Pos(5, 3), 4, Bind(Pos(0, 1), 7, Bind(Pos(5, 5), 2, Bind(Pos(3, 2), 3, Bind(Pos(4, 3), 3, Bind(Pos(0, 2), 6, Bind(Pos(3, 2), 5, Bind(Pos(1, 2), 5, Bind(Pos(0, 3), 5, Bind(Pos(2, 2), 4, Bind(Pos(1, 3), 4, Bind(Pos(2, 3), 3, Bind(Pos(1, 4), 3, Bind(Pos(0, 5), 3, Bind(Pos(3, 3), 2, Bind(Pos(4, 4), 2, Bind(Pos(2, 4), 2, Bind(Pos(1, 5), 2, Bind(Pos(3, 4), 1, Bind(Pos(2, 5), 1, Bind(Pos(4, 5), 1, Bind(Pos(3, 5), 0, Empty))))))))))))))))))))))),
      [Entry(9, Pos(0, 1)), Entry(9, Pos(0, 5)), Entry(9, Pos(4, 2)), Entry(9, Pos(4, 4)), Entry(9, Pos(3, 2)), Entry(11, Pos(5, 3)), Entry(11, Pos(5, 5))],
      Cons(Pos(4, 2), Cons(Pos(5, 3), Cons(Pos(0, 1), Cons(Pos(5, 5), Cons(Pos(3, 2), Cons(Pos(0, 5), Cons(Pos(4, 4), Nil))))))),
      Bind(Pos(4, 2), Pos(4, 3), Bind(Pos(5, 3), Pos(4, 3), Bind(Pos(0, 1), Pos(0, 2), Bind(Pos(5, 5), Pos(4, 5), Bind(Pos(3, 2), Pos(3, 3), Bind(Pos(4, 3), Pos(3, 3), Bind(Pos(0, 2), Pos(1, 2), Bind(Pos(3, 2), Pos(2, 2), Bind(Pos(1, 2), Pos(1, 3), Bind(Pos(0, 3), Pos(1, 3), Bind(Pos(2, 2), Pos(2, 3), Bind(Pos(1, 3), Pos(1, 4), Bind(Pos(2, 3), Pos(2, 4), Bind(Pos(1, 4), Pos(1, 5), Bind(Pos(0, 5), Pos(1, 5), Bind(Pos(3, 3), Pos(3, 4), Bind(Pos(4, 4), Pos(3, 4), Bind(Pos(2, 4), Pos(2, 5), Bind(Pos(1, 5), Pos(2, 5), Bind(Pos(3, 4), Pos(3, 5), Bind(Pos(2, 5), Pos(3, 5), Bind(Pos(4, 5), Pos(3, 5), Empty)))))))))))))))))))))))

  const StaleState16 :=
    Search(
      Bind(Pos(0, 0), 8, Bind(Pos(4, 2), 4, Bind(Pos(5, 3), 4, Bind(Pos(0, 1), 7, Bind(Pos(5, 5), 2, Bind(Pos(3, 2), 3, Bind(Pos(4, 3), 3, Bind(Pos(0, 2), 6, Bind(Pos(3, 2), 5, Bind(Pos(1, 2), 5, Bind(Pos(0, 3), 5, Bind(Pos(2, 2), 4, Bind(Pos(1, 3), 4, Bind(Pos(2, 3), 3, Bind(Pos(1, 4), 3, Bind(Pos(0, 5), 3, Bind(Pos(3, 3), 2, Bind(Pos(4, 4), 2, Bind(Pos(2, 4), 2, Bind(Pos(1, 5), 2, Bind(Pos(3, 4), 1, Bind(Pos(2, 5), 1, Bind(Pos(4, 5), 1, Bind(Pos(3, 5), 0, Empty)))))))))))))))))))))))),
      [Entry(9, Pos(4, 2)), Entry(9, Pos(0, 5)), Entry(9, Pos(0, 0)), Entry(9, Pos(4, 4)), Entry(9, Pos(3, 2)), Entry(11, Pos(5, 5)), Entry(11, Pos(5, 3))],
      Cons(Pos(0, 0), Cons(Pos(4, 2), Cons(Pos(5, 3), Cons(Pos(5, 5), Cons(Pos(3, 2), Cons(Pos(0, 5), Cons(Pos(4, 4), Nil))))))),
      Bind(Pos(0, 0), Pos(0, 1), Bind(Pos(4, 2), Pos(4, 3), Bind(Pos(5, 3), Pos(4, 3), Bind(Pos(0, 1), Pos(0, 2), Bind(Pos(5, 5), Pos(4, 5), Bind(Pos(3, 2), Pos(3, 3), Bind(Pos(4, 3), Pos(3, 3), Bind(Pos(0, 2), Pos(1, 2), Bind(Pos(3, 2), Pos(2, 2), Bind(Pos(1, 2), Pos(1, 3), Bind(Pos(0, 3), Pos(1, 3), Bind(Pos(2, 2), Pos(2, 3), Bind(Pos(1, 3), Pos(1, 4), Bind(Pos(2, 3), Pos(2, 4), Bind(Pos(1, 4), Pos(1, 5), Bind(Pos(0, 5), Pos(1, 5), Bind(Pos(3, 3), Pos(3, 4), Bind(Pos(4, 4), Pos(3, 4), Bind(Pos(2, 4), Pos(2, 5), Bind(Pos(1, 5), Pos(2, 5), Bind(Pos(3, 4), Pos(3, 5), Bind(Pos(2, 5), Pos(3, 5), Bind(Pos(4, 5), Pos(3, 5), Empty))))))))))))))))))))))))

  const StaleState17 :=
    Search(
      Bind(Pos(4, 1), 5, Bind(Pos(0, 0), 8, Bind(Pos(4, 2), 4, Bind(Pos(5, 3), 4, Bind(Pos(0, 1), 7, Bind(Pos(5, 5), 2, Bind(Pos(3, 2), 3, Bind(Pos(4, 3), 3, Bind(Pos(0, 2), 6, Bind(Pos(3, 2), 5, Bind(Pos(1, 2), 5, Bind(Pos(0, 3), 5, Bind(Pos(2, 2), 4, Bind(Pos(1, 3), 4, Bind(Pos(2, 3), 3, Bind(Pos(1, 4), 3, Bind(Pos(0, 5), 3, Bind(Pos(3, 3), 2, Bind(Pos(4, 4), 2, Bind(Pos(2, 4), 2, Bind(Pos(1, 5), 2, Bind(Pos(3, 4), 1, Bind(Pos(2, 5), 1, Bind(Pos(4, 5), 1, Bind(Pos(3, 5), 0, Empty))))))))))))))))))))))))),
      [Entry(9, Pos(0, 0)), Entry(9, Pos(0, 5)), Entry(9, Pos(4, 1)), Entry(9, Pos(4, 4)), Entry(9, Pos(3, 2)), Entry(11, Pos(5, 3)), Entry(11, Pos(5, 5))],
      Cons(Pos(4, 1), Cons(Pos(0, 0), Cons(Pos(5, 3), Cons(Pos(5, 5), Cons(Pos(3, 2), Cons(Pos(0, 5), Cons(Pos(4, 4), Nil))))))),
      Bind(Pos(4, 1), Pos(4, 2), Bind(Pos(0, 0), Pos(0, 1), Bind(Pos(4, 2), Pos(4, 3), Bind(Pos(5, 3), Pos(4, 3), Bind(Pos(0, 1), Pos(0, 2), Bind(Pos(5, 5), Pos(4, 5), Bind(Pos(3, 2), Pos(3, 3), Bind(Pos(4, 3), Pos(3, 3), Bind(Pos(0, 2), Pos(1, 2), Bind(Pos(3, 2), Pos(2, 2), Bind(Pos(1, 2), Pos(1, 3), Bind(Pos(0, 3), Pos(1, 3), Bind(Pos(2, 2), Pos(2, 3), Bind(Pos(1, 3), Pos(1, 4), Bind(Pos(2, 3), Pos(2, 4), Bind(Pos(1, 4), Pos(1, 5), Bind(Pos(0, 5), Pos(1, 5), Bind(Pos(3, 3), Pos(3, 4), Bind(Pos(4, 4), Pos(3, 4), Bind(Pos(2, 4), Pos(2, 5), Bind(Pos(1, 5), Pos(2, 5), Bind(Pos(3, 4), Pos(3, 5), Bind(Pos(2, 5), Pos(3, 5), Bind(Pos(4, 5), Pos(3, 5), Empty)))))))))))))))))))))))))

  const StaleState18 :=
    Search(
      Bind(Pos(1, 0), 9, Bind(Pos(4, 1), 5, Bind(Pos(0, 0), 8, Bind(Pos(4, 2), 4, Bind(Pos(5, 3), 4, Bind(Pos(0, 1), 7, Bind(Pos(5, 5), 2, Bind(Pos(3, 2), 3, Bind(Pos(4, 3), 3, Bind(Pos(0, 2), 6, Bind(Pos(3, 2), 5, Bind(Pos(1, 2), 5, Bind(Pos(0, 3), 5, Bind(Pos(2, 2), 4, Bind(Pos(1, 3), 4, Bind(Pos(2, 3), 3, Bind(Pos(1, 4), 3, Bind(Pos(0, 5), 3, Bind(Pos(3, 3), 2, Bind(Pos(4, 4), 2, Bind(Pos(2, 4), 2, Bind(Pos(1, 5), 2, Bind(Pos(3, 4), 1, Bind(Pos(2, 5), 1, Bind(Pos(4, 5), 1, Bind(Pos(3, 5), 0, Empty)))))))))))))))))))))))))),
      [Entry(9, Pos(4, 1)), Entry(9, Pos(0, 5)), Entry(9, Pos(1, 0)), Entry(9, Pos(4, 4)), Entry(9, Pos(3, 2)), Entry(11, Pos(5, 5)), Entry(11, Pos(5, 3))],
      Cons(Pos(1, 0), Cons(Pos(4, 1), Cons(Pos(5, 3), Cons(Pos(5, 5), Cons(Pos(3, 2), Cons(Pos(0, 5), Cons(Pos(4, 4), Nil))))))),
      Bind(Pos(1, 0), Pos(0, 0), Bind(Pos(4, 1), Pos(4, 2), Bind(Pos(0, 0), Pos(0, 1), Bind(Pos(4, 2), Pos(4, 3), Bind(Pos(5, 3), Pos(4, 3), Bind(Pos(0, 1), Pos(0, 2), Bind(Pos(5, 5), Pos(4, 5), Bind(Pos(3, 2), Pos(3, 3), Bind(Pos(4, 3), Pos(3, 3), Bind(Pos(0, 2), Pos(1, 2), Bind(Pos(3, 2), Pos(2, 2), Bind(Pos(1, 2), Pos(1, 3), Bind(Pos(0, 3), Pos(1, 3), Bind(Pos(2, 2), Pos(2, 3), Bind(Pos(1, 3), Pos(1, 4), Bind(Pos(2, 3), Pos(2, 4), Bind(Pos(1, 4), Pos(1, 5), Bind(Pos(0, 5), Pos(1, 5), Bind(Pos(3, 3), Pos(3, 4), Bind(Pos(4, 4), Pos(3, 4), Bind(Pos(2, 4), Pos(2, 5), Bind(Pos(1, 5), Pos(2, 5), Bind(Pos(3, 4), Pos(3, 5), Bind(Pos(2, 5), Pos(3, 5), Bind(Pos(4, 5), Pos(3, 5), Empty))))))))))))))))))))))))))

  const StaleState19 :=
    Search(
      Bind(Pos(4, 0), 6, Bind(Pos(3, 1), 6, Bind(Pos(5, 1), 6, Bind(Pos(1, 0), 9, Bind(Pos(4, 1), 5, Bind(Pos(0, 0), 8, Bind(Pos(4, 2), 4, Bind(Pos(5, 3), 4, Bind(Pos(0, 1), 7, Bind(Pos(5, 5), 2, Bind(Pos(3, 2), 3, Bind(Pos(4, 3), 3, Bind(Pos(0, 2), 6, Bind(Pos(3, 2), 5, Bind(Pos(1, 2), 5, Bind(Pos(0, 3), 5, Bind(Pos(2, 2), 4, Bind(Pos(1, 3), 4, Bind(Pos(2, 3), 3, Bind(Pos(1, 4), 3, Bind(Pos(0, 5), 3, Bind(Pos(3, 3), 2, Bind(Pos(4, 4), 2, Bind(Pos(2, 4), 2, Bind(Pos(1, 5), 2, Bind(Pos(3, 4), 1, Bind(Pos(2, 5), 1, Bind(Pos(4, 5), 1, Bind(Pos(3, 5), 0, Empty))))))))))))))))))))))))))))),
      [Entry(9, Pos(1, 0)), Entry(9, Pos(0, 5)), Entry(11, Pos(5, 5)), Entry(9, Pos(4, 4)), Entry(9, Pos(3, 2)), Entry(11, Pos(5, 3)), Entry(11, Pos(5, 1)), Entry(9, Pos(3, 1)), Entry(9, Pos(4, 0))],
      Cons(Pos(4, 0), Cons(Pos(3, 1), Cons(Pos(5, 1), Cons(Pos(1, 0), Cons(Pos(5, 3), Cons(Pos(5, 5), Cons(Pos(3, 2), Cons(Pos(0, 5), Cons(Pos(4, 4), Nil))))))))),
      Bind(Pos(4, 0), Pos(4, 1), Bind(Pos(3, 1), Pos(4, 1), Bind(Pos(5, 1), Pos(4, 1), Bind(Pos(1, 0), Pos(0, 0), Bind(Pos(4, 1), Pos(4, 2), Bind(Pos(0, 0), Pos(0, 1), Bind(Pos(4, 2), Pos(4, 3), Bind(Pos(5, 3), Pos(4, 3), Bind(Pos(0, 1), Pos(0, 2), Bind(Pos(5, 5), Pos(4, 5), Bind(Pos(3, 2), Pos(3, 3), Bind(Pos(4, 3), Pos(3, 3), Bind(Pos(0, 2), Pos(1, 2), Bind(Pos(3, 2), Pos(2, 2), Bind(Pos(1, 2), Pos(1, 3), Bind(Pos(0, 3), Pos(1, 3), Bind(Pos(2, 2), Pos(2, 3), Bind(Pos(1, 3), Pos(1, 4), Bind(Pos(2, 3), Pos(2, 4), Bind(Pos(1, 4), Pos(1, 5), Bind(Pos(0, 5), Pos(1, 5), Bind(Pos(3, 3), Pos(3, 4), Bind(Pos(4, 4), Pos(3, 4), Bind(Pos(2, 4), Pos(2, 5), Bind(Pos(1, 5), Pos(2, 5), Bind(Pos(3, 4), Pos(3, 5), Bind(Pos(2, 5), Pos(3, 5), Bind(Pos(4, 5), Pos(3, 5), Empty)))))))))))))))))))))))))))))

  const StaleFinal :=
    Search(
      Bind(Pos(4, 0), 6, Bind(Pos(3, 1), 6, Bind(Pos(5, 1), 6, Bind(Pos(1, 0), 9, Bind(Pos(4, 1), 5, Bind(Pos(0, 0), 8, Bind(Pos(4, 2), 4, Bind(Pos(5, 3), 4, Bind(Pos(0, 1), 7, Bind(Pos(5, 5), 2, Bind(Pos(3, 2), 3, Bind(Pos(4, 3), 3, Bind(Pos(0, 2), 6, Bind(Pos(3, 2), 5, Bind(Pos(1, 2), 5, Bind(Pos(0, 3), 5, Bind(Pos(2, 2), 4, Bind(Pos(1, 3), 4, Bind(Pos(2, 3), 3, Bind(Pos(1, 4), 3, Bind(Pos(0, 5), 3, Bind(Pos(3, 3), 2, Bind(Pos(4, 4), 2, Bind(Pos(2, 4), 2, Bind(Pos(1, 5), 2, Bind(Pos(3, 4), 1, Bind(Pos(2, 5), 1, Bind(Pos(4, 5), 1, Bind(Pos(3, 5), 0, Empty))))))))))))))))))))))))))))),
      [Entry(9, Pos(0, 5)), Entry(9, Pos(3, 2)), Entry(11, Pos(5, 5)), Entry(9, Pos(4, 4)), Entry(9, Pos(4, 0)), Entry(11, Pos(5, 3)), Entry(11, Pos(5, 1)), Entry(9, Pos(3, 1))],
      Cons(Pos(4, 0), Cons(Pos(3, 1), Cons(Pos(5, 1), Cons(Pos(5, 3), Cons(Pos(5, 5), Cons(Pos(3, 2), Cons(Pos(0, 5), Cons(Pos(4, 4), Nil)))))))),
      Bind(Pos(4, 0), Pos(4, 1), Bind(Pos(3, 1), Pos(4, 1), Bind(Pos(5, 1), Pos(4, 1), Bind(Pos(1, 0), Pos(0, 0), Bind(Pos(4, 1), Pos(4, 2), Bind(Pos(0, 0), Pos(0, 1), Bind(Pos(4, 2), Pos(4, 3), Bind(Pos(5, 3), Pos(4, 3), Bind(Pos(0, 1), Pos(0, 2), Bind(Pos(5, 5), Pos(4, 5), Bind(Pos(3, 2), Pos(3, 3), Bind(Pos(4, 3), Pos(3, 3), Bind(Pos(0, 2), Pos(1, 2), Bind(Pos(3, 2), Pos(2, 2), Bind(Pos(1, 2), Pos(1, 3), Bind(Pos(0, 3), Pos(1, 3), Bind(Pos(2, 2), Pos(2, 3), Bind(Pos(1, 3), Pos(1, 4), Bind(Pos(2, 3), Pos(2, 4), Bind(Pos(1, 4), Pos(1, 5), Bind(Pos(0, 5), Pos(1, 5), Bind(Pos(3, 3), Pos(3, 4), Bind(Pos(4, 4), Pos(3, 4), Bind(Pos(2, 4), Pos(2, 5), Bind(Pos(1, 5), Pos(2, 5), Bind(Pos(3, 4), Pos(3, 5), Bind(Pos(2, 5), Pos(3, 5), Bind(Pos(4, 5), Pos(3, 5), Empty)))))))))))))))))))))))))))))

  /** The state the search starts from. */
  lemma StaleStart()
    ensures Start(Pos(3, 5), StaleGoal, Empty) == StaleState0
  {
    assert HeapPush([], Entry(7, Pos(3, 5))) == [Entry(7, Pos(3, 5))];
  }

  const StaleState0_0 :=
    Search(
      Bind(Pos(3, 5), 0, Empty),
      [],
      Nil,
      Empty)

  /** The `heappop` of pop 0. */
  lemma StaleHeapPop0()
    ensures HeapPop([Entry(7, Pos(3, 5))]) == Popped(Entry(7, Pos(3, 5)), [])
  {
    assert HeapPop([Entry(7, Pos(3, 5))]) == Popped(Entry(7, Pos(3, 5)), []);
  }

  /** Pop 0 takes Entry(7, Pos(3, 5)) off the heap. */
  lemma StalePop0()
    ensures Pop(StaleState0) == Step(Entry(7, Pos(3, 5)), StaleState0_0)
  {
    assert StaleState0.queue == [Entry(7, Pos(3, 5))];
    StaleHeapPop0();
    assert Remove(StaleState0.tSet, Pos(3, 5)) == Nil;
  }

  /** The neighbours of Pos(3, 5). */
  lemma StaleNeighbors0()
    ensures Items(NeighborPositions(6, {Pos(0, 4), Pos(1, 1), Pos(2, 1), Pos(5, 2)}, Pos(3, 5)), 0) == Cons(Pos(4, 5), Cons(Pos(2, 5), Cons(Pos(3, 4), Nil)))
  {
  }

  const StaleState0_1 :=
    Search(
      Bind(Pos(4, 5), 1, Bind(Pos(3, 5), 0, Empty)),
      [Entry(9, Pos(4, 5))],
      Cons(Pos(4, 5), Nil),
      Bind(Pos(4, 5), Pos(3, 5), Empty))

  lemma StaleHeapPush0_1()
    ensures HeapPush([], Entry(9, Pos(4, 5))) == [Entry(9, Pos(4, 5))]
  {
    assert HeapPush([], Entry(9, Pos(4, 5))) == SiftDown([Entry(9, Pos(4, 5))], 0);
    assert SiftDown([Entry(9, Pos(4, 5))], 0) == [Entry(9, Pos(4, 5))];
  }

  lemma StaleRelax0_1()
    ensures RelaxOne(Pos(1, 0), Pos(3, 5), 0, StaleState0_0, Pos(4, 5)) == StaleState0_1
  {
    assert Get(StaleState0_0.cost, Pos(4, 5)) == None;
    assert !Has(StaleState0_0.tSet, Pos(4, 5));
    assert StaleState0_0.queue == [];
    StaleHeapPush0_1();
  }

  const StaleState0_2 :=
    Search(
      Bind(Pos(2, 5), 1, Bind(Pos(4, 5), 1, Bind(Pos(3, 5), 0, Empty))),
      [Entry(7, Pos(2, 5)), Entry(9, Pos(4, 5))],
      Cons(Pos(2, 5), Cons(Pos(4, 5), Nil)),
      Bind(Pos(2, 5), Pos(3, 5), Bind(Pos(4, 5), Pos(3, 5), Empty)))

  lemma StaleHeapPush0_2()
    ensures HeapPush([Entry(9, Pos(4, 5))], Entry(7, Pos(2, 5))) == [Entry(7, Pos(2, 5)), Entry(9, Pos(4, 5))]
  {
    assert HeapPush([Entry(9, Pos(4, 5))], Entry(7, Pos(2, 5))) == SiftDown([Entry(9, Pos(4, 5)), Entry(7, Pos(2, 5))], 1);
    assert SiftDown([Entry(9, Pos(4, 5)), Entry(7, Pos(2, 5))], 1) == SiftDown([Entry(7, Pos(2, 5)), Entry(9, Pos(4, 5))], 0);
    assert SiftDown([Entry(7, Pos(2, 5)), Entry(9, Pos(4, 5))], 0) == [Entry(7, Pos(2, 5)), Entry(9, Pos(4, 5))];
  }

  lemma StaleRelax0_2()
    ensures RelaxOne(Pos(1, 0), Pos(3, 5), 0, StaleState0_1, Pos(2, 5)) == StaleState0_2
  {
    assert Get(StaleState0_1.cost, Pos(2, 5)) == None;
    assert !Has(StaleState0_1.tSet, Pos(2, 5));
    assert StaleState0_1.queue == [Entry(9, Pos(4, 5))];
    StaleHeapPush0_2();
  }

  lemma StaleHeapPush0_3()
    ensures HeapPush([Entry(7, Pos(2, 5)), Entry(9, Pos(4, 5))], Entry(7, Pos(3, 4))) == [Entry(7, Pos(2, 5)), Entry(9, Pos(4, 5)), Entry(7, Pos(3, 4))]
  {
    assert HeapPush([Entry(7, Pos(2, 5)), Entry(9, Pos(4, 5))], Entry(7, Pos(3, 4))) == SiftDown([Entry(7, Pos(2, 5)), Entry(9, Pos(4, 5)), Entry(7, Pos(3, 4))], 2);
    assert SiftDown([Entry(7, Pos(2, 5)), Entry(9, Pos(4, 5)), Entry(7, Pos(3, 4))], 2) == [Entry(7, Pos(2, 5)), Entry(9, Pos(4, 5)), Entry(7, Pos(3, 4))];
  }

  lemma StaleRelax0_3()
    ensures RelaxOne(Pos(1, 0), Pos(3, 5), 0, StaleState0_2, Pos(3, 4)) == StaleState1
  {
    assert Get(StaleState0_2.cost, Pos(3, 4)) == None;
    assert !Has(StaleState0_2.tSet, Pos(3, 4));
    assert StaleState0_2.queue == [Entry(7, Pos(2, 5)), Entry(9, Pos(4, 5))];
    StaleHeapPush0_3();
  }

  /** The neighbour loop of pop 0 leaves the state of pop 1. */
  lemma StaleRound0()
    ensures Round(StaleRows, StaleBarriers, StaleGoal, StaleState0_0, Pos(3, 5)) == StaleState1
  {
    assert Get(StaleState0_0.cost, Pos(3, 5)) == Some(0);
    StaleNeighbors0();
    StaleRelax0_1();
    StaleRelax0_2();
    StaleRelax0_3();
  }

  /** Pop 0 hands over to pop 1. */
  lemma StaleLoop0()
    ensures Loop(StaleRows, StaleBarriers, StaleGoal, StaleState0, 20) == Loop(StaleRows, StaleBarriers, StaleGoal, StaleState1, 19)
  {
    StalePop0();
    StaleRound0();
  }

  const StaleState1_0 :=
    Search(
      Bind(Pos(3, 4), 1, Bind(Pos(2, 5), 1, Bind(Pos(4, 5), 1, Bind(Pos(3, 5), 0, Empty)))),
      [Entry(7, Pos(3, 4)), Entry(9, Pos(4, 5))],
      Cons(Pos(3, 4), Cons(Pos(4, 5), Nil)),
      Bind(Pos(3, 4), Pos(3, 5), Bind(Pos(2, 5), Pos(3, 5), Bind(Pos(4, 5), Pos(3, 5), Empty))))

  /** The `heappop` of pop 1. */
  lemma StaleHeapPop1()
    ensures HeapPop([Entry(7, Pos(2, 5)), Entry(9, Pos(4, 5)), Entry(7, Pos(3, 4))]) == Popped(Entry(7, Pos(2, 5)), [Entry(7, Pos(3, 4)), Entry(9, Pos(4, 5))])
  {
    assert [Entry(7, Pos(2, 5)), Entry(9, Pos(4, 5)), Entry(7, Pos(3, 4))][..2] == [Entry(7, Pos(2, 5)), Entry(9, Pos(4, 5))];
    assert [Entry(7, Pos(2, 5)), Entry(9, Pos(4, 5))][0 := Entry(7, Pos(3, 4))] == [Entry(7, Pos(3, 4)), Entry(9, Pos(4, 5))];
    assert HeapPop([Entry(7, Pos(2, 5)), Entry(9, Pos(4, 5)), Entry(7, Pos(3, 4))]) == Popped(Entry(7, Pos(2, 5)), SiftUp([Entry(7, Pos(3, 4)), Entry(9, Pos(4, 5))], 0));
    assert SiftUp([Entry(7, Pos(3, 4)), Entry(9, Pos(4, 5))], 0) == SiftUp([Entry(9, Pos(4, 5)), Entry(7, Pos(3, 4))], 1);
    assert SiftUp([Entry(9, Pos(4, 5)), Entry(7, Pos(3, 4))], 1) == SiftDown([Entry(9, Pos(4, 5)), Entry(7, Pos(3, 4))], 1);
    assert SiftDown([Entry(9, Pos(4, 5)), Entry(7, Pos(3, 4))], 1) == SiftDown([Entry(7, Pos(3, 4)), Entry(9, Pos(4, 5))], 0);
    assert SiftDown([Entry(7, Pos(3, 4)), Entry(9, Pos(4, 5))], 0) == [Entry(7, Pos(3, 4)), Entry(9, Pos(4, 5))];
  }

  /** Pop 1 takes Entry(7, Pos(2, 5)) off the heap. */
  lemma StalePop1()
    ensures Pop(StaleState1) == Step(Entry(7, Pos(2, 5)), StaleState1_0)
  {
    assert StaleState1.queue == [Entry(7, Pos(2, 5)), Entry(9, Pos(4, 5)), Entry(7, Pos(3, 4))];
    StaleHeapPop1();
    assert Remove(StaleState1.tSet, Pos(2, 5)) == Cons(Pos(3, 4), Cons(Pos(4, 5), Nil));
  }

  /** The neighbours of Pos(2, 5). */
  lemma StaleNeighbors1()
    ensures Items(NeighborPositions(6, {Pos(0, 4), Pos(1, 1), Pos(2, 1), Pos(5, 2)}, Pos(2, 5)), 0) == Cons(Pos(3, 5), Cons(Pos(1, 5), Cons(Pos(2, 4), Nil)))
  {
  }

  lemma StaleRelax1_1()
    ensures RelaxOne(Pos(1, 0), Pos(2, 5), 1, StaleState1_0, Pos(3, 5)) == StaleState1_0
  {
    assert Get(StaleState1_0.cost, Pos(3, 5)) == Some(0);
  }

  const StaleState1_2 :=
    Search(
      Bind(Pos(1, 5), 2, Bind(Pos(3, 4), 1, Bind(Pos(2, 5), 1, Bind(Pos(4, 5), 1, Bind(Pos(3, 5), 0, Empty))))),
      [Entry(7, Pos(3, 4)), Entry(9, Pos(4, 5)), Entry(7, Pos(1, 5))],
      Cons(Pos(1, 5), Cons(Pos(3, 4), Cons(Pos(4, 5), Nil))),
      Bind(Pos(1, 5), Pos(2, 5), Bind(Pos(3, 4), Pos(3, 5), Bind(Pos(2, 5), Pos(3, 5), Bind(Pos(4, 5), Pos(3, 5), Empty)))))

  lemma StaleHeapPush1_2()
    ensures HeapPush([Entry(7, Pos(3, 4)), Entry(9, Pos(4, 5))], Entry(7, Pos(1, 5))) == [Entry(7, Pos(3, 4)), Entry(9, Pos(4, 5)), Entry(7, Pos(1, 5))]
  {
    assert HeapPush([Entry(7, Pos(3, 4)), Entry(9, Pos(4, 5))], Entry(7, Pos(1, 5))) == SiftDown([Entry(7, Pos(3, 4)), Entry(9, Pos(4, 5)), Entry(7, Pos(1, 5))], 2);
    assert SiftDown([Entry(7, Pos(3, 4)), Entry(9, Pos(4, 5)), Entry(7, Pos(1, 5))], 2) == [Entry(7, Pos(3, 4)), Entry(9, Pos(4, 5)), Entry(7, Pos(1, 5))];
  }

  lemma StaleRelax1_2()
    ensures RelaxOne(Pos(1, 0), Pos(2, 5), 1, StaleState1_0, Pos(1, 5)) == StaleState1_2
  {
    var c4 := StaleState1_0.cost.rest.rest.rest.rest;
    assert Get(c4, Pos(1, 5)) == None;
    assert Get(StaleState1_0.cost, Pos(1, 5)) == None;
    assert !Has(StaleState1_0.tSet, Pos(1, 5));
    assert StaleState1_0.queue == [Entry(7, Pos(3, 4)), Entry(9, Pos(4, 5))];
    StaleHeapPush1_2();
  }

  lemma StaleHeapPush1_3()
    ensures HeapPush([Entry(7, Pos(3, 4)), Entry(9, Pos(4, 5)), Entry(7, Pos(1, 5))], Entry(7, Pos(2, 4))) == [Entry(7, Pos(3, 4)), Entry(7, Pos(2, 4)), Entry(7, Pos(1, 5)), Entry(9, Pos(4, 5))]
  {
    assert HeapPush([Entry(7, Pos(3, 4)), Entry(9, Pos(4, 5)), Entry(7, Pos(1, 5))], Entry(7, Pos(2, 4))) == SiftDown([Entry(7, Pos(3, 4)), Entry(9, Pos(4, 5)), Entry(7, Pos(1, 5)), Entry(7, Pos(2, 4))], 3);
    assert SiftDown([Entry(7, Pos(3, 4)), Entry(9, Pos(4, 5)), Entry(7, Pos(1, 5)), Entry(7, Pos(2, 4))], 3) == SiftDown([Entry(7, Pos(3, 4)), Entry(7, Pos(2, 4)), Entry(7, Pos(1, 5)), Entry(9, Pos(4, 5))], 1);
    assert SiftDown([Entry(7, Pos(3, 4)), Entry(7, Pos(2, 4)), Entry(7, Pos(1, 5)), Entry(9, Pos(4, 5))], 1) == [Entry(7, Pos(3, 4)), Entry(7, Pos(2, 4)), Entry(7, Pos(1, 5)), Entry(9, Pos(4, 5))];
  }

  lemma StaleRelax1_3()
    ensures RelaxOne(Pos(1, 0), Pos(2, 5), 1, StaleState1_2, Pos(2, 4)) == StaleState2
  {
    var c4 := StaleState1_2.cost.rest.rest.rest.rest;
    assert Get(c4, Pos(2, 4)) == None;
    assert Get(StaleState1_2.cost, Pos(2, 4)) == None;
    assert !Has(StaleState1_2.tSet, Pos(2, 4));
    assert StaleState1_2.queue == [Entry(7, Pos(3, 4)), Entry(9, Pos(4, 5)), Entry(7, Pos(1, 5))];
    StaleHeapPush1_3();
  }

  /** The neighbour loop of pop 1 leaves the state of pop 2. */
  lemma StaleRound1()
    ensures Round(StaleRows, StaleBarriers, StaleGoal, StaleState1_0, Pos(2, 5)) == StaleState2
  {
    assert Get(StaleState1_0.cost, Pos(2, 5)) == Some(1);
    StaleNeighbors1();
    StaleRelax1_1();
    StaleRelax1_2();
    StaleRelax1_3();
  }

  /** Pop 1 hands over to pop 2. */
  lemma StaleLoop1()
    ensures Loop(StaleRows, StaleBarriers, StaleGoal, StaleState1, 19) == Loop(StaleRows, StaleBarriers, StaleGoal, StaleState2, 18)
  {
    StalePop1();
    StaleRound1();
  }

  const StaleState2_0 :=
    Search(
      Bind(Pos(2, 4), 2, Bind(Pos(1, 5), 2, Bind(Pos(3, 4), 1, Bind(Pos(2, 5), 1, Bind(Pos(4, 5), 1, Bind(Pos(3, 5), 0, Empty)))))),
      [Entry(7, Pos(1, 5)), Entry(7, Pos(2, 4)), Entry(9, Pos(4, 5))],
      Cons(Pos(2, 4), Cons(Pos(1, 5), Cons(Pos(4, 5), Nil))),
      Bind(Pos(2, 4), Pos(2, 5), Bind(Pos(1, 5), Pos(2, 5), Bind(Pos(3, 4), Pos(3, 5), Bind(Pos(2, 5), Pos(3, 5), Bind(Pos(4, 5), Pos(3, 5), Empty))))))

  /** The `heappop` of pop 2. */
  lemma StaleHeapPop2()
    ensures HeapPop([Entry(7, Pos(3, 4)), Entry(7, Pos(2, 4)), Entry(7, Pos(1, 5)), Entry(9, Pos(4, 5))]) == Popped(Entry(7, Pos(3, 4)), [Entry(7, Pos(1, 5)), Entry(7, Pos(2, 4)), Entry(9, Pos(4, 5))])
  {
    assert [Entry(7, Pos(3, 4)), Entry(7, Pos(2, 4)), Entry(7, Pos(1, 5)), Entry(9, Pos(4, 5))][..3] == [Entry(7, Pos(3, 4)), Entry(7, Pos(2, 4)), Entry(7, Pos(1, 5))];
    assert [Entry(7, Pos(3, 4)), Entry(7, Pos(2, 4)), Entry(7, Pos(1, 5))][0 := Entry(9, Pos(4, 5))] == [Entry(9, Pos(4, 5)), Entry(7, Pos(2, 4)), Entry(7, Pos(1, 5))];
    assert HeapPop([Entry(7, Pos(3, 4)), Entry(7, Pos(2, 4)), Entry(7, Pos(1, 5)), Entry(9, Pos(4, 5))]) == Popped(Entry(7, Pos(3, 4)), SiftUp([Entry(9, Pos(4, 5)), Entry(7, Pos(2, 4)), Entry(7, Pos(1, 5))], 0));
    assert SiftUp([Entry(9, Pos(4, 5)), Entry(7, Pos(2, 4)), Entry(7, Pos(1, 5))], 0) == SiftUp([Entry(7, Pos(1, 5)), Entry(7, Pos(2, 4)), Entry(9, Pos(4, 5))], 2);
    assert SiftUp([Entry(7, Pos(1, 5)), Entry(7, Pos(2, 4)), Entry(9, Pos(4, 5))], 2) == SiftDown([Entry(7, Pos(1, 5)), Entry(7, Pos(2, 4)), Entry(9, Pos(4, 5))], 2);
    assert SiftDown([Entry(7, Pos(1, 5)), Entry(7, Pos(2, 4)), Entry(9, Pos(4, 5))], 2) == [Entry(7, Pos(1, 5)), Entry(7, Pos(2, 4)), Entry(9, Pos(4, 5))];
  }

  /** Pop 2 takes Entry(7, Pos(3, 4)) off the heap. */
  lemma StalePop2()
    ensures Pop(StaleState2) == Step(Entry(7, Pos(3, 4)), StaleState2_0)
  {
    assert StaleState2.queue == [Entry(7, Pos(3, 4)), Entry(7, Pos(2, 4)), Entry(7, Pos(1, 5)), Entry(9, Pos(4, 5))];
    StaleHeapPop2();
    assert Remove(StaleState2.tSet, Pos(3, 4)) == Cons(Pos(2, 4), Cons(Pos(1, 5), Cons(Pos(4, 5), Nil)));
  }

  /** The neighbours of Pos(3, 4). */
  lemma StaleNeighbors2()
    ensures Items(NeighborPositions(6, {Pos(0, 4), Pos(1, 1), Pos(2, 1), Pos(5, 2)}, Pos(3, 4)), 0) == Cons(Pos(4, 4), Cons(Pos(2, 4), Cons(Pos(3, 5), Cons(Pos(3, 3), Nil))))
  {
  }

  const StaleState2_1 :=
    Search(
      Bind(Pos(4, 4), 2, Bind(Pos(2, 4), 2, Bind(Pos(1, 5), 2, Bind(Pos(3, 4), 1, Bind(Pos(2, 5), 1, Bind(Pos(4, 5), 1, Bind(Pos(3, 5), 0, Empty))))))),
      [Entry(7, Pos(1, 5)), Entry(7, Pos(2, 4)), Entry(9, Pos(4, 5)), Entry(9, Pos(4, 4))],
      Cons(Pos(4, 4), Cons(Pos(2, 4), Cons(Pos(1, 5), Cons(Pos(4, 5), Nil)))),
      Bind(Pos(4, 4), Pos(3, 4), Bind(Pos(2, 4), Pos(2, 5), Bind(Pos(1, 5), Pos(2, 5), Bind(Pos(3, 4), Pos(3, 5), Bind(Pos(2, 5), Pos(3, 5), Bind(Pos(4, 5), Pos(3, 5), Empty)))))))

  lemma StaleHeapPush2_1()
    ensures HeapPush([Entry(7, Pos(1, 5)), Entry(7, Pos(2, 4)), Entry(9, Pos(4, 5))], Entry(9, Pos(4, 4))) == [Entry(7, Pos(1, 5)), Entry(7, Pos(2, 4)), Entry(9, Pos(4, 5)), Entry(9, Pos(4, 4))]
  {
    assert HeapPush([Entry(7, Pos(1, 5)), Entry(7, Pos(2, 4)), Entry(9, Pos(4, 5))], Entry(9, Pos(4, 4))) == SiftDown([Entry(7, Pos(1, 5)), Entry(7, Pos(2, 4)), Entry(9, Pos(4, 5)), Entry(9, Pos(4, 4))], 3);
    assert SiftDown([Entry(7, Pos(1, 5)), Entry(7, Pos(2, 4)), Entry(9, Pos(4, 5)), Entry(9, Pos(4, 4))], 3) == [Entry(7, Pos(1, 5)), Entry(7, Pos(2, 4)), Entry(9, Pos(4, 5)), Entry(9, Pos(4, 4))];
  }

  lemma StaleRelax2_1()
    ensures RelaxOne(Pos(1, 0), Pos(3, 4), 1, StaleState2_0, Pos(4, 4)) == StaleState2_1
  {
    var c4 := StaleState2_0.cost.rest.rest.rest.rest;
    assert Get(c4, Pos(4, 4)) == None;
    assert Get(StaleState2_0.cost, Pos(4, 4)) == None;
    assert !Has(StaleState2_0.tSet, Pos(4, 4));
    assert StaleState2_0.queue == [Entry(7, Pos(1, 5)), Entry(7, Pos(2, 4)), Entry(9, Pos(4, 5))];
    StaleHeapPush2_1();
  }

  lemma StaleRelax2_2()
    ensures RelaxOne(Pos(1, 0), Pos(3, 4), 1, StaleState2_1, Pos(2, 4)) == StaleState2_1
  {
    assert Get(StaleState2_1.cost, Pos(2, 4)) == Some(2);
  }

  lemma StaleRelax2_3()
    ensures RelaxOne(Pos(1, 0), Pos(3, 4), 1, StaleState2_1, Pos(3, 5)) == StaleState2_1
  {
    var c4 := StaleState2_1.cost.rest.rest.rest.rest;
    assert Get(c4, Pos(3, 5)) == Some(0);
    assert Get(StaleState2_1.cost, Pos(3, 5)) == Some(0);
  }

  lemma StaleHeapPush2_4()
    ensures HeapPush([Entry(7, Pos(1, 5)), Entry(7, Pos(2, 4)), Entry(9, Pos(4, 5)), Entry(9, Pos(4, 4))], Entry(7, Pos(3, 3))) == [Entry(7, Pos(1, 5)), Entry(7, Pos(2, 4)), Entry(9, Pos(4, 5)), Entry(9, Pos(4, 4)), Entry(7, Pos(3, 3))]
  {
    assert HeapPush([Entry(7, Pos(1, 5)), Entry(7, Pos(2, 4)), Entry(9, Pos(4, 5)), Entry(9, Pos(4, 4))], Entry(7, Pos(3, 3))) == SiftDown([Entry(7, Pos(1, 5)), Entry(7, Pos(2, 4)), Entry(9, Pos(4, 5)), Entry(9, Pos(4, 4)), Entry(7, Pos(3, 3))], 4);
    assert SiftDown([Entry(7, Pos(1, 5)), Entry(7, Pos(2, 4)), Entry(9, Pos(4, 5)), Entry(9, Pos(4, 4)), Entry(7, Pos(3, 3))], 4) == [Entry(7, Pos(1, 5)), Entry(7, Pos(2, 4)), Entry(9, Pos(4, 5)), Entry(9, Pos(4, 4)), Entry(7, Pos(3, 3))];
  }

  lemma StaleRelax2_4()
    ensures RelaxOne(Pos(1, 0), Pos(3, 4), 1, StaleState2_1, Pos(3, 3)) == StaleState3
  {
    var c4 := StaleState2_1.cost.rest.rest.rest.rest;
    assert Get(c4, Pos(3, 3)) == None;
    assert Get(StaleState2_1.cost, Pos(3, 3)) == None;
    var t4 := StaleState2_1.tSet.tail.tail.tail.tail;
    assert !Has(t4, Pos(3, 3));
    assert !Has(StaleState2_1.tSet, Pos(3, 3));
    assert StaleState2_1.queue == [Entry(7, Pos(1, 5)), Entry(7, Pos(2, 4)), Entry(9, Pos(4, 5)), Entry(9, Pos(4, 4))];
    StaleHeapPush2_4();
  }

  /** The neighbour loop of pop 2 leaves the state of pop 3. */
  lemma StaleRound2()
    ensures Round(StaleRows, StaleBarriers, StaleGoal, StaleState2_0, Pos(3, 4)) == StaleState3
  {
    assert Get(StaleState2_0.cost, Pos(3, 4)) == Some(1);
    StaleNeighbors2();
    StaleRelax2_1();
    StaleRelax2_2();
    StaleRelax2_3();
    StaleRelax2_4();
  }

  /** Pop 2 hands over to pop 3. */
  lemma StaleLoop2()
    ensures Loop(StaleRows, StaleBarriers, StaleGoal, StaleState2, 18) == Loop(StaleRows, StaleBarriers, StaleGoal, StaleState3, 17)
  {
    StalePop2();
    StaleRound2();
  }

  const StaleState3_0 :=
    Search(
      Bind(Pos(3, 3), 2, Bind(Pos(4, 4), 2, Bind(Pos(2, 4), 2, Bind(Pos(1, 5), 2, Bind(Pos(3, 4), 1, Bind(Pos(2, 5), 1, Bind(Pos(4, 5), 1, Bind(Pos(3, 5), 0, Empty)))))))),
      [Entry(7, Pos(2, 4)), Entry(7, Pos(3, 3)), Entry(9, Pos(4, 5)), Entry(9, Pos(4, 4))],
      Cons(Pos(3, 3), Cons(Pos(4, 4), Cons(Pos(2, 4), Cons(Pos(4, 5), Nil)))),
      Bind(Pos(3, 3), Pos(3, 4), Bind(Pos(4, 4), Pos(3, 4), Bind(Pos(2, 4), Pos(2, 5), Bind(Pos(1, 5), Pos(2, 5), Bind(Pos(3, 4), Pos(3, 5), Bind(Pos(2, 5), Pos(3, 5), Bind(Pos(4, 5), Pos(3, 5), Empty))))))))

  /** The `heappop` of pop 3. */
  lemma StaleHeapPop3()
    ensures HeapPop([Entry(7, Pos(1, 5)), Entry(7, Pos(2, 4)), Entry(9, Pos(4, 5)), Entry(9, Pos(4, 4)), Entry(7, Pos(3, 3))]) == Popped(Entry(7, Pos(1, 5)), [Entry(7, Pos(2, 4)), Entry(7, Pos(3, 3)), Entry(9, Pos(4, 5)), Entry(9, Pos(4, 4))])
  {
    assert [Entry(7, Pos(1, 5)), Entry(7, Pos(2, 4)), Entry(9, Pos(4, 5)), Entry(9, Pos(4, 4)), Entry(7, Pos(3, 3))][..4] == [Entry(7, Pos(1, 5)), Entry(7, Pos(2, 4)), Entry(9, Pos(4, 5)), Entry(9, Pos(4, 4))];
    assert [Entry(7, Pos(1, 5)), Entry(7, Pos(2, 4)), Entry(9, Pos(4, 5)), Entry(9, Pos(4, 4))][0 := Entry(7, Pos(3, 3))] == [Entry(7, Pos(3, 3)), Entry(7, Pos(2, 4)), Entry(9, Pos(4, 5)), Entry(9, Pos(4, 4))];
    assert HeapPop([Entry(7, Pos(1, 5)), Entry(7, Pos(2, 4)), Entry(9, Pos(4, 5)), Entry(9, Pos(4, 4)), Entry(7, Pos(3, 3))]) == Popped(Entry(7, Pos(1, 5)), SiftUp([Entry(7, Pos(3, 3)), Entry(7, Pos(2, 4)), Entry(9, Pos(4, 5)), Entry(9, Pos(4, 4))], 0));
    assert SiftUp([Entry(7, Pos(3, 3)), Entry(7, Pos(2, 4)), Entry(9, Pos(4, 5)), Entry(9, Pos(4, 4))], 0) == SiftUp([Entry(7, Pos(2, 4)), Entry(7, Pos(3, 3)), Entry(9, Pos(4, 5)), Entry(9, Pos(4, 4))], 1);
    assert SiftUp([Entry(7, Pos(2, 4)), Entry(7, Pos(3, 3)), Entry(9, Pos(4, 5)), Entry(9, Pos(4, 4))], 1) == SiftUp([Entry(7, Pos(2, 4)), Entry(9, Pos(4, 4)), Entry(9, Pos(4, 5)), Entry(7, Pos(3, 3))], 3);
    assert SiftUp([Entry(7, Pos(2, 4)), Entry(9, Pos(4, 4)), Entry(9, Pos(4, 5)), Entry(7, Pos(3, 3))], 3) == SiftDown([Entry(7, Pos(2, 4)), Entry(9, Pos(4, 4)), Entry(9, Pos(4, 5)), Entry(7, Pos(3, 3))], 3);
    assert SiftDown([Entry(7, Pos(2, 4)), Entry(9, Pos(4, 4)), Entry(9, Pos(4, 5)), Entry(7, Pos(3, 3))], 3) == SiftDown([Entry(7, Pos(2, 4)), Entry(7, Pos(3, 3)), Entry(9, Pos(4, 5)), Entry(9, Pos(4, 4))], 1);
    assert SiftDown([Entry(7, Pos(2, 4)), Entry(7, Pos(3, 3)), Entry(9, Pos(4, 5)), Entry(9, Pos(4, 4))], 1) == [Entry(7, Pos(2, 4)), Entry(7, Pos(3, 3)), Entry(9, Pos(4, 5)), Entry(9, Pos(4, 4))];
  }

  /** Pop 3 takes Entry(7, Pos(1, 5)) off the heap. */
  lemma StalePop3()
    ensures Pop(StaleState3) == Step(Entry(7, Pos(1, 5)), StaleState3_0)
  {
    assert StaleState3.queue == [Entry(7, Pos(1, 5)), Entry(7, Pos(2, 4)), Entry(9, Pos(4, 5)), Entry(9, Pos(4, 4)), Entry(7, Pos(3, 3))];
    StaleHeapPop3();
    assert Remove(StaleState3.tSet, Pos(1, 5)) == Cons(Pos(3, 3), Cons(Pos(4, 4), Cons(Pos(2, 4), Cons(Pos(4, 5), Nil))));
  }

  /** The neighbours of Pos(1, 5). */
  lemma StaleNeighbors3()
    ensures Items(NeighborPositions(6, {Pos(0, 4), Pos(1, 1), Pos(2, 1), Pos(5, 2)}, Pos(1, 5)), 0) == Cons(Pos(2, 5), Cons(Pos(0, 5), Cons(Pos(1, 4), Nil)))
  {
  }

  lemma StaleRelax3_1()
    ensures RelaxOne(Pos(1, 0), Pos(1, 5), 2, StaleState3_0, Pos(2, 5)) == StaleState3_0
  {
    var c4 := StaleState3_0.cost.rest.rest.rest.rest;
    assert Get(c4, Pos(2, 5)) == Some(1);
    assert Get(StaleState3_0.cost, Pos(2, 5)) == Some(1);
  }

  const StaleState3_2 :=
    Search(
      Bind(Pos(0, 5), 3, Bind(Pos(3, 3), 2, Bind(Pos(4, 4), 2, Bind(Pos(2, 4), 2, Bind(Pos(1, 5), 2, Bind(Pos(3, 4), 1, Bind(Pos(2, 5), 1, Bind(Pos(4, 5), 1, Bind(Pos(3, 5), 0, Empty))))))))),
      [Entry(7, Pos(2, 4)), Entry(7, Pos(3, 3)), Entry(9, Pos(4, 5)), Entry(9, Pos(4, 4)), Entry(9, Pos(0, 5))],
      Cons(Pos(0, 5), Cons(Pos(3, 3), Cons(Pos(4, 4), Cons(Pos(2, 4), Cons(Pos(4, 5), Nil))))),
      Bind(Pos(0, 5), Pos(1, 5), Bind(Pos(3, 3), Pos(3, 4), Bind(Pos(4, 4), Pos(3, 4), Bind(Pos(2, 4), Pos(2, 5), Bind(Pos(1, 5), Pos(2, 5), Bind(Pos(3, 4), Pos(3, 5), Bind(Pos(2, 5), Pos(3, 5), Bind(Pos(4, 5), Pos(3, 5), Empty)))))))))

  lemma StaleHeapPush3_2()
    ensures HeapPush([Entry(7, Pos(2, 4)), Entry(7, Pos(3, 3)), Entry(9, Pos(4, 5)), Entry(9, Pos(4, 4))], Entry(9, Pos(0, 5))) == [Entry(7, Pos(2, 4)), Entry(7, Pos(3, 3)), Entry(9, Pos(4, 5)), Entry(9, Pos(4, 4)), Entry(9, Pos(0, 5))]
  {
    assert HeapPush([Entry(7, Pos(2, 4)), Entry(7, Pos(3, 3)), Entry(9, Pos(4, 5)), Entry(9, Pos(4, 4))], Entry(9, Pos(0, 5))) == SiftDown([Entry(7, Pos(2, 4)), Entry(7, Pos(3, 3)), Entry(9, Pos(4, 5)), Entry(9, Pos(4, 4)), Entry(9, Pos(0, 5))], 4);
    assert SiftDown([Entry(7, Pos(2, 4)), Entry(7, Pos(3, 3)), Entry(9, Pos(4, 5)), Entry(9, Pos(4, 4)), Entry(9, Pos(0, 5))], 4) == [Entry(7, Pos(2, 4)), Entry(7, Pos(3, 3)), Entry(9, Pos(4, 5)), Entry(9, Pos(4, 4)), Entry(9, Pos(0, 5))];
  }

  lemma StaleRelax3_2()
    ensures RelaxOne(Pos(1, 0), Pos(1, 5), 2, StaleState3_0, Pos(0, 5)) == StaleState3_2
  {
    var c4 := StaleState3_0.cost.rest.rest.rest.rest;
    var c8 := c4.rest.rest.rest.rest;
    assert Get(c8, Pos(0, 5)) == None;
    assert Get(c4, Pos(0, 5)) == None;
    assert Get(StaleState3_0.cost, Pos(0, 5)) == None;
    var t4 := StaleState3_0.tSet.tail.tail.tail.tail;
    assert !Has(t4, Pos(0, 5));
    assert !Has(StaleState3_0.tSet, Pos(0, 5));
    assert StaleState3_0.queue == [Entry(7, Pos(2, 4)), Entry(7, Pos(3, 3)), Entry(9, Pos(4, 5)), Entry(9, Pos(4, 4))];
    StaleHeapPush3_2();
  }

  lemma StaleHeapPush3_3()
    ensures HeapPush([Entry(7, Pos(2, 4)), Entry(7, Pos(3, 3)), Entry(9, Pos(4, 5)), Entry(9, Pos(4, 4)), Entry(9, Pos(0, 5))], Entry(7, Pos(1, 4))) == [Entry(7, Pos(2, 4)), Entry(7, Pos(3, 3)), Entry(7, Pos(1, 4)), Entry(9, Pos(4, 4)), Entry(9, Pos(0, 5)), Entry(9, Pos(4, 5))]
  {
    assert HeapPush([Entry(7, Pos(2, 4)), Entry(7, Pos(3, 3)), Entry(9, Pos(4, 5)), Entry(9, Pos(4, 4)), Entry(9, Pos(0, 5))], Entry(7, Pos(1, 4))) == SiftDown([Entry(7, Pos(2, 4)), Entry(7, Pos(3, 3)), Entry(9, Pos(4, 5)), Entry(9, Pos(4, 4)), Entry(9, Pos(0, 5)), Entry(7, Pos(1, 4))], 5);
    assert SiftDown([Entry(7, Pos(2, 4)), Entry(7, Pos(3, 3)), Entry(9, Pos(4, 5)), Entry(9, Pos(4, 4)), Entry(9, Pos(0, 5)), Entry(7, Pos(1, 4))], 5) == SiftDown([Entry(7, Pos(2, 4)), Entry(7, Pos(3, 3)), Entry(7, Pos(1, 4)), Entry(9, Pos(4, 4)), Entry(9, Pos(0, 5)), Entry(9, Pos(4, 5))], 2);
    assert SiftDown([Entry(7, Pos(2, 4)), Entry(7, Pos(3, 3)), Entry(7, Pos(1, 4)), Entry(9, Pos(4, 4)), Entry(9, Pos(0, 5)), Entry(9, Pos(4, 5))], 2) == [Entry(7, Pos(2, 4)), Entry(7, Pos(3, 3)), Entry(7, Pos(1, 4)), Entry(9, Pos(4, 4)), Entry(9, Pos(0, 5)), Entry(9, Pos(4, 5))];
  }

  lemma StaleRelax3_3()
    ensures RelaxOne(Pos(1, 0), Pos(1, 5), 2, StaleState3_2, Pos(1, 4)) == StaleState4
  {
    var c4 := StaleState3_2.cost.rest.rest.rest.rest;
    var c8 := c4.rest.rest.rest.rest;
    assert Get(c8, Pos(1, 4)) == None;
    assert Get(c4, Pos(1, 4)) == None;
    assert Get(StaleState3_2.cost, Pos(1, 4)) == None;
    var t4 := StaleState3_2.tSet.tail.tail.tail.tail;
    assert !Has(t4, Pos(1, 4));
    assert !Has(StaleState3_2.tSet, Pos(1, 4));
    assert StaleState3_2.queue == [Entry(7, Pos(2, 4)), Entry(7, Pos(3, 3)), Entry(9, Pos(4, 5)), Entry(9, Pos(4, 4)), Entry(9, Pos(0, 5))];
    StaleHeapPush3_3();
  }

  /** The neighbour loop of pop 3 leaves the state of pop 4. */
  lemma StaleRound3()
    ensures Round(StaleRows, StaleBarriers, StaleGoal, StaleState3_0, Pos(1, 5)) == StaleState4
  {
    assert Get(StaleState3_0.cost, Pos(1, 5)) == Some(2);
    StaleNeighbors3();
    StaleRelax3_1();
    StaleRelax3_2();
    StaleRelax3_3();
  }

  /** Pop 3 hands over to pop 4. */
  lemma StaleLoop3()
    ensures Loop(StaleRows, StaleBarriers, StaleGoal, StaleState3, 17) == Loop(StaleRows, StaleBarriers, StaleGoal, StaleState4, 16)
  {
    StalePop3();
    StaleRound3();
  }

  const StaleState4_0 :=
    Search(
      Bind(Pos(1, 4), 3, Bind(Pos(0, 5), 3, Bind(Pos(3, 3), 2, Bind(Pos(4, 4), 2, Bind(Pos(2, 4), 2, Bind(Pos(1, 5), 2, Bind(Pos(3, 4), 1, Bind(Pos(2, 5), 1, Bind(Pos(4, 5), 1, Bind(Pos(3, 5), 0, Empty)))))))))),
      [Entry(7, Pos(1, 4)), Entry(7, Pos(3, 3)), Entry(9, Pos(4, 5)), Entry(9, Pos(4, 4)), Entry(9, Pos(0, 5))],
      Cons(Pos(1, 4), Cons(Pos(0, 5), Cons(Pos(3, 3), Cons(Pos(4, 4), Cons(Pos(4, 5), Nil))))),
      Bind(Pos(1, 4), Pos(1, 5), Bind(Pos(0, 5), Pos(1, 5), Bind(Pos(3, 3), Pos(3, 4), Bind(Pos(4, 4), Pos(3, 4), Bind(Pos(2, 4), Pos(2, 5), Bind(Pos(1, 5), Pos(2, 5), Bind(Pos(3, 4), Pos(3, 5), Bind(Pos(2, 5), Pos(3, 5), Bind(Pos(4, 5), Pos(3, 5), Empty))))))))))

  /** The `heappop` of pop 4. */
  lemma StaleHeapPop4()
    ensures HeapPop([Entry(7, Pos(2, 4)), Entry(7, Pos(3, 3)), Entry(7, Pos(1, 4)), Entry(9, Pos(4, 4)), Entry(9, Pos(0, 5)), Entry(9, Pos(4, 5))]) == Popped(Entry(7, Pos(2, 4)), [Entry(7, Pos(1, 4)), Entry(7, Pos(3, 3)), Entry(9, Pos(4, 5)), Entry(9, Pos(4, 4)), Entry(9, Pos(0, 5))])
  {
    assert [Entry(7, Pos(2, 4)), Entry(7, Pos(3, 3)), Entry(7, Pos(1, 4)), Entry(9, Pos(4, 4)), Entry(9, Pos(0, 5)), Entry(9, Pos(4, 5))][..5] == [Entry(7, Pos(2, 4)), Entry(7, Pos(3, 3)), Entry(7, Pos(1, 4)), Entry(9, Pos(4, 4)), Entry(9, Pos(0, 5))];
    assert [Entry(7, Pos(2, 4)), Entry(7, Pos(3, 3)), Entry(7, Pos(1, 4)), Entry(9, Pos(4, 4)), Entry(9, Pos(0, 5))][0 := Entry(9, Pos(4, 5))] == [Entry(9, Pos(4, 5)), Entry(7, Pos(3, 3)), Entry(7, Pos(1, 4)), Entry(9, Pos(4, 4)), Entry(9, Pos(0, 5))];
    assert HeapPop([Entry(7, Pos(2, 4)), Entry(7, Pos(3, 3)), Entry(7, Pos(1, 4)), Entry(9, Pos(4, 4)), Entry(9, Pos(0, 5)), Entry(9, Pos(4, 5))]) == Popped(Entry(7, Pos(2, 4)), SiftUp([Entry(9, Pos(4, 5)), Entry(7, Pos(3, 3)), Entry(7, Pos(1, 4)), Entry(9, Pos(4, 4)), Entry(9, Pos(0, 5))], 0));
    assert SiftUp([Entry(9, Pos(4, 5)), Entry(7, Pos(3, 3)), Entry(7, Pos(1, 4)), Entry(9, Pos(4, 4)), Entry(9, Pos(0, 5))], 0) == SiftUp([Entry(7, Pos(1, 4)), Entry(7, Pos(3, 3)), Entry(9, Pos(4, 5)), Entry(9, Pos(4, 4)), Entry(9, Pos(0, 5))], 2);
    assert SiftUp([Entry(7, Pos(1, 4)), Entry(7, Pos(3, 3)), Entry(9, Pos(4, 5)), Entry(9, Pos(4, 4)), Entry(9, Pos(0, 5))], 2) == SiftDown([Entry(7, Pos(1, 4)), Entry(7, Pos(3, 3)), Entry(9, Pos(4, 5)), Entry(9, Pos(4, 4)), Entry(9, Pos(0, 5))], 2);
    assert SiftDown([Entry(7, Pos(1, 4)), Entry(7, Pos(3, 3)), Entry(9, Pos(4, 5)), Entry(9, Pos(4, 4)), Entry(9, Pos(0, 5))], 2) == [Entry(7, Pos(1, 4)), Entry(7, Pos(3, 3)), Entry(9, Pos(4, 5)), Entry(9, Pos(4, 4)), Entry(9, Pos(0, 5))];
  }

  /** Pop 4 takes Entry(7, Pos(2, 4)) off the heap. */
  lemma StalePop4()
    ensures Pop(StaleState4) == Step(Entry(7, Pos(2, 4)), StaleState4_0)
  {
    assert StaleState4.queue == [Entry(7, Pos(2, 4)), Entry(7, Pos(3, 3)), Entry(7, Pos(1, 4)), Entry(9, Pos(4, 4)), Entry(9, Pos(0, 5)), Entry(9, Pos(4, 5))];
    StaleHeapPop4();
    var t4 := StaleState4.tSet.tail.tail.tail.tail;
    assert Remove(t4, Pos(2, 4)) == Cons(Pos(4, 5), Nil);
    assert Remove(StaleState4.tSet, Pos(2, 4)) == Cons(Pos(1, 4), Cons(Pos(0, 5), Cons(Pos(3, 3), Cons(Pos(4, 4), Cons(Pos(4, 5), Nil)))));
  }

  /** The neighbours of Pos(2, 4). */
  lemma StaleNeighbors4()
    ensures Items(NeighborPositions(6, {Pos(0, 4), Pos(1, 1), Pos(2, 1), Pos(5, 2)}, Pos(2, 4)), 0) == Cons(Pos(3, 4), Cons(Pos(1, 4), Cons(Pos(2, 5), Cons(Pos(2, 3), Nil))))
  {
  }

  lemma StaleRelax4_1()
    ensures RelaxOne(Pos(1, 0), Pos(2, 4), 2, StaleState4_0, Pos(3, 4)) == StaleState4_0
  {
    var c4 := StaleState4_0.cost.rest.rest.rest.rest;
    assert Get(c4, Pos(3, 4)) == Some(1);
    assert Get(StaleState4_0.cost, Pos(3, 4)) == Some(1);
  }

  lemma StaleRelax4_2()
    ensures RelaxOne(Pos(1, 0), Pos(2, 4), 2, StaleState4_0, Pos(1, 4)) == StaleState4_0
  {
    assert Get(StaleState4_0.cost, Pos(1, 4)) == Some(3);
  }

  lemma StaleRelax4_3()
    ensures RelaxOne(Pos(1, 0), Pos(2, 4), 2, StaleState4_0, Pos(2, 5)) == StaleState4_0
  {
    var c4 := StaleState4_0.cost.rest.rest.rest.rest;
    assert Get(c4, Pos(2, 5)) == Some(1);
    assert Get(StaleState4_0.cost, Pos(2, 5)) == Some(1);
  }

  lemma StaleHeapPush4_4()
    ensures HeapPush([Entry(7, Pos(1, 4)), Entry(7, Pos(3, 3)), Entry(9, Pos(4, 5)), Entry(9, Pos(4, 4)), Entry(9, Pos(0, 5))], Entry(7, Pos(2, 3))) == [Entry(7, Pos(1, 4)), Entry(7, Pos(3, 3)), Entry(7, Pos(2, 3)), Entry(9, Pos(4, 4)), Entry(9, Pos(0, 5)), Entry(9, Pos(4, 5))]
  {
    assert HeapPush([Entry(7, Pos(1, 4)), Entry(7, Pos(3, 3)), Entry(9, Pos(4, 5)), Entry(9, Pos(4, 4)), Entry(9, Pos(0, 5))], Entry(7, Pos(2, 3))) == SiftDown([Entry(7, Pos(1, 4)), Entry(7, Pos(3, 3)), Entry(9, Pos(4, 5)), Entry(9, Pos(4, 4)), Entry(9, Pos(0, 5)), Entry(7, Pos(2, 3))], 5);
    assert SiftDown([Entry(7, Pos(1, 4)), Entry(7, Pos(3, 3)), Entry(9, Pos(4, 5)), Entry(9, Pos(4, 4)), Entry(9, Pos(0, 5)), Entry(7, Pos(2, 3))], 5) == SiftDown([Entry(7, Pos(1, 4)), Entry(7, Pos(3, 3)), Entry(7, Pos(2, 3)), Entry(9, Pos(4, 4)), Entry(9, Pos(0, 5)), Entry(9, Pos(4, 5))], 2);
    assert SiftDown([Entry(7, Pos(1, 4)), Entry(7, Pos(3, 3)), Entry(7, Pos(2, 3)), Entry(9, Pos(4, 4)), Entry(9, Pos(0, 5)), Entry(9, Pos(4, 5))], 2) == [Entry(7, Pos(1, 4)), Entry(7, Pos(3, 3)), Entry(7, Pos(2, 3)), Entry(9, Pos(4, 4)), Entry(9, Pos(0, 5)), Entry(9, Pos(4, 5))];
  }

  lemma StaleRelax4_4()
    ensures RelaxOne(Pos(1, 0), Pos(2, 4), 2, StaleState4_0, Pos(2, 3)) == StaleState5
  {
    var c4 := StaleState4_0.cost.rest.rest.rest.rest;
    var c8 := c4.rest.rest.rest.rest;
    assert Get(c8, Pos(2, 3)) == None;
    assert Get(c4, Pos(2, 3)) == None;
    assert Get(StaleState4_0.cost, Pos(2, 3)) == None;
    var t4 := StaleState4_0.tSet.tail.tail.tail.tail;
    assert !Has(t4, Pos(2, 3));
    assert !Has(StaleState4_0.tSet, Pos(2, 3));
    assert StaleState4_0.queue == [Entry(7, Pos(1, 4)), Entry(7, Pos(3, 3)), Entry(9, Pos(4, 5)), Entry(9, Pos(4, 4)), Entry(9, Pos(0, 5))];
    StaleHeapPush4_4();
  }

  /** The neighbour loop of pop 4 leaves the state of pop 5. */
  lemma StaleRound4()
    ensures Round(StaleRows, StaleBarriers, StaleGoal, StaleState4_0, Pos(2, 4)) == StaleState5
  {
    var c4 := StaleState4_0.cost.rest.rest.rest.rest;
    assert Get(c4, Pos(2, 4)) == Some(2);
    assert Get(StaleState4_0.cost, Pos(2, 4)) == Some(2);
    StaleNeighbors4();
    StaleRelax4_1();
    StaleRelax4_2();
    StaleRelax4_3();
    StaleRelax4_4();
  }

  /** Pop 4 hands over to pop 5. */
  lemma StaleLoop4()
    ensures Loop(StaleRows, StaleBarriers, StaleGoal, StaleState4, 16) == Loop(StaleRows, StaleBarriers, StaleGoal, StaleState5, 15)
  {
    StalePop4();
    StaleRound4();
  }

  const StaleState5_0 :=
    Search(
      Bind(Pos(2, 3), 3, Bind(Pos(1, 4), 3, Bind(Pos(0, 5), 3, Bind(Pos(3, 3), 2, Bind(Pos(4, 4), 2, Bind(Pos(2, 4), 2, Bind(Pos(1, 5), 2, Bind(Pos(3, 4), 1, Bind(Pos(2, 5), 1, Bind(Pos(4, 5), 1, Bind(Pos(3, 5), 0, Empty))))))))))),
      [Entry(7, Pos(2, 3)), Entry(7, Pos(3, 3)), Entry(9, Pos(4, 5)), Entry(9, Pos(4, 4)), Entry(9, Pos(0, 5))],
      Cons(Pos(2, 3), Cons(Pos(0, 5), Cons(Pos(3, 3), Cons(Pos(4, 4), Cons(Pos(4, 5), Nil))))),
      Bind(Pos(2, 3), Pos(2, 4), Bind(Pos(1, 4), Pos(1, 5), Bind(Pos(0, 5), Pos(1, 5), Bind(Pos(3, 3), Pos(3, 4), Bind(Pos(4, 4), Pos(3, 4), Bind(Pos(2, 4), Pos(2, 5), Bind(Pos(1, 5), Pos(2, 5), Bind(Pos(3, 4), Pos(3, 5), Bind(Pos(2, 5), Pos(3, 5), Bind(Pos(4, 5), Pos(3, 5), Empty)))))))))))

  /** The `heappop` of pop 5. */
  lemma StaleHeapPop5()
    ensures HeapPop([Entry(7, Pos(1, 4)), Entry(7, Pos(3, 3)), Entry(7, Pos(2, 3)), Entry(9, Pos(4, 4)), Entry(9, Pos(0, 5)), Entry(9, Pos(4, 5))]) == Popped(Entry(7, Pos(1, 4)), [Entry(7, Pos(2, 3)), Entry(7, Pos(3, 3)), Entry(9, Pos(4, 5)), Entry(9, Pos(4, 4)), Entry(9, Pos(0, 5))])
  {
    assert [Entry(7, Pos(1, 4)), Entry(7, Pos(3, 3)), Entry(7, Pos(2, 3)), Entry(9, Pos(4, 4)), Entry(9, Pos(0, 5)), Entry(9, Pos(4, 5))][..5] == [Entry(7, Pos(1, 4)), Entry(7, Pos(3, 3)), Entry(7, Pos(2, 3)), Entry(9, Pos(4, 4)), Entry(9, Pos(0, 5))];
    assert [Entry(7, Pos(1, 4)), Entry(7, Pos(3, 3)), Entry(7, Pos(2, 3)), Entry(9, Pos(4, 4)), Entry(9, Pos(0, 5))][0 := Entry(9, Pos(4, 5))] == [Entry(9, Pos(4, 5)), Entry(7, Pos(3, 3)), Entry(7, Pos(2, 3)), Entry(9, Pos(4, 4)), Entry(9, Pos(0, 5))];
    assert HeapPop([Entry(7, Pos(1, 4)), Entry(7, Pos(3, 3)), Entry(7, Pos(2, 3)), Entry(9, Pos(4, 4)), Entry(9, Pos(0, 5)), Entry(9, Pos(4, 5))]) == Popped(Entry(7, Pos(1, 4)), SiftUp([Entry(9, Pos(4, 5)), Entry(7, Pos(3, 3)), Entry(7, Pos(2, 3)), Entry(9, Pos(4, 4)), Entry(9, Pos(0, 5))], 0));
    assert SiftUp([Entry(9, Pos(4, 5)), Entry(7, Pos(3, 3)), Entry(7, Pos(2, 3)), Entry(9, Pos(4, 4)), Entry(9, Pos(0, 5))], 0) == SiftUp([Entry(7, Pos(2, 3)), Entry(7, Pos(3, 3)), Entry(9, Pos(4, 5)), Entry(9, Pos(4, 4)), Entry(9, Pos(0, 5))], 2);
    assert SiftUp([Entry(7, Pos(2, 3)), Entry(7, Pos(3, 3)), Entry(9, Pos(4, 5)), Entry(9, Pos(4, 4)), Entry(9, Pos(0, 5))], 2) == SiftDown([Entry(7, Pos(2, 3)), Entry(7, Pos(3, 3)), Entry(9, Pos(4, 5)), Entry(9, Pos(4, 4)), Entry(9, Pos(0, 5))], 2);
    assert SiftDown([Entry(7, Pos(2, 3)), Entry(7, Pos(3, 3)), Entry(9, Pos(4, 5)), Entry(9, Pos(4, 4)), Entry(9, Pos(0, 5))], 2) == [Entry(7, Pos(2, 3)), Entry(7, Pos(3, 3)), Entry(9, Pos(4, 5)), Entry(9, Pos(4, 4)), Entry(9, Pos(0, 5))];
  }

  /** Pop 5 takes Entry(7, Pos(1, 4)) off the heap. */
  lemma StalePop5()
    ensures Pop(StaleState5) == Step(Entry(7, Pos(1, 4)), StaleState5_0)
  {
    assert StaleState5.queue == [Entry(7, Pos(1, 4)), Entry(7, Pos(3, 3)), Entry(7, Pos(2, 3)), Entry(9, Pos(4, 4)), Entry(9, Pos(0, 5)), Entry(9, Pos(4, 5))];
    StaleHeapPop5();
    assert Remove(StaleState5.tSet, Pos(1, 4)) == Cons(Pos(2, 3), Cons(Pos(0, 5), Cons(Pos(3, 3), Cons(Pos(4, 4), Cons(Pos(4, 5), Nil)))));
  }

  /** The neighbours of Pos(1, 4). */
  lemma StaleNeighbors5()
    ensures Items(NeighborPositions(6, {Pos(0, 4), Pos(1, 1), Pos(2, 1), Pos(5, 2)}, Pos(1, 4)), 0) == Cons(Pos(2, 4), Cons(Pos(1, 5), Cons(Pos(1, 3), Nil)))
  {
  }

  lemma StaleRelax5_1()
    ensures RelaxOne(Pos(1, 0), Pos(1, 4), 3, StaleState5_0, Pos(2, 4)) == StaleState5_0
  {
    var c4 := StaleState5_0.cost.rest.rest.rest.rest;
    assert Get(c4, Pos(2, 4)) == Some(2);
    assert Get(StaleState5_0.cost, Pos(2, 4)) == Some(2);
  }

  lemma StaleRelax5_2()
    ensures RelaxOne(Pos(1, 0), Pos(1, 4), 3, StaleState5_0, Pos(1, 5)) == StaleState5_0
  {
    var c4 := StaleState5_0.cost.rest.rest.rest.rest;
    assert Get(c4, Pos(1, 5)) == Some(2);
    assert Get(StaleState5_0.cost, Pos(1, 5)) == Some(2);
  }

  lemma StaleHeapPush5_3()
    ensures HeapPush([Entry(7, Pos(2, 3)), Entry(7, Pos(3, 3)), Entry(9, Pos(4, 5)), Entry(9, Pos(4, 4)), Entry(9, Pos(0, 5))], Entry(7, Pos(1, 3))) == [Entry(7, Pos(2, 3)), Entry(7, Pos(3, 3)), Entry(7, Pos(1, 3)), Entry(9, Pos(4, 4)), Entry(9, Pos(0, 5)), Entry(9, Pos(4, 5))]
  {
    assert HeapPush([Entry(7, Pos(2, 3)), Entry(7, Pos(3, 3)), Entry(9, Pos(4, 5)), Entry(9, Pos(4, 4)), Entry(9, Pos(0, 5))], Entry(7, Pos(1, 3))) == SiftDown([Entry(7, Pos(2, 3)), Entry(7, Pos(3, 3)), Entry(9, Pos(4, 5)), Entry(9, Pos(4, 4)), Entry(9, Pos(0, 5)), Entry(7, Pos(1, 3))], 5);
    assert SiftDown([Entry(7, Pos(2, 3)), Entry(7, Pos(3, 3)), Entry(9, Pos(4, 5)), Entry(9, Pos(4, 4)), Entry(9, Pos(0, 5)), Entry(7, Pos(1, 3))], 5) == SiftDown([Entry(7, Pos(2, 3)), Entry(7, Pos(3, 3)), Entry(7, Pos(1, 3)), Entry(9, Pos(4, 4)), Entry(9, Pos(0, 5)), Entry(9, Pos(4, 5))], 2);
    assert SiftDown([Entry(7, Pos(2, 3)), Entry(7, Pos(3, 3)), Entry(7, Pos(1, 3)), Entry(9, Pos(4, 4)), Entry(9, Pos(0, 5)), Entry(9, Pos(4, 5))], 2) == [Entry(7, Pos(2, 3)), Entry(7, Pos(3, 3)), Entry(7, Pos(1, 3)), Entry(9, Pos(4, 4)), Entry(9, Pos(0, 5)), Entry(9, Pos(4, 5))];
  }

  lemma StaleRelax5_3()
    ensures RelaxOne(Pos(1, 0), Pos(1, 4), 3, StaleState5_0, Pos(1, 3)) == StaleState6
  {
    var c4 := StaleState5_0.cost.rest.rest.rest.rest;
    var c8 := c4.rest.rest.rest.rest;
    assert Get(c8, Pos(1, 3)) == None;
    assert Get(c4, Pos(1, 3)) == None;
    assert Get(StaleState5_0.cost, Pos(1, 3)) == None;
    var t4 := StaleState5_0.tSet.tail.tail.tail.tail;
    assert !Has(t4, Pos(1, 3));
    assert !Has(StaleState5_0.tSet, Pos(1, 3));
    assert StaleState5_0.queue == [Entry(7, Pos(2, 3)), Entry(7, Pos(3, 3)), Entry(9, Pos(4, 5)), Entry(9, Pos(4, 4)), Entry(9, Pos(0, 5))];
    StaleHeapPush5_3();
  }

  /** The neighbour loop of pop 5 leaves the state of pop 6. */
  lemma StaleRound5()
    ensures Round(StaleRows, StaleBarriers, StaleGoal, StaleState5_0, Pos(1, 4)) == StaleState6
  {
    assert Get(StaleState5_0.cost, Pos(1, 4)) == Some(3);
    StaleNeighbors5();
    StaleRelax5_1();
    StaleRelax5_2();
    StaleRelax5_3();
  }

  /** Pop 5 hands over to pop 6. */
  lemma StaleLoop5()
    ensures Loop(StaleRows, StaleBarriers, StaleGoal, StaleState5, 15) == Loop(StaleRows, StaleBarriers, StaleGoal, StaleState6, 14)
  {
    StalePop5();
    StaleRound5();
  }

  const StaleState6_0 :=
    Search(
      Bind(Pos(1, 3), 4, Bind(Pos(2, 3), 3, Bind(Pos(1, 4), 3, Bind(Pos(0, 5), 3, Bind(Pos(3, 3), 2, Bind(Pos(4, 4), 2, Bind(Pos(2, 4), 2, Bind(Pos(1, 5), 2, Bind(Pos(3, 4), 1, Bind(Pos(2, 5), 1, Bind(Pos(4, 5), 1, Bind(Pos(3, 5), 0, Empty)))))))))))),
      [Entry(7, Pos(1, 3)), Entry(7, Pos(3, 3)), Entry(9, Pos(4, 5)), Entry(9, Pos(4, 4)), Entry(9, Pos(0, 5))],
      Cons(Pos(1, 3), Cons(Pos(0, 5), Cons(Pos(3, 3), Cons(Pos(4, 4), Cons(Pos(4, 5), Nil))))),
      Bind(Pos(1, 3), Pos(1, 4), Bind(Pos(2, 3), Pos(2, 4), Bind(Pos(1, 4), Pos(1, 5), Bind(Pos(0, 5), Pos(1, 5), Bind(Pos(3, 3), Pos(3, 4), Bind(Pos(4, 4), Pos(3, 4), Bind(Pos(2, 4), Pos(2, 5), Bind(Pos(1, 5), Pos(2, 5), Bind(Pos(3, 4), Pos(3, 5), Bind(Pos(2, 5), Pos(3, 5), Bind(Pos(4, 5), Pos(3, 5), Empty))))))))))))

  /** The `heappop` of pop 6. */
  lemma StaleHeapPop6()
    ensures HeapPop([Entry(7, Pos(2, 3)), Entry(7, Pos(3, 3)), Entry(7, Pos(1, 3)), Entry(9, Pos(4, 4)), Entry(9, Pos(0, 5)), Entry(9, Pos(4, 5))]) == Popped(Entry(7, Pos(2, 3)), [Entry(7, Pos(1, 3)), Entry(7, Pos(3, 3)), Entry(9, Pos(4, 5)), Entry(9, Pos(4, 4)), Entry(9, Pos(0, 5))])
  {
    assert [Entry(7, Pos(2, 3)), Entry(7, Pos(3, 3)), Entry(7, Pos(1, 3)), Entry(9, Pos(4, 4)), Entry(9, Pos(0, 5)), Entry(9, Pos(4, 5))][..5] == [Entry(7, Pos(2, 3)), Entry(7, Pos(3, 3)), Entry(7, Pos(1, 3)), Entry(9, Pos(4, 4)), Entry(9, Pos(0, 5))];
    assert [Entry(7, Pos(2, 3)), Entry(7, Pos(3, 3)), Entry(7, Pos(1, 3)), Entry(9, Pos(4, 4)), Entry(9, Pos(0, 5))][0 := Entry(9, Pos(4, 5))] == [Entry(9, Pos(4, 5)), Entry(7, Pos(3, 3)), Entry(7, Pos(1, 3)), Entry(9, Pos(4, 4)), Entry(9, Pos(0, 5))];
    assert HeapPop([Entry(7, Pos(2, 3)), Entry(7, Pos(3, 3)), Entry(7, Pos(1, 3)), Entry(9, Pos(4, 4)), Entry(9, Pos(0, 5)), Entry(9, Pos(4, 5))]) == Popped(Entry(7, Pos(2, 3)), SiftUp([Entry(9, Pos(4, 5)), Entry(7, Pos(3, 3)), Entry(7, Pos(1, 3)), Entry(9, Pos(4, 4)), Entry(9, Pos(0, 5))], 0));
    assert SiftUp([Entry(9, Pos(4, 5)), Entry(7, Pos(3, 3)), Entry(7, Pos(1, 3)), Entry(9, Pos(4, 4)), Entry(9, Pos(0, 5))], 0) == SiftUp([Entry(7, Pos(1, 3)), Entry(7, Pos(3, 3)), Entry(9, Pos(4, 5)), Entry(9, Pos(4, 4)), Entry(9, Pos(0, 5))], 2);
    assert SiftUp([Entry(7, Pos(1, 3)), Entry(7, Pos(3, 3)), Entry(9, Pos(4, 5)), Entry(9, Pos(4, 4)), Entry(9, Pos(0, 5))], 2) == SiftDown([Entry(7, Pos(1, 3)), Entry(7, Pos(3, 3)), Entry(9, Pos(4, 5)), Entry(9, Pos(4, 4)), Entry(9, Pos(0, 5))], 2);
    assert SiftDown([Entry(7, Pos(1, 3)), Entry(7, Pos(3, 3)), Entry(9, Pos(4, 5)), Entry(9, Pos(4, 4)), Entry(9, Pos(0, 5))], 2) == [Entry(7, Pos(1, 3)), Entry(7, Pos(3, 3)), Entry(9, Pos(4, 5)), Entry(9, Pos(4, 4)), Entry(9, Pos(0, 5))];
  }

  /** Pop 6 takes Entry(7, Pos(2, 3)) off the heap. */
  lemma StalePop6()
    ensures Pop(StaleState6) == Step(Entry(7, Pos(2, 3)), StaleState6_0)
  {
    assert StaleState6.queue == [Entry(7, Pos(2, 3)), Entry(7, Pos(3, 3)), Entry(7, Pos(1, 3)), Entry(9, Pos(4, 4)), Entry(9, Pos(0, 5)), Entry(9, Pos(4, 5))];
    StaleHeapPop6();
    assert Remove(StaleState6.tSet, Pos(2, 3)) == Cons(Pos(1, 3), Cons(Pos(0, 5), Cons(Pos(3, 3), Cons(Pos(4, 4), Cons(Pos(4, 5), Nil)))));
  }

  /** The neighbours of Pos(2, 3). */
  lemma StaleNeighbors6()
    ensures Items(NeighborPositions(6, {Pos(0, 4), Pos(1, 1), Pos(2, 1), Pos(5, 2)}, Pos(2, 3)), 0) == Cons(Pos(3, 3), Cons(Pos(1, 3), Cons(Pos(2, 4), Cons(Pos(2, 2), Nil))))
  {
  }

  lemma StaleRelax6_1()
    ensures RelaxOne(Pos(1, 0), Pos(2, 3), 3, StaleState6_0, Pos(3, 3)) == StaleState6_0
  {
    var c4 := StaleState6_0.cost.rest.rest.rest.rest;
    assert Get(c4, Pos(3, 3)) == Some(2);
    assert Get(StaleState6_0.cost, Pos(3, 3)) == Some(2);
  }

  lemma StaleRelax6_2()
    ensures RelaxOne(Pos(1, 0), Pos(2, 3), 3, StaleState6_0, Pos(1, 3)) == StaleState6_0
  {
    assert Get(StaleState6_0.cost, Pos(1, 3)) == Some(4);
  }

  lemma StaleRelax6_3()
    ensures RelaxOne(Pos(1, 0), Pos(2, 3), 3, StaleState6_0, Pos(2, 4)) == StaleState6_0
  {
    var c4 := StaleState6_0.cost.rest.rest.rest.rest;
    assert Get(c4, Pos(2, 4)) == Some(2);
    assert Get(StaleState6_0.cost, Pos(2, 4)) == Some(2);
  }

  lemma StaleHeapPush6_4()
    ensures HeapPush([Entry(7, Pos(1, 3)), Entry(7, Pos(3, 3)), Entry(9, Pos(4, 5)), Entry(9, Pos(4, 4)), Entry(9, Pos(0, 5))], Entry(7, Pos(2, 2))) == [Entry(7, Pos(1, 3)), Entry(7, Pos(3, 3)), Entry(7, Pos(2, 2)), Entry(9, Pos(4, 4)), Entry(9, Pos(0, 5)), Entry(9, Pos(4, 5))]
  {
    assert HeapPush([Entry(7, Pos(1, 3)), Entry(7, Pos(3, 3)), Entry(9, Pos(4, 5)), Entry(9, Pos(4, 4)), Entry(9, Pos(0, 5))], Entry(7, Pos(2, 2))) == SiftDown([Entry(7, Pos(1, 3)), Entry(7, Pos(3, 3)), Entry(9, Pos(4, 5)), Entry(9, Pos(4, 4)), Entry(9, Pos(0, 5)), Entry(7, Pos(2, 2))], 5);
    assert SiftDown([Entry(7, Pos(1, 3)), Entry(7, Pos(3, 3)), Entry(9, Pos(4, 5)), Entry(9, Pos(4, 4)), Entry(9, Pos(0, 5)), Entry(7, Pos(2, 2))], 5) == SiftDown([Entry(7, Pos(1, 3)), Entry(7, Pos(3, 3)), Entry(7, Pos(2, 2)), Entry(9, Pos(4, 4)), Entry(9, Pos(0, 5)), Entry(9, Pos(4, 5))], 2);
    assert SiftDown([Entry(7, Pos(1, 3)), Entry(7, Pos(3, 3)), Entry(7, Pos(2, 2)), Entry(9, Pos(4, 4)), Entry(9, Pos(0, 5)), Entry(9, Pos(4, 5))], 2) == [Entry(7, Pos(1, 3)), Entry(7, Pos(3, 3)), Entry(7, Pos(2, 2)), Entry(9, Pos(4, 4)), Entry(9, Pos(0, 5)), Entry(9, Pos(4, 5))];
  }

  lemma StaleRelax6_4()
    ensures RelaxOne(Pos(1, 0), Pos(2, 3), 3, StaleState6_0, Pos(2, 2)) == StaleState7
  {
    var c4 := StaleState6_0.cost.rest.rest.rest.rest;
    var c8 := c4.rest.rest.rest.rest;
    var c12 := c8.rest.rest.rest.rest;
    assert Get(c12, Pos(2, 2)) == None;
    assert Get(c8, Pos(2, 2)) == None;
    assert Get(c4, Pos(2, 2)) == None;
    assert Get(StaleState6_0.cost, Pos(2, 2)) == None;
    var t4 := StaleState6_0.tSet.tail.tail.tail.tail;
    assert !Has(t4, Pos(2, 2));
    assert !Has(StaleState6_0.tSet, Pos(2, 2));
    assert StaleState6_0.queue == [Entry(7, Pos(1, 3)), Entry(7, Pos(3, 3)), Entry(9, Pos(4, 5)), Entry(9, Pos(4, 4)), Entry(9, Pos(0, 5))];
    StaleHeapPush6_4();
  }

  /** The neighbour loop of pop 6 leaves the state of pop 7. */
  lemma StaleRound6()
    ensures Round(StaleRows, StaleBarriers, StaleGoal, StaleState6_0, Pos(2, 3)) == StaleState7
  {
    assert Get(StaleState6_0.cost, Pos(2, 3)) == Some(3);
    StaleNeighbors6();
    StaleRelax6_1();
    StaleRelax6_2();
    StaleRelax6_3();
    StaleRelax6_4();
  }

  /** Pop 6 hands over to pop 7. */
  lemma StaleLoop6()
    ensures Loop(StaleRows, StaleBarriers, StaleGoal, StaleState6, 14) == Loop(StaleRows, StaleBarriers, StaleGoal, StaleState7, 13)
  {
    StalePop6();
    StaleRound6();
  }

  const StaleState7_0 :=
    Search(
      Bind(Pos(2, 2), 4, Bind(Pos(1, 3), 4, Bind(Pos(2, 3), 3, Bind(Pos(1, 4), 3, Bind(Pos(0, 5), 3, Bind(Pos(3, 3), 2, Bind(Pos(4, 4), 2, Bind(Pos(2, 4), 2, Bind(Pos(1, 5), 2, Bind(Pos(3, 4), 1, Bind(Pos(2, 5), 1, Bind(Pos(4, 5), 1, Bind(Pos(3, 5), 0, Empty))))))))))))),
      [Entry(7, Pos(2, 2)), Entry(7, Pos(3, 3)), Entry(9, Pos(4, 5)), Entry(9, Pos(4, 4)), Entry(9, Pos(0, 5))],
      Cons(Pos(2, 2), Cons(Pos(0, 5), Cons(Pos(3, 3), Cons(Pos(4, 4), Cons(Pos(4, 5), Nil))))),
      Bind(Pos(2, 2), Pos(2, 3), Bind(Pos(1, 3), Pos(1, 4), Bind(Pos(2, 3), Pos(2, 4), Bind(Pos(1, 4), Pos(1, 5), Bind(Pos(0, 5), Pos(1, 5), Bind(Pos(3, 3), Pos(3, 4), Bind(Pos(4, 4), Pos(3, 4), Bind(Pos(2, 4), Pos(2, 5), Bind(Pos(1, 5), Pos(2, 5), Bind(Pos(3, 4), Pos(3, 5), Bind(Pos(2, 5), Pos(3, 5), Bind(Pos(4, 5), Pos(3, 5), Empty)))))))))))))

  /** The `heappop` of pop 7. */
  lemma StaleHeapPop7()
    ensures HeapPop([Entry(7, Pos(1, 3)), Entry(7, Pos(3, 3)), Entry(7, Pos(2, 2)), Entry(9, Pos(4, 4)), Entry(9, Pos(0, 5)), Entry(9, Pos(4, 5))]) == Popped(Entry(7, Pos(1, 3)), [Entry(7, Pos(2, 2)), Entry(7, Pos(3, 3)), Entry(9, Pos(4, 5)), Entry(9, Pos(4, 4)), Entry(9, Pos(0, 5))])
  {
    assert [Entry(7, Pos(1, 3)), Entry(7, Pos(3, 3)), Entry(7, Pos(2, 2)), Entry(9, Pos(4, 4)), Entry(9, Pos(0, 5)), Entry(9, Pos(4, 5))][..5] == [Entry(7, Pos(1, 3)), Entry(7, Pos(3, 3)), Entry(7, Pos(2, 2)), Entry(9, Pos(4, 4)), Entry(9, Pos(0, 5))];
    assert [Entry(7, Pos(1, 3)), Entry(7, Pos(3, 3)), Entry(7, Pos(2, 2)), Entry(9, Pos(4, 4)), Entry(9, Pos(0, 5))][0 := Entry(9, Pos(4, 5))] == [Entry(9, Pos(4, 5)), Entry(7, Pos(3, 3)), Entry(7, Pos(2, 2)), Entry(9, Pos(4, 4)), Entry(9, Pos(0, 5))];
    assert HeapPop([Entry(7, Pos(1, 3)), Entry(7, Pos(3, 3)), Entry(7, Pos(2, 2)), Entry(9, Pos(4, 4)), Entry(9, Pos(0, 5)), Entry(9, Pos(4, 5))]) == Popped(Entry(7, Pos(1, 3)), SiftUp([Entry(9, Pos(4, 5)), Entry(7, Pos(3, 3)), Entry(7, Pos(2, 2)), Entry(9, Pos(4, 4)), Entry(9, Pos(0, 5))], 0));
    assert SiftUp([Entry(9, Pos(4, 5)), Entry(7, Pos(3, 3)), Entry(7, Pos(2, 2)), Entry(9, Pos(4, 4)), Entry(9, Pos(0, 5))], 0) == SiftUp([Entry(7, Pos(2, 2)), Entry(7, Pos(3, 3)), Entry(9, Pos(4, 5)), Entry(9, Pos(4, 4)), Entry(9, Pos(0, 5))], 2);
    assert SiftUp([Entry(7, Pos(2, 2)), Entry(7, Pos(3, 3)), Entry(9, Pos(4, 5)), Entry(9, Pos(4, 4)), Entry(9, Pos(0, 5))], 2) == SiftDown([Entry(7, Pos(2, 2)), Entry(7, Pos(3, 3)), Entry(9, Pos(4, 5)), Entry(9, Pos(4, 4)), Entry(9, Pos(0, 5))], 2);
    assert SiftDown([Entry(7, Pos(2, 2)), Entry(7, Pos(3, 3)), Entry(9, Pos(4, 5)), Entry(9, Pos(4, 4)), Entry(9, Pos(0, 5))], 2) == [Entry(7, Pos(2, 2)), Entry(7, Pos(3, 3)), Entry(9, Pos(4, 5)), Entry(9, Pos(4, 4)), Entry(9, Pos(0, 5))];
  }

  /** Pop 7 takes Entry(7, Pos(1, 3)) off the heap. */
  lemma StalePop7()
    ensures Pop(StaleState7) == Step(Entry(7, Pos(1, 3)), StaleState7_0)
  {
    assert StaleState7.queue == [Entry(7, Pos(1, 3)), Entry(7, Pos(3, 3)), Entry(7, Pos(2, 2)), Entry(9, Pos(4, 4)), Entry(9, Pos(0, 5)), Entry(9, Pos(4, 5))];
    StaleHeapPop7();
    assert Remove(StaleState7.tSet, Pos(1, 3)) == Cons(Pos(2, 2), Cons(Pos(0, 5), Cons(Pos(3, 3), Cons(Pos(4, 4), Cons(Pos(4, 5), Nil)))));
  }

  /** The neighbours of Pos(1, 3). */
  lemma StaleNeighbors7()
    ensures Items(NeighborPositions(6, {Pos(0, 4), Pos(1, 1), Pos(2, 1), Pos(5, 2)}, Pos(1, 3)), 0) == Cons(Pos(2, 3), Cons(Pos(0, 3), Cons(Pos(1, 4), Cons(Pos(1, 2), Nil))))
  {
  }

  lemma StaleRelax7_1()
    ensures RelaxOne(Pos(1, 0), Pos(1, 3), 4, StaleState7_0, Pos(2, 3)) == StaleState7_0
  {
    assert Get(StaleState7_0.cost, Pos(2, 3)) == Some(3);
  }

  const StaleState7_2 :=
    Search(
      Bind(Pos(0, 3), 5, Bind(Pos(2, 2), 4, Bind(Pos(1, 3), 4, Bind(Pos(2, 3), 3, Bind(Pos(1, 4), 3, Bind(Pos(0, 5), 3, Bind(Pos(3, 3), 2, Bind(Pos(4, 4), 2, Bind(Pos(2, 4), 2, Bind(Pos(1, 5), 2, Bind(Pos(3, 4), 1, Bind(Pos(2, 5), 1, Bind(Pos(4, 5), 1, Bind(Pos(3, 5), 0, Empty)))))))))))))),
      [Entry(7, Pos(2, 2)), Entry(7, Pos(3, 3)), Entry(9, Pos(4, 5)), Entry(9, Pos(4, 4)), Entry(9, Pos(0, 5)), Entry(9, Pos(0, 3))],
      Cons(Pos(0, 3), Cons(Pos(2, 2), Cons(Pos(0, 5), Cons(Pos(3, 3), Cons(Pos(4, 4), Cons(Pos(4, 5), Nil)))))),
      Bind(Pos(0, 3), Pos(1, 3), Bind(Pos(2, 2), Pos(2, 3), Bind(Pos(1, 3), Pos(1, 4), Bind(Pos(2, 3), Pos(2, 4), Bind(Pos(1, 4), Pos(1, 5), Bind(Pos(0, 5), Pos(1, 5), Bind(Pos(3, 3), Pos(3, 4), Bind(Pos(4, 4), Pos(3, 4), Bind(Pos(2, 4), Pos(2, 5), Bind(Pos(1, 5), Pos(2, 5), Bind(Pos(3, 4), Pos(3, 5), Bind(Pos(2, 5), Pos(3, 5), Bind(Pos(4, 5), Pos(3, 5), Empty))))))))))))))

  lemma StaleHeapPush7_2()
    ensures HeapPush([Entry(7, Pos(2, 2)), Entry(7, Pos(3, 3)), Entry(9, Pos(4, 5)), Entry(9, Pos(4, 4)), Entry(9, Pos(0, 5))], Entry(9, Pos(0, 3))) == [Entry(7, Pos(2, 2)), Entry(7, Pos(3, 3)), Entry(9, Pos(4, 5)), Entry(9, Pos(4, 4)), Entry(9, Pos(0, 5)), Entry(9, Pos(0, 3))]
  {
    assert HeapPush([Entry(7, Pos(2, 2)), Entry(7, Pos(3, 3)), Entry(9, Pos(4, 5)), Entry(9, Pos(4, 4)), Entry(9, Pos(0, 5))], Entry(9, Pos(0, 3))) == SiftDown([Entry(7, Pos(2, 2)), Entry(7, Pos(3, 3)), Entry(9, Pos(4, 5)), Entry(9, Pos(4, 4)), Entry(9, Pos(0, 5)), Entry(9, Pos(0, 3))], 5);
    assert SiftDown([Entry(7, Pos(2, 2)), Entry(7, Pos(3, 3)), Entry(9, Pos(4, 5)), Entry(9, Pos(4, 4)), Entry(9, Pos(0, 5)), Entry(9, Pos(0, 3))], 5) == [Entry(7, Pos(2, 2)), Entry(7, Pos(3, 3)), Entry(9, Pos(4, 5)), Entry(9, Pos(4, 4)), Entry(9, Pos(0, 5)), Entry(9, Pos(0, 3))];
  }

  lemma StaleRelax7_2()
    ensures RelaxOne(Pos(1, 0), Pos(1, 3), 4, StaleState7_0, Pos(0, 3)) == StaleState7_2
  {
    var c4 := StaleState7_0.cost.rest.rest.rest.rest;
    var c8 := c4.rest.rest.rest.rest;
    var c12 := c8.rest.rest.rest.rest;
    assert Get(c12, Pos(0, 3)) == None;
    assert Get(c8, Pos(0, 3)) == None;
    assert Get(c4, Pos(0, 3)) == None;
    assert Get(StaleState7_0.cost, Pos(0, 3)) == None;
    var t4 := StaleState7_0.tSet.tail.tail.tail.tail;
    assert !Has(t4, Pos(0, 3));
    assert !Has(StaleState7_0.tSet, Pos(0, 3));
    assert StaleState7_0.queue == [Entry(7, Pos(2, 2)), Entry(7, Pos(3, 3)), Entry(9, Pos(4, 5)), Entry(9, Pos(4, 4)), Entry(9, Pos(0, 5))];
    StaleHeapPush7_2();
  }

  lemma StaleRelax7_3()
    ensures RelaxOne(Pos(1, 0), Pos(1, 3), 4, StaleState7_2, Pos(1, 4)) == StaleState7_2
  {
    var c4 := StaleState7_2.cost.rest.rest.rest.rest;
    assert Get(c4, Pos(1, 4)) == Some(3);
    assert Get(StaleState7_2.cost, Pos(1, 4)) == Some(3);
  }

  lemma StaleHeapPush7_4()
    ensures HeapPush([Entry(7, Pos(2, 2)), Entry(7, Pos(3, 3)), Entry(9, Pos(4, 5)), Entry(9, Pos(4, 4)), Entry(9, Pos(0, 5)), Entry(9, Pos(0, 3))], Entry(7, Pos(1, 2))) == [Entry(7, Pos(2, 2)), Entry(7, Pos(3, 3)), Entry(7, Pos(1, 2)), Entry(9, Pos(4, 4)), Entry(9, Pos(0, 5)), Entry(9, Pos(0, 3)), Entry(9, Pos(4, 5))]
  {
    assert HeapPush([Entry(7, Pos(2, 2)), Entry(7, Pos(3, 3)), Entry(9, Pos(4, 5)), Entry(9, Pos(4, 4)), Entry(9, Pos(0, 5)), Entry(9, Pos(0, 3))], Entry(7, Pos(1, 2))) == SiftDown([Entry(7, Pos(2, 2)), Entry(7, Pos(3, 3)), Entry(9, Pos(4, 5)), Entry(9, Pos(4, 4)), Entry(9, Pos(0, 5)), Entry(9, Pos(0, 3)), Entry(7, Pos(1, 2))], 6);
    assert SiftDown([Entry(7, Pos(2, 2)), Entry(7, Pos(3, 3)), Entry(9, Pos(4, 5)), Entry(9, Pos(4, 4)), Entry(9, Pos(0, 5)), Entry(9, Pos(0, 3)), Entry(7, Pos(1, 2))], 6) == SiftDown([Entry(7, Pos(2, 2)), Entry(7, Pos(3, 3)), Entry(7, Pos(1, 2)), Entry(9, Pos(4, 4)), Entry(9, Pos(0, 5)), Entry(9, Pos(0, 3)), Entry(9, Pos(4, 5))], 2);
    assert SiftDown([Entry(7, Pos(2, 2)), Entry(7, Pos(3, 3)), Entry(7, Pos(1, 2)), Entry(9, Pos(4, 4)), Entry(9, Pos(0, 5)), Entry(9, Pos(0, 3)), Entry(9, Pos(4, 5))], 2) == [Entry(7, Pos(2, 2)), Entry(7, Pos(3, 3)), Entry(7, Pos(1, 2)), Entry(9, Pos(4, 4)), Entry(9, Pos(0, 5)), Entry(9, Pos(0, 3)), Entry(9, Pos(4, 5))];
  }

  lemma StaleRelax7_4()
    ensures RelaxOne(Pos(1, 0), Pos(1, 3), 4, StaleState7_2, Pos(1, 2)) == StaleState8
  {
    var c4 := StaleState7_2.cost.rest.rest.rest.rest;
    var c8 := c4.rest.rest.rest.rest;
    var c12 := c8.rest.rest.rest.rest;
    assert Get(c12, Pos(1, 2)) == None;
    assert Get(c8, Pos(1, 2)) == None;
    assert Get(c4, Pos(1, 2)) == None;
    assert Get(StaleState7_2.cost, Pos(1, 2)) == None;
    var t4 := StaleState7_2.tSet.tail.tail.tail.tail;
    assert !Has(t4, Pos(1, 2));
    assert !Has(StaleState7_2.tSet, Pos(1, 2));
    assert StaleState7_2.queue == [Entry(7, Pos(2, 2)), Entry(7, Pos(3, 3)), Entry(9, Pos(4, 5)), Entry(9, Pos(4, 4)), Entry(9, Pos(0, 5)), Entry(9, Pos(0, 3))];
    StaleHeapPush7_4();
  }

  /** The neighbour loop of pop 7 leaves the state of pop 8. */
  lemma StaleRound7()
    ensures Round(StaleRows, StaleBarriers, StaleGoal, StaleState7_0, Pos(1, 3)) == StaleState8
  {
    assert Get(StaleState7_0.cost, Pos(1, 3)) == Some(4);
    StaleNeighbors7();
    StaleRelax7_1();
    StaleRelax7_2();
    StaleRelax7_3();
    StaleRelax7_4();
  }

  /** Pop 7 hands over to pop 8. */
  lemma StaleLoop7()
    ensures Loop(StaleRows, StaleBarriers, StaleGoal, StaleState7, 13) == Loop(StaleRows, StaleBarriers, StaleGoal, StaleState8, 12)
  {
    StalePop7();
    StaleRound7();
  }

  const StaleState8_0 :=
    Search(
      Bind(Pos(1, 2), 5, Bind(Pos(0, 3), 5, Bind(Pos(2, 2), 4, Bind(Pos(1, 3), 4, Bind(Pos(2, 3), 3, Bind(Pos(1, 4), 3, Bind(Pos(0, 5), 3, Bind(Pos(3, 3), 2, Bind(Pos(4, 4), 2, Bind(Pos(2, 4), 2, Bind(Pos(1, 5), 2, Bind(Pos(3, 4), 1, Bind(Pos(2, 5), 1, Bind(Pos(4, 5), 1, Bind(Pos(3, 5), 0, Empty))))))))))))))),
      [Entry(7, Pos(1, 2)), Entry(7, Pos(3, 3)), Entry(9, Pos(0, 3)), Entry(9, Pos(4, 4)), Entry(9, Pos(0, 5)), Entry(9, Pos(4, 5))],
      Cons(Pos(1, 2), Cons(Pos(0, 3), Cons(Pos(0, 5), Cons(Pos(3, 3), Cons(Pos(4, 4), Cons(Pos(4, 5), Nil)))))),
      Bind(Pos(1, 2), Pos(1, 3), Bind(Pos(0, 3), Pos(1, 3), Bind(Pos(2, 2), Pos(2, 3), Bind(Pos(1, 3), Pos(1, 4), Bind(Pos(2, 3), Pos(2, 4), Bind(Pos(1, 4), Pos(1, 5), Bind(Pos(0, 5), Pos(1, 5), Bind(Pos(3, 3), Pos(3, 4), Bind(Pos(4, 4), Pos(3, 4), Bind(Pos(2, 4), Pos(2, 5), Bind(Pos(1, 5), Pos(2, 5), Bind(Pos(3, 4), Pos(3, 5), Bind(Pos(2, 5), Pos(3, 5), Bind(Pos(4, 5), Pos(3, 5), Empty)))))))))))))))

  lemma StaleSift8_3()
    ensures SiftUp([Entry(9, Pos(4, 5)), Entry(7, Pos(3, 3)), Entry(7, Pos(1, 2)), Entry(9, Pos(4, 4)), Entry(9, Pos(0, 5)), Entry(9, Pos(0, 3))], 0) == SiftUp([Entry(7, Pos(1, 2)), Entry(7, Pos(3, 3)), Entry(9, Pos(4, 5)), Entry(9, Pos(4, 4)), Entry(9, Pos(0, 5)), Entry(9, Pos(0, 3))], 2)
  {
  }

  lemma StaleSift8_4()
    ensures SiftUp([Entry(7, Pos(1, 2)), Entry(7, Pos(3, 3)), Entry(9, Pos(4, 5)), Entry(9, Pos(4, 4)), Entry(9, Pos(0, 5)), Entry(9, Pos(0, 3))], 2) == SiftUp([Entry(7, Pos(1, 2)), Entry(7, Pos(3, 3)), Entry(9, Pos(0, 3)), Entry(9, Pos(4, 4)), Entry(9, Pos(0, 5)), Entry(9, Pos(4, 5))], 5)
  {
  }

  lemma StaleSift8_5()
    ensures SiftUp([Entry(7, Pos(1, 2)), Entry(7, Pos(3, 3)), Entry(9, Pos(0, 3)), Entry(9, Pos(4, 4)), Entry(9, Pos(0, 5)), Entry(9, Pos(4, 5))], 5) == SiftDown([Entry(7, Pos(1, 2)), Entry(7, Pos(3, 3)), Entry(9, Pos(0, 3)), Entry(9, Pos(4, 4)), Entry(9, Pos(0, 5)), Entry(9, Pos(4, 5))], 5)
  {
  }

  lemma StaleSift8_6()
    ensures SiftDown([Entry(7, Pos(1, 2)), Entry(7, Pos(3, 3)), Entry(9, Pos(0, 3)), Entry(9, Pos(4, 4)), Entry(9, Pos(0, 5)), Entry(9, Pos(4, 5))], 5) == [Entry(7, Pos(1, 2)), Entry(7, Pos(3, 3)), Entry(9, Pos(0, 3)), Entry(9, Pos(4, 4)), Entry(9, Pos(0, 5)), Entry(9, Pos(4, 5))]
  {
  }

  /** The `heappop` of pop 8. */
  lemma StaleHeapPop8()
    ensures HeapPop([Entry(7, Pos(2, 2)), Entry(7, Pos(3, 3)), Entry(7, Pos(1, 2)), Entry(9, Pos(4, 4)), Entry(9, Pos(0, 5)), Entry(9, Pos(0, 3)), Entry(9, Pos(4, 5))]) == Popped(Entry(7, Pos(2, 2)), [Entry(7, Pos(1, 2)), Entry(7, Pos(3, 3)), Entry(9, Pos(0, 3)), Entry(9, Pos(4, 4)), Entry(9, Pos(0, 5)), Entry(9, Pos(4, 5))])
  {
    assert [Entry(7, Pos(2, 2)), Entry(7, Pos(3, 3)), Entry(7, Pos(1, 2)), Entry(9, Pos(4, 4)), Entry(9, Pos(0, 5)), Entry(9, Pos(0, 3)), Entry(9, Pos(4, 5))][..6] == [Entry(7, Pos(2, 2)), Entry(7, Pos(3, 3)), Entry(7, Pos(1, 2)), Entry(9, Pos(4, 4)), Entry(9, Pos(0, 5)), Entry(9, Pos(0, 3))];
    assert [Entry(7, Pos(2, 2)), Entry(7, Pos(3, 3)), Entry(7, Pos(1, 2)), Entry(9, Pos(4, 4)), Entry(9, Pos(0, 5)), Entry(9, Pos(0, 3))][0 := Entry(9, Pos(4, 5))] == [Entry(9, Pos(4, 5)), Entry(7, Pos(3, 3)), Entry(7, Pos(1, 2)), Entry(9, Pos(4, 4)), Entry(9, Pos(0, 5)), Entry(9, Pos(0, 3))];
    assert HeapPop([Entry(7, Pos(2, 2)), Entry(7, Pos(3, 3)), Entry(7, Pos(1, 2)), Entry(9, Pos(4, 4)), Entry(9, Pos(0, 5)), Entry(9, Pos(0, 3)), Entry(9, Pos(4, 5))]) == Popped(Entry(7, Pos(2, 2)), SiftUp([Entry(9, Pos(4, 5)), Entry(7, Pos(3, 3)), Entry(7, Pos(1, 2)), Entry(9, Pos(4, 4)), Entry(9, Pos(0, 5)), Entry(9, Pos(0, 3))], 0));
    StaleSift8_3();
    StaleSift8_4();
    StaleSift8_5();
    StaleSift8_6();
  }

  /** Pop 8 takes Entry(7, Pos(2, 2)) off the heap. */
  lemma StalePop8()
    ensures Pop(StaleState8) == Step(Entry(7, Pos(2, 2)), StaleState8_0)
  {
    assert StaleState8.queue == [Entry(7, Pos(2, 2)), Entry(7, Pos(3, 3)), Entry(7, Pos(1, 2)), Entry(9, Pos(4, 4)), Entry(9, Pos(0, 5)), Entry(9, Pos(0, 3)), Entry(9, Pos(4, 5))];
    StaleHeapPop8();
    assert Remove(StaleState8.tSet, Pos(2, 2)) == Cons(Pos(1, 2), Cons(Pos(0, 3), Cons(Pos(0, 5), Cons(Pos(3, 3), Cons(Pos(4, 4), Cons(Pos(4, 5), Nil))))));
  }

  /** The neighbours of Pos(2, 2). */
  lemma StaleNeighbors8()
    ensures Items(NeighborPositions(6, {Pos(0, 4), Pos(1, 1), Pos(2, 1), Pos(5, 2)}, Pos(2, 2)), 0) == Cons(Pos(3, 2), Cons(Pos(1, 2), Cons(Pos(2, 3), Nil)))
  {
  }

  const StaleState8_1 :=
    Search(
      Bind(Pos(3, 2), 5, Bind(Pos(1, 2), 5, Bind(Pos(0, 3), 5, Bind(Pos(2, 2), 4, Bind(Pos(1, 3), 4, Bind(Pos(2, 3), 3, Bind(Pos(1, 4), 3, Bind(Pos(0, 5), 3, Bind(Pos(3, 3), 2, Bind(Pos(4, 4), 2, Bind(Pos(2, 4), 2, Bind(Pos(1, 5), 2, Bind(Pos(3, 4), 1, Bind(Pos(2, 5), 1, Bind(Pos(4, 5), 1, Bind(Pos(3, 5), 0, Empty)))))))))))))))),
      [Entry(7, Pos(1, 2)), Entry(7, Pos(3, 3)), Entry(9, Pos(0, 3)), Entry(9, Pos(4, 4)), Entry(9, Pos(0, 5)), Entry(9, Pos(4, 5)), Entry(9, Pos(3, 2))],
      Cons(Pos(3, 2), Cons(Pos(1, 2), Cons(Pos(0, 3), Cons(Pos(0, 5), Cons(Pos(3, 3), Cons(Pos(4, 4), Cons(Pos(4, 5), Nil))))))),
      Bind(Pos(3, 2), Pos(2, 2), Bind(Pos(1, 2), Pos(1, 3), Bind(Pos(0, 3), Pos(1, 3), Bind(Pos(2, 2), Pos(2, 3), Bind(Pos(1, 3), Pos(1, 4), Bind(Pos(2, 3), Pos(2, 4), Bind(Pos(1, 4), Pos(1, 5), Bind(Pos(0, 5), Pos(1, 5), Bind(Pos(3, 3), Pos(3, 4), Bind(Pos(4, 4), Pos(3, 4), Bind(Pos(2, 4), Pos(2, 5), Bind(Pos(1, 5), Pos(2, 5), Bind(Pos(3, 4), Pos(3, 5), Bind(Pos(2, 5), Pos(3, 5), Bind(Pos(4, 5), Pos(3, 5), Empty))))))))))))))))

  lemma StaleHeapPush8_1()
    ensures HeapPush([Entry(7, Pos(1, 2)), Entry(7, Pos(3, 3)), Entry(9, Pos(0, 3)), Entry(9, Pos(4, 4)), Entry(9, Pos(0, 5)), Entry(9, Pos(4, 5))], Entry(9, Pos(3, 2))) == [Entry(7, Pos(1, 2)), Entry(7, Pos(3, 3)), Entry(9, Pos(0, 3)), Entry(9, Pos(4, 4)), Entry(9, Pos(0, 5)), Entry(9, Pos(4, 5)), Entry(9, Pos(3, 2))]
  {
    assert HeapPush([Entry(7, Pos(1, 2)), Entry(7, Pos(3, 3)), Entry(9, Pos(0, 3)), Entry(9, Pos(4, 4)), Entry(9, Pos(0, 5)), Entry(9, Pos(4, 5))], Entry(9, Pos(3, 2))) == SiftDown([Entry(7, Pos(1, 2)), Entry(7, Pos(3, 3)), Entry(9, Pos(0, 3)), Entry(9, Pos(4, 4)), Entry(9, Pos(0, 5)), Entry(9, Pos(4, 5)), Entry(9, Pos(3, 2))], 6);
    assert SiftDown([Entry(7, Pos(1, 2)), Entry(7, Pos(3, 3)), Entry(9, Pos(0, 3)), Entry(9, Pos(4, 4)), Entry(9, Pos(0, 5)), Entry(9, Pos(4, 5)), Entry(9, Pos(3, 2))], 6) == [Entry(7, Pos(1, 2)), Entry(7, Pos(3, 3)), Entry(9, Pos(0, 3)), Entry(9, Pos(4, 4)), Entry(9, Pos(0, 5)), Entry(9, Pos(4, 5)), Entry(9, Pos(3, 2))];
  }

  lemma StaleRelax8_1()
    ensures RelaxOne(Pos(1, 0), Pos(2, 2), 4, StaleState8_0, Pos(3, 2)) == StaleState8_1
  {
    var c4 := StaleState8_0.cost.rest.rest.rest.rest;
    var c8 := c4.rest.rest.rest.rest;
    var c12 := c8.rest.rest.rest.rest;
    assert Get(c12, Pos(3, 2)) == None;
    assert Get(c8, Pos(3, 2)) == None;
    assert Get(c4, Pos(3, 2)) == None;
    assert Get(StaleState8_0.cost, Pos(3, 2)) == None;
    var t4 := StaleState8_0.tSet.tail.tail.tail.tail;
    assert !Has(t4, Pos(3, 2));
    assert !Has(StaleState8_0.tSet, Pos(3, 2));
    assert StaleState8_0.queue == [Entry(7, Pos(1, 2)), Entry(7, Pos(3, 3)), Entry(9, Pos(0, 3)), Entry(9, Pos(4, 4)), Entry(9, Pos(0, 5)), Entry(9, Pos(4, 5))];
    StaleHeapPush8_1();
  }

  lemma StaleRelax8_2()
    ensures RelaxOne(Pos(1, 0), Pos(2, 2), 4, StaleState8_1, Pos(1, 2)) == StaleState8_1
  {
    assert Get(StaleState8_1.cost, Pos(1, 2)) == Some(5);
  }

  lemma StaleRelax8_3()
    ensures RelaxOne(Pos(1, 0), Pos(2, 2), 4, StaleState8_1, Pos(2, 3)) == StaleState9
  {
    var c4 := StaleState8_1.cost.rest.rest.rest.rest;
    assert Get(c4, Pos(2, 3)) == Some(3);
    assert Get(StaleState8_1.cost, Pos(2, 3)) == Some(3);
  }

  /** The neighbour loop of pop 8 leaves the state of pop 9. */
  lemma StaleRound8()
    ensures Round(StaleRows, StaleBarriers, StaleGoal, StaleState8_0, Pos(2, 2)) == StaleState9
  {
    assert Get(StaleState8_0.cost, Pos(2, 2)) == Some(4);
    StaleNeighbors8();
    StaleRelax8_1();
    StaleRelax8_2();
    StaleRelax8_3();
  }

  /** Pop 8 hands over to pop 9. */
  lemma StaleLoop8()
    ensures Loop(StaleRows, StaleBarriers, StaleGoal, StaleState8, 12) == Loop(StaleRows, StaleBarriers, StaleGoal, StaleState9, 11)
  {
    StalePop8();
    StaleRound8();
  }

  const StaleState9_0 :=
    Search(
      Bind(Pos(3, 2), 5, Bind(Pos(1, 2), 5, Bind(Pos(0, 3), 5, Bind(Pos(2, 2), 4, Bind(Pos(1, 3), 4, Bind(Pos(2, 3), 3, Bind(Pos(1, 4), 3, Bind(Pos(0, 5), 3, Bind(Pos(3, 3), 2, Bind(Pos(4, 4), 2, Bind(Pos(2, 4), 2, Bind(Pos(1, 5), 2, Bind(Pos(3, 4), 1, Bind(Pos(2, 5), 1, Bind(Pos(4, 5), 1, Bind(Pos(3, 5), 0, Empty)))))))))))))))),
      [Entry(7, Pos(3, 3)), Entry(9, Pos(0, 5)), Entry(9, Pos(0, 3)), Entry(9, Pos(4, 4)), Entry(9, Pos(3, 2)), Entry(9, Pos(4, 5))],
      Cons(Pos(3, 2), Cons(Pos(0, 3), Cons(Pos(0, 5), Cons(Pos(3, 3), Cons(Pos(4, 4), Cons(Pos(4, 5), Nil)))))),
      Bind(Pos(3, 2), Pos(2, 2), Bind(Pos(1, 2), Pos(1, 3), Bind(Pos(0, 3), Pos(1, 3), Bind(Pos(2, 2), Pos(2, 3), Bind(Pos(1, 3), Pos(1, 4), Bind(Pos(2, 3), Pos(2, 4), Bind(Pos(1, 4), Pos(1, 5), Bind(Pos(0, 5), Pos(1, 5), Bind(Pos(3, 3), Pos(3, 4), Bind(Pos(4, 4), Pos(3, 4), Bind(Pos(2, 4), Pos(2, 5), Bind(Pos(1, 5), Pos(2, 5), Bind(Pos(3, 4), Pos(3, 5), Bind(Pos(2, 5), Pos(3, 5), Bind(Pos(4, 5), Pos(3, 5), Empty))))))))))))))))

  lemma StaleSift9_3()
    ensures SiftUp([Entry(9, Pos(3, 2)), Entry(7, Pos(3, 3)), Entry(9, Pos(0, 3)), Entry(9, Pos(4, 4)), Entry(9, Pos(0, 5)), Entry(9, Pos(4, 5))], 0) == SiftUp([Entry(7, Pos(3, 3)), Entry(9, Pos(3, 2)), Entry(9, Pos(0, 3)), Entry(9, Pos(4, 4)), Entry(9, Pos(0, 5)), Entry(9, Pos(4, 5))], 1)
  {
  }

  lemma StaleSift9_4()
    ensures SiftUp([Entry(7, Pos(3, 3)), Entry(9, Pos(3, 2)), Entry(9, Pos(0, 3)), Entry(9, Pos(4, 4)), Entry(9, Pos(0, 5)), Entry(9, Pos(4, 5))], 1) == SiftUp([Entry(7, Pos(3, 3)), Entry(9, Pos(0, 5)), Entry(9, Pos(0, 3)), Entry(9, Pos(4, 4)), Entry(9, Pos(3, 2)), Entry(9, Pos(4, 5))], 4)
  {
  }

  lemma StaleSift9_5()
    ensures SiftUp([Entry(7, Pos(3, 3)), Entry(9, Pos(0, 5)), Entry(9, Pos(0, 3)), Entry(9, Pos(4, 4)), Entry(9, Pos(3, 2)), Entry(9, Pos(4, 5))], 4) == SiftDown([Entry(7, Pos(3, 3)), Entry(9, Pos(0, 5)), Entry(9, Pos(0, 3)), Entry(9, Pos(4, 4)), Entry(9, Pos(3, 2)), Entry(9, Pos(4, 5))], 4)
  {
  }

  lemma StaleSift9_6()
    ensures SiftDown([Entry(7, Pos(3, 3)), Entry(9, Pos(0, 5)), Entry(9, Pos(0, 3)), Entry(9, Pos(4, 4)), Entry(9, Pos(3, 2)), Entry(9, Pos(4, 5))], 4) == [Entry(7, Pos(3, 3)), Entry(9, Pos(0, 5)), Entry(9, Pos(0, 3)), Entry(9, Pos(4, 4)), Entry(9, Pos(3, 2)), Entry(9, Pos(4, 5))]
  {
  }

  /** The `heappop` of pop 9. */
  lemma StaleHeapPop9()
    ensures HeapPop([Entry(7, Pos(1, 2)), Entry(7, Pos(3, 3)), Entry(9, Pos(0, 3)), Entry(9, Pos(4, 4)), Entry(9, Pos(0, 5)), Entry(9, Pos(4, 5)), Entry(9, Pos(3, 2))]) == Popped(Entry(7, Pos(1, 2)), [Entry(7, Pos(3, 3)), Entry(9, Pos(0, 5)), Entry(9, Pos(0, 3)), Entry(9, Pos(4, 4)), Entry(9, Pos(3, 2)), Entry(9, Pos(4, 5))])
  {
    assert [Entry(7, Pos(1, 2)), Entry(7, Pos(3, 3)), Entry(9, Pos(0, 3)), Entry(9, Pos(4, 4)), Entry(9, Pos(0, 5)), Entry(9, Pos(4, 5)), Entry(9, Pos(3, 2))][..6] == [Entry(7, Pos(1, 2)), Entry(7, Pos(3, 3)), Entry(9, Pos(0, 3)), Entry(9, Pos(4, 4)), Entry(9, Pos(0, 5)), Entry(9, Pos(4, 5))];
    assert [Entry(7, Pos(1, 2)), Entry(7, Pos(3, 3)), Entry(9, Pos(0, 3)), Entry(9, Pos(4, 4)), Entry(9, Pos(0, 5)), Entry(9, Pos(4, 5))][0 := Entry(9, Pos(3, 2))] == [Entry(9, Pos(3, 2)), Entry(7, Pos(3, 3)), Entry(9, Pos(0, 3)), Entry(9, Pos(4, 4)), Entry(9, Pos(0, 5)), Entry(9, Pos(4, 5))];
    assert HeapPop([Entry(7, Pos(1, 2)), Entry(7, Pos(3, 3)), Entry(9, Pos(0, 3)), Entry(9, Pos(4, 4)), Entry(9, Pos(0, 5)), Entry(9, Pos(4, 5)), Entry(9, Pos(3, 2))]) == Popped(Entry(7, Pos(1, 2)), SiftUp([Entry(9, Pos(3, 2)), Entry(7, Pos(3, 3)), Entry(9, Pos(0, 3)), Entry(9, Pos(4, 4)), Entry(9, Pos(0, 5)), Entry(9, Pos(4, 5))], 0));
    StaleSift9_3();
    StaleSift9_4();
    StaleSift9_5();
    StaleSift9_6();
  }

  /** Pop 9 takes Entry(7, Pos(1, 2)) off the heap. */
  lemma StalePop9()
    ensures Pop(StaleState9) == Step(Entry(7, Pos(1, 2)), StaleState9_0)
  {
    assert StaleState9.queue == [Entry(7, Pos(1, 2)), Entry(7, Pos(3, 3)), Entry(9, Pos(0, 3)), Entry(9, Pos(4, 4)), Entry(9, Pos(0, 5)), Entry(9, Pos(4, 5)), Entry(9, Pos(3, 2))];
    StaleHeapPop9();
    assert Remove(StaleState9.tSet, Pos(1, 2)) == Cons(Pos(3, 2), Cons(Pos(0, 3), Cons(Pos(0, 5), Cons(Pos(3, 3), Cons(Pos(4, 4), Cons(Pos(4, 5), Nil))))));
  }

  /** The neighbours of Pos(1, 2). */
  lemma StaleNeighbors9()
    ensures Items(NeighborPositions(6, {Pos(0, 4), Pos(1, 1), Pos(2, 1), Pos(5, 2)}, Pos(1, 2)), 0) == Cons(Pos(2, 2), Cons(Pos(0, 2), Cons(Pos(1, 3), Nil)))
  {
  }

  lemma StaleRelax9_1()
    ensures RelaxOne(Pos(1, 0), Pos(1, 2), 5, StaleState9_0, Pos(2, 2)) == StaleState9_0
  {
    assert Get(StaleState9_0.cost, Pos(2, 2)) == Some(4);
  }

  const StaleState9_2 :=
    Search(
      Bind(Pos(0, 2), 6, Bind(Pos(3, 2), 5, Bind(Pos(1, 2), 5, Bind(Pos(0, 3), 5, Bind(Pos(2, 2), 4, Bind(Pos(1, 3), 4, Bind(Pos(2, 3), 3, Bind(Pos(1, 4), 3, Bind(Pos(0, 5), 3, Bind(Pos(3, 3), 2, Bind(Pos(4, 4), 2, Bind(Pos(2, 4), 2, Bind(Pos(1, 5), 2, Bind(Pos(3, 4), 1, Bind(Pos(2, 5), 1, Bind(Pos(4, 5), 1, Bind(Pos(3, 5), 0, Empty))))))))))))))))),
      [Entry(7, Pos(3, 3)), Entry(9, Pos(0, 5)), Entry(9, Pos(0, 3)), Entry(9, Pos(4, 4)), Entry(9, Pos(3, 2)), Entry(9, Pos(4, 5)), Entry(9, Pos(0, 2))],
      Cons(Pos(0, 2), Cons(Pos(3, 2), Cons(Pos(0, 3), Cons(Pos(0, 5), Cons(Pos(3, 3), Cons(Pos(4, 4), Cons(Pos(4, 5), Nil))))))),
      Bind(Pos(0, 2), Pos(1, 2), Bind(Pos(3, 2), Pos(2, 2), Bind(Pos(1, 2), Pos(1, 3), Bind(Pos(0, 3), Pos(1, 3), Bind(Pos(2, 2), Pos(2, 3), Bind(Pos(1, 3), Pos(1, 4), Bind(Pos(2, 3), Pos(2, 4), Bind(Pos(1, 4), Pos(1, 5), Bind(Pos(0, 5), Pos(1, 5), Bind(Pos(3, 3), Pos(3, 4), Bind(Pos(4, 4), Pos(3, 4), Bind(Pos(2, 4), Pos(2, 5), Bind(Pos(1, 5), Pos(2, 5), Bind(Pos(3, 4), Pos(3, 5), Bind(Pos(2, 5), Pos(3, 5), Bind(Pos(4, 5), Pos(3, 5), Empty)))))))))))))))))

  lemma StaleHeapPush9_2()
    ensures HeapPush([Entry(7, Pos(3, 3)), Entry(9, Pos(0, 5)), Entry(9, Pos(0, 3)), Entry(9, Pos(4, 4)), Entry(9, Pos(3, 2)), Entry(9, Pos(4, 5))], Entry(9, Pos(0, 2))) == [Entry(7, Pos(3, 3)), Entry(9, Pos(0, 5)), Entry(9, Pos(0, 3)), Entry(9, Pos(4, 4)), Entry(9, Pos(3, 2)), Entry(9, Pos(4, 5)), Entry(9, Pos(0, 2))]
  {
    assert HeapPush([Entry(7, Pos(3, 3)), Entry(9, Pos(0, 5)), Entry(9, Pos(0, 3)), Entry(9, Pos(4, 4)), Entry(9, Pos(3, 2)), Entry(9, Pos(4, 5))], Entry(9, Pos(0, 2))) == SiftDown([Entry(7, Pos(3, 3)), Entry(9, Pos(0, 5)), Entry(9, Pos(0, 3)), Entry(9, Pos(4, 4)), Entry(9, Pos(3, 2)), Entry(9, Pos(4, 5)), Entry(9, Pos(0, 2))], 6);
    assert SiftDown([Entry(7, Pos(3, 3)), Entry(9, Pos(0, 5)), Entry(9, Pos(0, 3)), Entry(9, Pos(4, 4)), Entry(9, Pos(3, 2)), Entry(9, Pos(4, 5)), Entry(9, Pos(0, 2))], 6) == [Entry(7, Pos(3, 3)), Entry(9, Pos(0, 5)), Entry(9, Pos(0, 3)), Entry(9, Pos(4, 4)), Entry(9, Pos(3, 2)), Entry(9, Pos(4, 5)), Entry(9, Pos(0, 2))];
  }

  lemma StaleRelax9_2()
    ensures RelaxOne(Pos(1, 0), Pos(1, 2), 5, StaleState9_0, Pos(0, 2)) == StaleState9_2
  {
    var c4 := StaleState9_0.cost.rest.rest.rest.rest;
    var c8 := c4.rest.rest.rest.rest;
    var c12 := c8.rest.rest.rest.rest;
    var c16 := c12.rest.rest.rest.rest;
    assert Get(c16, Pos(0, 2)) == None;
    assert Get(c12, Pos(0, 2)) == None;
    assert Get(c8, Pos(0, 2)) == None;
    assert Get(c4, Pos(0, 2)) == None;
    assert Get(StaleState9_0.cost, Pos(0, 2)) == None;
    var t4 := StaleState9_0.tSet.tail.tail.tail.tail;
    assert !Has(t4, Pos(0, 2));
    assert !Has(StaleState9_0.tSet, Pos(0, 2));
    assert StaleState9_0.queue == [Entry(7, Pos(3, 3)), Entry(9, Pos(0, 5)), Entry(9, Pos(0, 3)), Entry(9, Pos(4, 4)), Entry(9, Pos(3, 2)), Entry(9, Pos(4, 5))];
    StaleHeapPush9_2();
  }

  lemma StaleRelax9_3()
    ensures RelaxOne(Pos(1, 0), Pos(1, 2), 5, StaleState9_2, Pos(1, 3)) == StaleState10
  {
    var c4 := StaleState9_2.cost.rest.rest.rest.rest;
    assert Get(c4, Pos(1, 3)) == Some(4);
    assert Get(StaleState9_2.cost, Pos(1, 3)) == Some(4);
  }

  /** The neighbour loop of pop 9 leaves the state of pop 10. */
  lemma StaleRound9()
    ensures Round(StaleRows, StaleBarriers, StaleGoal, StaleState9_0, Pos(1, 2)) == StaleState10
  {
    assert Get(StaleState9_0.cost, Pos(1, 2)) == Some(5);
    StaleNeighbors9();
    StaleRelax9_1();
    StaleRelax9_2();
    StaleRelax9_3();
  }

  /** Pop 9 hands over to pop 10. */
  lemma StaleLoop9()
    ensures Loop(StaleRows, StaleBarriers, StaleGoal, StaleState9, 11) == Loop(StaleRows, StaleBarriers, StaleGoal, StaleState10, 10)
  {
    StalePop9();
    StaleRound9();
  }

  const StaleState10_0 :=
    Search(
      Bind(Pos(0, 2), 6, Bind(Pos(3, 2), 5, Bind(Pos(1, 2), 5, Bind(Pos(0, 3), 5, Bind(Pos(2, 2), 4, Bind(Pos(1, 3), 4, Bind(Pos(2, 3), 3, Bind(Pos(1, 4), 3, Bind(Pos(0, 5), 3, Bind(Pos(3, 3), 2, Bind(Pos(4, 4), 2, Bind(Pos(2, 4), 2, Bind(Pos(1, 5), 2, Bind(Pos(3, 4), 1, Bind(Pos(2, 5), 1, Bind(Pos(4, 5), 1, Bind(Pos(3, 5), 0, Empty))))))))))))))))),
      [Entry(9, Pos(0, 3)), Entry(9, Pos(0, 5)), Entry(9, Pos(4, 5)), Entry(9, Pos(4, 4)), Entry(9, Pos(3, 2)), Entry(9, Pos(0, 2))],
      Cons(Pos(0, 2), Cons(Pos(3, 2), Cons(Pos(0, 3), Cons(Pos(0, 5), Cons(Pos(4, 4), Cons(Pos(4, 5), Nil)))))),
      Bind(Pos(0, 2), Pos(1, 2), Bind(Pos(3, 2), Pos(2, 2), Bind(Pos(1, 2), Pos(1, 3), Bind(Pos(0, 3), Pos(1, 3), Bind(Pos(2, 2), Pos(2, 3), Bind(Pos(1, 3), Pos(1, 4), Bind(Pos(2, 3), Pos(2, 4), Bind(Pos(1, 4), Pos(1, 5), Bind(Pos(0, 5), Pos(1, 5), Bind(Pos(3, 3), Pos(3, 4), Bind(Pos(4, 4), Pos(3, 4), Bind(Pos(2, 4), Pos(2, 5), Bind(Pos(1, 5), Pos(2, 5), Bind(Pos(3, 4), Pos(3, 5), Bind(Pos(2, 5), Pos(3, 5), Bind(Pos(4, 5), Pos(3, 5), Empty)))))))))))))))))

  lemma StaleSift10_3()
    ensures SiftUp([Entry(9, Pos(0, 2)), Entry(9, Pos(0, 5)), Entry(9, Pos(0, 3)), Entry(9, Pos(4, 4)), Entry(9, Pos(3, 2)), Entry(9, Pos(4, 5))], 0) == SiftUp([Entry(9, Pos(0, 3)), Entry(9, Pos(0, 5)), Entry(9, Pos(0, 2)), Entry(9, Pos(4, 4)), Entry(9, Pos(3, 2)), Entry(9, Pos(4, 5))], 2)
  {
  }

  lemma StaleSift10_4()
    ensures SiftUp([Entry(9, Pos(0, 3)), Entry(9, Pos(0, 5)), Entry(9, Pos(0, 2)), Entry(9, Pos(4, 4)), Entry(9, Pos(3, 2)), Entry(9, Pos(4, 5))], 2) == SiftUp([Entry(9, Pos(0, 3)), Entry(9, Pos(0, 5)), Entry(9, Pos(4, 5)), Entry(9, Pos(4, 4)), Entry(9, Pos(3, 2)), Entry(9, Pos(0, 2))], 5)
  {
  }

  lemma StaleSift10_5()
    ensures SiftUp([Entry(9, Pos(0, 3)), Entry(9, Pos(0, 5)), Entry(9, Pos(4, 5)), Entry(9, Pos(4, 4)), Entry(9, Pos(3, 2)), Entry(9, Pos(0, 2))], 5) == SiftDown([Entry(9, Pos(0, 3)), Entry(9, Pos(0, 5)), Entry(9, Pos(4, 5)), Entry(9, Pos(4, 4)), Entry(9, Pos(3, 2)), Entry(9, Pos(0, 2))], 5)
  {
  }

  lemma StaleSift10_6()
    ensures SiftDown([Entry(9, Pos(0, 3)), Entry(9, Pos(0, 5)), Entry(9, Pos(4, 5)), Entry(9, Pos(4, 4)), Entry(9, Pos(3, 2)), Entry(9, Pos(0, 2))], 5) == [Entry(9, Pos(0, 3)), Entry(9, Pos(0, 5)), Entry(9, Pos(4, 5)), Entry(9, Pos(4, 4)), Entry(9, Pos(3, 2)), Entry(9, Pos(0, 2))]
  {
  }

  /** The `heappop` of pop 10. */
  lemma StaleHeapPop10()
    ensures HeapPop([Entry(7, Pos(3, 3)), Entry(9, Pos(0, 5)), Entry(9, Pos(0, 3)), Entry(9, Pos(4, 4)), Entry(9, Pos(3, 2)), Entry(9, Pos(4, 5)), Entry(9, Pos(0, 2))]) == Popped(Entry(7, Pos(3, 3)), [Entry(9, Pos(0, 3)), Entry(9, Pos(0, 5)), Entry(9, Pos(4, 5)), Entry(9, Pos(4, 4)), Entry(9, Pos(3, 2)), Entry(9, Pos(0, 2))])
  {
    assert [Entry(7, Pos(3, 3)), Entry(9, Pos(0, 5)), Entry(9, Pos(0, 3)), Entry(9, Pos(4, 4)), Entry(9, Pos(3, 2)), Entry(9, Pos(4, 5)), Entry(9, Pos(0, 2))][..6] == [Entry(7, Pos(3, 3)), Entry(9, Pos(0, 5)), Entry(9, Pos(0, 3)), Entry(9, Pos(4, 4)), Entry(9, Pos(3, 2)), Entry(9, Pos(4, 5))];
    assert [Entry(7, Pos(3, 3)), Entry(9, Pos(0, 5)), Entry(9, Pos(0, 3)), Entry(9, Pos(4, 4)), Entry(9, Pos(3, 2)), Entry(9, Pos(4, 5))][0 := Entry(9, Pos(0, 2))] == [Entry(9, Pos(0, 2)), Entry(9, Pos(0, 5)), Entry(9, Pos(0, 3)), Entry(9, Pos(4, 4)), Entry(9, Pos(3, 2)), Entry(9, Pos(4, 5))];
    assert HeapPop([Entry(7, Pos(3, 3)), Entry(9, Pos(0, 5)), Entry(9, Pos(0, 3)), Entry(9, Pos(4, 4)), Entry(9, Pos(3, 2)), Entry(9, Pos(4, 5)), Entry(9, Pos(0, 2))]) == Popped(Entry(7, Pos(3, 3)), SiftUp([Entry(9, Pos(0, 2)), Entry(9, Pos(0, 5)), Entry(9, Pos(0, 3)), Entry(9, Pos(4, 4)), Entry(9, Pos(3, 2)), Entry(9, Pos(4, 5))], 0));
    StaleSift10_3();
    StaleSift10_4();
    StaleSift10_5();
    StaleSift10_6();
  }

  /** Pop 10 takes Entry(7, Pos(3, 3)) off the heap. */
  lemma StalePop10()
    ensures Pop(StaleState10) == Step(Entry(7, Pos(3, 3)), StaleState10_0)
  {
    assert StaleState10.queue == [Entry(7, Pos(3, 3)), Entry(9, Pos(0, 5)), Entry(9, Pos(0, 3)), Entry(9, Pos(4, 4)), Entry(9, Pos(3, 2)), Entry(9, Pos(4, 5)), Entry(9, Pos(0, 2))];
    StaleHeapPop10();
    var t4 := StaleState10.tSet.tail.tail.tail.tail;
    assert Remove(t4, Pos(3, 3)) == Cons(Pos(4, 4), Cons(Pos(4, 5), Nil));
    assert Remove(StaleState10.tSet, Pos(3, 3)) == Cons(Pos(0, 2), Cons(Pos(3, 2), Cons(Pos(0, 3), Cons(Pos(0, 5), Cons(Pos(4, 4), Cons(Pos(4, 5), Nil))))));
  }

  /** The neighbours of Pos(3, 3). */
  lemma StaleNeighbors10()
    ensures Items(NeighborPositions(6, {Pos(0, 4), Pos(1, 1), Pos(2, 1), Pos(5, 2)}, Pos(3, 3)), 0) == Cons(Pos(4, 3), Cons(Pos(2, 3), Cons(Pos(3, 4), Cons(Pos(3, 2), Nil))))
  {
  }

  const StaleState10_1 :=
    Search(
      Bind(Pos(4, 3), 3, Bind(Pos(0, 2), 6, Bind(Pos(3, 2), 5, Bind(Pos(1, 2), 5, Bind(Pos(0, 3), 5, Bind(Pos(2, 2), 4, Bind(Pos(1, 3), 4, Bind(Pos(2, 3), 3, Bind(Pos(1, 4), 3, Bind(Pos(0, 5), 3, Bind(Pos(3, 3), 2, Bind(Pos(4, 4), 2, Bind(Pos(2, 4), 2, Bind(Pos(1, 5), 2, Bind(Pos(3, 4), 1, Bind(Pos(2, 5), 1, Bind(Pos(4, 5), 1, Bind(Pos(3, 5), 0, Empty)))))))))))))))))),
      [Entry(9, Pos(0, 3)), Entry(9, Pos(0, 5)), Entry(9, Pos(4, 5)), Entry(9, Pos(4, 4)), Entry(9, Pos(3, 2)), Entry(9, Pos(0, 2)), Entry(9, Pos(4, 3))],
      Cons(Pos(4, 3), Cons(Pos(0, 2), Cons(Pos(3, 2), Cons(Pos(0, 3), Cons(Pos(0, 5), Cons(Pos(4, 4), Cons(Pos(4, 5), Nil))))))),
      Bind(Pos(4, 3), Pos(3, 3), Bind(Pos(0, 2), Pos(1, 2), Bind(Pos(3, 2), Pos(2, 2), Bind(Pos(1, 2), Pos(1, 3), Bind(Pos(0, 3), Pos(1, 3), Bind(Pos(2, 2), Pos(2, 3), Bind(Pos(1, 3), Pos(1, 4), Bind(Pos(2, 3), Pos(2, 4), Bind(Pos(1, 4), Pos(1, 5), Bind(Pos(0, 5), Pos(1, 5), Bind(Pos(3, 3), Pos(3, 4), Bind(Pos(4, 4), Pos(3, 4), Bind(Pos(2, 4), Pos(2, 5), Bind(Pos(1, 5), Pos(2, 5), Bind(Pos(3, 4), Pos(3, 5), Bind(Pos(2, 5), Pos(3, 5), Bind(Pos(4, 5), Pos(3, 5), Empty))))))))))))))))))

  lemma StaleHeapPush10_1()
    ensures HeapPush([Entry(9, Pos(0, 3)), Entry(9, Pos(0, 5)), Entry(9, Pos(4, 5)), Entry(9, Pos(4, 4)), Entry(9, Pos(3, 2)), Entry(9, Pos(0, 2))], Entry(9, Pos(4, 3))) == [Entry(9, Pos(0, 3)), Entry(9, Pos(0, 5)), Entry(9, Pos(4, 5)), Entry(9, Pos(4, 4)), Entry(9, Pos(3, 2)), Entry(9, Pos(0, 2)), Entry(9, Pos(4, 3))]
  {
    assert HeapPush([Entry(9, Pos(0, 3)), Entry(9, Pos(0, 5)), Entry(9, Pos(4, 5)), Entry(9, Pos(4, 4)), Entry(9, Pos(3, 2)), Entry(9, Pos(0, 2))], Entry(9, Pos(4, 3))) == SiftDown([Entry(9, Pos(0, 3)), Entry(9, Pos(0, 5)), Entry(9, Pos(4, 5)), Entry(9, Pos(4, 4)), Entry(9, Pos(3, 2)), Entry(9, Pos(0, 2)), Entry(9, Pos(4, 3))], 6);
    assert SiftDown([Entry(9, Pos(0, 3)), Entry(9, Pos(0, 5)), Entry(9, Pos(4, 5)), Entry(9, Pos(4, 4)), Entry(9, Pos(3, 2)), Entry(9, Pos(0, 2)), Entry(9, Pos(4, 3))], 6) == [Entry(9, Pos(0, 3)), Entry(9, Pos(0, 5)), Entry(9, Pos(4, 5)), Entry(9, Pos(4, 4)), Entry(9, Pos(3, 2)), Entry(9, Pos(0, 2)), Entry(9, Pos(4, 3))];
  }

  lemma StaleRelax10_1()
    ensures RelaxOne(Pos(1, 0), Pos(3, 3), 2, StaleState10_0, Pos(4, 3)) == StaleState10_1
  {
    var c4 := StaleState10_0.cost.rest.rest.rest.rest;
    var c8 := c4.rest.rest.rest.rest;
    var c12 := c8.rest.rest.rest.rest;
    var c16 := c12.rest.rest.rest.rest;
    assert Get(c16, Pos(4, 3)) == None;
    assert Get(c12, Pos(4, 3)) == None;
    assert Get(c8, Pos(4, 3)) == None;
    assert Get(c4, Pos(4, 3)) == None;
    assert Get(StaleState10_0.cost, Pos(4, 3)) == None;
    var t4 := StaleState10_0.tSet.tail.tail.tail.tail;
    assert !Has(t4, Pos(4, 3));
    assert !Has(StaleState10_0.tSet, Pos(4, 3));
    assert StaleState10_0.queue == [Entry(9, Pos(0, 3)), Entry(9, Pos(0, 5)), Entry(9, Pos(4, 5)), Entry(9, Pos(4, 4)), Entry(9, Pos(3, 2)), Entry(9, Pos(0, 2))];
    StaleHeapPush10_1();
  }

  lemma StaleRelax10_2()
    ensures RelaxOne(Pos(1, 0), Pos(3, 3), 2, StaleState10_1, Pos(2, 3)) == StaleState10_1
  {
    var c4 := StaleState10_1.cost.rest.rest.rest.rest;
    assert Get(c4, Pos(2, 3)) == Some(3);
    assert Get(StaleState10_1.cost, Pos(2, 3)) == Some(3);
  }

  lemma StaleRelax10_3()
    ensures RelaxOne(Pos(1, 0), Pos(3, 3), 2, StaleState10_1, Pos(3, 4)) == StaleState10_1
  {
    var c4 := StaleState10_1.cost.rest.rest.rest.rest;
    var c8 := c4.rest.rest.rest.rest;
    var c12 := c8.rest.rest.rest.rest;
    assert Get(c12, Pos(3, 4)) == Some(1);
    assert Get(c8, Pos(3, 4)) == Some(1);
    assert Get(c4, Pos(3, 4)) == Some(1);
    assert Get(StaleState10_1.cost, Pos(3, 4)) == Some(1);
  }

  lemma StaleRelax10_4()
    ensures RelaxOne(Pos(1, 0), Pos(3, 3), 2, StaleState10_1, Pos(3, 2)) == StaleState11
  {
    assert Get(StaleState10_1.cost, Pos(3, 2)) == Some(5);
    assert Has(StaleState10_1.tSet, Pos(3, 2));
  }

  /** The neighbour loop of pop 10 leaves the state of pop 11. */
  lemma StaleRound10()
    ensures Round(StaleRows, StaleBarriers, StaleGoal, StaleState10_0, Pos(3, 3)) == StaleState11
  {
    var c4 := StaleState10_0.cost.rest.rest.rest.rest;
    var c8 := c4.rest.rest.rest.rest;
    assert Get(c8, Pos(3, 3)) == Some(2);
    assert Get(c4, Pos(3, 3)) == Some(2);
    assert Get(StaleState10_0.cost, Pos(3, 3)) == Some(2);
    StaleNeighbors10();
    StaleRelax10_1();
    StaleRelax10_2();
    StaleRelax10_3();
    StaleRelax10_4();
  }

  /** Pop 10 hands over to pop 11. */
  lemma StaleLoop10()
    ensures Loop(StaleRows, StaleBarriers, StaleGoal, StaleState10, 10) == Loop(StaleRows, StaleBarriers, StaleGoal, StaleState11, 9)
  {
    StalePop10();
    StaleRound10();
  }

  const StaleState11_0 :=
    Search(
      Bind(Pos(3, 2), 3, Bind(Pos(4, 3), 3, Bind(Pos(0, 2), 6, Bind(Pos(3, 2), 5, Bind(Pos(1, 2), 5, Bind(Pos(0, 3), 5, Bind(Pos(2, 2), 4, Bind(Pos(1, 3), 4, Bind(Pos(2, 3), 3, Bind(Pos(1, 4), 3, Bind(Pos(0, 5), 3, Bind(Pos(3, 3), 2, Bind(Pos(4, 4), 2, Bind(Pos(2, 4), 2, Bind(Pos(1, 5), 2, Bind(Pos(3, 4), 1, Bind(Pos(2, 5), 1, Bind(Pos(4, 5), 1, Bind(Pos(3, 5), 0, Empty))))))))))))))))))),
      [Entry(9, Pos(4, 5)), Entry(9, Pos(0, 5)), Entry(9, Pos(0, 2)), Entry(9, Pos(4, 4)), Entry(9, Pos(3, 2)), Entry(9, Pos(4, 3))],
      Cons(Pos(4, 3), Cons(Pos(0, 2), Cons(Pos(3, 2), Cons(Pos(0, 5), Cons(Pos(4, 4), Cons(Pos(4, 5), Nil)))))),
      Bind(Pos(3, 2), Pos(3, 3), Bind(Pos(4, 3), Pos(3, 3), Bind(Pos(0, 2), Pos(1, 2), Bind(Pos(3, 2), Pos(2, 2), Bind(Pos(1, 2), Pos(1, 3), Bind(Pos(0, 3), Pos(1, 3), Bind(Pos(2, 2), Pos(2, 3), Bind(Pos(1, 3), Pos(1, 4), Bind(Pos(2, 3), Pos(2, 4), Bind(Pos(1, 4), Pos(1, 5), Bind(Pos(0, 5), Pos(1, 5), Bind(Pos(3, 3), Pos(3, 4), Bind(Pos(4, 4), Pos(3, 4), Bind(Pos(2, 4), Pos(2, 5), Bind(Pos(1, 5), Pos(2, 5), Bind(Pos(3, 4), Pos(3, 5), Bind(Pos(2, 5), Pos(3, 5), Bind(Pos(4, 5), Pos(3, 5), Empty)))))))))))))))))))

  lemma StaleSift11_3()
    ensures SiftUp([Entry(9, Pos(4, 3)), Entry(9, Pos(0, 5)), Entry(9, Pos(4, 5)), Entry(9, Pos(4, 4)), Entry(9, Pos(3, 2)), Entry(9, Pos(0, 2))], 0) == SiftUp([Entry(9, Pos(4, 5)), Entry(9, Pos(0, 5)), Entry(9, Pos(4, 3)), Entry(9, Pos(4, 4)), Entry(9, Pos(3, 2)), Entry(9, Pos(0, 2))], 2)
  {
  }

  lemma StaleSift11_4()
    ensures SiftUp([Entry(9, Pos(4, 5)), Entry(9, Pos(0, 5)), Entry(9, Pos(4, 3)), Entry(9, Pos(4, 4)), Entry(9, Pos(3, 2)), Entry(9, Pos(0, 2))], 2) == SiftUp([Entry(9, Pos(4, 5)), Entry(9, Pos(0, 5)), Entry(9, Pos(0, 2)), Entry(9, Pos(4, 4)), Entry(9, Pos(3, 2)), Entry(9, Pos(4, 3))], 5)
  {
  }

  lemma StaleSift11_5()
    ensures SiftUp([Entry(9, Pos(4, 5)), Entry(9, Pos(0, 5)), Entry(9, Pos(0, 2)), Entry(9, Pos(4, 4)), Entry(9, Pos(3, 2)), Entry(9, Pos(4, 3))], 5) == SiftDown([Entry(9, Pos(4, 5)), Entry(9, Pos(0, 5)), Entry(9, Pos(0, 2)), Entry(9, Pos(4, 4)), Entry(9, Pos(3, 2)), Entry(9, Pos(4, 3))], 5)
  {
  }

  lemma StaleSift11_6()
    ensures SiftDown([Entry(9, Pos(4, 5)), Entry(9, Pos(0, 5)), Entry(9, Pos(0, 2)), Entry(9, Pos(4, 4)), Entry(9, Pos(3, 2)), Entry(9, Pos(4, 3))], 5) == [Entry(9, Pos(4, 5)), Entry(9, Pos(0, 5)), Entry(9, Pos(0, 2)), Entry(9, Pos(4, 4)), Entry(9, Pos(3, 2)), Entry(9, Pos(4, 3))]
  {
  }

  /** The `heappop` of pop 11. */
  lemma StaleHeapPop11()
    ensures HeapPop([Entry(9, Pos(0, 3)), Entry(9, Pos(0, 5)), Entry(9, Pos(4, 5)), Entry(9, Pos(4, 4)), Entry(9, Pos(3, 2)), Entry(9, Pos(0, 2)), Entry(9, Pos(4, 3))]) == Popped(Entry(9, Pos(0, 3)), [Entry(9, Pos(4, 5)), Entry(9, Pos(0, 5)), Entry(9, Pos(0, 2)), Entry(9, Pos(4, 4)), Entry(9, Pos(3, 2)), Entry(9, Pos(4, 3))])
  {
    assert [Entry(9, Pos(0, 3)), Entry(9, Pos(0, 5)), Entry(9, Pos(4, 5)), Entry(9, Pos(4, 4)), Entry(9, Pos(3, 2)), Entry(9, Pos(0, 2)), Entry(9, Pos(4, 3))][..6] == [Entry(9, Pos(0, 3)), Entry(9, Pos(0, 5)), Entry(9, Pos(4, 5)), Entry(9, Pos(4, 4)), Entry(9, Pos(3, 2)), Entry(9, Pos(0, 2))];
    assert [Entry(9, Pos(0, 3)), Entry(9, Pos(0, 5)), Entry(9, Pos(4, 5)), Entry(9, Pos(4, 4)), Entry(9, Pos(3, 2)), Entry(9, Pos(0, 2))][0 := Entry(9, Pos(4, 3))] == [Entry(9, Pos(4, 3)), Entry(9, Pos(0, 5)), Entry(9, Pos(4, 5)), Entry(9, Pos(4, 4)), Entry(9, Pos(3, 2)), Entry(9, Pos(0, 2))];
    assert HeapPop([Entry(9, Pos(0, 3)), Entry(9, Pos(0, 5)), Entry(9, Pos(4, 5)), Entry(9, Pos(4, 4)), Entry(9, Pos(3, 2)), Entry(9, Pos(0, 2)), Entry(9, Pos(4, 3))]) == Popped(Entry(9, Pos(0, 3)), SiftUp([Entry(9, Pos(4, 3)), Entry(9, Pos(0, 5)), Entry(9, Pos(4, 5)), Entry(9, Pos(4, 4)), Entry(9, Pos(3, 2)), Entry(9, Pos(0, 2))], 0));
    StaleSift11_3();
    StaleSift11_4();
    StaleSift11_5();
    StaleSift11_6();
  }

  /** Pop 11 takes Entry(9, Pos(0, 3)) off the heap. */
  lemma StalePop11()
    ensures Pop(StaleState11) == Step(Entry(9, Pos(0, 3)), StaleState11_0)
  {
    assert StaleState11.queue == [Entry(9, Pos(0, 3)), Entry(9, Pos(0, 5)), Entry(9, Pos(4, 5)), Entry(9, Pos(4, 4)), Entry(9, Pos(3, 2)), Entry(9, Pos(0, 2)), Entry(9, Pos(4, 3))];
    StaleHeapPop11();
    assert Remove(StaleState11.tSet, Pos(0, 3)) == Cons(Pos(4, 3), Cons(Pos(0, 2), Cons(Pos(3, 2), Cons(Pos(0, 5), Cons(Pos(4, 4), Cons(Pos(4, 5), Nil))))));
  }

  /** The neighbours of Pos(0, 3). */
  lemma StaleNeighbors11()
    ensures Items(NeighborPositions(6, {Pos(0, 4), Pos(1, 1), Pos(2, 1), Pos(5, 2)}, Pos(0, 3)), 0) == Cons(Pos(1, 3), Cons(Pos(0, 2), Nil))
  {
  }

  lemma StaleRelax11_1()
    ensures RelaxOne(Pos(1, 0), Pos(0, 3), 5, StaleState11_0, Pos(1, 3)) == StaleState11_0
  {
    var c4 := StaleState11_0.cost.rest.rest.rest.rest;
    assert Get(c4, Pos(1, 3)) == Some(4);
    assert Get(StaleState11_0.cost, Pos(1, 3)) == Some(4);
  }

  lemma StaleRelax11_2()
    ensures RelaxOne(Pos(1, 0), Pos(0, 3), 5, StaleState11_0, Pos(0, 2)) == StaleState12
  {
    assert Get(StaleState11_0.cost, Pos(0, 2)) == Some(6);
  }

  /** The neighbour loop of pop 11 leaves the state of pop 12. */
  lemma StaleRound11()
    ensures Round(StaleRows, StaleBarriers, StaleGoal, StaleState11_0, Pos(0, 3)) == StaleState12
  {
    var c4 := StaleState11_0.cost.rest.rest.rest.rest;
    assert Get(c4, Pos(0, 3)) == Some(5);
    assert Get(StaleState11_0.cost, Pos(0, 3)) == Some(5);
    StaleNeighbors11();
    StaleRelax11_1();
    StaleRelax11_2();
  }

  /** Pop 11 hands over to pop 12. */
  lemma StaleLoop11()
    ensures Loop(StaleRows, StaleBarriers, StaleGoal, StaleState11, 9) == Loop(StaleRows, StaleBarriers, StaleGoal, StaleState12, 8)
  {
    StalePop11();
    StaleRound11();
  }

  const StaleState12_0 :=
    Search(
      Bind(Pos(3, 2), 3, Bind(Pos(4, 3), 3, Bind(Pos(0, 2), 6, Bind(Pos(3, 2), 5, Bind(Pos(1, 2), 5, Bind(Pos(0, 3), 5, Bind(Pos(2, 2), 4, Bind(Pos(1, 3), 4, Bind(Pos(2, 3), 3, Bind(Pos(1, 4), 3, Bind(Pos(0, 5), 3, Bind(Pos(3, 3), 2, Bind(Pos(4, 4), 2, Bind(Pos(2, 4), 2, Bind(Pos(1, 5), 2, Bind(Pos(3, 4), 1, Bind(Pos(2, 5), 1, Bind(Pos(4, 5), 1, Bind(Pos(3, 5), 0, Empty))))))))))))))))))),
      [Entry(9, Pos(0, 2)), Entry(9, Pos(0, 5)), Entry(9, Pos(4, 3)), Entry(9, Pos(4, 4)), Entry(9, Pos(3, 2))],
      Cons(Pos(4, 3), Cons(Pos(0, 2), Cons(Pos(3, 2), Cons(Pos(0, 5), Cons(Pos(4, 4), Nil))))),
      Bind(Pos(3, 2), Pos(3, 3), Bind(Pos(4, 3), Pos(3, 3), Bind(Pos(0, 2), Pos(1, 2), Bind(Pos(3, 2), Pos(2, 2), Bind(Pos(1, 2), Pos(1, 3), Bind(Pos(0, 3), Pos(1, 3), Bind(Pos(2, 2), Pos(2, 3), Bind(Pos(1, 3), Pos(1, 4), Bind(Pos(2, 3), Pos(2, 4), Bind(Pos(1, 4), Pos(1, 5), Bind(Pos(0, 5), Pos(1, 5), Bind(Pos(3, 3), Pos(3, 4), Bind(Pos(4, 4), Pos(3, 4), Bind(Pos(2, 4), Pos(2, 5), Bind(Pos(1, 5), Pos(2, 5), Bind(Pos(3, 4), Pos(3, 5), Bind(Pos(2, 5), Pos(3, 5), Bind(Pos(4, 5), Pos(3, 5), Empty)))))))))))))))))))

  /** The `heappop` of pop 12. */
  lemma StaleHeapPop12()
    ensures HeapPop([Entry(9, Pos(4, 5)), Entry(9, Pos(0, 5)), Entry(9, Pos(0, 2)), Entry(9, Pos(4, 4)), Entry(9, Pos(3, 2)), Entry(9, Pos(4, 3))]) == Popped(Entry(9, Pos(4, 5)), [Entry(9, Pos(0, 2)), Entry(9, Pos(0, 5)), Entry(9, Pos(4, 3)), Entry(9, Pos(4, 4)), Entry(9, Pos(3, 2))])
  {
    assert [Entry(9, Pos(4, 5)), Entry(9, Pos(0, 5)), Entry(9, Pos(0, 2)), Entry(9, Pos(4, 4)), Entry(9, Pos(3, 2)), Entry(9, Pos(4, 3))][..5] == [Entry(9, Pos(4, 5)), Entry(9, Pos(0, 5)), Entry(9, Pos(0, 2)), Entry(9, Pos(4, 4)), Entry(9, Pos(3, 2))];
    assert [Entry(9, Pos(4, 5)), Entry(9, Pos(0, 5)), Entry(9, Pos(0, 2)), Entry(9, Pos(4, 4)), Entry(9, Pos(3, 2))][0 := Entry(9, Pos(4, 3))] == [Entry(9, Pos(4, 3)), Entry(9, Pos(0, 5)), Entry(9, Pos(0, 2)), Entry(9, Pos(4, 4)), Entry(9, Pos(3, 2))];
    assert HeapPop([Entry(9, Pos(4, 5)), Entry(9, Pos(0, 5)), Entry(9, Pos(0, 2)), Entry(9, Pos(4, 4)), Entry(9, Pos(3, 2)), Entry(9, Pos(4, 3))]) == Popped(Entry(9, Pos(4, 5)), SiftUp([Entry(9, Pos(4, 3)), Entry(9, Pos(0, 5)), Entry(9, Pos(0, 2)), Entry(9, Pos(4, 4)), Entry(9, Pos(3, 2))], 0));
    assert SiftUp([Entry(9, Pos(4, 3)), Entry(9, Pos(0, 5)), Entry(9, Pos(0, 2)), Entry(9, Pos(4, 4)), Entry(9, Pos(3, 2))], 0) == SiftUp([Entry(9, Pos(0, 2)), Entry(9, Pos(0, 5)), Entry(9, Pos(4, 3)), Entry(9, Pos(4, 4)), Entry(9, Pos(3, 2))], 2);
    assert SiftUp([Entry(9, Pos(0, 2)), Entry(9, Pos(0, 5)), Entry(9, Pos(4, 3)), Entry(9, Pos(4, 4)), Entry(9, Pos(3, 2))], 2) == SiftDown([Entry(9, Pos(0, 2)), Entry(9, Pos(0, 5)), Entry(9, Pos(4, 3)), Entry(9, Pos(4, 4)), Entry(9, Pos(3, 2))], 2);
    assert SiftDown([Entry(9, Pos(0, 2)), Entry(9, Pos(0, 5)), Entry(9, Pos(4, 3)), Entry(9, Pos(4, 4)), Entry(9, Pos(3, 2))], 2) == [Entry(9, Pos(0, 2)), Entry(9, Pos(0, 5)), Entry(9, Pos(4, 3)), Entry(9, Pos(4, 4)), Entry(9, Pos(3, 2))];
  }

  /** Pop 12 takes Entry(9, Pos(4, 5)) off the heap. */
  lemma StalePop12()
    ensures Pop(StaleState12) == Step(Entry(9, Pos(4, 5)), StaleState12_0)
  {
    assert StaleState12.queue == [Entry(9, Pos(4, 5)), Entry(9, Pos(0, 5)), Entry(9, Pos(0, 2)), Entry(9, Pos(4, 4)), Entry(9, Pos(3, 2)), Entry(9, Pos(4, 3))];
    StaleHeapPop12();
    var t4 := StaleState12.tSet.tail.tail.tail.tail;
    assert Remove(t4, Pos(4, 5)) == Cons(Pos(4, 4), Nil);
    assert Remove(StaleState12.tSet, Pos(4, 5)) == Cons(Pos(4, 3), Cons(Pos(0, 2), Cons(Pos(3, 2), Cons(Pos(0, 5), Cons(Pos(4, 4), Nil)))));
  }

  /** The neighbours of Pos(4, 5). */
  lemma StaleNeighbors12()
    ensures Items(NeighborPositions(6, {Pos(0, 4), Pos(1, 1), Pos(2, 1), Pos(5, 2)}, Pos(4, 5)), 0) == Cons(Pos(5, 5), Cons(Pos(3, 5), Cons(Pos(4, 4), Nil)))
  {
  }

  const StaleState12_1 :=
    Search(
      Bind(Pos(5, 5), 2, Bind(Pos(3, 2), 3, Bind(Pos(4, 3), 3, Bind(Pos(0, 2), 6, Bind(Pos(3, 2), 5, Bind(Pos(1, 2), 5, Bind(Pos(0, 3), 5, Bind(Pos(2, 2), 4, Bind(Pos(1, 3), 4, Bind(Pos(2, 3), 3, Bind(Pos(1, 4), 3, Bind(Pos(0, 5), 3, Bind(Pos(3, 3), 2, Bind(Pos(4, 4), 2, Bind(Pos(2, 4), 2, Bind(Pos(1, 5), 2, Bind(Pos(3, 4), 1, Bind(Pos(2, 5), 1, Bind(Pos(4, 5), 1, Bind(Pos(3, 5), 0, Empty)))))))))))))))))))),
      [Entry(9, Pos(0, 2)), Entry(9, Pos(0, 5)), Entry(9, Pos(4, 3)), Entry(9, Pos(4, 4)), Entry(9, Pos(3, 2)), Entry(11, Pos(5, 5))],
      Cons(Pos(5, 5), Cons(Pos(4, 3), Cons(Pos(0, 2), Cons(Pos(3, 2), Cons(Pos(0, 5), Cons(Pos(4, 4), Nil)))))),
      Bind(Pos(5, 5), Pos(4, 5), Bind(Pos(3, 2), Pos(3, 3), Bind(Pos(4, 3), Pos(3, 3), Bind(Pos(0, 2), Pos(1, 2), Bind(Pos(3, 2), Pos(2, 2), Bind(Pos(1, 2), Pos(1, 3), Bind(Pos(0, 3), Pos(1, 3), Bind(Pos(2, 2), Pos(2, 3), Bind(Pos(1, 3), Pos(1, 4), Bind(Pos(2, 3), Pos(2, 4), Bind(Pos(1, 4), Pos(1, 5), Bind(Pos(0, 5), Pos(1, 5), Bind(Pos(3, 3), Pos(3, 4), Bind(Pos(4, 4), Pos(3, 4), Bind(Pos(2, 4), Pos(2, 5), Bind(Pos(1, 5), Pos(2, 5), Bind(Pos(3, 4), Pos(3, 5), Bind(Pos(2, 5), Pos(3, 5), Bind(Pos(4, 5), Pos(3, 5), Empty))))))))))))))))))))

  lemma StaleHeapPush12_1()
    ensures HeapPush([Entry(9, Pos(0, 2)), Entry(9, Pos(0, 5)), Entry(9, Pos(4, 3)), Entry(9, Pos(4, 4)), Entry(9, Pos(3, 2))], Entry(11, Pos(5, 5))) == [Entry(9, Pos(0, 2)), Entry(9, Pos(0, 5)), Entry(9, Pos(4, 3)), Entry(9, Pos(4, 4)), Entry(9, Pos(3, 2)), Entry(11, Pos(5, 5))]
  {
    assert HeapPush([Entry(9, Pos(0, 2)), Entry(9, Pos(0, 5)), Entry(9, Pos(4, 3)), Entry(9, Pos(4, 4)), Entry(9, Pos(3, 2))], Entry(11, Pos(5, 5))) == SiftDown([Entry(9, Pos(0, 2)), Entry(9, Pos(0, 5)), Entry(9, Pos(4, 3)), Entry(9, Pos(4, 4)), Entry(9, Pos(3, 2)), Entry(11, Pos(5, 5))], 5);
    assert SiftDown([Entry(9, Pos(0, 2)), Entry(9, Pos(0, 5)), Entry(9, Pos(4, 3)), Entry(9, Pos(4, 4)), Entry(9, Pos(3, 2)), Entry(11, Pos(5, 5))], 5) == [Entry(9, Pos(0, 2)), Entry(9, Pos(0, 5)), Entry(9, Pos(4, 3)), Entry(9, Pos(4, 4)), Entry(9, Pos(3, 2)), Entry(11, Pos(5, 5))];
  }

  lemma StaleRelax12_1()
    ensures RelaxOne(Pos(1, 0), Pos(4, 5), 1, StaleState12_0, Pos(5, 5)) == StaleState12_1
  {
    var c4 := StaleState12_0.cost.rest.rest.rest.rest;
    var c8 := c4.rest.rest.rest.rest;
    var c12 := c8.rest.rest.rest.rest;
    var c16 := c12.rest.rest.rest.rest;
    assert Get(c16, Pos(5, 5)) == None;
    assert Get(c12, Pos(5, 5)) == None;
    assert Get(c8, Pos(5, 5)) == None;
    assert Get(c4, Pos(5, 5)) == None;
    assert Get(StaleState12_0.cost, Pos(5, 5)) == None;
    var t4 := StaleState12_0.tSet.tail.tail.tail.tail;
    assert !Has(t4, Pos(5, 5));
    assert !Has(StaleState12_0.tSet, Pos(5, 5));
    assert StaleState12_0.queue == [Entry(9, Pos(0, 2)), Entry(9, Pos(0, 5)), Entry(9, Pos(4, 3)), Entry(9, Pos(4, 4)), Entry(9, Pos(3, 2))];
    StaleHeapPush12_1();
  }

  lemma StaleRelax12_2()
    ensures RelaxOne(Pos(1, 0), Pos(4, 5), 1, StaleState12_1, Pos(3, 5)) == StaleState12_1
  {
    var c4 := StaleState12_1.cost.rest.rest.rest.rest;
    var c8 := c4.rest.rest.rest.rest;
    var c12 := c8.rest.rest.rest.rest;
    var c16 := c12.rest.rest.rest.rest;
    assert Get(c16, Pos(3, 5)) == Some(0);
    assert Get(c12, Pos(3, 5)) == Some(0);
    assert Get(c8, Pos(3, 5)) == Some(0);
    assert Get(c4, Pos(3, 5)) == Some(0);
    assert Get(StaleState12_1.cost, Pos(3, 5)) == Some(0);
  }

  lemma StaleRelax12_3()
    ensures RelaxOne(Pos(1, 0), Pos(4, 5), 1, StaleState12_1, Pos(4, 4)) == StaleState13
  {
    var c4 := StaleState12_1.cost.rest.rest.rest.rest;
    var c8 := c4.rest.rest.rest.rest;
    var c12 := c8.rest.rest.rest.rest;
    assert Get(c12, Pos(4, 4)) == Some(2);
    assert Get(c8, Pos(4, 4)) == Some(2);
    assert Get(c4, Pos(4, 4)) == Some(2);
    assert Get(StaleState12_1.cost, Pos(4, 4)) == Some(2);
  }

  /** The neighbour loop of pop 12 leaves the state of pop 13. */
  lemma StaleRound12()
    ensures Round(StaleRows, StaleBarriers, StaleGoal, StaleState12_0, Pos(4, 5)) == StaleState13
  {
    var c4 := StaleState12_0.cost.rest.rest.rest.rest;
    var c8 := c4.rest.rest.rest.rest;
    var c12 := c8.rest.rest.rest.rest;
    var c16 := c12.rest.rest.rest.rest;
    assert Get(c16, Pos(4, 5)) == Some(1);
    assert Get(c12, Pos(4, 5)) == Some(1);
    assert Get(c8, Pos(4, 5)) == Some(1);
    assert Get(c4, Pos(4, 5)) == Some(1);
    assert Get(StaleState12_0.cost, Pos(4, 5)) == Some(1);
    StaleNeighbors12();
    StaleRelax12_1();
    StaleRelax12_2();
    StaleRelax12_3();
  }

  /** Pop 12 hands over to pop 13. */
  lemma StaleLoop12()
    ensures Loop(StaleRows, StaleBarriers, StaleGoal, StaleState12, 8) == Loop(StaleRows, StaleBarriers, StaleGoal, StaleState13, 7)
  {
    StalePop12();
    StaleRound12();
  }

  const StaleState13_0 :=
    Search(
      Bind(Pos(5, 5), 2, Bind(Pos(3, 2), 3, Bind(Pos(4, 3), 3, Bind(Pos(0, 2), 6, Bind(Pos(3, 2), 5, Bind(Pos(1, 2), 5, Bind(Pos(0, 3), 5, Bind(Pos(2, 2), 4, Bind(Pos(1, 3), 4, Bind(Pos(2, 3), 3, Bind(Pos(1, 4), 3, Bind(Pos(0, 5), 3, Bind(Pos(3, 3), 2, Bind(Pos(4, 4), 2, Bind(Pos(2, 4), 2, Bind(Pos(1, 5), 2, Bind(Pos(3, 4), 1, Bind(Pos(2, 5), 1, Bind(Pos(4, 5), 1, Bind(Pos(3, 5), 0, Empty)))))))))))))))))))),
      [Entry(9, Pos(4, 3)), Entry(9, Pos(0, 5)), Entry(11, Pos(5, 5)), Entry(9, Pos(4, 4)), Entry(9, Pos(3, 2))],
      Cons(Pos(5, 5), Cons(Pos(4, 3), Cons(Pos(3, 2), Cons(Pos(0, 5), Cons(Pos(4, 4), Nil))))),
      Bind(Pos(5, 5), Pos(4, 5), Bind(Pos(3, 2), Pos(3, 3), Bind(Pos(4, 3), Pos(3, 3), Bind(Pos(0, 2), Pos(1, 2), Bind(Pos(3, 2), Pos(2, 2), Bind(Pos(1, 2), Pos(1, 3), Bind(Pos(0, 3), Pos(1, 3), Bind(Pos(2, 2), Pos(2, 3), Bind(Pos(1, 3), Pos(1, 4), Bind(Pos(2, 3), Pos(2, 4), Bind(Pos(1, 4), Pos(1, 5), Bind(Pos(0, 5), Pos(1, 5), Bind(Pos(3, 3), Pos(3, 4), Bind(Pos(4, 4), Pos(3, 4), Bind(Pos(2, 4), Pos(2, 5), Bind(Pos(1, 5), Pos(2, 5), Bind(Pos(3, 4), Pos(3, 5), Bind(Pos(2, 5), Pos(3, 5), Bind(Pos(4, 5), Pos(3, 5), Empty))))))))))))))))))))

  /** The `heappop` of pop 13. */
  lemma StaleHeapPop13()
    ensures HeapPop([Entry(9, Pos(0, 2)), Entry(9, Pos(0, 5)), Entry(9, Pos(4, 3)), Entry(9, Pos(4, 4)), Entry(9, Pos(3, 2)), Entry(11, Pos(5, 5))]) == Popped(Entry(9, Pos(0, 2)), [Entry(9, Pos(4, 3)), Entry(9, Pos(0, 5)), Entry(11, Pos(5, 5)), Entry(9, Pos(4, 4)), Entry(9, Pos(3, 2))])
  {
    assert [Entry(9, Pos(0, 2)), Entry(9, Pos(0, 5)), Entry(9, Pos(4, 3)), Entry(9, Pos(4, 4)), Entry(9, Pos(3, 2)), Entry(11, Pos(5, 5))][..5] == [Entry(9, Pos(0, 2)), Entry(9, Pos(0, 5)), Entry(9, Pos(4, 3)), Entry(9, Pos(4, 4)), Entry(9, Pos(3, 2))];
    assert [Entry(9, Pos(0, 2)), Entry(9, Pos(0, 5)), Entry(9, Pos(4, 3)), Entry(9, Pos(4, 4)), Entry(9, Pos(3, 2))][0 := Entry(11, Pos(5, 5))] == [Entry(11, Pos(5, 5)), Entry(9, Pos(0, 5)), Entry(9, Pos(4, 3)), Entry(9, Pos(4, 4)), Entry(9, Pos(3, 2))];
    assert HeapPop([Entry(9, Pos(0, 2)), Entry(9, Pos(0, 5)), Entry(9, Pos(4, 3)), Entry(9, Pos(4, 4)), Entry(9, Pos(3, 2)), Entry(11, Pos(5, 5))]) == Popped(Entry(9, Pos(0, 2)), SiftUp([Entry(11, Pos(5, 5)), Entry(9, Pos(0, 5)), Entry(9, Pos(4, 3)), Entry(9, Pos(4, 4)), Entry(9, Pos(3, 2))], 0));
    assert SiftUp([Entry(11, Pos(5, 5)), Entry(9, Pos(0, 5)), Entry(9, Pos(4, 3)), Entry(9, Pos(4, 4)), Entry(9, Pos(3, 2))], 0) == SiftUp([Entry(9, Pos(4, 3)), Entry(9, Pos(0, 5)), Entry(11, Pos(5, 5)), Entry(9, Pos(4, 4)), Entry(9, Pos(3, 2))], 2);
    assert SiftUp([Entry(9, Pos(4, 3)), Entry(9, Pos(0, 5)), Entry(11, Pos(5, 5)), Entry(9, Pos(4, 4)), Entry(9, Pos(3, 2))], 2) == SiftDown([Entry(9, Pos(4, 3)), Entry(9, Pos(0, 5)), Entry(11, Pos(5, 5)), Entry(9, Pos(4, 4)), Entry(9, Pos(3, 2))], 2);
    assert SiftDown([Entry(9, Pos(4, 3)), Entry(9, Pos(0, 5)), Entry(11, Pos(5, 5)), Entry(9, Pos(4, 4)), Entry(9, Pos(3, 2))], 2) == [Entry(9, Pos(4, 3)), Entry(9, Pos(0, 5)), Entry(11, Pos(5, 5)), Entry(9, Pos(4, 4)), Entry(9, Pos(3, 2))];
  }

  /** Pop 13 takes Entry(9, Pos(0, 2)) off the heap. */
  lemma StalePop13()
    ensures Pop(StaleState13) == Step(Entry(9, Pos(0, 2)), StaleState13_0)
  {
    assert StaleState13.queue == [Entry(9, Pos(0, 2)), Entry(9, Pos(0, 5)), Entry(9, Pos(4, 3)), Entry(9, Pos(4, 4)), Entry(9, Pos(3, 2)), Entry(11, Pos(5, 5))];
    StaleHeapPop13();
    assert Remove(StaleState13.tSet, Pos(0, 2)) == Cons(Pos(5, 5), Cons(Pos(4, 3), Cons(Pos(3, 2), Cons(Pos(0, 5), Cons(Pos(4, 4), Nil)))));
  }

  /** The neighbours of Pos(0, 2). */
  lemma StaleNeighbors13()
    ensures Items(NeighborPositions(6, {Pos(0, 4), Pos(1, 1), Pos(2, 1), Pos(5, 2)}, Pos(0, 2)), 0) == Cons(Pos(1, 2), Cons(Pos(0, 3), Cons(Pos(0, 1), Nil)))
  {
  }

  lemma StaleRelax13_1()
    ensures RelaxOne(Pos(1, 0), Pos(0, 2), 6, StaleState13_0, Pos(1, 2)) == StaleState13_0
  {
    var c4 := StaleState13_0.cost.rest.rest.rest.rest;
    assert Get(c4, Pos(1, 2)) == Some(5);
    assert Get(StaleState13_0.cost, Pos(1, 2)) == Some(5);
  }

  lemma StaleRelax13_2()
    ensures RelaxOne(Pos(1, 0), Pos(0, 2), 6, StaleState13_0, Pos(0, 3)) == StaleState13_0
  {
    var c4 := StaleState13_0.cost.rest.rest.rest.rest;
    assert Get(c4, Pos(0, 3)) == Some(5);
    assert Get(StaleState13_0.cost, Pos(0, 3)) == Some(5);
  }

  lemma StaleHeapPush13_3()
    ensures HeapPush([Entry(9, Pos(4, 3)), Entry(9, Pos(0, 5)), Entry(11, Pos(5, 5)), Entry(9, Pos(4, 4)), Entry(9, Pos(3, 2))], Entry(9, Pos(0, 1))) == [Entry(9, Pos(4, 3)), Entry(9, Pos(0, 5)), Entry(9, Pos(0, 1)), Entry(9, Pos(4, 4)), Entry(9, Pos(3, 2)), Entry(11, Pos(5, 5))]
  {
    assert HeapPush([Entry(9, Pos(4, 3)), Entry(9, Pos(0, 5)), Entry(11, Pos(5, 5)), Entry(9, Pos(4, 4)), Entry(9, Pos(3, 2))], Entry(9, Pos(0, 1))) == SiftDown([Entry(9, Pos(4, 3)), Entry(9, Pos(0, 5)), Entry(11, Pos(5, 5)), Entry(9, Pos(4, 4)), Entry(9, Pos(3, 2)), Entry(9, Pos(0, 1))], 5);
    assert SiftDown([Entry(9, Pos(4, 3)), Entry(9, Pos(0, 5)), Entry(11, Pos(5, 5)), Entry(9, Pos(4, 4)), Entry(9, Pos(3, 2)), Entry(9, Pos(0, 1))], 5) == SiftDown([Entry(9, Pos(4, 3)), Entry(9, Pos(0, 5)), Entry(9, Pos(0, 1)), Entry(9, Pos(4, 4)), Entry(9, Pos(3, 2)), Entry(11, Pos(5, 5))], 2);
    assert SiftDown([Entry(9, Pos(4, 3)), Entry(9, Pos(0, 5)), Entry(9, Pos(0, 1)), Entry(9, Pos(4, 4)), Entry(9, Pos(3, 2)), Entry(11, Pos(5, 5))], 2) == [Entry(9, Pos(4, 3)), Entry(9, Pos(0, 5)), Entry(9, Pos(0, 1)), Entry(9, Pos(4, 4)), Entry(9, Pos(3, 2)), Entry(11, Pos(5, 5))];
  }

  lemma StaleRelax13_3()
    ensures RelaxOne(Pos(1, 0), Pos(0, 2), 6, StaleState13_0, Pos(0, 1)) == StaleState14
  {
    var c4 := StaleState13_0.cost.rest.rest.rest.rest;
    var c8 := c4.rest.rest.rest.rest;
    var c12 := c8.rest.rest.rest.rest;
    var c16 := c12.rest.rest.rest.rest;
    var c20 := c16.rest.rest.rest.rest;
    assert Get(c20, Pos(0, 1)) == None;
    assert Get(c16, Pos(0, 1)) == None;
    assert Get(c12, Pos(0, 1)) == None;
    assert Get(c8, Pos(0, 1)) == None;
    assert Get(c4, Pos(0, 1)) == None;
    assert Get(StaleState13_0.cost, Pos(0, 1)) == None;
    var t4 := StaleState13_0.tSet.tail.tail.tail.tail;
    assert !Has(t4, Pos(0, 1));
    assert !Has(StaleState13_0.tSet, Pos(0, 1));
    assert StaleState13_0.queue == [Entry(9, Pos(4, 3)), Entry(9, Pos(0, 5)), Entry(11, Pos(5, 5)), Entry(9, Pos(4, 4)), Entry(9, Pos(3, 2))];
    StaleHeapPush13_3();
  }

  /** The neighbour loop of pop 13 leaves the state of pop 14. */
  lemma StaleRound13()
    ensures Round(StaleRows, StaleBarriers, StaleGoal, StaleState13_0, Pos(0, 2)) == StaleState14
  {
    assert Get(StaleState13_0.cost, Pos(0, 2)) == Some(6);
    StaleNeighbors13();
    StaleRelax13_1();
    StaleRelax13_2();
    StaleRelax13_3();
  }

  /** Pop 13 hands over to pop 14. */
  lemma StaleLoop13()
    ensures Loop(StaleRows, StaleBarriers, StaleGoal, StaleState13, 7) == Loop(StaleRows, StaleBarriers, StaleGoal, StaleState14, 6)
  {
    StalePop13();
    StaleRound13();
  }

  const StaleState14_0 :=
    Search(
      Bind(Pos(0, 1), 7, Bind(Pos(5, 5), 2, Bind(Pos(3, 2), 3, Bind(Pos(4, 3), 3, Bind(Pos(0, 2), 6, Bind(Pos(3, 2), 5, Bind(Pos(1, 2), 5, Bind(Pos(0, 3), 5, Bind(Pos(2, 2), 4, Bind(Pos(1, 3), 4, Bind(Pos(2, 3), 3, Bind(Pos(1, 4), 3, Bind(Pos(0, 5), 3, Bind(Pos(3, 3), 2, Bind(Pos(4, 4), 2, Bind(Pos(2, 4), 2, Bind(Pos(1, 5), 2, Bind(Pos(3, 4), 1, Bind(Pos(2, 5), 1, Bind(Pos(4, 5), 1, Bind(Pos(3, 5), 0, Empty))))))))))))))))))))),
      [Entry(9, Pos(0, 1)), Entry(9, Pos(0, 5)), Entry(11, Pos(5, 5)), Entry(9, Pos(4, 4)), Entry(9, Pos(3, 2))],
      Cons(Pos(0, 1), Cons(Pos(5, 5), Cons(Pos(3, 2), Cons(Pos(0, 5), Cons(Pos(4, 4), Nil))))),
      Bind(Pos(0, 1), Pos(0, 2), Bind(Pos(5, 5), Pos(4, 5), Bind(Pos(3, 2), Pos(3, 3), Bind(Pos(4, 3), Pos(3, 3), Bind(Pos(0, 2), Pos(1, 2), Bind(Pos(3, 2), Pos(2, 2), Bind(Pos(1, 2), Pos(1, 3), Bind(Pos(0, 3), Pos(1, 3), Bind(Pos(2, 2), Pos(2, 3), Bind(Pos(1, 3), Pos(1, 4), Bind(Pos(2, 3), Pos(2, 4), Bind(Pos(1, 4), Pos(1, 5), Bind(Pos(0, 5), Pos(1, 5), Bind(Pos(3, 3), Pos(3, 4), Bind(Pos(4, 4), Pos(3, 4), Bind(Pos(2, 4), Pos(2, 5), Bind(Pos(1, 5), Pos(2, 5), Bind(Pos(3, 4), Pos(3, 5), Bind(Pos(2, 5), Pos(3, 5), Bind(Pos(4, 5), Pos(3, 5), Empty)))))))))))))))))))))

  /** The `heappop` of pop 14. */
  lemma StaleHeapPop14()
    ensures HeapPop([Entry(9, Pos(4, 3)), Entry(9, Pos(0, 5)), Entry(9, Pos(0, 1)), Entry(9, Pos(4, 4)), Entry(9, Pos(3, 2)), Entry(11, Pos(5, 5))]) == Popped(Entry(9, Pos(4, 3)), [Entry(9, Pos(0, 1)), Entry(9, Pos(0, 5)), Entry(11, Pos(5, 5)), Entry(9, Pos(4, 4)), Entry(9, Pos(3, 2))])
  {
    assert [Entry(9, Pos(4, 3)), Entry(9, Pos(0, 5)), Entry(9, Pos(0, 1)), Entry(9, Pos(4, 4)), Entry(9, Pos(3, 2)), Entry(11, Pos(5, 5))][..5] == [Entry(9, Pos(4, 3)), Entry(9, Pos(0, 5)), Entry(9, Pos(0, 1)), Entry(9, Pos(4, 4)), Entry(9, Pos(3, 2))];
    assert [Entry(9, Pos(4, 3)), Entry(9, Pos(0, 5)), Entry(9, Pos(0, 1)), Entry(9, Pos(4, 4)), Entry(9, Pos(3, 2))][0 := Entry(11, Pos(5, 5))] == [Entry(11, Pos(5, 5)), Entry(9, Pos(0, 5)), Entry(9, Pos(0, 1)), Entry(9, Pos(4, 4)), Entry(9, Pos(3, 2))];
    assert HeapPop([Entry(9, Pos(4, 3)), Entry(9, Pos(0, 5)), Entry(9, Pos(0, 1)), Entry(9, Pos(4, 4)), Entry(9, Pos(3, 2)), Entry(11, Pos(5, 5))]) == Popped(Entry(9, Pos(4, 3)), SiftUp([Entry(11, Pos(5, 5)), Entry(9, Pos(0, 5)), Entry(9, Pos(0, 1)), Entry(9, Pos(4, 4)), Entry(9, Pos(3, 2))], 0));
    assert SiftUp([Entry(11, Pos(5, 5)), Entry(9, Pos(0, 5)), Entry(9, Pos(0, 1)), Entry(9, Pos(4, 4)), Entry(9, Pos(3, 2))], 0) == SiftUp([Entry(9, Pos(0, 1)), Entry(9, Pos(0, 5)), Entry(11, Pos(5, 5)), Entry(9, Pos(4, 4)), Entry(9, Pos(3, 2))], 2);
    assert SiftUp([Entry(9, Pos(0, 1)), Entry(9, Pos(0, 5)), Entry(11, Pos(5, 5)), Entry(9, Pos(4, 4)), Entry(9, Pos(3, 2))], 2) == SiftDown([Entry(9, Pos(0, 1)), Entry(9, Pos(0, 5)), Entry(11, Pos(5, 5)), Entry(9, Pos(4, 4)), Entry(9, Pos(3, 2))], 2);
    assert SiftDown([Entry(9, Pos(0, 1)), Entry(9, Pos(0, 5)), Entry(11, Pos(5, 5)), Entry(9, Pos(4, 4)), Entry(9, Pos(3, 2))], 2) == [Entry(9, Pos(0, 1)), Entry(9, Pos(0, 5)), Entry(11, Pos(5, 5)), Entry(9, Pos(4, 4)), Entry(9, Pos(3, 2))];
  }

  /** Pop 14 takes Entry(9, Pos(4, 3)) off the heap. */
  lemma StalePop14()
    ensures Pop(StaleState14) == Step(Entry(9, Pos(4, 3)), StaleState14_0)
  {
    assert StaleState14.queue == [Entry(9, Pos(4, 3)), Entry(9, Pos(0, 5)), Entry(9, Pos(0, 1)), Entry(9, Pos(4, 4)), Entry(9, Pos(3, 2)), Entry(11, Pos(5, 5))];
    StaleHeapPop14();
    assert Remove(StaleState14.tSet, Pos(4, 3)) == Cons(Pos(0, 1), Cons(Pos(5, 5), Cons(Pos(3, 2), Cons(Pos(0, 5), Cons(Pos(4, 4), Nil)))));
  }

  /** The neighbours of Pos(4, 3). */
  lemma StaleNeighbors14()
    ensures Items(NeighborPositions(6, {Pos(0, 4), Pos(1, 1), Pos(2, 1), Pos(5, 2)}, Pos(4, 3)), 0) == Cons(Pos(5, 3), Cons(Pos(3, 3), Cons(Pos(4, 4), Cons(Pos(4, 2), Nil))))
  {
  }

  const StaleState14_1 :=
    Search(
      Bind(Pos(5, 3), 4, Bind(Pos(0, 1), 7, Bind(Pos(5, 5), 2, Bind(Pos(3, 2), 3, Bind(Pos(4, 3), 3, Bind(Pos(0, 2), 6, Bind(Pos(3, 2), 5, Bind(Pos(1, 2), 5, Bind(Pos(0, 3), 5, Bind(Pos(2, 2), 4, Bind(Pos(1, 3), 4, Bind(Pos(2, 3), 3, Bind(Pos(1, 4), 3, Bind(Pos(0, 5), 3, Bind(Pos(3, 3), 2, Bind(Pos(4, 4), 2, Bind(Pos(2, 4), 2, Bind(Pos(1, 5), 2, Bind(Pos(3, 4), 1, Bind(Pos(2, 5), 1, Bind(Pos(4, 5), 1, Bind(Pos(3, 5), 0, Empty)))))))))))))))))))))),
      [Entry(9, Pos(0, 1)), Entry(9, Pos(0, 5)), Entry(11, Pos(5, 5)), Entry(9, Pos(4, 4)), Entry(9, Pos(3, 2)), Entry(11, Pos(5, 3))],
      Cons(Pos(5, 3), Cons(Pos(0, 1), Cons(Pos(5, 5), Cons(Pos(3, 2), Cons(Pos(0, 5), Cons(Pos(4, 4), Nil)))))),
      Bind(Pos(5, 3), Pos(4, 3), Bind(Pos(0, 1), Pos(0, 2), Bind(Pos(5, 5), Pos(4, 5), Bind(Pos(3, 2), Pos(3, 3), Bind(Pos(4, 3), Pos(3, 3), Bind(Pos(0, 2), Pos(1, 2), Bind(Pos(3, 2), Pos(2, 2), Bind(Pos(1, 2), Pos(1, 3), Bind(Pos(0, 3), Pos(1, 3), Bind(Pos(2, 2), Pos(2, 3), Bind(Pos(1, 3), Pos(1, 4), Bind(Pos(2, 3), Pos(2, 4), Bind(Pos(1, 4), Pos(1, 5), Bind(Pos(0, 5), Pos(1, 5), Bind(Pos(3, 3), Pos(3, 4), Bind(Pos(4, 4), Pos(3, 4), Bind(Pos(2, 4), Pos(2, 5), Bind(Pos(1, 5), Pos(2, 5), Bind(Pos(3, 4), Pos(3, 5), Bind(Pos(2, 5), Pos(3, 5), Bind(Pos(4, 5), Pos(3, 5), Empty))))))))))))))))))))))

  lemma StaleHeapPush14_1()
    ensures HeapPush([Entry(9, Pos(0, 1)), Entry(9, Pos(0, 5)), Entry(11, Pos(5, 5)), Entry(9, Pos(4, 4)), Entry(9, Pos(3, 2))], Entry(11, Pos(5, 3))) == [Entry(9, Pos(0, 1)), Entry(9, Pos(0, 5)), Entry(11, Pos(5, 5)), Entry(9, Pos(4, 4)), Entry(9, Pos(3, 2)), Entry(11, Pos(5, 3))]
  {
    assert HeapPush([Entry(9, Pos(0, 1)), Entry(9, Pos(0, 5)), Entry(11, Pos(5, 5)), Entry(9, Pos(4, 4)), Entry(9, Pos(3, 2))], Entry(11, Pos(5, 3))) == SiftDown([Entry(9, Pos(0, 1)), Entry(9, Pos(0, 5)), Entry(11, Pos(5, 5)), Entry(9, Pos(4, 4)), Entry(9, Pos(3, 2)), Entry(11, Pos(5, 3))], 5);
    assert SiftDown([Entry(9, Pos(0, 1)), Entry(9, Pos(0, 5)), Entry(11, Pos(5, 5)), Entry(9, Pos(4, 4)), Entry(9, Pos(3, 2)), Entry(11, Pos(5, 3))], 5) == [Entry(9, Pos(0, 1)), Entry(9, Pos(0, 5)), Entry(11, Pos(5, 5)), Entry(9, Pos(4, 4)), Entry(9, Pos(3, 2)), Entry(11, Pos(5, 3))];
  }

  lemma StaleRelax14_1()
    ensures RelaxOne(Pos(1, 0), Pos(4, 3), 3, StaleState14_0, Pos(5, 3)) == StaleState14_1
  {
    var c4 := StaleState14_0.cost.rest.rest.rest.rest;
    var c8 := c4.rest.rest.rest.rest;
    var c12 := c8.rest.rest.rest.rest;
    var c16 := c12.rest.rest.rest.rest;
    var c20 := c16.rest.rest.rest.rest;
    assert Get(c20, Pos(5, 3)) == None;
    assert Get(c16, Pos(5, 3)) == None;
    assert Get(c12, Pos(5, 3)) == None;
    assert Get(c8, Pos(5, 3)) == None;
    assert Get(c4, Pos(5, 3)) == None;
    assert Get(StaleState14_0.cost, Pos(5, 3)) == None;
    var t4 := StaleState14_0.tSet.tail.tail.tail.tail;
    assert !Has(t4, Pos(5, 3));
    assert !Has(StaleState14_0.tSet, Pos(5, 3));
    assert StaleState14_0.queue == [Entry(9, Pos(0, 1)), Entry(9, Pos(0, 5)), Entry(11, Pos(5, 5)), Entry(9, Pos(4, 4)), Entry(9, Pos(3, 2))];
    StaleHeapPush14_1();
  }

  lemma StaleRelax14_2()
    ensures RelaxOne(Pos(1, 0), Pos(4, 3), 3, StaleState14_1, Pos(3, 3)) == StaleState14_1
  {
    var c4 := StaleState14_1.cost.rest.rest.rest.rest;
    var c8 := c4.rest.rest.rest.rest;
    var c12 := c8.rest.rest.rest.rest;
    assert Get(c12, Pos(3, 3)) == Some(2);
    assert Get(c8, Pos(3, 3)) == Some(2);
    assert Get(c4, Pos(3, 3)) == Some(2);
    assert Get(StaleState14_1.cost, Pos(3, 3)) == Some(2);
  }

  lemma StaleRelax14_3()
    ensures RelaxOne(Pos(1, 0), Pos(4, 3), 3, StaleState14_1, Pos(4, 4)) == StaleState14_1
  {
    var c4 := StaleState14_1.cost.rest.rest.rest.rest;
    var c8 := c4.rest.rest.rest.rest;
    var c12 := c8.rest.rest.rest.rest;
    assert Get(c12, Pos(4, 4)) == Some(2);
    assert Get(c8, Pos(4, 4)) == Some(2);
    assert Get(c4, Pos(4, 4)) == Some(2);
    assert Get(StaleState14_1.cost, Pos(4, 4)) == Some(2);
  }

  lemma StaleHeapPush14_4()
    ensures HeapPush([Entry(9, Pos(0, 1)), Entry(9, Pos(0, 5)), Entry(11, Pos(5, 5)), Entry(9, Pos(4, 4)), Entry(9, Pos(3, 2)), Entry(11, Pos(5, 3))], Entry(9, Pos(4, 2))) == [Entry(9, Pos(0, 1)), Entry(9, Pos(0, 5)), Entry(9, Pos(4, 2)), Entry(9, Pos(4, 4)), Entry(9, Pos(3, 2)), Entry(11, Pos(5, 3)), Entry(11, Pos(5, 5))]
  {
    assert HeapPush([Entry(9, Pos(0, 1)), Entry(9, Pos(0, 5)), Entry(11, Pos(5, 5)), Entry(9, Pos(4, 4)), Entry(9, Pos(3, 2)), Entry(11, Pos(5, 3))], Entry(9, Pos(4, 2))) == SiftDown([Entry(9, Pos(0, 1)), Entry(9, Pos(0, 5)), Entry(11, Pos(5, 5)), Entry(9, Pos(4, 4)), Entry(9, Pos(3, 2)), Entry(11, Pos(5, 3)), Entry(9, Pos(4, 2))], 6);
    assert SiftDown([Entry(9, Pos(0, 1)), Entry(9, Pos(0, 5)), Entry(11, Pos(5, 5)), Entry(9, Pos(4, 4)), Entry(9, Pos(3, 2)), Entry(11, Pos(5, 3)), Entry(9, Pos(4, 2))], 6) == SiftDown([Entry(9, Pos(0, 1)), Entry(9, Pos(0, 5)), Entry(9, Pos(4, 2)), Entry(9, Pos(4, 4)), Entry(9, Pos(3, 2)), Entry(11, Pos(5, 3)), Entry(11, Pos(5, 5))], 2);
    assert SiftDown([Entry(9, Pos(0, 1)), Entry(9, Pos(0, 5)), Entry(9, Pos(4, 2)), Entry(9, Pos(4, 4)), Entry(9, Pos(3, 2)), Entry(11, Pos(5, 3)), Entry(11, Pos(5, 5))], 2) == [Entry(9, Pos(0, 1)), Entry(9, Pos(0, 5)), Entry(9, Pos(4, 2)), Entry(9, Pos(4, 4)), Entry(9, Pos(3, 2)), Entry(11, Pos(5, 3)), Entry(11, Pos(5, 5))];
  }

  lemma StaleRelax14_4()
    ensures RelaxOne(Pos(1, 0), Pos(4, 3), 3, StaleState14_1, Pos(4, 2)) == StaleState15
  {
    var c4 := StaleState14_1.cost.rest.rest.rest.rest;
    var c8 := c4.rest.rest.rest.rest;
    var c12 := c8.rest.rest.rest.rest;
    var c16 := c12.rest.rest.rest.rest;
    var c20 := c16.rest.rest.rest.rest;
    assert Get(c20, Pos(4, 2)) == None;
    assert Get(c16, Pos(4, 2)) == None;
    assert Get(c12, Pos(4, 2)) == None;
    assert Get(c8, Pos(4, 2)) == None;
    assert Get(c4, Pos(4, 2)) == None;
    assert Get(StaleState14_1.cost, Pos(4, 2)) == None;
    var t4 := StaleState14_1.tSet.tail.tail.tail.tail;
    assert !Has(t4, Pos(4, 2));
    assert !Has(StaleState14_1.tSet, Pos(4, 2));
    assert StaleState14_1.queue == [Entry(9, Pos(0, 1)), Entry(9, Pos(0, 5)), Entry(11, Pos(5, 5)), Entry(9, Pos(4, 4)), Entry(9, Pos(3, 2)), Entry(11, Pos(5, 3))];
    StaleHeapPush14_4();
  }

  /** The neighbour loop of pop 14 leaves the state of pop 15. */
  lemma StaleRound14()
    ensures Round(StaleRows, StaleBarriers, StaleGoal, StaleState14_0, Pos(4, 3)) == StaleState15
  {
    assert Get(StaleState14_0.cost, Pos(4, 3)) == Some(3);
    StaleNeighbors14();
    StaleRelax14_1();
    StaleRelax14_2();
    StaleRelax14_3();
    StaleRelax14_4();
  }

  /** Pop 14 hands over to pop 15. */
  lemma StaleLoop14()
    ensures Loop(StaleRows, StaleBarriers, StaleGoal, StaleState14, 6) == Loop(StaleRows, StaleBarriers, StaleGoal, StaleState15, 5)
  {
    StalePop14();
    StaleRound14();
  }

  const StaleState15_0 :=
    Search(
      Bind(Pos(4, 2), 4, Bind(Pos(5, 3), 4, Bind(Pos(0, 1), 7, Bind(Pos(5, 5), 2, Bind(Pos(3, 2), 3, Bind(Pos(4, 3), 3, Bind(Pos(0, 2), 6, Bind(Pos(3, 2), 5, Bind(Pos(1, 2), 5, Bind(Pos(0, 3), 5, Bind(Pos(2, 2), 4, Bind(Pos(1, 3), 4, Bind(Pos(2, 3), 3, Bind(Pos(1, 4), 3, Bind(Pos(0, 5), 3, Bind(Pos(3, 3), 2, Bind(Pos(4, 4), 2, Bind(Pos(2, 4), 2, Bind(Pos(1, 5), 2, Bind(Pos(3, 4), 1, Bind(Pos(2, 5), 1, Bind(Pos(4, 5), 1, Bind(Pos(3, 5), 0, Empty))))))))))))))))))))))),
      [Entry(9, Pos(4, 2)), Entry(9, Pos(0, 5)), Entry(11, Pos(5, 3)), Entry(9, Pos(4, 4)), Entry(9, Pos(3, 2)), Entry(11, Pos(5, 5))],
      Cons(Pos(4, 2), Cons(Pos(5, 3), Cons(Pos(5, 5), Cons(Pos(3, 2), Cons(Pos(0, 5), Cons(Pos(4, 4), Nil)))))),
      Bind(Pos(4, 2), Pos(4, 3), Bind(Pos(5, 3), Pos(4, 3), Bind(Pos(0, 1), Pos(0, 2), Bind(Pos(5, 5), Pos(4, 5), Bind(Pos(3, 2), Pos(3, 3), Bind(Pos(4, 3), Pos(3, 3), Bind(Pos(0, 2), Pos(1, 2), Bind(Pos(3, 2), Pos(2, 2), Bind(Pos(1, 2), Pos(1, 3), Bind(Pos(0, 3), Pos(1, 3), Bind(Pos(2, 2), Pos(2, 3), Bind(Pos(1, 3), Pos(1, 4), Bind(Pos(2, 3), Pos(2, 4), Bind(Pos(1, 4), Pos(1, 5), Bind(Pos(0, 5), Pos(1, 5), Bind(Pos(3, 3), Pos(3, 4), Bind(Pos(4, 4), Pos(3, 4), Bind(Pos(2, 4), Pos(2, 5), Bind(Pos(1, 5), Pos(2, 5), Bind(Pos(3, 4), Pos(3, 5), Bind(Pos(2, 5), Pos(3, 5), Bind(Pos(4, 5), Pos(3, 5), Empty)))))))))))))))))))))))

  lemma StaleSift15_3()
    ensures SiftUp([Entry(11, Pos(5, 5)), Entry(9, Pos(0, 5)), Entry(9, Pos(4, 2)), Entry(9, Pos(4, 4)), Entry(9, Pos(3, 2)), Entry(11, Pos(5, 3))], 0) == SiftUp([Entry(9, Pos(4, 2)), Entry(9, Pos(0, 5)), Entry(11, Pos(5, 5)), Entry(9, Pos(4, 4)), Entry(9, Pos(3, 2)), Entry(11, Pos(5, 3))], 2)
  {
  }

  lemma StaleSift15_4()
    ensures SiftUp([Entry(9, Pos(4, 2)), Entry(9, Pos(0, 5)), Entry(11, Pos(5, 5)), Entry(9, Pos(4, 4)), Entry(9, Pos(3, 2)), Entry(11, Pos(5, 3))], 2) == SiftUp([Entry(9, Pos(4, 2)), Entry(9, Pos(0, 5)), Entry(11, Pos(5, 3)), Entry(9, Pos(4, 4)), Entry(9, Pos(3, 2)), Entry(11, Pos(5, 5))], 5)
  {
  }

  lemma StaleSift15_5()
    ensures SiftUp([Entry(9, Pos(4, 2)), Entry(9, Pos(0, 5)), Entry(11, Pos(5, 3)), Entry(9, Pos(4, 4)), Entry(9, Pos(3, 2)), Entry(11, Pos(5, 5))], 5) == SiftDown([Entry(9, Pos(4, 2)), Entry(9, Pos(0, 5)), Entry(11, Pos(5, 3)), Entry(9, Pos(4, 4)), Entry(9, Pos(3, 2)), Entry(11, Pos(5, 5))], 5)
  {
  }

  lemma StaleSift15_6()
    ensures SiftDown([Entry(9, Pos(4, 2)), Entry(9, Pos(0, 5)), Entry(11, Pos(5, 3)), Entry(9, Pos(4, 4)), Entry(9, Pos(3, 2)), Entry(11, Pos(5, 5))], 5) == [Entry(9, Pos(4, 2)), Entry(9, Pos(0, 5)), Entry(11, Pos(5, 3)), Entry(9, Pos(4, 4)), Entry(9, Pos(3, 2)), Entry(11, Pos(5, 5))]
  {
  }

  /** The `heappop` of pop 15. */
  lemma StaleHeapPop15()
    ensures HeapPop([Entry(9, Pos(0, 1)), Entry(9, Pos(0, 5)), Entry(9, Pos(4, 2)), Entry(9, Pos(4, 4)), Entry(9, Pos(3, 2)), Entry(11, Pos(5, 3)), Entry(11, Pos(5, 5))]) == Popped(Entry(9, Pos(0, 1)), [Entry(9, Pos(4, 2)), Entry(9, Pos(0, 5)), Entry(11, Pos(5, 3)), Entry(9, Pos(4, 4)), Entry(9, Pos(3, 2)), Entry(11, Pos(5, 5))])
  {
    assert [Entry(9, Pos(0, 1)), Entry(9, Pos(0, 5)), Entry(9, Pos(4, 2)), Entry(9, Pos(4, 4)), Entry(9, Pos(3, 2)), Entry(11, Pos(5, 3)), Entry(11, Pos(5, 5))][..6] == [Entry(9, Pos(0, 1)), Entry(9, Pos(0, 5)), Entry(9, Pos(4, 2)), Entry(9, Pos(4, 4)), Entry(9, Pos(3, 2)), Entry(11, Pos(5, 3))];
    assert [Entry(9, Pos(0, 1)), Entry(9, Pos(0, 5)), Entry(9, Pos(4, 2)), Entry(9, Pos(4, 4)), Entry(9, Pos(3, 2)), Entry(11, Pos(5, 3))][0 := Entry(11, Pos(5, 5))] == [Entry(11, Pos(5, 5)), Entry(9, Pos(0, 5)), Entry(9, Pos(4, 2)), Entry(9, Pos(4, 4)), Entry(9, Pos(3, 2)), Entry(11, Pos(5, 3))];
    assert HeapPop([Entry(9, Pos(0, 1)), Entry(9, Pos(0, 5)), Entry(9, Pos(4, 2)), Entry(9, Pos(4, 4)), Entry(9, Pos(3, 2)), Entry(11, Pos(5, 3)), Entry(11, Pos(5, 5))]) == Popped(Entry(9, Pos(0, 1)), SiftUp([Entry(11, Pos(5, 5)), Entry(9, Pos(0, 5)), Entry(9, Pos(4, 2)), Entry(9, Pos(4, 4)), Entry(9, Pos(3, 2)), Entry(11, Pos(5, 3))], 0));
    StaleSift15_3();
    StaleSift15_4();
    StaleSift15_5();
    StaleSift15_6();
  }

  /** Pop 15 takes Entry(9, Pos(0, 1)) off the heap. */
  lemma StalePop15()
    ensures Pop(StaleState15) == Step(Entry(9, Pos(0, 1)), StaleState15_0)
  {
    assert StaleState15.queue == [Entry(9, Pos(0, 1)), Entry(9, Pos(0, 5)), Entry(9, Pos(4, 2)), Entry(9, Pos(4, 4)), Entry(9, Pos(3, 2)), Entry(11, Pos(5, 3)), Entry(11, Pos(5, 5))];
    StaleHeapPop15();
    assert Remove(StaleState15.tSet, Pos(0, 1)) == Cons(Pos(4, 2), Cons(Pos(5, 3), Cons(Pos(5, 5), Cons(Pos(3, 2), Cons(Pos(0, 5), Cons(Pos(4, 4), Nil))))));
  }

  /** The neighbours of Pos(0, 1). */
  lemma StaleNeighbors15()
    ensures Items(NeighborPositions(6, {Pos(0, 4), Pos(1, 1), Pos(2, 1), Pos(5, 2)}, Pos(0, 1)), 0) == Cons(Pos(0, 2), Cons(Pos(0, 0), Nil))
  {
  }

  lemma StaleRelax15_1()
    ensures RelaxOne(Pos(1, 0), Pos(0, 1), 7, StaleState15_0, Pos(0, 2)) == StaleState15_0
  {
    var c4 := StaleState15_0.cost.rest.rest.rest.rest;
    assert Get(c4, Pos(0, 2)) == Some(6);
    assert Get(StaleState15_0.cost, Pos(0, 2)) == Some(6);
  }

  lemma StaleHeapPush15_2()
    ensures HeapPush([Entry(9, Pos(4, 2)), Entry(9, Pos(0, 5)), Entry(11, Pos(5, 3)), Entry(9, Pos(4, 4)), Entry(9, Pos(3, 2)), Entry(11, Pos(5, 5))], Entry(9, Pos(0, 0))) == [Entry(9, Pos(4, 2)), Entry(9, Pos(0, 5)), Entry(9, Pos(0, 0)), Entry(9, Pos(4, 4)), Entry(9, Pos(3, 2)), Entry(11, Pos(5, 5)), Entry(11, Pos(5, 3))]
  {
    assert HeapPush([Entry(9, Pos(4, 2)), Entry(9, Pos(0, 5)), Entry(11, Pos(5, 3)), Entry(9, Pos(4, 4)), Entry(9, Pos(3, 2)), Entry(11, Pos(5, 5))], Entry(9, Pos(0, 0))) == SiftDown([Entry(9, Pos(4, 2)), Entry(9, Pos(0, 5)), Entry(11, Pos(5, 3)), Entry(9, Pos(4, 4)), Entry(9, Pos(3, 2)), Entry(11, Pos(5, 5)), Entry(9, Pos(0, 0))], 6);
    assert SiftDown([Entry(9, Pos(4, 2)), Entry(9, Pos(0, 5)), Entry(11, Pos(5, 3)), Entry(9, Pos(4, 4)), Entry(9, Pos(3, 2)), Entry(11, Pos(5, 5)), Entry(9, Pos(0, 0))], 6) == SiftDown([Entry(9, Pos(4, 2)), Entry(9, Pos(0, 5)), Entry(9, Pos(0, 0)), Entry(9, Pos(4, 4)), Entry(9, Pos(3, 2)), Entry(11, Pos(5, 5)), Entry(11, Pos(5, 3))], 2);
    assert SiftDown([Entry(9, Pos(4, 2)), Entry(9, Pos(0, 5)), Entry(9, Pos(0, 0)), Entry(9, Pos(4, 4)), Entry(9, Pos(3, 2)), Entry(11, Pos(5, 5)), Entry(11, Pos(5, 3))], 2) == [Entry(9, Pos(4, 2)), Entry(9, Pos(0, 5)), Entry(9, Pos(0, 0)), Entry(9, Pos(4, 4)), Entry(9, Pos(3, 2)), Entry(11, Pos(5, 5)), Entry(11, Pos(5, 3))];
  }

  lemma StaleRelax15_2()
    ensures RelaxOne(Pos(1, 0), Pos(0, 1), 7, StaleState15_0, Pos(0, 0)) == StaleState16
  {
    var c4 := StaleState15_0.cost.rest.rest.rest.rest;
    var c8 := c4.rest.rest.rest.rest;
    var c12 := c8.rest.rest.rest.rest;
    var c16 := c12.rest.rest.rest.rest;
    var c20 := c16.rest.rest.rest.rest;
    assert Get(c20, Pos(0, 0)) == None;
    assert Get(c16, Pos(0, 0)) == None;
    assert Get(c12, Pos(0, 0)) == None;
    assert Get(c8, Pos(0, 0)) == None;
    assert Get(c4, Pos(0, 0)) == None;
    assert Get(StaleState15_0.cost, Pos(0, 0)) == None;
    var t4 := StaleState15_0.tSet.tail.tail.tail.tail;
    assert !Has(t4, Pos(0, 0));
    assert !Has(StaleState15_0.tSet, Pos(0, 0));
    assert StaleState15_0.queue == [Entry(9, Pos(4, 2)), Entry(9, Pos(0, 5)), Entry(11, Pos(5, 3)), Entry(9, Pos(4, 4)), Entry(9, Pos(3, 2)), Entry(11, Pos(5, 5))];
    StaleHeapPush15_2();
  }

  /** The neighbour loop of pop 15 leaves the state of pop 16. */
  lemma StaleRound15()
    ensures Round(StaleRows, StaleBarriers, StaleGoal, StaleState15_0, Pos(0, 1)) == StaleState16
  {
    assert Get(StaleState15_0.cost, Pos(0, 1)) == Some(7);
    StaleNeighbors15();
    StaleRelax15_1();
    StaleRelax15_2();
  }

  /** Pop 15 hands over to pop 16. */
  lemma StaleLoop15()
    ensures Loop(StaleRows, StaleBarriers, StaleGoal, StaleState15, 5) == Loop(StaleRows, StaleBarriers, StaleGoal, StaleState16, 4)
  {
    StalePop15();
    StaleRound15();
  }

  const StaleState16_0 :=
    Search(
      Bind(Pos(0, 0), 8, Bind(Pos(4, 2), 4, Bind(Pos(5, 3), 4, Bind(Pos(0, 1), 7, Bind(Pos(5, 5), 2, Bind(Pos(3, 2), 3, Bind(Pos(4, 3), 3, Bind(Pos(0, 2), 6, Bind(Pos(3, 2), 5, Bind(Pos(1, 2), 5, Bind(Pos(0, 3), 5, Bind(Pos(2, 2), 4, Bind(Pos(1, 3), 4, Bind(Pos(2, 3), 3, Bind(Pos(1, 4), 3, Bind(Pos(0, 5), 3, Bind(Pos(3, 3), 2, Bind(Pos(4, 4), 2, Bind(Pos(2, 4), 2, Bind(Pos(1, 5), 2, Bind(Pos(3, 4), 1, Bind(Pos(2, 5), 1, Bind(Pos(4, 5), 1, Bind(Pos(3, 5), 0, Empty)))))))))))))))))))))))),
      [Entry(9, Pos(0, 0)), Entry(9, Pos(0, 5)), Entry(11, Pos(5, 5)), Entry(9, Pos(4, 4)), Entry(9, Pos(3, 2)), Entry(11, Pos(5, 3))],
      Cons(Pos(0, 0), Cons(Pos(5, 3), Cons(Pos(5, 5), Cons(Pos(3, 2), Cons(Pos(0, 5), Cons(Pos(4, 4), Nil)))))),
      Bind(Pos(0, 0), Pos(0, 1), Bind(Pos(4, 2), Pos(4, 3), Bind(Pos(5, 3), Pos(4, 3), Bind(Pos(0, 1), Pos(0, 2), Bind(Pos(5, 5), Pos(4, 5), Bind(Pos(3, 2), Pos(3, 3), Bind(Pos(4, 3), Pos(3, 3), Bind(Pos(0, 2), Pos(1, 2), Bind(Pos(3, 2), Pos(2, 2), Bind(Pos(1, 2), Pos(1, 3), Bind(Pos(0, 3), Pos(1, 3), Bind(Pos(2, 2), Pos(2, 3), Bind(Pos(1, 3), Pos(1, 4), Bind(Pos(2, 3), Pos(2, 4), Bind(Pos(1, 4), Pos(1, 5), Bind(Pos(0, 5), Pos(1, 5), Bind(Pos(3, 3), Pos(3, 4), Bind(Pos(4, 4), Pos(3, 4), Bind(Pos(2, 4), Pos(2, 5), Bind(Pos(1, 5), Pos(2, 5), Bind(Pos(3, 4), Pos(3, 5), Bind(Pos(2, 5), Pos(3, 5), Bind(Pos(4, 5), Pos(3, 5), Empty))))))))))))))))))))))))

  lemma StaleSift16_3()
    ensures SiftUp([Entry(11, Pos(5, 3)), Entry(9, Pos(0, 5)), Entry(9, Pos(0, 0)), Entry(9, Pos(4, 4)), Entry(9, Pos(3, 2)), Entry(11, Pos(5, 5))], 0) == SiftUp([Entry(9, Pos(0, 0)), Entry(9, Pos(0, 5)), Entry(11, Pos(5, 3)), Entry(9, Pos(4, 4)), Entry(9, Pos(3, 2)), Entry(11, Pos(5, 5))], 2)
  {
  }

  lemma StaleSift16_4()
    ensures SiftUp([Entry(9, Pos(0, 0)), Entry(9, Pos(0, 5)), Entry(11, Pos(5, 3)), Entry(9, Pos(4, 4)), Entry(9, Pos(3, 2)), Entry(11, Pos(5, 5))], 2) == SiftUp([Entry(9, Pos(0, 0)), Entry(9, Pos(0, 5)), Entry(11, Pos(5, 5)), Entry(9, Pos(4, 4)), Entry(9, Pos(3, 2)), Entry(11, Pos(5, 3))], 5)
  {
  }

  lemma StaleSift16_5()
    ensures SiftUp([Entry(9, Pos(0, 0)), Entry(9, Pos(0, 5)), Entry(11, Pos(5, 5)), Entry(9, Pos(4, 4)), Entry(9, Pos(3, 2)), Entry(11, Pos(5, 3))], 5) == SiftDown([Entry(9, Pos(0, 0)), Entry(9, Pos(0, 5)), Entry(11, Pos(5, 5)), Entry(9, Pos(4, 4)), Entry(9, Pos(3, 2)), Entry(11, Pos(5, 3))], 5)
  {
  }

  lemma StaleSift16_6()
    ensures SiftDown([Entry(9, Pos(0, 0)), Entry(9, Pos(0, 5)), Entry(11, Pos(5, 5)), Entry(9, Pos(4, 4)), Entry(9, Pos(3, 2)), Entry(11, Pos(5, 3))], 5) == [Entry(9, Pos(0, 0)), Entry(9, Pos(0, 5)), Entry(11, Pos(5, 5)), Entry(9, Pos(4, 4)), Entry(9, Pos(3, 2)), Entry(11, Pos(5, 3))]
  {
  }

  /** The `heappop` of pop 16. */
  lemma StaleHeapPop16()
    ensures HeapPop([Entry(9, Pos(4, 2)), Entry(9, Pos(0, 5)), Entry(9, Pos(0, 0)), Entry(9, Pos(4, 4)), Entry(9, Pos(3, 2)), Entry(11, Pos(5, 5)), Entry(11, Pos(5, 3))]) == Popped(Entry(9, Pos(4, 2)), [Entry(9, Pos(0, 0)), Entry(9, Pos(0, 5)), Entry(11, Pos(5, 5)), Entry(9, Pos(4, 4)), Entry(9, Pos(3, 2)), Entry(11, Pos(5, 3))])
  {
    assert [Entry(9, Pos(4, 2)), Entry(9, Pos(0, 5)), Entry(9, Pos(0, 0)), Entry(9, Pos(4, 4)), Entry(9, Pos(3, 2)), Entry(11, Pos(5, 5)), Entry(11, Pos(5, 3))][..6] == [Entry(9, Pos(4, 2)), Entry(9, Pos(0, 5)), Entry(9, Pos(0, 0)), Entry(9, Pos(4, 4)), Entry(9, Pos(3, 2)), Entry(11, Pos(5, 5))];
    assert [Entry(9, Pos(4, 2)), Entry(9, Pos(0, 5)), Entry(9, Pos(0, 0)), Entry(9, Pos(4, 4)), Entry(9, Pos(3, 2)), Entry(11, Pos(5, 5))][0 := Entry(11, Pos(5, 3))] == [Entry(11, Pos(5, 3)), Entry(9, Pos(0, 5)), Entry(9, Pos(0, 0)), Entry(9, Pos(4, 4)), Entry(9, Pos(3, 2)), Entry(11, Pos(5, 5))];
    assert HeapPop([Entry(9, Pos(4, 2)), Entry(9, Pos(0, 5)), Entry(9, Pos(0, 0)), Entry(9, Pos(4, 4)), Entry(9, Pos(3, 2)), Entry(11, Pos(5, 5)), Entry(11, Pos(5, 3))]) == Popped(Entry(9, Pos(4, 2)), SiftUp([Entry(11, Pos(5, 3)), Entry(9, Pos(0, 5)), Entry(9, Pos(0, 0)), Entry(9, Pos(4, 4)), Entry(9, Pos(3, 2)), Entry(11, Pos(5, 5))], 0));
    StaleSift16_3();
    StaleSift16_4();
    StaleSift16_5();
    StaleSift16_6();
  }

  /** Pop 16 takes Entry(9, Pos(4, 2)) off the heap. */
  lemma StalePop16()
    ensures Pop(StaleState16) == Step(Entry(9, Pos(4, 2)), StaleState16_0)
  {
    assert StaleState16.queue == [Entry(9, Pos(4, 2)), Entry(9, Pos(0, 5)), Entry(9, Pos(0, 0)), Entry(9, Pos(4, 4)), Entry(9, Pos(3, 2)), Entry(11, Pos(5, 5)), Entry(11, Pos(5, 3))];
    StaleHeapPop16();
    assert Remove(StaleState16.tSet, Pos(4, 2)) == Cons(Pos(0, 0), Cons(Pos(5, 3), Cons(Pos(5, 5), Cons(Pos(3, 2), Cons(Pos(0, 5), Cons(Pos(4, 4), Nil))))));
  }

  /** The neighbours of Pos(4, 2). */
  lemma StaleNeighbors16()
    ensures Items(NeighborPositions(6, {Pos(0, 4), Pos(1, 1), Pos(2, 1), Pos(5, 2)}, Pos(4, 2)), 0) == Cons(Pos(3, 2), Cons(Pos(4, 3), Cons(Pos(4, 1), Nil)))
  {
  }

  lemma StaleRelax16_1()
    ensures RelaxOne(Pos(1, 0), Pos(4, 2), 4, StaleState16_0, Pos(3, 2)) == StaleState16_0
  {
    var c4 := StaleState16_0.cost.rest.rest.rest.rest;
    assert Get(c4, Pos(3, 2)) == Some(3);
    assert Get(StaleState16_0.cost, Pos(3, 2)) == Some(3);
  }

  lemma StaleRelax16_2()
    ensures RelaxOne(Pos(1, 0), Pos(4, 2), 4, StaleState16_0, Pos(4, 3)) == StaleState16_0
  {
    var c4 := StaleState16_0.cost.rest.rest.rest.rest;
    assert Get(c4, Pos(4, 3)) == Some(3);
    assert Get(StaleState16_0.cost, Pos(4, 3)) == Some(3);
  }

  lemma StaleHeapPush16_3()
    ensures HeapPush([Entry(9, Pos(0, 0)), Entry(9, Pos(0, 5)), Entry(11, Pos(5, 5)), Entry(9, Pos(4, 4)), Entry(9, Pos(3, 2)), Entry(11, Pos(5, 3))], Entry(9, Pos(4, 1))) == [Entry(9, Pos(0, 0)), Entry(9, Pos(0, 5)), Entry(9, Pos(4, 1)), Entry(9, Pos(4, 4)), Entry(9, Pos(3, 2)), Entry(11, Pos(5, 3)), Entry(11, Pos(5, 5))]
  {
    assert HeapPush([Entry(9, Pos(0, 0)), Entry(9, Pos(0, 5)), Entry(11, Pos(5, 5)), Entry(9, Pos(4, 4)), Entry(9, Pos(3, 2)), Entry(11, Pos(5, 3))], Entry(9, Pos(4, 1))) == SiftDown([Entry(9, Pos(0, 0)), Entry(9, Pos(0, 5)), Entry(11, Pos(5, 5)), Entry(9, Pos(4, 4)), Entry(9, Pos(3, 2)), Entry(11, Pos(5, 3)), Entry(9, Pos(4, 1))], 6);
    assert SiftDown([Entry(9, Pos(0, 0)), Entry(9, Pos(0, 5)), Entry(11, Pos(5, 5)), Entry(9, Pos(4, 4)), Entry(9, Pos(3, 2)), Entry(11, Pos(5, 3)), Entry(9, Pos(4, 1))], 6) == SiftDown([Entry(9, Pos(0, 0)), Entry(9, Pos(0, 5)), Entry(9, Pos(4, 1)), Entry(9, Pos(4, 4)), Entry(9, Pos(3, 2)), Entry(11, Pos(5, 3)), Entry(11, Pos(5, 5))], 2);
    assert SiftDown([Entry(9, Pos(0, 0)), Entry(9, Pos(0, 5)), Entry(9, Pos(4, 1)), Entry(9, Pos(4, 4)), Entry(9, Pos(3, 2)), Entry(11, Pos(5, 3)), Entry(11, Pos(5, 5))], 2) == [Entry(9, Pos(0, 0)), Entry(9, Pos(0, 5)), Entry(9, Pos(4, 1)), Entry(9, Pos(4, 4)), Entry(9, Pos(3, 2)), Entry(11, Pos(5, 3)), Entry(11, Pos(5, 5))];
  }

  lemma StaleRelax16_3()
    ensures RelaxOne(Pos(1, 0), Pos(4, 2), 4, StaleState16_0, Pos(4, 1)) == StaleState17
  {
    var c4 := StaleState16_0.cost.rest.rest.rest.rest;
    var c8 := c4.rest.rest.rest.rest;
    var c12 := c8.rest.rest.rest.rest;
    var c16 := c12.rest.rest.rest.rest;
    var c20 := c16.rest.rest.rest.rest;
    var c24 := c20.rest.rest.rest.rest;
    assert Get(c24, Pos(4, 1)) == None;
    assert Get(c20, Pos(4, 1)) == None;
    assert Get(c16, Pos(4, 1)) == None;
    assert Get(c12, Pos(4, 1)) == None;
    assert Get(c8, Pos(4, 1)) == None;
    assert Get(c4, Pos(4, 1)) == None;
    assert Get(StaleState16_0.cost, Pos(4, 1)) == None;
    var t4 := StaleState16_0.tSet.tail.tail.tail.tail;
    assert !Has(t4, Pos(4, 1));
    assert !Has(StaleState16_0.tSet, Pos(4, 1));
    assert StaleState16_0.queue == [Entry(9, Pos(0, 0)), Entry(9, Pos(0, 5)), Entry(11, Pos(5, 5)), Entry(9, Pos(4, 4)), Entry(9, Pos(3, 2)), Entry(11, Pos(5, 3))];
    StaleHeapPush16_3();
  }

  /** The neighbour loop of pop 16 leaves the state of pop 17. */
  lemma StaleRound16()
    ensures Round(StaleRows, StaleBarriers, StaleGoal, StaleState16_0, Pos(4, 2)) == StaleState17
  {
    assert Get(StaleState16_0.cost, Pos(4, 2)) == Some(4);
    StaleNeighbors16();
    StaleRelax16_1();
    StaleRelax16_2();
    StaleRelax16_3();
  }

  /** Pop 16 hands over to pop 17. */
  lemma StaleLoop16()
    ensures Loop(StaleRows, StaleBarriers, StaleGoal, StaleState16, 4) == Loop(StaleRows, StaleBarriers, StaleGoal, StaleState17, 3)
  {
    StalePop16();
    StaleRound16();
  }

  const StaleState17_0 :=
    Search(
      Bind(Pos(4, 1), 5, Bind(Pos(0, 0), 8, Bind(Pos(4, 2), 4, Bind(Pos(5, 3), 4, Bind(Pos(0, 1), 7, Bind(Pos(5, 5), 2, Bind(Pos(3, 2), 3, Bind(Pos(4, 3), 3, Bind(Pos(0, 2), 6, Bind(Pos(3, 2), 5, Bind(Pos(1, 2), 5, Bind(Pos(0, 3), 5, Bind(Pos(2, 2), 4, Bind(Pos(1, 3), 4, Bind(Pos(2, 3), 3, Bind(Pos(1, 4), 3, Bind(Pos(0, 5), 3, Bind(Pos(3, 3), 2, Bind(Pos(4, 4), 2, Bind(Pos(2, 4), 2, Bind(Pos(1, 5), 2, Bind(Pos(3, 4), 1, Bind(Pos(2, 5), 1, Bind(Pos(4, 5), 1, Bind(Pos(3, 5), 0, Empty))))))))))))))))))))))))),
      [Entry(9, Pos(4, 1)), Entry(9, Pos(0, 5)), Entry(11, Pos(5, 3)), Entry(9, Pos(4, 4)), Entry(9, Pos(3, 2)), Entry(11, Pos(5, 5))],
      Cons(Pos(4, 1), Cons(Pos(5, 3), Cons(Pos(5, 5), Cons(Pos(3, 2), Cons(Pos(0, 5), Cons(Pos(4, 4), Nil)))))),
      Bind(Pos(4, 1), Pos(4, 2), Bind(Pos(0, 0), Pos(0, 1), Bind(Pos(4, 2), Pos(4, 3), Bind(Pos(5, 3), Pos(4, 3), Bind(Pos(0, 1), Pos(0, 2), Bind(Pos(5, 5), Pos(4, 5), Bind(Pos(3, 2), Pos(3, 3), Bind(Pos(4, 3), Pos(3, 3), Bind(Pos(0, 2), Pos(1, 2), Bind(Pos(3, 2), Pos(2, 2), Bind(Pos(1, 2), Pos(1, 3), Bind(Pos(0, 3), Pos(1, 3), Bind(Pos(2, 2), Pos(2, 3), Bind(Pos(1, 3), Pos(1, 4), Bind(Pos(2, 3), Pos(2, 4), Bind(Pos(1, 4), Pos(1, 5), Bind(Pos(0, 5), Pos(1, 5), Bind(Pos(3, 3), Pos(3, 4), Bind(Pos(4, 4), Pos(3, 4), Bind(Pos(2, 4), Pos(2, 5), Bind(Pos(1, 5), Pos(2, 5), Bind(Pos(3, 4), Pos(3, 5), Bind(Pos(2, 5), Pos(3, 5), Bind(Pos(4, 5), Pos(3, 5), Empty)))))))))))))))))))))))))

  lemma StaleSift17_3()
    ensures SiftUp([Entry(11, Pos(5, 5)), Entry(9, Pos(0, 5)), Entry(9, Pos(4, 1)), Entry(9, Pos(4, 4)), Entry(9, Pos(3, 2)), Entry(11, Pos(5, 3))], 0) == SiftUp([Entry(9, Pos(4, 1)), Entry(9, Pos(0, 5)), Entry(11, Pos(5, 5)), Entry(9, Pos(4, 4)), Entry(9, Pos(3, 2)), Entry(11, Pos(5, 3))], 2)
  {
  }

  lemma StaleSift17_4()
    ensures SiftUp([Entry(9, Pos(4, 1)), Entry(9, Pos(0, 5)), Entry(11, Pos(5, 5)), Entry(9, Pos(4, 4)), Entry(9, Pos(3, 2)), Entry(11, Pos(5, 3))], 2) == SiftUp([Entry(9, Pos(4, 1)), Entry(9, Pos(0, 5)), Entry(11, Pos(5, 3)), Entry(9, Pos(4, 4)), Entry(9, Pos(3, 2)), Entry(11, Pos(5, 5))], 5)
  {
  }

  lemma StaleSift17_5()
    ensures SiftUp([Entry(9, Pos(4, 1)), Entry(9, Pos(0, 5)), Entry(11, Pos(5, 3)), Entry(9, Pos(4, 4)), Entry(9, Pos(3, 2)), Entry(11, Pos(5, 5))], 5) == SiftDown([Entry(9, Pos(4, 1)), Entry(9, Pos(0, 5)), Entry(11, Pos(5, 3)), Entry(9, Pos(4, 4)), Entry(9, Pos(3, 2)), Entry(11, Pos(5, 5))], 5)
  {
  }

  lemma StaleSift17_6()
    ensures SiftDown([Entry(9, Pos(4, 1)), Entry(9, Pos(0, 5)), Entry(11, Pos(5, 3)), Entry(9, Pos(4, 4)), Entry(9, Pos(3, 2)), Entry(11, Pos(5, 5))], 5) == [Entry(9, Pos(4, 1)), Entry(9, Pos(0, 5)), Entry(11, Pos(5, 3)), Entry(9, Pos(4, 4)), Entry(9, Pos(3, 2)), Entry(11, Pos(5, 5))]
  {
  }

  /** The `heappop` of pop 17. */
  lemma StaleHeapPop17()
    ensures HeapPop([Entry(9, Pos(0, 0)), Entry(9, Pos(0, 5)), Entry(9, Pos(4, 1)), Entry(9, Pos(4, 4)), Entry(9, Pos(3, 2)), Entry(11, Pos(5, 3)), Entry(11, Pos(5, 5))]) == Popped(Entry(9, Pos(0, 0)), [Entry(9, Pos(4, 1)), Entry(9, Pos(0, 5)), Entry(11, Pos(5, 3)), Entry(9, Pos(4, 4)), Entry(9, Pos(3, 2)), Entry(11, Pos(5, 5))])
  {
    assert [Entry(9, Pos(0, 0)), Entry(9, Pos(0, 5)), Entry(9, Pos(4, 1)), Entry(9, Pos(4, 4)), Entry(9, Pos(3, 2)), Entry(11, Pos(5, 3)), Entry(11, Pos(5, 5))][..6] == [Entry(9, Pos(0, 0)), Entry(9, Pos(0, 5)), Entry(9, Pos(4, 1)), Entry(9, Pos(4, 4)), Entry(9, Pos(3, 2)), Entry(11, Pos(5, 3))];
    assert [Entry(9, Pos(0, 0)), Entry(9, Pos(0, 5)), Entry(9, Pos(4, 1)), Entry(9, Pos(4, 4)), Entry(9, Pos(3, 2)), Entry(11, Pos(5, 3))][0 := Entry(11, Pos(5, 5))] == [Entry(11, Pos(5, 5)), Entry(9, Pos(0, 5)), Entry(9, Pos(4, 1)), Entry(9, Pos(4, 4)), Entry(9, Pos(3, 2)), Entry(11, Pos(5, 3))];
    assert HeapPop([Entry(9, Pos(0, 0)), Entry(9, Pos(0, 5)), Entry(9, Pos(4, 1)), Entry(9, Pos(4, 4)), Entry(9, Pos(3, 2)), Entry(11, Pos(5, 3)), Entry(11, Pos(5, 5))]) == Popped(Entry(9, Pos(0, 0)), SiftUp([Entry(11, Pos(5, 5)), Entry(9, Pos(0, 5)), Entry(9, Pos(4, 1)), Entry(9, Pos(4, 4)), Entry(9, Pos(3, 2)), Entry(11, Pos(5, 3))], 0));
    StaleSift17_3();
    StaleSift17_4();
    StaleSift17_5();
    StaleSift17_6();
  }

  /** Pop 17 takes Entry(9, Pos(0, 0)) off the heap. */
  lemma StalePop17()
    ensures Pop(StaleState17) == Step(Entry(9, Pos(0, 0)), StaleState17_0)
  {
    assert StaleState17.queue == [Entry(9, Pos(0, 0)), Entry(9, Pos(0, 5)), Entry(9, Pos(4, 1)), Entry(9, Pos(4, 4)), Entry(9, Pos(3, 2)), Entry(11, Pos(5, 3)), Entry(11, Pos(5, 5))];
    StaleHeapPop17();
    assert Remove(StaleState17.tSet, Pos(0, 0)) == Cons(Pos(4, 1), Cons(Pos(5, 3), Cons(Pos(5, 5), Cons(Pos(3, 2), Cons(Pos(0, 5), Cons(Pos(4, 4), Nil))))));
  }

  /** The neighbours of Pos(0, 0). */
  lemma StaleNeighbors17()
    ensures Items(NeighborPositions(6, {Pos(0, 4), Pos(1, 1), Pos(2, 1), Pos(5, 2)}, Pos(0, 0)), 0) == Cons(Pos(1, 0), Cons(Pos(0, 1), Nil))
  {
  }

  const StaleState17_1 :=
    Search(
      Bind(Pos(1, 0), 9, Bind(Pos(4, 1), 5, Bind(Pos(0, 0), 8, Bind(Pos(4, 2), 4, Bind(Pos(5, 3), 4, Bind(Pos(0, 1), 7, Bind(Pos(5, 5), 2, Bind(Pos(3, 2), 3, Bind(Pos(4, 3), 3, Bind(Pos(0, 2), 6, Bind(Pos(3, 2), 5, Bind(Pos(1, 2), 5, Bind(Pos(0, 3), 5, Bind(Pos(2, 2), 4, Bind(Pos(1, 3), 4, Bind(Pos(2, 3), 3, Bind(Pos(1, 4), 3, Bind(Pos(0, 5), 3, Bind(Pos(3, 3), 2, Bind(Pos(4, 4), 2, Bind(Pos(2, 4), 2, Bind(Pos(1, 5), 2, Bind(Pos(3, 4), 1, Bind(Pos(2, 5), 1, Bind(Pos(4, 5), 1, Bind(Pos(3, 5), 0, Empty)))))))))))))))))))))))))),
      [Entry(9, Pos(4, 1)), Entry(9, Pos(0, 5)), Entry(9, Pos(1, 0)), Entry(9, Pos(4, 4)), Entry(9, Pos(3, 2)), Entry(11, Pos(5, 5)), Entry(11, Pos(5, 3))],
      Cons(Pos(1, 0), Cons(Pos(4, 1), Cons(Pos(5, 3), Cons(Pos(5, 5), Cons(Pos(3, 2), Cons(Pos(0, 5), Cons(Pos(4, 4), Nil))))))),
      Bind(Pos(1, 0), Pos(0, 0), Bind(Pos(4, 1), Pos(4, 2), Bind(Pos(0, 0), Pos(0, 1), Bind(Pos(4, 2), Pos(4, 3), Bind(Pos(5, 3), Pos(4, 3), Bind(Pos(0, 1), Pos(0, 2), Bind(Pos(5, 5), Pos(4, 5), Bind(Pos(3, 2), Pos(3, 3), Bind(Pos(4, 3), Pos(3, 3), Bind(Pos(0, 2), Pos(1, 2), Bind(Pos(3, 2), Pos(2, 2), Bind(Pos(1, 2), Pos(1, 3), Bind(Pos(0, 3), Pos(1, 3), Bind(Pos(2, 2), Pos(2, 3), Bind(Pos(1, 3), Pos(1, 4), Bind(Pos(2, 3), Pos(2, 4), Bind(Pos(1, 4), Pos(1, 5), Bind(Pos(0, 5), Pos(1, 5), Bind(Pos(3, 3), Pos(3, 4), Bind(Pos(4, 4), Pos(3, 4), Bind(Pos(2, 4), Pos(2, 5), Bind(Pos(1, 5), Pos(2, 5), Bind(Pos(3, 4), Pos(3, 5), Bind(Pos(2, 5), Pos(3, 5), Bind(Pos(4, 5), Pos(3, 5), Empty))))))))))))))))))))))))))

  lemma StaleHeapPush17_1()
    ensures HeapPush([Entry(9, Pos(4, 1)), Entry(9, Pos(0, 5)), Entry(11, Pos(5, 3)), Entry(9, Pos(4, 4)), Entry(9, Pos(3, 2)), Entry(11, Pos(5, 5))], Entry(9, Pos(1, 0))) == [Entry(9, Pos(4, 1)), Entry(9, Pos(0, 5)), Entry(9, Pos(1, 0)), Entry(9, Pos(4, 4)), Entry(9, Pos(3, 2)), Entry(11, Pos(5, 5)), Entry(11, Pos(5, 3))]
  {
    assert HeapPush([Entry(9, Pos(4, 1)), Entry(9, Pos(0, 5)), Entry(11, Pos(5, 3)), Entry(9, Pos(4, 4)), Entry(9, Pos(3, 2)), Entry(11, Pos(5, 5))], Entry(9, Pos(1, 0))) == SiftDown([Entry(9, Pos(4, 1)), Entry(9, Pos(0, 5)), Entry(11, Pos(5, 3)), Entry(9, Pos(4, 4)), Entry(9, Pos(3, 2)), Entry(11, Pos(5, 5)), Entry(9, Pos(1, 0))], 6);
    assert SiftDown([Entry(9, Pos(4, 1)), Entry(9, Pos(0, 5)), Entry(11, Pos(5, 3)), Entry(9, Pos(4, 4)), Entry(9, Pos(3, 2)), Entry(11, Pos(5, 5)), Entry(9, Pos(1, 0))], 6) == SiftDown([Entry(9, Pos(4, 1)), Entry(9, Pos(0, 5)), Entry(9, Pos(1, 0)), Entry(9, Pos(4, 4)), Entry(9, Pos(3, 2)), Entry(11, Pos(5, 5)), Entry(11, Pos(5, 3))], 2);
    assert SiftDown([Entry(9, Pos(4, 1)), Entry(9, Pos(0, 5)), Entry(9, Pos(1, 0)), Entry(9, Pos(4, 4)), Entry(9, Pos(3, 2)), Entry(11, Pos(5, 5)), Entry(11, Pos(5, 3))], 2) == [Entry(9, Pos(4, 1)), Entry(9, Pos(0, 5)), Entry(9, Pos(1, 0)), Entry(9, Pos(4, 4)), Entry(9, Pos(3, 2)), Entry(11, Pos(5, 5)), Entry(11, Pos(5, 3))];
  }

  lemma StaleRelax17_1()
    ensures RelaxOne(Pos(1, 0), Pos(0, 0), 8, StaleState17_0, Pos(1, 0)) == StaleState17_1
  {
    var c4 := StaleState17_0.cost.rest.rest.rest.rest;
    var c8 := c4.rest.rest.rest.rest;
    var c12 := c8.rest.rest.rest.rest;
    var c16 := c12.rest.rest.rest.rest;
    var c20 := c16.rest.rest.rest.rest;
    var c24 := c20.rest.rest.rest.rest;
    assert Get(c24, Pos(1, 0)) == None;
    assert Get(c20, Pos(1, 0)) == None;
    assert Get(c16, Pos(1, 0)) == None;
    assert Get(c12, Pos(1, 0)) == None;
    assert Get(c8, Pos(1, 0)) == None;
    assert Get(c4, Pos(1, 0)) == None;
    assert Get(StaleState17_0.cost, Pos(1, 0)) == None;
    var t4 := StaleState17_0.tSet.tail.tail.tail.tail;
    assert !Has(t4, Pos(1, 0));
    assert !Has(StaleState17_0.tSet, Pos(1, 0));
    assert StaleState17_0.queue == [Entry(9, Pos(4, 1)), Entry(9, Pos(0, 5)), Entry(11, Pos(5, 3)), Entry(9, Pos(4, 4)), Entry(9, Pos(3, 2)), Entry(11, Pos(5, 5))];
    StaleHeapPush17_1();
  }

  lemma StaleRelax17_2()
    ensures RelaxOne(Pos(1, 0), Pos(0, 0), 8, StaleState17_1, Pos(0, 1)) == StaleState18
  {
    var c4 := StaleState17_1.cost.rest.rest.rest.rest;
    assert Get(c4, Pos(0, 1)) == Some(7);
    assert Get(StaleState17_1.cost, Pos(0, 1)) == Some(7);
  }

  /** The neighbour loop of pop 17 leaves the state of pop 18. */
  lemma StaleRound17()
    ensures Round(StaleRows, StaleBarriers, StaleGoal, StaleState17_0, Pos(0, 0)) == StaleState18
  {
    assert Get(StaleState17_0.cost, Pos(0, 0)) == Some(8);
    StaleNeighbors17();
    StaleRelax17_1();
    StaleRelax17_2();
  }

  /** Pop 17 hands over to pop 18. */
  lemma StaleLoop17()
    ensures Loop(StaleRows, StaleBarriers, StaleGoal, StaleState17, 3) == Loop(StaleRows, StaleBarriers, StaleGoal, StaleState18, 2)
  {
    StalePop17();
    StaleRound17();
  }

  const StaleState18_0 :=
    Search(
      Bind(Pos(1, 0), 9, Bind(Pos(4, 1), 5, Bind(Pos(0, 0), 8, Bind(Pos(4, 2), 4, Bind(Pos(5, 3), 4, Bind(Pos(0, 1), 7, Bind(Pos(5, 5), 2, Bind(Pos(3, 2), 3, Bind(Pos(4, 3), 3, Bind(Pos(0, 2), 6, Bind(Pos(3, 2), 5, Bind(Pos(1, 2), 5, Bind(Pos(0, 3), 5, Bind(Pos(2, 2), 4, Bind(Pos(1, 3), 4, Bind(Pos(2, 3), 3, Bind(Pos(1, 4), 3, Bind(Pos(0, 5), 3, Bind(Pos(3, 3), 2, Bind(Pos(4, 4), 2, Bind(Pos(2, 4), 2, Bind(Pos(1, 5), 2, Bind(Pos(3, 4), 1, Bind(Pos(2, 5), 1, Bind(Pos(4, 5), 1, Bind(Pos(3, 5), 0, Empty)))))))))))))))))))))))))),
      [Entry(9, Pos(1, 0)), Entry(9, Pos(0, 5)), Entry(11, Pos(5, 5)), Entry(9, Pos(4, 4)), Entry(9, Pos(3, 2)), Entry(11, Pos(5, 3))],
      Cons(Pos(1, 0), Cons(Pos(5, 3), Cons(Pos(5, 5), Cons(Pos(3, 2), Cons(Pos(0, 5), Cons(Pos(4, 4), Nil)))))),
      Bind(Pos(1, 0), Pos(0, 0), Bind(Pos(4, 1), Pos(4, 2), Bind(Pos(0, 0), Pos(0, 1), Bind(Pos(4, 2), Pos(4, 3), Bind(Pos(5, 3), Pos(4, 3), Bind(Pos(0, 1), Pos(0, 2), Bind(Pos(5, 5), Pos(4, 5), Bind(Pos(3, 2), Pos(3, 3), Bind(Pos(4, 3), Pos(3, 3), Bind(Pos(0, 2), Pos(1, 2), Bind(Pos(3, 2), Pos(2, 2), Bind(Pos(1, 2), Pos(1, 3), Bind(Pos(0, 3), Pos(1, 3), Bind(Pos(2, 2), Pos(2, 3), Bind(Pos(1, 3), Pos(1, 4), Bind(Pos(2, 3), Pos(2, 4), Bind(Pos(1, 4), Pos(1, 5), Bind(Pos(0, 5), Pos(1, 5), Bind(Pos(3, 3), Pos(3, 4), Bind(Pos(4, 4), Pos(3, 4), Bind(Pos(2, 4), Pos(2, 5), Bind(Pos(1, 5), Pos(2, 5), Bind(Pos(3, 4), Pos(3, 5), Bind(Pos(2, 5), Pos(3, 5), Bind(Pos(4, 5), Pos(3, 5), Empty))))))))))))))))))))))))))

  lemma StaleSift18_3()
    ensures SiftUp([Entry(11, Pos(5, 3)), Entry(9, Pos(0, 5)), Entry(9, Pos(1, 0)), Entry(9, Pos(4, 4)), Entry(9, Pos(3, 2)), Entry(11, Pos(5, 5))], 0) == SiftUp([Entry(9, Pos(1, 0)), Entry(9, Pos(0, 5)), Entry(11, Pos(5, 3)), Entry(9, Pos(4, 4)), Entry(9, Pos(3, 2)), Entry(11, Pos(5, 5))], 2)
  {
  }

  lemma StaleSift18_4()
    ensures SiftUp([Entry(9, Pos(1, 0)), Entry(9, Pos(0, 5)), Entry(11, Pos(5, 3)), Entry(9, Pos(4, 4)), Entry(9, Pos(3, 2)), Entry(11, Pos(5, 5))], 2) == SiftUp([Entry(9, Pos(1, 0)), Entry(9, Pos(0, 5)), Entry(11, Pos(5, 5)), Entry(9, Pos(4, 4)), Entry(9, Pos(3, 2)), Entry(11, Pos(5, 3))], 5)
  {
  }

  lemma StaleSift18_5()
    ensures SiftUp([Entry(9, Pos(1, 0)), Entry(9, Pos(0, 5)), Entry(11, Pos(5, 5)), Entry(9, Pos(4, 4)), Entry(9, Pos(3, 2)), Entry(11, Pos(5, 3))], 5) == SiftDown([Entry(9, Pos(1, 0)), Entry(9, Pos(0, 5)), Entry(11, Pos(5, 5)), Entry(9, Pos(4, 4)), Entry(9, Pos(3, 2)), Entry(11, Pos(5, 3))], 5)
  {
  }

  lemma StaleSift18_6()
    ensures SiftDown([Entry(9, Pos(1, 0)), Entry(9, Pos(0, 5)), Entry(11, Pos(5, 5)), Entry(9, Pos(4, 4)), Entry(9, Pos(3, 2)), Entry(11, Pos(5, 3))], 5) == [Entry(9, Pos(1, 0)), Entry(9, Pos(0, 5)), Entry(11, Pos(5, 5)), Entry(9, Pos(4, 4)), Entry(9, Pos(3, 2)), Entry(11, Pos(5, 3))]
  {
  }

  /** The `heappop` of pop 18. */
  lemma StaleHeapPop18()
    ensures HeapPop([Entry(9, Pos(4, 1)), Entry(9, Pos(0, 5)), Entry(9, Pos(1, 0)), Entry(9, Pos(4, 4)), Entry(9, Pos(3, 2)), Entry(11, Pos(5, 5)), Entry(11, Pos(5, 3))]) == Popped(Entry(9, Pos(4, 1)), [Entry(9, Pos(1, 0)), Entry(9, Pos(0, 5)), Entry(11, Pos(5, 5)), Entry(9, Pos(4, 4)), Entry(9, Pos(3, 2)), Entry(11, Pos(5, 3))])
  {
    assert [Entry(9, Pos(4, 1)), Entry(9, Pos(0, 5)), Entry(9, Pos(1, 0)), Entry(9, Pos(4, 4)), Entry(9, Pos(3, 2)), Entry(11, Pos(5, 5)), Entry(11, Pos(5, 3))][..6] == [Entry(9, Pos(4, 1)), Entry(9, Pos(0, 5)), Entry(9, Pos(1, 0)), Entry(9, Pos(4, 4)), Entry(9, Pos(3, 2)), Entry(11, Pos(5, 5))];
    assert [Entry(9, Pos(4, 1)), Entry(9, Pos(0, 5)), Entry(9, Pos(1, 0)), Entry(9, Pos(4, 4)), Entry(9, Pos(3, 2)), Entry(11, Pos(5, 5))][0 := Entry(11, Pos(5, 3))] == [Entry(11, Pos(5, 3)), Entry(9, Pos(0, 5)), Entry(9, Pos(1, 0)), Entry(9, Pos(4, 4)), Entry(9, Pos(3, 2)), Entry(11, Pos(5, 5))];
    assert HeapPop([Entry(9, Pos(4, 1)), Entry(9, Pos(0, 5)), Entry(9, Pos(1, 0)), Entry(9, Pos(4, 4)), Entry(9, Pos(3, 2)), Entry(11, Pos(5, 5)), Entry(11, Pos(5, 3))]) == Popped(Entry(9, Pos(4, 1)), SiftUp([Entry(11, Pos(5, 3)), Entry(9, Pos(0, 5)), Entry(9, Pos(1, 0)), Entry(9, Pos(4, 4)), Entry(9, Pos(3, 2)), Entry(11, Pos(5, 5))], 0));
    StaleSift18_3();
    StaleSift18_4();
    StaleSift18_5();
    StaleSift18_6();
  }

  /** Pop 18 takes Entry(9, Pos(4, 1)) off the heap. */
  lemma StalePop18()
    ensures Pop(StaleState18) == Step(Entry(9, Pos(4, 1)), StaleState18_0)
  {
    assert StaleState18.queue == [Entry(9, Pos(4, 1)), Entry(9, Pos(0, 5)), Entry(9, Pos(1, 0)), Entry(9, Pos(4, 4)), Entry(9, Pos(3, 2)), Entry(11, Pos(5, 5)), Entry(11, Pos(5, 3))];
    StaleHeapPop18();
    assert Remove(StaleState18.tSet, Pos(4, 1)) == Cons(Pos(1, 0), Cons(Pos(5, 3), Cons(Pos(5, 5), Cons(Pos(3, 2), Cons(Pos(0, 5), Cons(Pos(4, 4), Nil))))));
  }

  /** The neighbours of Pos(4, 1). */
  lemma StaleNeighbors18()
    ensures Items(NeighborPositions(6, {Pos(0, 4), Pos(1, 1), Pos(2, 1), Pos(5, 2)}, Pos(4, 1)), 0) == Cons(Pos(5, 1), Cons(Pos(3, 1), Cons(Pos(4, 2), Cons(Pos(4, 0), Nil))))
  {
  }

  const StaleState18_1 :=
    Search(
      Bind(Pos(5, 1), 6, Bind(Pos(1, 0), 9, Bind(Pos(4, 1), 5, Bind(Pos(0, 0), 8, Bind(Pos(4, 2), 4, Bind(Pos(5, 3), 4, Bind(Pos(0, 1), 7, Bind(Pos(5, 5), 2, Bind(Pos(3, 2), 3, Bind(Pos(4, 3), 3, Bind(Pos(0, 2), 6, Bind(Pos(3, 2), 5, Bind(Pos(1, 2), 5, Bind(Pos(0, 3), 5, Bind(Pos(2, 2), 4, Bind(Pos(1, 3), 4, Bind(Pos(2, 3), 3, Bind(Pos(1, 4), 3, Bind(Pos(0, 5), 3, Bind(Pos(3, 3), 2, Bind(Pos(4, 4), 2, Bind(Pos(2, 4), 2, Bind(Pos(1, 5), 2, Bind(Pos(3, 4), 1, Bind(Pos(2, 5), 1, Bind(Pos(4, 5), 1, Bind(Pos(3, 5), 0, Empty))))))))))))))))))))))))))),
      [Entry(9, Pos(1, 0)), Entry(9, Pos(0, 5)), Entry(11, Pos(5, 5)), Entry(9, Pos(4, 4)), Entry(9, Pos(3, 2)), Entry(11, Pos(5, 3)), Entry(11, Pos(5, 1))],
      Cons(Pos(5, 1), Cons(Pos(1, 0), Cons(Pos(5, 3), Cons(Pos(5, 5), Cons(Pos(3, 2), Cons(Pos(0, 5), Cons(Pos(4, 4), Nil))))))),
      Bind(Pos(5, 1), Pos(4, 1), Bind(Pos(1, 0), Pos(0, 0), Bind(Pos(4, 1), Pos(4, 2), Bind(Pos(0, 0), Pos(0, 1), Bind(Pos(4, 2), Pos(4, 3), Bind(Pos(5, 3), Pos(4, 3), Bind(Pos(0, 1), Pos(0, 2), Bind(Pos(5, 5), Pos(4, 5), Bind(Pos(3, 2), Pos(3, 3), Bind(Pos(4, 3), Pos(3, 3), Bind(Pos(0, 2), Pos(1, 2), Bind(Pos(3, 2), Pos(2, 2), Bind(Pos(1, 2), Pos(1, 3), Bind(Pos(0, 3), Pos(1, 3), Bind(Pos(2, 2), Pos(2, 3), Bind(Pos(1, 3), Pos(1, 4), Bind(Pos(2, 3), Pos(2, 4), Bind(Pos(1, 4), Pos(1, 5), Bind(Pos(0, 5), Pos(1, 5), Bind(Pos(3, 3), Pos(3, 4), Bind(Pos(4, 4), Pos(3, 4), Bind(Pos(2, 4), Pos(2, 5), Bind(Pos(1, 5), Pos(2, 5), Bind(Pos(3, 4), Pos(3, 5), Bind(Pos(2, 5), Pos(3, 5), Bind(Pos(4, 5), Pos(3, 5), Empty)))))))))))))))))))))))))))

  lemma StaleHeapPush18_1()
    ensures HeapPush([Entry(9, Pos(1, 0)), Entry(9, Pos(0, 5)), Entry(11, Pos(5, 5)), Entry(9, Pos(4, 4)), Entry(9, Pos(3, 2)), Entry(11, Pos(5, 3))], Entry(11, Pos(5, 1))) == [Entry(9, Pos(1, 0)), Entry(9, Pos(0, 5)), Entry(11, Pos(5, 5)), Entry(9, Pos(4, 4)), Entry(9, Pos(3, 2)), Entry(11, Pos(5, 3)), Entry(11, Pos(5, 1))]
  {
    assert HeapPush([Entry(9, Pos(1, 0)), Entry(9, Pos(0, 5)), Entry(11, Pos(5, 5)), Entry(9, Pos(4, 4)), Entry(9, Pos(3, 2)), Entry(11, Pos(5, 3))], Entry(11, Pos(5, 1))) == SiftDown([Entry(9, Pos(1, 0)), Entry(9, Pos(0, 5)), Entry(11, Pos(5, 5)), Entry(9, Pos(4, 4)), Entry(9, Pos(3, 2)), Entry(11, Pos(5, 3)), Entry(11, Pos(5, 1))], 6);
    assert SiftDown([Entry(9, Pos(1, 0)), Entry(9, Pos(0, 5)), Entry(11, Pos(5, 5)), Entry(9, Pos(4, 4)), Entry(9, Pos(3, 2)), Entry(11, Pos(5, 3)), Entry(11, Pos(5, 1))], 6) == [Entry(9, Pos(1, 0)), Entry(9, Pos(0, 5)), Entry(11, Pos(5, 5)), Entry(9, Pos(4, 4)), Entry(9, Pos(3, 2)), Entry(11, Pos(5, 3)), Entry(11, Pos(5, 1))];
  }

  lemma StaleRelax18_1()
    ensures RelaxOne(Pos(1, 0), Pos(4, 1), 5, StaleState18_0, Pos(5, 1)) == StaleState18_1
  {
    var c4 := StaleState18_0.cost.rest.rest.rest.rest;
    var c8 := c4.rest.rest.rest.rest;
    var c12 := c8.rest.rest.rest.rest;
    var c16 := c12.rest.rest.rest.rest;
    var c20 := c16.rest.rest.rest.rest;
    var c24 := c20.rest.rest.rest.rest;
    assert Get(c24, Pos(5, 1)) == None;
    assert Get(c20, Pos(5, 1)) == None;
    assert Get(c16, Pos(5, 1)) == None;
    assert Get(c12, Pos(5, 1)) == None;
    assert Get(c8, Pos(5, 1)) == None;
    assert Get(c4, Pos(5, 1)) == None;
    assert Get(StaleState18_0.cost, Pos(5, 1)) == None;
    var t4 := StaleState18_0.tSet.tail.tail.tail.tail;
    assert !Has(t4, Pos(5, 1));
    assert !Has(StaleState18_0.tSet, Pos(5, 1));
    assert StaleState18_0.queue == [Entry(9, Pos(1, 0)), Entry(9, Pos(0, 5)), Entry(11, Pos(5, 5)), Entry(9, Pos(4, 4)), Entry(9, Pos(3, 2)), Entry(11, Pos(5, 3))];
    StaleHeapPush18_1();
  }

  const StaleState18_2 :=
    Search(
      Bind(Pos(3, 1), 6, Bind(Pos(5, 1), 6, Bind(Pos(1, 0), 9, Bind(Pos(4, 1), 5, Bind(Pos(0, 0), 8, Bind(Pos(4, 2), 4, Bind(Pos(5, 3), 4, Bind(Pos(0, 1), 7, Bind(Pos(5, 5), 2, Bind(Pos(3, 2), 3, Bind(Pos(4, 3), 3, Bind(Pos(0, 2), 6, Bind(Pos(3, 2), 5, Bind(Pos(1, 2), 5, Bind(Pos(0, 3), 5, Bind(Pos(2, 2), 4, Bind(Pos(1, 3), 4, Bind(Pos(2, 3), 3, Bind(Pos(1, 4), 3, Bind(Pos(0, 5), 3, Bind(Pos(3, 3), 2, Bind(Pos(4, 4), 2, Bind(Pos(2, 4), 2, Bind(Pos(1, 5), 2, Bind(Pos(3, 4), 1, Bind(Pos(2, 5), 1, Bind(Pos(4, 5), 1, Bind(Pos(3, 5), 0, Empty)))))))))))))))))))))))))))),
      [Entry(9, Pos(1, 0)), Entry(9, Pos(0, 5)), Entry(11, Pos(5, 5)), Entry(9, Pos(4, 4)), Entry(9, Pos(3, 2)), Entry(11, Pos(5, 3)), Entry(11, Pos(5, 1)), Entry(9, Pos(3, 1))],
      Cons(Pos(3, 1), Cons(Pos(5, 1), Cons(Pos(1, 0), Cons(Pos(5, 3), Cons(Pos(5, 5), Cons(Pos(3, 2), Cons(Pos(0, 5), Cons(Pos(4, 4), Nil)))))))),
      Bind(Pos(3, 1), Pos(4, 1), Bind(Pos(5, 1), Pos(4, 1), Bind(Pos(1, 0), Pos(0, 0), Bind(Pos(4, 1), Pos(4, 2), Bind(Pos(0, 0), Pos(0, 1), Bind(Pos(4, 2), Pos(4, 3), Bind(Pos(5, 3), Pos(4, 3), Bind(Pos(0, 1), Pos(0, 2), Bind(Pos(5, 5), Pos(4, 5), Bind(Pos(3, 2), Pos(3, 3), Bind(Pos(4, 3), Pos(3, 3), Bind(Pos(0, 2), Pos(1, 2), Bind(Pos(3, 2), Pos(2, 2), Bind(Pos(1, 2), Pos(1, 3), Bind(Pos(0, 3), Pos(1, 3), Bind(Pos(2, 2), Pos(2, 3), Bind(Pos(1, 3), Pos(1, 4), Bind(Pos(2, 3), Pos(2, 4), Bind(Pos(1, 4), Pos(1, 5), Bind(Pos(0, 5), Pos(1, 5), Bind(Pos(3, 3), Pos(3, 4), Bind(Pos(4, 4), Pos(3, 4), Bind(Pos(2, 4), Pos(2, 5), Bind(Pos(1, 5), Pos(2, 5), Bind(Pos(3, 4), Pos(3, 5), Bind(Pos(2, 5), Pos(3, 5), Bind(Pos(4, 5), Pos(3, 5), Empty))))))))))))))))))))))))))))

  lemma StaleHeapPush18_2()
    ensures HeapPush([Entry(9, Pos(1, 0)), Entry(9, Pos(0, 5)), Entry(11, Pos(5, 5)), Entry(9, Pos(4, 4)), Entry(9, Pos(3, 2)), Entry(11, Pos(5, 3)), Entry(11, Pos(5, 1))], Entry(9, Pos(3, 1))) == [Entry(9, Pos(1, 0)), Entry(9, Pos(0, 5)), Entry(11, Pos(5, 5)), Entry(9, Pos(4, 4)), Entry(9, Pos(3, 2)), Entry(11, Pos(5, 3)), Entry(11, Pos(5, 1)), Entry(9, Pos(3, 1))]
  {
    assert HeapPush([Entry(9, Pos(1, 0)), Entry(9, Pos(0, 5)), Entry(11, Pos(5, 5)), Entry(9, Pos(4, 4)), Entry(9, Pos(3, 2)), Entry(11, Pos(5, 3)), Entry(11, Pos(5, 1))], Entry(9, Pos(3, 1))) == SiftDown([Entry(9, Pos(1, 0)), Entry(9, Pos(0, 5)), Entry(11, Pos(5, 5)), Entry(9, Pos(4, 4)), Entry(9, Pos(3, 2)), Entry(11, Pos(5, 3)), Entry(11, Pos(5, 1)), Entry(9, Pos(3, 1))], 7);
    assert SiftDown([Entry(9, Pos(1, 0)), Entry(9, Pos(0, 5)), Entry(11, Pos(5, 5)), Entry(9, Pos(4, 4)), Entry(9, Pos(3, 2)), Entry(11, Pos(5, 3)), Entry(11, Pos(5, 1)), Entry(9, Pos(3, 1))], 7) == [Entry(9, Pos(1, 0)), Entry(9, Pos(0, 5)), Entry(11, Pos(5, 5)), Entry(9, Pos(4, 4)), Entry(9, Pos(3, 2)), Entry(11, Pos(5, 3)), Entry(11, Pos(5, 1)), Entry(9, Pos(3, 1))];
  }

  lemma StaleRelax18_2()
    ensures RelaxOne(Pos(1, 0), Pos(4, 1), 5, StaleState18_1, Pos(3, 1)) == StaleState18_2
  {
    var c4 := StaleState18_1.cost.rest.rest.rest.rest;
    var c8 := c4.rest.rest.rest.rest;
    var c12 := c8.rest.rest.rest.rest;
    var c16 := c12.rest.rest.rest.rest;
    var c20 := c16.rest.rest.rest.rest;
    var c24 := c20.rest.rest.rest.rest;
    assert Get(c24, Pos(3, 1)) == None;
    assert Get(c20, Pos(3, 1)) == None;
    assert Get(c16, Pos(3, 1)) == None;
    assert Get(c12, Pos(3, 1)) == None;
    assert Get(c8, Pos(3, 1)) == None;
    assert Get(c4, Pos(3, 1)) == None;
    assert Get(StaleState18_1.cost, Pos(3, 1)) == None;
    var t4 := StaleState18_1.tSet.tail.tail.tail.tail;
    assert !Has(t4, Pos(3, 1));
    assert !Has(StaleState18_1.tSet, Pos(3, 1));
    assert StaleState18_1.queue == [Entry(9, Pos(1, 0)), Entry(9, Pos(0, 5)), Entry(11, Pos(5, 5)), Entry(9, Pos(4, 4)), Entry(9, Pos(3, 2)), Entry(11, Pos(5, 3)), Entry(11, Pos(5, 1))];
    StaleHeapPush18_2();
  }

  lemma StaleRelax18_3()
    ensures RelaxOne(Pos(1, 0), Pos(4, 1), 5, StaleState18_2, Pos(4, 2)) == StaleState18_2
  {
    var c4 := StaleState18_2.cost.rest.rest.rest.rest;
    assert Get(c4, Pos(4, 2)) == Some(4);
    assert Get(StaleState18_2.cost, Pos(4, 2)) == Some(4);
  }

  lemma StaleHeapPush18_4()
    ensures HeapPush([Entry(9, Pos(1, 0)), Entry(9, Pos(0, 5)), Entry(11, Pos(5, 5)), Entry(9, Pos(4, 4)), Entry(9, Pos(3, 2)), Entry(11, Pos(5, 3)), Entry(11, Pos(5, 1)), Entry(9, Pos(3, 1))], Entry(9, Pos(4, 0))) == [Entry(9, Pos(1, 0)), Entry(9, Pos(0, 5)), Entry(11, Pos(5, 5)), Entry(9, Pos(4, 4)), Entry(9, Pos(3, 2)), Entry(11, Pos(5, 3)), Entry(11, Pos(5, 1)), Entry(9, Pos(3, 1)), Entry(9, Pos(4, 0))]
  {
    assert HeapPush([Entry(9, Pos(1, 0)), Entry(9, Pos(0, 5)), Entry(11, Pos(5, 5)), Entry(9, Pos(4, 4)), Entry(9, Pos(3, 2)), Entry(11, Pos(5, 3)), Entry(11, Pos(5, 1)), Entry(9, Pos(3, 1))], Entry(9, Pos(4, 0))) == SiftDown([Entry(9, Pos(1, 0)), Entry(9, Pos(0, 5)), Entry(11, Pos(5, 5)), Entry(9, Pos(4, 4)), Entry(9, Pos(3, 2)), Entry(11, Pos(5, 3)), Entry(11, Pos(5, 1)), Entry(9, Pos(3, 1)), Entry(9, Pos(4, 0))], 8);
    assert SiftDown([Entry(9, Pos(1, 0)), Entry(9, Pos(0, 5)), Entry(11, Pos(5, 5)), Entry(9, Pos(4, 4)), Entry(9, Pos(3, 2)), Entry(11, Pos(5, 3)), Entry(11, Pos(5, 1)), Entry(9, Pos(3, 1)), Entry(9, Pos(4, 0))], 8) == [Entry(9, Pos(1, 0)), Entry(9, Pos(0, 5)), Entry(11, Pos(5, 5)), Entry(9, Pos(4, 4)), Entry(9, Pos(3, 2)), Entry(11, Pos(5, 3)), Entry(11, Pos(5, 1)), Entry(9, Pos(3, 1)), Entry(9, Pos(4, 0))];
  }

  lemma StaleRelax18_4()
    ensures RelaxOne(Pos(1, 0), Pos(4, 1), 5, StaleState18_2, Pos(4, 0)) == StaleState19
  {
    var c4 := StaleState18_2.cost.rest.rest.rest.rest;
    var c8 := c4.rest.rest.rest.rest;
    var c12 := c8.rest.rest.rest.rest;
    var c16 := c12.rest.rest.rest.rest;
    var c20 := c16.rest.rest.rest.rest;
    var c24 := c20.rest.rest.rest.rest;
    var c28 := c24.rest.rest.rest.rest;
    assert Get(c28, Pos(4, 0)) == None;
    assert Get(c24, Pos(4, 0)) == None;
    assert Get(c20, Pos(4, 0)) == None;
    assert Get(c16, Pos(4, 0)) == None;
    assert Get(c12, Pos(4, 0)) == None;
    assert Get(c8, Pos(4, 0)) == None;
    assert Get(c4, Pos(4, 0)) == None;
    assert Get(StaleState18_2.cost, Pos(4, 0)) == None;
    var t4 := StaleState18_2.tSet.tail.tail.tail.tail;
    var t8 := t4.tail.tail.tail.tail;
    assert !Has(t8, Pos(4, 0));
    assert !Has(t4, Pos(4, 0));
    assert !Has(StaleState18_2.tSet, Pos(4, 0));
    assert StaleState18_2.queue == [Entry(9, Pos(1, 0)), Entry(9, Pos(0, 5)), Entry(11, Pos(5, 5)), Entry(9, Pos(4, 4)), Entry(9, Pos(3, 2)), Entry(11, Pos(5, 3)), Entry(11, Pos(5, 1)), Entry(9, Pos(3, 1))];
    StaleHeapPush18_4();
  }

  /** The neighbour loop of pop 18 leaves the state of pop 19. */
  lemma StaleRound18()
    ensures Round(StaleRows, StaleBarriers, StaleGoal, StaleState18_0, Pos(4, 1)) == StaleState19
  {
    assert Get(StaleState18_0.cost, Pos(4, 1)) == Some(5);
    StaleNeighbors18();
    StaleRelax18_1();
    StaleRelax18_2();
    StaleRelax18_3();
    StaleRelax18_4();
  }

  /** Pop 18 hands over to pop 19. */
  lemma StaleLoop18()
    ensures Loop(StaleRows, StaleBarriers, StaleGoal, StaleState18, 2) == Loop(StaleRows, StaleBarriers, StaleGoal, StaleState19, 1)
  {
    StalePop18();
    StaleRound18();
  }

  const StaleState19_0 :=
    Search(
      Bind(Pos(4, 0), 6, Bind(Pos(3, 1), 6, Bind(Pos(5, 1), 6, Bind(Pos(1, 0), 9, Bind(Pos(4, 1), 5, Bind(Pos(0, 0), 8, Bind(Pos(4, 2), 4, Bind(Pos(5, 3), 4, Bind(Pos(0, 1), 7, Bind(Pos(5, 5), 2, Bind(Pos(3, 2), 3, Bind(Pos(4, 3), 3, Bind(Pos(0, 2), 6, Bind(Pos(3, 2), 5, Bind(Pos(1, 2), 5, Bind(Pos(0, 3), 5, Bind(Pos(2, 2), 4, Bind(Pos(1, 3), 4, Bind(Pos(2, 3), 3, Bind(Pos(1, 4), 3, Bind(Pos(0, 5), 3, Bind(Pos(3, 3), 2, Bind(Pos(4, 4), 2, Bind(Pos(2, 4), 2, Bind(Pos(1, 5), 2, Bind(Pos(3, 4), 1, Bind(Pos(2, 5), 1, Bind(Pos(4, 5), 1, Bind(Pos(3, 5), 0, Empty))))))))))))))))))))))))))))),
      [Entry(9, Pos(0, 5)), Entry(9, Pos(3, 2)), Entry(11, Pos(5, 5)), Entry(9, Pos(4, 4)), Entry(9, Pos(4, 0)), Entry(11, Pos(5, 3)), Entry(11, Pos(5, 1)), Entry(9, Pos(3, 1))],
      Cons(Pos(4, 0), Cons(Pos(3, 1), Cons(Pos(5, 1), Cons(Pos(5, 3), Cons(Pos(5, 5), Cons(Pos(3, 2), Cons(Pos(0, 5), Cons(Pos(4, 4), Nil)))))))),
      Bind(Pos(4, 0), Pos(4, 1), Bind(Pos(3, 1), Pos(4, 1), Bind(Pos(5, 1), Pos(4, 1), Bind(Pos(1, 0), Pos(0, 0), Bind(Pos(4, 1), Pos(4, 2), Bind(Pos(0, 0), Pos(0, 1), Bind(Pos(4, 2), Pos(4, 3), Bind(Pos(5, 3), Pos(4, 3), Bind(Pos(0, 1), Pos(0, 2), Bind(Pos(5, 5), Pos(4, 5), Bind(Pos(3, 2), Pos(3, 3), Bind(Pos(4, 3), Pos(3, 3), Bind(Pos(0, 2), Pos(1, 2), Bind(Pos(3, 2), Pos(2, 2), Bind(Pos(1, 2), Pos(1, 3), Bind(Pos(0, 3), Pos(1, 3), Bind(Pos(2, 2), Pos(2, 3), Bind(Pos(1, 3), Pos(1, 4), Bind(Pos(2, 3), Pos(2, 4), Bind(Pos(1, 4), Pos(1, 5), Bind(Pos(0, 5), Pos(1, 5), Bind(Pos(3, 3), Pos(3, 4), Bind(Pos(4, 4), Pos(3, 4), Bind(Pos(2, 4), Pos(2, 5), Bind(Pos(1, 5), Pos(2, 5), Bind(Pos(3, 4), Pos(3, 5), Bind(Pos(2, 5), Pos(3, 5), Bind(Pos(4, 5), Pos(3, 5), Empty)))))))))))))))))))))))))))))

  lemma StaleSift19_3()
    ensures SiftUp([Entry(9, Pos(4, 0)), Entry(9, Pos(0, 5)), Entry(11, Pos(5, 5)), Entry(9, Pos(4, 4)), Entry(9, Pos(3, 2)), Entry(11, Pos(5, 3)), Entry(11, Pos(5, 1)), Entry(9, Pos(3, 1))], 0) == SiftUp([Entry(9, Pos(0, 5)), Entry(9, Pos(4, 0)), Entry(11, Pos(5, 5)), Entry(9, Pos(4, 4)), Entry(9, Pos(3, 2)), Entry(11, Pos(5, 3)), Entry(11, Pos(5, 1)), Entry(9, Pos(3, 1))], 1)
  {
  }

  lemma StaleSift19_4()
    ensures SiftUp([Entry(9, Pos(0, 5)), Entry(9, Pos(4, 0)), Entry(11, Pos(5, 5)), Entry(9, Pos(4, 4)), Entry(9, Pos(3, 2)), Entry(11, Pos(5, 3)), Entry(11, Pos(5, 1)), Entry(9, Pos(3, 1))], 1) == SiftUp([Entry(9, Pos(0, 5)), Entry(9, Pos(3, 2)), Entry(11, Pos(5, 5)), Entry(9, Pos(4, 4)), Entry(9, Pos(4, 0)), Entry(11, Pos(5, 3)), Entry(11, Pos(5, 1)), Entry(9, Pos(3, 1))], 4)
  {
  }

  lemma StaleSift19_5()
    ensures SiftUp([Entry(9, Pos(0, 5)), Entry(9, Pos(3, 2)), Entry(11, Pos(5, 5)), Entry(9, Pos(4, 4)), Entry(9, Pos(4, 0)), Entry(11, Pos(5, 3)), Entry(11, Pos(5, 1)), Entry(9, Pos(3, 1))], 4) == SiftDown([Entry(9, Pos(0, 5)), Entry(9, Pos(3, 2)), Entry(11, Pos(5, 5)), Entry(9, Pos(4, 4)), Entry(9, Pos(4, 0)), Entry(11, Pos(5, 3)), Entry(11, Pos(5, 1)), Entry(9, Pos(3, 1))], 4)
  {
  }

  lemma StaleSift19_6()
    ensures SiftDown([Entry(9, Pos(0, 5)), Entry(9, Pos(3, 2)), Entry(11, Pos(5, 5)), Entry(9, Pos(4, 4)), Entry(9, Pos(4, 0)), Entry(11, Pos(5, 3)), Entry(11, Pos(5, 1)), Entry(9, Pos(3, 1))], 4) == [Entry(9, Pos(0, 5)), Entry(9, Pos(3, 2)), Entry(11, Pos(5, 5)), Entry(9, Pos(4, 4)), Entry(9, Pos(4, 0)), Entry(11, Pos(5, 3)), Entry(11, Pos(5, 1)), Entry(9, Pos(3, 1))]
  {
  }

  /** The `heappop` of pop 19. */
  lemma StaleHeapPop19()
    ensures HeapPop([Entry(9, Pos(1, 0)), Entry(9, Pos(0, 5)), Entry(11, Pos(5, 5)), Entry(9, Pos(4, 4)), Entry(9, Pos(3, 2)), Entry(11, Pos(5, 3)), Entry(11, Pos(5, 1)), Entry(9, Pos(3, 1)), Entry(9, Pos(4, 0))]) == Popped(Entry(9, Pos(1, 0)), [Entry(9, Pos(0, 5)), Entry(9, Pos(3, 2)), Entry(11, Pos(5, 5)), Entry(9, Pos(4, 4)), Entry(9, Pos(4, 0)), Entry(11, Pos(5, 3)), Entry(11, Pos(5, 1)), Entry(9, Pos(3, 1))])
  {
    assert [Entry(9, Pos(1, 0)), Entry(9, Pos(0, 5)), Entry(11, Pos(5, 5)), Entry(9, Pos(4, 4)), Entry(9, Pos(3, 2)), Entry(11, Pos(5, 3)), Entry(11, Pos(5, 1)), Entry(9, Pos(3, 1)), Entry(9, Pos(4, 0))][..8] == [Entry(9, Pos(1, 0)), Entry(9, Pos(0, 5)), Entry(11, Pos(5, 5)), Entry(9, Pos(4, 4)), Entry(9, Pos(3, 2)), Entry(11, Pos(5, 3)), Entry(11, Pos(5, 1)), Entry(9, Pos(3, 1))];
    assert [Entry(9, Pos(1, 0)), Entry(9, Pos(0, 5)), Entry(11, Pos(5, 5)), Entry(9, Pos(4, 4)), Entry(9, Pos(3, 2)), Entry(11, Pos(5, 3)), Entry(11, Pos(5, 1)), Entry(9, Pos(3, 1))][0 := Entry(9, Pos(4, 0))] == [Entry(9, Pos(4, 0)), Entry(9, Pos(0, 5)), Entry(11, Pos(5, 5)), Entry(9, Pos(4, 4)), Entry(9, Pos(3, 2)), Entry(11, Pos(5, 3)), Entry(11, Pos(5, 1)), Entry(9, Pos(3, 1))];
    assert HeapPop([Entry(9, Pos(1, 0)), Entry(9, Pos(0, 5)), Entry(11, Pos(5, 5)), Entry(9, Pos(4, 4)), Entry(9, Pos(3, 2)), Entry(11, Pos(5, 3)), Entry(11, Pos(5, 1)), Entry(9, Pos(3, 1)), Entry(9, Pos(4, 0))]) == Popped(Entry(9, Pos(1, 0)), SiftUp([Entry(9, Pos(4, 0)), Entry(9, Pos(0, 5)), Entry(11, Pos(5, 5)), Entry(9, Pos(4, 4)), Entry(9, Pos(3, 2)), Entry(11, Pos(5, 3)), Entry(11, Pos(5, 1)), Entry(9, Pos(3, 1))], 0));
    StaleSift19_3();
    StaleSift19_4();
    StaleSift19_5();
    StaleSift19_6();
  }

  /** Pop 19 takes Entry(9, Pos(1, 0)) off the heap. */
  lemma StalePop19()
    ensures Pop(StaleState19) == Step(Entry(9, Pos(1, 0)), StaleState19_0)
  {
    assert StaleState19.queue == [Entry(9, Pos(1, 0)), Entry(9, Pos(0, 5)), Entry(11, Pos(5, 5)), Entry(9, Pos(4, 4)), Entry(9, Pos(3, 2)), Entry(11, Pos(5, 3)), Entry(11, Pos(5, 1)), Entry(9, Pos(3, 1)), Entry(9, Pos(4, 0))];
    StaleHeapPop19();
    assert Remove(StaleState19.tSet, Pos(1, 0)) == Cons(Pos(4, 0), Cons(Pos(3, 1), Cons(Pos(5, 1), Cons(Pos(5, 3), Cons(Pos(5, 5), Cons(Pos(3, 2), Cons(Pos(0, 5), Cons(Pos(4, 4), Nil))))))));
  }

  /** Pop 19 takes the goal. */
  lemma StaleLoop19()
    ensures Loop(StaleRows, StaleBarriers, StaleGoal, StaleState19, 1) == Found(StaleFinal)
  {
    StalePop19();
    assert StaleState19_0 == StaleFinal;
  }

  /** From pop 19 on, the search ends with the goal popped. */
  lemma StaleFrom19()
    ensures Loop(StaleRows, StaleBarriers, StaleGoal, StaleState19, 1) == Found(StaleFinal)
  {
    StaleLoop19();
  }

  /** From pop 18 on, the search ends with the goal popped. */
  lemma StaleFrom18()
    ensures Loop(StaleRows, StaleBarriers, StaleGoal, StaleState18, 2) == Found(StaleFinal)
  {
    StaleLoop18();
    StaleFrom19();
  }

  /** From pop 17 on, the search ends with the goal popped. */
  lemma StaleFrom17()
    ensures Loop(StaleRows, StaleBarriers, StaleGoal, StaleState17, 3) == Found(StaleFinal)
  {
    StaleLoop17();
    StaleFrom18();
  }

  /** From pop 16 on, the search ends with the goal popped. */
  lemma StaleFrom16()
    ensures Loop(StaleRows, StaleBarriers, StaleGoal, StaleState16, 4) == Found(StaleFinal)
  {
    StaleLoop16();
    StaleFrom17();
  }

  /** From pop 15 on, the search ends with the goal popped. */
  lemma StaleFrom15()
    ensures Loop(StaleRows, StaleBarriers, StaleGoal, StaleState15, 5) == Found(StaleFinal)
  {
    StaleLoop15();
    StaleFrom16();
  }

  /** From pop 14 on, the search ends with the goal popped. */
  lemma StaleFrom14()
    ensures Loop(StaleRows, StaleBarriers, StaleGoal, StaleState14, 6) == Found(StaleFinal)
  {
    StaleLoop14();
    StaleFrom15();
  }

  /** From pop 13 on, the search ends with the goal popped. */
  lemma StaleFrom13()
    ensures Loop(StaleRows, StaleBarriers, StaleGoal, StaleState13, 7) == Found(StaleFinal)
  {
    StaleLoop13();
    StaleFrom14();
  }

  /** From pop 12 on, the search ends with the goal popped. */
  lemma StaleFrom12()
    ensures Loop(StaleRows, StaleBarriers, StaleGoal, StaleState12, 8) == Found(StaleFinal)
  {
    StaleLoop12();
    StaleFrom13();
  }

  /** From pop 11 on, the search ends with the goal popped. */
  lemma StaleFrom11()
    ensures Loop(StaleRows, StaleBarriers, StaleGoal, StaleState11, 9) == Found(StaleFinal)
  {
    StaleLoop11();
    StaleFrom12();
  }

  /** From pop 10 on, the search ends with the goal popped. */
  lemma StaleFrom10()
    ensures Loop(StaleRows, StaleBarriers, StaleGoal, StaleState10, 10) == Found(StaleFinal)
  {
    StaleLoop10();
    StaleFrom11();
  }

  /** From pop 9 on, the search ends with the goal popped. */
  lemma StaleFrom9()
    ensures Loop(StaleRows, StaleBarriers, StaleGoal, StaleState9, 11) == Found(StaleFinal)
  {
    StaleLoop9();
    StaleFrom10();
  }

  /** From pop 8 on, the search ends with the goal popped. */
  lemma StaleFrom8()
    ensures Loop(StaleRows, StaleBarriers, StaleGoal, StaleState8, 12) == Found(StaleFinal)
  {
    StaleLoop8();
    StaleFrom9();
  }

  /** From pop 7 on, the search ends with the goal popped. */
  lemma StaleFrom7()
    ensures Loop(StaleRows, StaleBarriers, StaleGoal, StaleState7, 13) == Found(StaleFinal)
  {
    StaleLoop7();
    StaleFrom8();
  }

  /** From pop 6 on, the search ends with the goal popped. */
  lemma StaleFrom6()
    ensures Loop(StaleRows, StaleBarriers, StaleGoal, StaleState6, 14) == Found(StaleFinal)
  {
    StaleLoop6();
    StaleFrom7();
  }

  /** From pop 5 on, the search ends with the goal popped. */
  lemma StaleFrom5()
    ensures Loop(StaleRows, StaleBarriers, StaleGoal, StaleState5, 15) == Found(StaleFinal)
  {
    StaleLoop5();
    StaleFrom6();
  }

  /** From pop 4 on, the search ends with the goal popped. */
  lemma StaleFrom4()
    ensures Loop(StaleRows, StaleBarriers, StaleGoal, StaleState4, 16) == Found(StaleFinal)
  {
    StaleLoop4();
    StaleFrom5();
  }

  /** From pop 3 on, the search ends with the goal popped. */
  lemma StaleFrom3()
    ensures Loop(StaleRows, StaleBarriers, StaleGoal, StaleState3, 17) == Found(StaleFinal)
  {
    StaleLoop3();
    StaleFrom4();
  }

  /** From pop 2 on, the search ends with the goal popped. */
  lemma StaleFrom2()
    ensures Loop(StaleRows, StaleBarriers, StaleGoal, StaleState2, 18) == Found(StaleFinal)
  {
    StaleLoop2();
    StaleFrom3();
  }

  /** From pop 1 on, the search ends with the goal popped. */
  lemma StaleFrom1()
    ensures Loop(StaleRows, StaleBarriers, StaleGoal, StaleState1, 19) == Found(StaleFinal)
  {
    StaleLoop1();
    StaleFrom2();
  }

  /** From pop 0 on, the search ends with the goal popped. */
  lemma StaleFrom0()
    ensures Loop(StaleRows, StaleBarriers, StaleGoal, StaleState0, 20) == Found(StaleFinal)
  {
    StaleLoop0();
    StaleFrom1();
  }

  lemma StaleLink0()
    ensures Get(StaleFinal.prev, Pos(1, 0)) == Some(Pos(0, 0))
  {
  }

  lemma StaleLink1()
    ensures Get(StaleFinal.prev, Pos(0, 0)) == Some(Pos(0, 1))
  {
    var c4 := StaleFinal.prev.rest.rest.rest.rest;
    assert Get(c4, Pos(0, 0)) == Some(Pos(0, 1));
  }

  lemma StaleLink2()
    ensures Get(StaleFinal.prev, Pos(0, 1)) == Some(Pos(0, 2))
  {
    var c4 := StaleFinal.prev.rest.rest.rest.rest;
    var c8 := c4.rest.rest.rest.rest;
    assert Get(c8, Pos(0, 1)) == Some(Pos(0, 2));
    assert Get(c4, Pos(0, 1)) == Some(Pos(0, 2));
  }

  lemma StaleLink3()
    ensures Get(StaleFinal.prev, Pos(0, 2)) == Some(Pos(1, 2))
  {
    var c4 := StaleFinal.prev.rest.rest.rest.rest;
    var c8 := c4.rest.rest.rest.rest;
    var c12 := c8.rest.rest.rest.rest;
    assert Get(c12, Pos(0, 2)) == Some(Pos(1, 2));
    assert Get(c8, Pos(0, 2)) == Some(Pos(1, 2));
    assert Get(c4, Pos(0, 2)) == Some(Pos(1, 2));
  }

  lemma StaleLink4()
    ensures Get(StaleFinal.prev, Pos(1, 2)) == Some(Pos(1, 3))
  {
    var c4 := StaleFinal.prev.rest.rest.rest.rest;
    var c8 := c4.rest.rest.rest.rest;
    var c12 := c8.rest.rest.rest.rest;
    assert Get(c12, Pos(1, 2)) == Some(Pos(1, 3));
    assert Get(c8, Pos(1, 2)) == Some(Pos(1, 3));
    assert Get(c4, Pos(1, 2)) == Some(Pos(1, 3));
  }

  lemma StaleLink5()
    ensures Get(StaleFinal.prev, Pos(1, 3)) == Some(Pos(1, 4))
  {
    var c4 := StaleFinal.prev.rest.rest.rest.rest;
    var c8 := c4.rest.rest.rest.rest;
    var c12 := c8.rest.rest.rest.rest;
    var c16 := c12.rest.rest.rest.rest;
    assert Get(c16, Pos(1, 3)) == Some(Pos(1, 4));
    assert Get(c12, Pos(1, 3)) == Some(Pos(1, 4));
    assert Get(c8, Pos(1, 3)) == Some(Pos(1, 4));
    assert Get(c4, Pos(1, 3)) == Some(Pos(1, 4));
  }

  lemma StaleLink6()
    ensures Get(StaleFinal.prev, Pos(1, 4)) == Some(Pos(1, 5))
  {
    var c4 := StaleFinal.prev.rest.rest.rest.rest;
    var c8 := c4.rest.rest.rest.rest;
    var c12 := c8.rest.rest.rest.rest;
    var c16 := c12.rest.rest.rest.rest;
    assert Get(c16, Pos(1, 4)) == Some(Pos(1, 5));
    assert Get(c12, Pos(1, 4)) == Some(Pos(1, 5));
    assert Get(c8, Pos(1, 4)) == Some(Pos(1, 5));
    assert Get(c4, Pos(1, 4)) == Some(Pos(1, 5));
  }

  lemma StaleLink7()
    ensures Get(StaleFinal.prev, Pos(1, 5)) == Some(Pos(2, 5))
  {
    var c4 := StaleFinal.prev.rest.rest.rest.rest;
    var c8 := c4.rest.rest.rest.rest;
    var c12 := c8.rest.rest.rest.rest;
    var c16 := c12.rest.rest.rest.rest;
    var c20 := c16.rest.rest.rest.rest;
    var c24 := c20.rest.rest.rest.rest;
    assert Get(c24, Pos(1, 5)) == Some(Pos(2, 5));
    assert Get(c20, Pos(1, 5)) == Some(Pos(2, 5));
    assert Get(c16, Pos(1, 5)) == Some(Pos(2, 5));
    assert Get(c12, Pos(1, 5)) == Some(Pos(2, 5));
    assert Get(c8, Pos(1, 5)) == Some(Pos(2, 5));
    assert Get(c4, Pos(1, 5)) == Some(Pos(2, 5));
  }

  lemma StaleLink8()
    ensures Get(StaleFinal.prev, Pos(2, 5)) == Some(Pos(3, 5))
  {
    var c4 := StaleFinal.prev.rest.rest.rest.rest;
    var c8 := c4.rest.rest.rest.rest;
    var c12 := c8.rest.rest.rest.rest;
    var c16 := c12.rest.rest.rest.rest;
    var c20 := c16.rest.rest.rest.rest;
    var c24 := c20.rest.rest.rest.rest;
    assert Get(c24, Pos(2, 5)) == Some(Pos(3, 5));
    assert Get(c20, Pos(2, 5)) == Some(Pos(3, 5));
    assert Get(c16, Pos(2, 5)) == Some(Pos(3, 5));
    assert Get(c12, Pos(2, 5)) == Some(Pos(3, 5));
    assert Get(c8, Pos(2, 5)) == Some(Pos(3, 5));
    assert Get(c4, Pos(2, 5)) == Some(Pos(3, 5));
  }

  lemma StaleLink9()
    ensures Get(StaleFinal.prev, Pos(3, 5)) == None
  {
    var c4 := StaleFinal.prev.rest.rest.rest.rest;
    var c8 := c4.rest.rest.rest.rest;
    var c12 := c8.rest.rest.rest.rest;
    var c16 := c12.rest.rest.rest.rest;
    var c20 := c16.rest.rest.rest.rest;
    var c24 := c20.rest.rest.rest.rest;
    var c28 := c24.rest.rest.rest.rest;
    assert Get(c28, Pos(3, 5)) == None;
    assert Get(c24, Pos(3, 5)) == None;
    assert Get(c20, Pos(3, 5)) == None;
    assert Get(c16, Pos(3, 5)) == None;
    assert Get(c12, Pos(3, 5)) == None;
    assert Get(c8, Pos(3, 5)) == None;
    assert Get(c4, Pos(3, 5)) == None;
  }

  lemma StalePaint8(prev: Cells<Pos>)
    requires Get(prev, Pos(2, 5)) == Some(Pos(3, 5))
    requires Painted(prev, Pos(3, 5), 1) == Some([])
    ensures Painted(prev, Pos(2, 5), 2) == Some([Pos(2, 5)])
  {
    assert [Pos(2, 5)] + [] == [Pos(2, 5)];
  }

  lemma StalePaint7(prev: Cells<Pos>)
    requires Get(prev, Pos(1, 5)) == Some(Pos(2, 5))
    requires Painted(prev, Pos(2, 5), 2) == Some([Pos(2, 5)])
    ensures Painted(prev, Pos(1, 5), 3) == Some([Pos(1, 5), Pos(2, 5)])
  {
    assert [Pos(1, 5)] + [Pos(2, 5)] == [Pos(1, 5), Pos(2, 5)];
  }

  lemma StalePaint6(prev: Cells<Pos>)
    requires Get(prev, Pos(1, 4)) == Some(Pos(1, 5))
    requires Painted(prev, Pos(1, 5), 3) == Some([Pos(1, 5), Pos(2, 5)])
    ensures Painted(prev, Pos(1, 4), 4) == Some([Pos(1, 4), Pos(1, 5), Pos(2, 5)])
  {
    assert [Pos(1, 4)] + [Pos(1, 5), Pos(2, 5)] == [Pos(1, 4), Pos(1, 5), Pos(2, 5)];
  }

  lemma StalePaint5(prev: Cells<Pos>)
    requires Get(prev, Pos(1, 3)) == Some(Pos(1, 4))
    requires Painted(prev, Pos(1, 4), 4) == Some([Pos(1, 4), Pos(1, 5), Pos(2, 5)])
    ensures Painted(prev, Pos(1, 3), 5) == Some([Pos(1, 3), Pos(1, 4), Pos(1, 5), Pos(2, 5)])
  {
    assert [Pos(1, 3)] + [Pos(1, 4), Pos(1, 5), Pos(2, 5)] == [Pos(1, 3), Pos(1, 4), Pos(1, 5), Pos(2, 5)];
  }

  lemma StalePaint4(prev: Cells<Pos>)
    requires Get(prev, Pos(1, 2)) == Some(Pos(1, 3))
    requires Painted(prev, Pos(1, 3), 5) == Some([Pos(1, 3), Pos(1, 4), Pos(1, 5), Pos(2, 5)])
    ensures Painted(prev, Pos(1, 2), 6) == Some([Pos(1, 2), Pos(1, 3), Pos(1, 4), Pos(1, 5), Pos(2, 5)])
  {
    assert [Pos(1, 2)] + [Pos(1, 3), Pos(1, 4), Pos(1, 5), Pos(2, 5)] == [Pos(1, 2), Pos(1, 3), Pos(1, 4), Pos(1, 5), Pos(2, 5)];
  }

  lemma StalePaint3(prev: Cells<Pos>)
    requires Get(prev, Pos(0, 2)) == Some(Pos(1, 2))
    requires Painted(prev, Pos(1, 2), 6) == Some([Pos(1, 2), Pos(1, 3), Pos(1, 4), Pos(1, 5), Pos(2, 5)])
    ensures Painted(prev, Pos(0, 2), 7) == Some([Pos(0, 2), Pos(1, 2), Pos(1, 3), Pos(1, 4), Pos(1, 5), Pos(2, 5)])
  {
    assert [Pos(0, 2)] + [Pos(1, 2), Pos(1, 3), Pos(1, 4), Pos(1, 5), Pos(2, 5)] == [Pos(0, 2), Pos(1, 2), Pos(1, 3), Pos(1, 4), Pos(1, 5), Pos(2, 5)];
  }

  lemma StalePaint2(prev: Cells<Pos>)
    requires Get(prev, Pos(0, 1)) == Some(Pos(0, 2))
    requires Painted(prev, Pos(0, 2), 7) == Some([Pos(0, 2), Pos(1, 2), Pos(1, 3), Pos(1, 4), Pos(1, 5), Pos(2, 5)])
    ensures Painted(prev, Pos(0, 1), 8) == Some([Pos(0, 1), Pos(0, 2), Pos(1, 2), Pos(1, 3), Pos(1, 4), Pos(1, 5), Pos(2, 5)])
  {
    assert [Pos(0, 1)] + [Pos(0, 2), Pos(1, 2), Pos(1, 3), Pos(1, 4), Pos(1, 5), Pos(2, 5)] == [Pos(0, 1), Pos(0, 2), Pos(1, 2), Pos(1, 3), Pos(1, 4), Pos(1, 5), Pos(2, 5)];
  }

  lemma StalePaint1(prev: Cells<Pos>)
    requires Get(prev, Pos(0, 0)) == Some(Pos(0, 1))
    requires Painted(prev, Pos(0, 1), 8) == Some([Pos(0, 1), Pos(0, 2), Pos(1, 2), Pos(1, 3), Pos(1, 4), Pos(1, 5), Pos(2, 5)])
    ensures Painted(prev, Pos(0, 0), 9) == Some([Pos(0, 0), Pos(0, 1), Pos(0, 2), Pos(1, 2), Pos(1, 3), Pos(1, 4), Pos(1, 5), Pos(2, 5)])
  {
    assert [Pos(0, 0)] + [Pos(0, 1), Pos(0, 2), Pos(1, 2), Pos(1, 3), Pos(1, 4), Pos(1, 5), Pos(2, 5)] == [Pos(0, 0), Pos(0, 1), Pos(0, 2), Pos(1, 2), Pos(1, 3), Pos(1, 4), Pos(1, 5), Pos(2, 5)];
  }

  lemma StalePaint0(prev: Cells<Pos>)
    requires Get(prev, Pos(1, 0)) == Some(Pos(0, 0))
    requires Painted(prev, Pos(0, 0), 9) == Some([Pos(0, 0), Pos(0, 1), Pos(0, 2), Pos(1, 2), Pos(1, 3), Pos(1, 4), Pos(1, 5), Pos(2, 5)])
    ensures Painted(prev, Pos(1, 0), 10) == Some([Pos(1, 0), Pos(0, 0), Pos(0, 1), Pos(0, 2), Pos(1, 2), Pos(1, 3), Pos(1, 4), Pos(1, 5), Pos(2, 5)])
  {
    assert [Pos(1, 0)] + [Pos(0, 0), Pos(0, 1), Pos(0, 2), Pos(1, 2), Pos(1, 3), Pos(1, 4), Pos(1, 5), Pos(2, 5)] == [Pos(1, 0), Pos(0, 0), Pos(0, 1), Pos(0, 2), Pos(1, 2), Pos(1, 3), Pos(1, 4), Pos(1, 5), Pos(2, 5)];
  }

  /** The cells painted back from the goal along the links of `StaleFinal`. */
  lemma StalePaintChain(prev: Cells<Pos>)
    requires Get(prev, Pos(1, 0)) == Some(Pos(0, 0))
    requires Get(prev, Pos(0, 0)) == Some(Pos(0, 1))
    requires Get(prev, Pos(0, 1)) == Some(Pos(0, 2))
    requires Get(prev, Pos(0, 2)) == Some(Pos(1, 2))
    requires Get(prev, Pos(1, 2)) == Some(Pos(1, 3))
    requires Get(prev, Pos(1, 3)) == Some(Pos(1, 4))
    requires Get(prev, Pos(1, 4)) == Some(Pos(1, 5))
    requires Get(prev, Pos(1, 5)) == Some(Pos(2, 5))
    requires Get(prev, Pos(2, 5)) == Some(Pos(3, 5))
    requires Get(prev, Pos(3, 5)) == None
    ensures Painted(prev, Pos(1, 0), 10) == Some([Pos(1, 0), Pos(0, 0), Pos(0, 1), Pos(0, 2), Pos(1, 2), Pos(1, 3), Pos(1, 4), Pos(1, 5), Pos(2, 5)])
  {
    assert Painted(prev, Pos(3, 5), 1) == Some([]);
    StalePaint8(prev);
    StalePaint7(prev);
    StalePaint6(prev);
    StalePaint5(prev);
    StalePaint4(prev);
    StalePaint3(prev);
    StalePaint2(prev);
    StalePaint1(prev);
    StalePaint0(prev);
  }

  /** The goal's cost and the cells painted back from it at the end of the search. */
  lemma StaleFinalPath()
    ensures Get(StaleFinal.cost, Pos(1, 0)) == Some(9)
    ensures Painted(StaleFinal.prev, Pos(1, 0), 10)
      == Some([Pos(1, 0), Pos(0, 0), Pos(0, 1), Pos(0, 2), Pos(1, 2), Pos(1, 3), Pos(1, 4), Pos(1, 5), Pos(2, 5)])
  {
    StaleLink0();
    StaleLink1();
    StaleLink2();
    StaleLink3();
    StaleLink4();
    StaleLink5();
    StaleLink6();
    StaleLink7();
    StaleLink8();
    StaleLink9();
    StalePaintChain(StaleFinal.prev);
  }

  /** A walk of 7 steps leads from (3, 5) to (1, 0) under the neighbour rule. */
  lemma StaleShortWalk()
    ensures PosWalk(StaleRows, StaleBarriers, [Pos(3, 5), Pos(3, 4), Pos(3, 3), Pos(3, 2), Pos(3, 1), Pos(3, 0), Pos(2, 0), Pos(1, 0)])
  {
    var w := [Pos(3, 5), Pos(3, 4), Pos(3, 3), Pos(3, 2), Pos(3, 1), Pos(3, 0), Pos(2, 0), Pos(1, 0)];
    forall i | 0 <= i < |w| - 1
      ensures w[i + 1] in NeighborPositions(StaleRows, StaleBarriers, w[i])
    {
      NeighborPositionsComplete(StaleRows, StaleBarriers, w[i], w[i + 1]);
    }
  }

  /**
   * Stale priorities make the search return a path that is not shortest.
   * On a 6 by 6 grid with barriers at (0, 4), (1, 1), (2, 1) and (5, 2), a
   * walk of 7 steps leads from (3, 5) to (1, 0) along row 3 and
   * up column 0. The search first reaches (3, 2) from (2, 2) at cost 5 and
   * queues it at priority 9. Popping (3, 3) lowers its cost to 3, but
   * (3, 2) is already in `tSet`, so no entry of priority 7 is added and it
   * keeps waiting at 9, level with the cells of the route over row 0. The
   * layout of the heap puts those cells first, and the goal is popped at
   * cost 9, 9 cells being painted, before (3, 2) is. The
   * result is the same for every fuel from 20 on.
   */
  lemma StalePriorityCounterexample()
    ensures PosWalk(StaleRows, StaleBarriers, [Pos(3, 5), Pos(3, 4), Pos(3, 3), Pos(3, 2), Pos(3, 1), Pos(3, 0), Pos(2, 0), Pos(1, 0)])
    ensures forall fuel: nat | fuel >= 20 :: Run(StaleRows, StaleBarriers, Pos(3, 5), StaleGoal, Empty, fuel) == Found(StaleFinal)
    ensures Get(StaleFinal.cost, StaleGoal) == Some(9)
    ensures Painted(StaleFinal.prev, StaleGoal, 10)
      == Some([Pos(1, 0), Pos(0, 0), Pos(0, 1), Pos(0, 2), Pos(1, 2), Pos(1, 3), Pos(1, 4), Pos(1, 5), Pos(2, 5)])
  {
    StaleStart(); StaleFrom0(); StaleFinalPath(); StaleShortWalk();
    forall fuel: nat | fuel >= 20
      ensures Run(StaleRows, StaleBarriers, Pos(3, 5), StaleGoal, Empty, fuel) == Found(StaleFinal)
    {
      LoopMoreFuel(StaleRows, StaleBarriers, StaleGoal, StaleState0, 20, fuel);
    }
  }

  // ----- A stale `previous`: two searches on a 2 by 2 grid with a barrier at (0, 1) -----

  const FirstState0 :=
    Search(
      Bind(Pos(0, 0), 0, Empty),
      [Entry(2, Pos(0, 0))],
      Cons(Pos(0, 0), Nil),
      Empty)

  const FirstState1 :=
    Search(
      Bind(Pos(1, 0), 1, Bind(Pos(0, 0), 0, Empty)),
      [Entry(2, Pos(1, 0))],
      Cons(Pos(1, 0), Nil),
      Bind(Pos(1, 0), Pos(0, 0), Empty))

  const FirstState2 :=
    Search(
      Bind(Pos(1, 1), 2, Bind(Pos(1, 0), 1, Bind(Pos(0, 0), 0, Empty))),
      [Entry(2, Pos(1, 1))],
      Cons(Pos(1, 1), Nil),
      Bind(Pos(1, 1), Pos(1, 0), Bind(Pos(1, 0), Pos(0, 0), Empty)))

  const FirstFinal :=
    Search(
      Bind(Pos(1, 1), 2, Bind(Pos(1, 0), 1, Bind(Pos(0, 0), 0, Empty))),
      [],
      Nil,
      Bind(Pos(1, 1), Pos(1, 0), Bind(Pos(1, 0), Pos(0, 0), Empty)))

  /** The state the search starts from. */
  lemma FirstStart()
    ensures Start(Pos(0, 0), SmallGoal, Empty) == FirstState0
  {
    assert HeapPush([], Entry(2, Pos(0, 0))) == [Entry(2, Pos(0, 0))];
  }

  const FirstState0_0 :=
    Search(
      Bind(Pos(0, 0), 0, Empty),
      [],
      Nil,
      Empty)

  /** The `heappop` of pop 0. */
  lemma FirstHeapPop0()
    ensures HeapPop([Entry(2, Pos(0, 0))]) == Popped(Entry(2, Pos(0, 0)), [])
  {
    assert HeapPop([Entry(2, Pos(0, 0))]) == Popped(Entry(2, Pos(0, 0)), []);
  }

  /** Pop 0 takes Entry(2, Pos(0, 0)) off the heap. */
  lemma FirstPop0()
    ensures Pop(FirstState0) == Step(Entry(2, Pos(0, 0)), FirstState0_0)
  {
    assert FirstState0.queue == [Entry(2, Pos(0, 0))];
    FirstHeapPop0();
    assert Remove(FirstState0.tSet, Pos(0, 0)) == Nil;
  }

  /** The neighbours of Pos(0, 0). */
  lemma FirstNeighbors0()
    ensures Items(NeighborPositions(2, {Pos(0, 1)}, Pos(0, 0)), 0) == Cons(Pos(1, 0), Nil)
  {
  }

  lemma FirstHeapPush0_1()
    ensures HeapPush([], Entry(2, Pos(1, 0))) == [Entry(2, Pos(1, 0))]
  {
    assert HeapPush([], Entry(2, Pos(1, 0))) == SiftDown([Entry(2, Pos(1, 0))], 0);
    assert SiftDown([Entry(2, Pos(1, 0))], 0) == [Entry(2, Pos(1, 0))];
  }

  lemma FirstRelax0_1()
    ensures RelaxOne(Pos(1, 1), Pos(0, 0), 0, FirstState0_0, Pos(1, 0)) == FirstState1
  {
    assert Get(FirstState0_0.cost, Pos(1, 0)) == None;
    assert !Has(FirstState0_0.tSet, Pos(1, 0));
    assert FirstState0_0.queue == [];
    FirstHeapPush0_1();
  }

  /** The neighbour loop of pop 0 leaves the state of pop 1. */
  lemma FirstRound0()
    ensures Round(SmallRows, SmallBarriers, SmallGoal, FirstState0_0, Pos(0, 0)) == FirstState1
  {
    assert Get(FirstState0_0.cost, Pos(0, 0)) == Some(0);
    FirstNeighbors0();
    FirstRelax0_1();
  }

  /** Pop 0 hands over to pop 1. */
  lemma FirstLoop0()
    ensures Loop(SmallRows, SmallBarriers, SmallGoal, FirstState0, 3) == Loop(SmallRows, SmallBarriers, SmallGoal, FirstState1, 2)
  {
    FirstPop0();
    FirstRound0();
  }

  const FirstState1_0 :=
    Search(
      Bind(Pos(1, 0), 1, Bind(Pos(0, 0), 0, Empty)),
      [],
      Nil,
      Bind(Pos(1, 0), Pos(0, 0), Empty))

  /** The `heappop` of pop 1. */
  lemma FirstHeapPop1()
    ensures HeapPop([Entry(2, Pos(1, 0))]) == Popped(Entry(2, Pos(1, 0)), [])
  {
    assert HeapPop([Entry(2, Pos(1, 0))]) == Popped(Entry(2, Pos(1, 0)), []);
  }

  /** Pop 1 takes Entry(2, Pos(1, 0)) off the heap. */
  lemma FirstPop1()
    ensures Pop(FirstState1) == Step(Entry(2, Pos(1, 0)), FirstState1_0)
  {
    assert FirstState1.queue == [Entry(2, Pos(1, 0))];
    FirstHeapPop1();
    assert Remove(FirstState1.tSet, Pos(1, 0)) == Nil;
  }

  /** The neighbours of Pos(1, 0). */
  lemma FirstNeighbors1()
    ensures Items(NeighborPositions(2, {Pos(0, 1)}, Pos(1, 0)), 0) == Cons(Pos(0, 0), Cons(Pos(1, 1), Nil))
  {
  }

  lemma FirstRelax1_1()
    ensures RelaxOne(Pos(1, 1), Pos(1, 0), 1, FirstState1_0, Pos(0, 0)) == FirstState1_0
  {
    assert Get(FirstState1_0.cost, Pos(0, 0)) == Some(0);
  }

  lemma FirstHeapPush1_2()
    ensures HeapPush([], Entry(2, Pos(1, 1))) == [Entry(2, Pos(1, 1))]
  {
    assert HeapPush([], Entry(2, Pos(1, 1))) == SiftDown([Entry(2, Pos(1, 1))], 0);
    assert SiftDown([Entry(2, Pos(1, 1))], 0) == [Entry(2, Pos(1, 1))];
  }

  lemma FirstRelax1_2()
    ensures RelaxOne(Pos(1, 1), Pos(1, 0), 1, FirstState1_0, Pos(1, 1)) == FirstState2
  {
    assert Get(FirstState1_0.cost, Pos(1, 1)) == None;
    assert !Has(FirstState1_0.tSet, Pos(1, 1));
    assert FirstState1_0.queue == [];
    FirstHeapPush1_2();
  }

  /** The neighbour loop of pop 1 leaves the state of pop 2. */
  lemma FirstRound1()
    ensures Round(SmallRows, SmallBarriers, SmallGoal, FirstState1_0, Pos(1, 0)) == FirstState2
  {
    assert Get(FirstState1_0.cost, Pos(1, 0)) == Some(1);
    FirstNeighbors1();
    FirstRelax1_1();
    FirstRelax1_2();
  }

  /** Pop 1 hands over to pop 2. */
  lemma FirstLoop1()
    ensures Loop(SmallRows, SmallBarriers, SmallGoal, FirstState1, 2) == Loop(SmallRows, SmallBarriers, SmallGoal, FirstState2, 1)
  {
    FirstPop1();
    FirstRound1();
  }

  const FirstState2_0 :=
    Search(
      Bind(Pos(1, 1), 2, Bind(Pos(1, 0), 1, Bind(Pos(0, 0), 0, Empty))),
      [],
      Nil,
      Bind(Pos(1, 1), Pos(1, 0), Bind(Pos(1, 0), Pos(0, 0), Empty)))

  /** The `heappop` of pop 2. */
  lemma FirstHeapPop2()
    ensures HeapPop([Entry(2, Pos(1, 1))]) == Popped(Entry(2, Pos(1, 1)), [])
  {
    assert HeapPop([Entry(2, Pos(1, 1))]) == Popped(Entry(2, Pos(1, 1)), []);
  }

  /** Pop 2 takes Entry(2, Pos(1, 1)) off the heap. */
  lemma FirstPop2()
    ensures Pop(FirstState2) == Step(Entry(2, Pos(1, 1)), FirstState2_0)
  {
    assert FirstState2.queue == [Entry(2, Pos(1, 1))];
    FirstHeapPop2();
    assert Remove(FirstState2.tSet, Pos(1, 1)) == Nil;
  }

  /** Pop 2 takes the goal. */
  lemma FirstLoop2()
    ensures Loop(SmallRows, SmallBarriers, SmallGoal, FirstState2, 1) == Found(FirstFinal)
  {
    FirstPop2();
    assert FirstState2_0 == FirstFinal;
  }

  /** From pop 2 on, the search ends with the goal popped. */
  lemma FirstFrom2()
    ensures Loop(SmallRows, SmallBarriers, SmallGoal, FirstState2, 1) == Found(FirstFinal)
  {
    FirstLoop2();
  }

  /** From pop 1 on, the search ends with the goal popped. */
  lemma FirstFrom1()
    ensures Loop(SmallRows, SmallBarriers, SmallGoal, FirstState1, 2) == Found(FirstFinal)
  {
    FirstLoop1();
    FirstFrom2();
  }

  /** From pop 0 on, the search ends with the goal popped. */
  lemma FirstFrom0()
    ensures Loop(SmallRows, SmallBarriers, SmallGoal, FirstState0, 3) == Found(FirstFinal)
  {
    FirstLoop0();
    FirstFrom1();
  }

  const SecondState0 :=
    Search(
      Bind(Pos(1, 0), 0, Empty),
      [Entry(1, Pos(1, 0))],
      Cons(Pos(1, 0), Nil),
      Bind(Pos(1, 1), Pos(1, 0), Bind(Pos(1, 0), Pos(0, 0), Empty)))

  const SecondState1 :=
    Search(
      Bind(Pos(1, 1), 1, Bind(Pos(0, 0), 1, Bind(Pos(1, 0), 0, Empty))),
      [Entry(1, Pos(1, 1)), Entry(3, Pos(0, 0))],
      Cons(Pos(1, 1), Cons(Pos(0, 0), Nil)),
      Bind(Pos(1, 1), Pos(1, 0), Bind(Pos(0, 0), Pos(1, 0), Bind(Pos(1, 1), Pos(1, 0), Bind(Pos(1, 0), Pos(0, 0), Empty)))))

  const SecondFinal :=
    Search(
      Bind(Pos(1, 1), 1, Bind(Pos(0, 0), 1, Bind(Pos(1, 0), 0, Empty))),
      [Entry(3, Pos(0, 0))],
      Cons(Pos(0, 0), Nil),
      Bind(Pos(1, 1), Pos(1, 0), Bind(Pos(0, 0), Pos(1, 0), Bind(Pos(1, 1), Pos(1, 0), Bind(Pos(1, 0), Pos(0, 0), Empty)))))

  /** The state the search starts from. */
  lemma SecondStart()
    ensures Start(Pos(1, 0), SmallGoal, FirstFinal.prev) == SecondState0
  {
    assert HeapPush([], Entry(1, Pos(1, 0))) == [Entry(1, Pos(1, 0))];
  }

  const SecondState0_0 :=
    Search(
      Bind(Pos(1, 0), 0, Empty),
      [],
      Nil,
      Bind(Pos(1, 1), Pos(1, 0), Bind(Pos(1, 0), Pos(0, 0), Empty)))

  /** The `heappop` of pop 0. */
  lemma SecondHeapPop0()
    ensures HeapPop([Entry(1, Pos(1, 0))]) == Popped(Entry(1, Pos(1, 0)), [])
  {
    assert HeapPop([Entry(1, Pos(1, 0))]) == Popped(Entry(1, Pos(1, 0)), []);
  }

  /** Pop 0 takes Entry(1, Pos(1, 0)) off the heap. */
  lemma SecondPop0()
    ensures Pop(SecondState0) == Step(Entry(1, Pos(1, 0)), SecondState0_0)
  {
    assert SecondState0.queue == [Entry(1, Pos(1, 0))];
    SecondHeapPop0();
    assert Remove(SecondState0.tSet, Pos(1, 0)) == Nil;
  }

  /** The neighbours of Pos(1, 0). */
  lemma SecondNeighbors0()
    ensures Items(NeighborPositions(2, {Pos(0, 1)}, Pos(1, 0)), 0) == Cons(Pos(0, 0), Cons(Pos(1, 1), Nil))
  {
  }

  const SecondState0_1 :=
    Search(
      Bind(Pos(0, 0), 1, Bind(Pos(1, 0), 0, Empty)),
      [Entry(3, Pos(0, 0))],
      Cons(Pos(0, 0), Nil),
      Bind(Pos(0, 0), Pos(1, 0), Bind(Pos(1, 1), Pos(1, 0), Bind(Pos(1, 0), Pos(0, 0), Empty))))

  lemma SecondHeapPush0_1()
    ensures HeapPush([], Entry(3, Pos(0, 0))) == [Entry(3, Pos(0, 0))]
  {
    assert HeapPush([], Entry(3, Pos(0, 0))) == SiftDown([Entry(3, Pos(0, 0))], 0);
    assert SiftDown([Entry(3, Pos(0, 0))], 0) == [Entry(3, Pos(0, 0))];
  }

  lemma SecondRelax0_1()
    ensures RelaxOne(Pos(1, 1), Pos(1, 0), 0, SecondState0_0, Pos(0, 0)) == SecondState0_1
  {
    assert Get(SecondState0_0.cost, Pos(0, 0)) == None;
    assert !Has(SecondState0_0.tSet, Pos(0, 0));
    assert SecondState0_0.queue == [];
    SecondHeapPush0_1();
  }

  lemma SecondHeapPush0_2()
    ensures HeapPush([Entry(3, Pos(0, 0))], Entry(1, Pos(1, 1))) == [Entry(1, Pos(1, 1)), Entry(3, Pos(0, 0))]
  {
    assert HeapPush([Entry(3, Pos(0, 0))], Entry(1, Pos(1, 1))) == SiftDown([Entry(3, Pos(0, 0)), Entry(1, Pos(1, 1))], 1);
    assert SiftDown([Entry(3, Pos(0, 0)), Entry(1, Pos(1, 1))], 1) == SiftDown([Entry(1, Pos(1, 1)), Entry(3, Pos(0, 0))], 0);
    assert SiftDown([Entry(1, Pos(1, 1)), Entry(3, Pos(0, 0))], 0) == [Entry(1, Pos(1, 1)), Entry(3, Pos(0, 0))];
  }

  lemma SecondRelax0_2()
    ensures RelaxOne(Pos(1, 1), Pos(1, 0), 0, SecondState0_1, Pos(1, 1)) == SecondState1
  {
    assert Get(SecondState0_1.cost, Pos(1, 1)) == None;
    assert !Has(SecondState0_1.tSet, Pos(1, 1));
    assert SecondState0_1.queue == [Entry(3, Pos(0, 0))];
    SecondHeapPush0_2();
  }

  /** The neighbour loop of pop 0 leaves the state of pop 1. */
  lemma SecondRound0()
    ensures Round(SmallRows, SmallBarriers, SmallGoal, SecondState0_0, Pos(1, 0)) == SecondState1
  {
    assert Get(SecondState0_0.cost, Pos(1, 0)) == Some(0);
    SecondNeighbors0();
    SecondRelax0_1();
    SecondRelax0_2();
  }

  /** Pop 0 hands over to pop 1. */
  lemma SecondLoop0()
    ensures Loop(SmallRows, SmallBarriers, SmallGoal, SecondState0, 2) == Loop(SmallRows, SmallBarriers, SmallGoal, SecondState1, 1)
  {
    SecondPop0();
    SecondRound0();
  }

  const SecondState1_0 :=
    Search(
      Bind(Pos(1, 1), 1, Bind(Pos(0, 0), 1, Bind(Pos(1, 0), 0, Empty))),
      [Entry(3, Pos(0, 0))],
      Cons(Pos(0, 0), Nil),
      Bind(Pos(1, 1), Pos(1, 0), Bind(Pos(0, 0), Pos(1, 0), Bind(Pos(1, 1), Pos(1, 0), Bind(Pos(1, 0), Pos(0, 0), Empty)))))

  /** The `heappop` of pop 1. */
  lemma SecondHeapPop1()
    ensures HeapPop([Entry(1, Pos(1, 1)), Entry(3, Pos(0, 0))]) == Popped(Entry(1, Pos(1, 1)), [Entry(3, Pos(0, 0))])
  {
    assert [Entry(1, Pos(1, 1)), Entry(3, Pos(0, 0))][..1] == [Entry(1, Pos(1, 1))];
    assert [Entry(1, Pos(1, 1))][0 := Entry(3, Pos(0, 0))] == [Entry(3, Pos(0, 0))];
    assert HeapPop([Entry(1, Pos(1, 1)), Entry(3, Pos(0, 0))]) == Popped(Entry(1, Pos(1, 1)), SiftUp([Entry(3, Pos(0, 0))], 0));
    assert SiftUp([Entry(3, Pos(0, 0))], 0) == SiftDown([Entry(3, Pos(0, 0))], 0);
    assert SiftDown([Entry(3, Pos(0, 0))], 0) == [Entry(3, Pos(0, 0))];
  }

  /** Pop 1 takes Entry(1, Pos(1, 1)) off the heap. */
  lemma SecondPop1()
    ensures Pop(SecondState1) == Step(Entry(1, Pos(1, 1)), SecondState1_0)
  {
    assert SecondState1.queue == [Entry(1, Pos(1, 1)), Entry(3, Pos(0, 0))];
    SecondHeapPop1();
    assert Remove(SecondState1.tSet, Pos(1, 1)) == Cons(Pos(0, 0), Nil);
  }

  /** Pop 1 takes the goal. */
  lemma SecondLoop1()
    ensures Loop(SmallRows, SmallBarriers, SmallGoal, SecondState1, 1) == Found(SecondFinal)
  {
    SecondPop1();
    assert SecondState1_0 == SecondFinal;
  }

  /** From pop 1 on, the search ends with the goal popped. */
  lemma SecondFrom1()
    ensures Loop(SmallRows, SmallBarriers, SmallGoal, SecondState1, 1) == Found(SecondFinal)
  {
    SecondLoop1();
  }

  /** From pop 0 on, the search ends with the goal popped. */
  lemma SecondFrom0()
    ensures Loop(SmallRows, SmallBarriers, SmallGoal, SecondState0, 2) == Found(SecondFinal)
  {
    SecondLoop0();
    SecondFrom1();
  }

  /** After the second search, (1, 0) and (0, 0) point to each other and the goal points into the cycle. */
  lemma SecondCycle()
    ensures forall fuel: nat :: Painted(SecondFinal.prev, Pos(1, 1), fuel) == None
  {
    var prev := SecondFinal.prev;
    assert Get(prev, Pos(1, 0)) == Some(Pos(0, 0));
    assert Get(prev, Pos(0, 0)) == Some(Pos(1, 0));
    assert Get(prev, Pos(1, 1)) == Some(Pos(1, 0));
    forall fuel: nat
      ensures Painted(prev, Pos(1, 1), fuel) == None
    {
      CycleNeverEnds(prev, Pos(1, 0), Pos(0, 0), fuel);
    }
  }

  /**
   * A `previous` link left by an earlier search makes the reconstruction
   * loop forever. A first search from (0, 0) to (1, 1) leaves (1, 0)
   * pointing back to (0, 0). With the start moved to (1, 0), the second
   * search sets (0, 0) and (1, 1) to point to (1, 0) and pops the goal; the
   * reconstruction then walks (1, 1), (1, 0), (0, 0), (1, 0), ... and never
   * reaches a cell without `previous`.
   */
  lemma StalePreviousCounterexample()
    ensures Run(SmallRows, SmallBarriers, Pos(0, 0), SmallGoal, Empty, 3) == Found(FirstFinal)
    ensures Run(SmallRows, SmallBarriers, Pos(1, 0), SmallGoal, FirstFinal.prev, 2) == Found(SecondFinal)
    ensures forall fuel: nat :: Painted(SecondFinal.prev, Pos(1, 1), fuel) == None
  {
    FirstStart(); FirstFrom0(); SecondStart(); SecondFrom0();
    SecondCycle();
  }
}

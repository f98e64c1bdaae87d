/** What the collection phase comes to, in tiles and owners alone: which nodes empty and who gets
    their energy. */
module CollectOutcome {
  import opened Torus
  import opened Tally
  import opened GameTypes
  import opened Rules

  /** The players with a living bot within squared distance two of the node. */
  ghost function Gatherers(c: Config, bots: seq<Bot>, pos: Position): set<nat>
    requires c.rows > 0 && c.cols > 0
  {
    set i: nat | i < |bots| && bots[i].alive && Distance2(bots[i].pos, pos, c.rows, c.cols) <= 2 :: bots[i].owner
  }

  /** b plus a step of at most one in each direction, wrapped, is a. */
  predicate StepsTo(b: Position, dr: int, dc: int, a: Position, rows: int, cols: int)
    requires rows > 0 && cols > 0
  {
    -1 <= dr <= 1 && -1 <= dc <= 1 && Wrap(b.row + dr, b.col + dc, rows, cols) == a
  }

  /** That is the tile itself and its eight neighbours, across the edges too. */
  lemma NearIsNeighbourhood(a: Position, b: Position, rows: int, cols: int)
    requires InGrid(a, rows, cols) && InGrid(b, rows, cols)
    ensures Distance2(a, b, rows, cols) <= 2 <==> exists dr, dc :: StepsTo(b, dr, dc, a, rows, cols)
  {
    hide Distance2, StepsTo;
    if Distance2(a, b, rows, cols) <= 2 {
      var dr, dc := NearIsAStep(a, b, rows, cols);
    }
    if dr, dc :| StepsTo(b, dr, dc, a, rows, cols) {
      AStepIsNear(a, b, dr, dc, rows, cols);
    }
  }

  lemma NearIsAStep(a: Position, b: Position, rows: int, cols: int) returns (dr: int, dc: int)
    requires InGrid(a, rows, cols) && InGrid(b, rows, cols) && Distance2(a, b, rows, cols) <= 2
    ensures StepsTo(b, dr, dc, a, rows, cols)
  {
    dr, dc := Fold(a.row - b.row, rows), Fold(a.col - b.col, cols);
    hide Fold, Sq, WrapAxis;
    ShortSquare(dr);
    ShortSquare(dc);
    FoldReaches(a.row, b.row, rows);
    FoldReaches(a.col, b.col, cols);
  }

  lemma AStepIsNear(a: Position, b: Position, dr: int, dc: int, rows: int, cols: int)
    requires InGrid(a, rows, cols) && InGrid(b, rows, cols) && StepsTo(b, dr, dc, a, rows, cols)
    ensures Distance2(a, b, rows, cols) <= 2
  {
    hide Fold, Sq, WrapAxis;
    StepFolds(b.row, dr, rows);
    StepFolds(b.col, dc, cols);
  }

  lemma ShortSquare(x: int)
    ensures Sq(x) >= 0 && (Sq(x) <= 2 ==> -1 <= x <= 1)
  {
    if x >= 2 {
      SquareGrows(2, x);
    } else if x <= -2 {
      SquareGrows(2, x);
    }
    SquareIsPositive(x);
  }

  /** The folded difference leads from one coordinate to the other. */
  lemma FoldReaches(x: int, y: int, n: int)
    requires 0 <= x < n && 0 <= y < n
    ensures WrapAxis(y + Fold(x - y, n), n) == x
  {
    var k := FoldSheet(x - y, n);
    WrapAxisIs(y + Fold(x - y, n), n, k, x);
  }

  /** A step of at most one stays at most one after wrapping and folding. */
  lemma StepFolds(y: int, d: int, n: int)
    requires 0 <= y < n && -1 <= d <= 1
    ensures Sq(Fold(WrapAxis(y + d, n) - y, n)) <= 1
  {
    var k := if y + d == -1 then 1 else if y + d == n then -1 else 0;
    WrapAxisIs(y + d, n, -k, y + d + k * n);
    FoldIsLeast(WrapAxis(y + d, n) - y, n, -k);
    assert Sq(d) <= 1;
  }

  // ----- Nodes and energy ---------------------------------------------------------

  lemma HarvestIsByGatherers(c: Config, bots: seq<Bot>, node: EnergyNode)
    requires c.rows > 0 && c.cols > 0
    ensures var g := Gatherers(c, bots, node.pos);
            && (HarvestOf(c, bots, node) == Untouched <==> !node.hasEnergy || g == {})
            && forall p: nat :: HarvestOf(c, bots, node) == Taken(p) <==> node.hasEnergy && g == {p}
  {
    var g := Gatherers(c, bots, node.pos);
    GatherersAre(c, bots, node);
    var h := HarvestOf(c, bots, node);
    hide HarvestOf, Gatherers, Near;
    if h.Taken? {
      assert g == {h.player};
    }
    forall p: nat | node.hasEnergy && g == {p}
      ensures h == Taken(p)
    {
      assert p in g;
    }
  }

  lemma GatherersAre(c: Config, bots: seq<Bot>, node: EnergyNode)
    requires c.rows > 0 && c.cols > 0
    ensures forall i :: Near(c, bots, node, i) ==> 0 <= i < |bots| && bots[i].owner in Gatherers(c, bots, node.pos)
    ensures forall p :: p in Gatherers(c, bots, node.pos) ==> exists i :: Near(c, bots, node, i) && bots[i].owner == p
  {
    hide Distance2;
    forall p | p in Gatherers(c, bots, node.pos)
      ensures exists i :: Near(c, bots, node, i) && bots[i].owner == p
    {
      var i: nat :| i < |bots| && bots[i].alive && Distance2(bots[i].pos, node.pos, c.rows, c.cols) <= 2
                    && bots[i].owner == p;
      assert Near(c, bots, node, i);
    }
  }

  /** A charged node empties exactly when some bot is beside it; no other node changes. */
  lemma CollectEmpties(c: Config, s: State, s': State, k: nat)
    requires c.rows > 0 && c.cols > 0 && CollectStep(c, s, s') && k < |s.nodes|
    ensures |s'.nodes| == |s.nodes|
    ensures s'.nodes[k] == if s.nodes[k].hasEnergy && Gatherers(c, s.bots, s.nodes[k].pos) != {}
                           then s.nodes[k].(hasEnergy := false, tick := 0) else s.nodes[k]
  {
    HarvestIsByGatherers(c, s.bots, s.nodes[k]);
    hide HarvestOf, Gatherers, CollectNotices;
  }

  /** The charged nodes below n with bots of player p, and of no other player, beside them. */
  ghost function Yields(c: Config, s: State, p: nat, n: nat): set<nat>
    requires c.rows > 0 && c.cols > 0 && n <= |s.nodes|
  {
    set k: nat | k < n && s.nodes[k].hasEnergy && Gatherers(c, s.bots, s.nodes[k].pos) == {p}
  }

  lemma {:induction false} NoticesAreYields(c: Config, s: State, p: nat, n: nat)
    requires c.rows > 0 && c.cols > 0 && n <= |s.nodes|
    ensures Sum(CollectNotices(c, s.bots, s.nodes, n), CollectedBy(p)) == |Yields(c, s, p, n)|
  {
    hide HarvestOf, Gatherers;
    if n == 0 {
      assert Yields(c, s, p, n) == {};
    } else {
      var k := n - 1;
      NoticesAreYields(c, s, p, k);
      HarvestIsByGatherers(c, s.bots, s.nodes[k]);
      var init, h := CollectNotices(c, s.bots, s.nodes, k), HarvestOf(c, s.bots, s.nodes[k]);
      YieldsGrow(c, s, p, k);
      hide Yields;
      if h.Taken? {
        SumAppend(init, EnergyCollected(k, h.player), CollectedBy(p));
      } else {
        assert CollectNotices(c, s.bots, s.nodes, n) == init;
      }
    }
  }

  lemma YieldsGrow(c: Config, s: State, p: nat, k: nat)
    requires c.rows > 0 && c.cols > 0 && k < |s.nodes|
    ensures |Yields(c, s, p, k + 1)| == |Yields(c, s, p, k)|
            + if s.nodes[k].hasEnergy && Gatherers(c, s.bots, s.nodes[k].pos) == {p} then 1 else 0
  {
    hide Gatherers;
    var own := s.nodes[k].hasEnergy && Gatherers(c, s.bots, s.nodes[k].pos) == {p};
    var before := Yields(c, s, p, k);
    assert Yields(c, s, p, k + 1) == if own then before + {k} else before;
  }

  /** A player gets one unit for each charged node it has to itself; contested nodes pay nobody. */
  lemma CollectPays(c: Config, s: State, s': State, p: nat)
    requires c.rows > 0 && c.cols > 0 && CollectStep(c, s, s') && p < |s.players|
    ensures |s'.players| == |s.players|
    ensures s'.players[p] == s.players[p].(energy := s.players[p].energy + |Yields(c, s, p, |s.nodes|)|)
  {
    NoticesAreYields(c, s, p, |s.nodes|);
    hide HarvestOf, Gatherers, CollectNotices, Yields;
  }
}

/** Reservations end to end: what the kamikaze bot decides from its fogged view, carried through
    validation and submission into the engine's move phase. */
module Reservations {
  import opened Torus
  import opened Tally
  import opened GameTypes
  import opened Rules
  import opened BotMoves
  import opened Kamikaze
  import opened Delivery
  import opened WellFormedSteps

  predicate Mine(s: State, p: nat, i: int) {
    0 <= i < |s.bots| && s.bots[i].alive && s.bots[i].owner == p
  }

  /** The player's living bots stand on distinct tiles and share none with another player. */
  ghost predicate SpreadOut(s: State, p: nat) {
    forall i, j :: Mine(s, p, i) && 0 <= j < |s.bots| && s.bots[j].alive && i != j ==> s.bots[i].pos != s.bots[j].pos
  }

  // ----- What the bot sees --------------------------------------------------------

  /** Along one axis, a step of at most one tile is no longer after folding. */
  lemma AxisStep(x: int, step: int, n: int)
    requires 0 <= x < n && -1 <= step <= 1
    ensures Sq(Fold(x - WrapAxis(x + step, n), n)) <= Sq(step)
  {
    var k := if x + step == -1 then 1 else if x + step == n then -1 else 0;
    WrapAxisIs(x + step, n, -k, x + step + k * n);
    FoldIsLeast(x - WrapAxis(x + step, n), n, k);
    assert Sq(-step) == Sq(step);
  }

  /** One step away is at squared distance at most one. */
  lemma StepIsNear(p: Position, d: Direction, rows: int, cols: int)
    requires InGrid(p, rows, cols)
    ensures Distance2(p, Move(p, d, rows, cols), rows, cols) <= 1
  {
    AxisStep(p.row, DeltaRow(d), rows);
    AxisStep(p.col, DeltaCol(d), cols);
    assert Sq(DeltaRow(d)) + Sq(DeltaCol(d)) <= 1;
    hide Fold, WrapAxis, Sq;
  }

  /** A bot is always in its own player's sight, unless vision is switched off. */
  lemma SeesItself(c: Config, s: State, p: nat, i: nat)
    requires c.visionRadius2 >= 0 && WellFormed(c, s) && Mine(s, p, i)
    ensures InSight(c, s, p, s.bots[i].pos)
  {
    DistanceIsZeroOnlyAtHome(s.bots[i].pos, s.bots[i].pos, c.rows, c.cols);
    hide Distance2;
  }

  /** Every wall next to one of the player's bots is in the view. */
  ghost predicate WallsInView(c: Config, s: State, p: nat, v: VisibleState)
    requires c.rows > 0 && c.cols > 0
  {
    forall i, d :: Mine(s, p, i) && Move(s.bots[i].pos, d, c.rows, c.cols) in s.walls ==>
      Move(s.bots[i].pos, d, c.rows, c.cols) in v.walls
  }

  /** A vision radius of one tile is enough for that. */
  lemma VisionShowsWalls(c: Config, s: State, p: nat, v: VisibleState)
    requires c.visionRadius2 >= 1 && WellFormed(c, s) && p < |s.players| && VisibleStep(c, s, p, v)
    ensures WallsInView(c, s, p, v)
  {
    forall i: nat, d | Mine(s, p, i) && Move(s.bots[i].pos, d, c.rows, c.cols) in s.walls
      ensures Move(s.bots[i].pos, d, c.rows, c.cols) in v.walls
    {
      StepIsNear(s.bots[i].pos, d, c.rows, c.cols);
      hide Distance2, Move;
      assert InSight(c, s, p, Move(s.bots[i].pos, d, c.rows, c.cols));
    }
  }

  /** The bot's units, in the order of its list. */
  function OwnUnits(bots: seq<VisibleBot>, id: nat): seq<Position> {
    if bots == [] then []
    else OwnUnits(bots[..|bots| - 1], id) + if bots[|bots| - 1].owner == id then [bots[|bots| - 1].pos] else []
  }

  /** The tiles of the enemies in view, in the order of its list. */
  function EnemyTiles(bots: seq<VisibleBot>, id: nat): seq<Position> {
    if bots == [] then []
    else EnemyTiles(bots[..|bots| - 1], id) + if bots[|bots| - 1].owner != id then [bots[|bots| - 1].pos] else []
  }

  method FindUnits(v: VisibleState) returns (myBots: seq<Position>, enemyBots: seq<Position>)
    ensures myBots == OwnUnits(v.bots, v.id) && enemyBots == EnemyTiles(v.bots, v.id)
  {
    myBots, enemyBots := [], [];
    for k := 0 to |v.bots|
      invariant myBots == OwnUnits(v.bots[..k], v.id) && enemyBots == EnemyTiles(v.bots[..k], v.id)
    {
      assert v.bots[..k + 1][..k] == v.bots[..k];
      if v.bots[k].owner == v.id {
        myBots := myBots + [v.bots[k].pos];
      } else {
        enemyBots := enemyBots + [v.bots[k].pos];
      }
    }
    assert v.bots[..|v.bots|] == v.bots;
  }

  /** Both lists together have every bot of the view, and the enemies are those of other owners. */
  lemma {:induction false} EveryBotIsListed(bots: seq<VisibleBot>, id: nat)
    ensures |OwnUnits(bots, id)| + |EnemyTiles(bots, id)| == |bots|
    ensures forall q :: q in EnemyTiles(bots, id) <==>
            exists k :: 0 <= k < |bots| && bots[k].owner != id && bots[k].pos == q
  {
    if bots == [] {
    } else {
      var init, b := bots[..|bots| - 1], bots[|bots| - 1];
      EveryBotIsListed(init, id);
      forall q
        ensures q in EnemyTiles(bots, id) <==> exists k :: 0 <= k < |bots| && bots[k].owner != id && bots[k].pos == q
      {
        if k :| 0 <= k < |bots| && bots[k].owner != id && bots[k].pos == q {
          assert k < |init| ==> init[k].owner != id && init[k].pos == q;
        }
      }
    }
  }

  lemma {:induction false} OwnUnitsMembers(bots: seq<VisibleBot>, id: nat)
    ensures forall q :: q in OwnUnits(bots, id) <==>
            exists k :: 0 <= k < |bots| && bots[k].owner == id && bots[k].pos == q
    ensures (forall j, k :: 0 <= j < k < |bots| && bots[j].owner == id && bots[k].owner == id ==>
             bots[j].pos != bots[k].pos)
            ==> Distinct(OwnUnits(bots, id))
  {
    if bots == [] {
    } else {
      var init, b := bots[..|bots| - 1], bots[|bots| - 1];
      OwnUnitsMembers(init, id);
      forall q
        ensures q in OwnUnits(bots, id) <==> exists k :: 0 <= k < |bots| && bots[k].owner == id && bots[k].pos == q
      {
        if k :| 0 <= k < |bots| && bots[k].owner == id && bots[k].pos == q {
          assert k < |init| ==> init[k].owner == id && init[k].pos == q;
        }
      }
      if forall j, k :: 0 <= j < k < |bots| && bots[j].owner == id && bots[k].owner == id ==>
         bots[j].pos != bots[k].pos {
        var mine := OwnUnits(init, id);
        assert Distinct(mine);
        assert b.owner == id ==> b.pos !in mine;
        assert forall i :: 0 <= i < |mine| ==> mine[i] in mine;
      }
    }
  }

  /** units lists the tiles of the player's living bots, each once. */
  ghost predicate Musters(s: State, p: nat, units: seq<Position>) {
    && Distinct(units)
    && forall q :: q in units <==> exists i :: Mine(s, p, i) && s.bots[i].pos == q
  }

  lemma SeenIsOwn(c: Config, s: State, p: nat, v: VisibleState, k: nat)
    requires WellFormed(c, s) && p < |s.players| && VisibleStep(c, s, p, v) && k < |v.bots| && v.bots[k].owner == v.id
    ensures var ids := Select(|s.bots|, SeenBot(c, s, p));
            |ids| == |v.bots| && Mine(s, p, ids[k]) && v.bots[k].pos == s.bots[ids[k]].pos
  {
    hide InSight, WellFormed;
    var ids := Select(|s.bots|, SeenBot(c, s, p));
    SelectMembers(|s.bots|, SeenBot(c, s, p));
    assert ids[k] in ids;
  }

  lemma OwnIsSeen(c: Config, s: State, p: nat, v: VisibleState, i: nat) returns (k: nat)
    requires c.visionRadius2 >= 0 && WellFormed(c, s) && p < |s.players| && VisibleStep(c, s, p, v) && Mine(s, p, i)
    ensures k < |v.bots| && v.bots[k].owner == v.id && v.bots[k].pos == s.bots[i].pos
  {
    SeesItself(c, s, p, i);
    hide InSight, WellFormed;
    var ids := Select(|s.bots|, SeenBot(c, s, p));
    SelectMembers(|s.bots|, SeenBot(c, s, p));
    assert i in ids;
    k :| 0 <= k < |ids| && ids[k] == i;
  }

  lemma {:induction false} DistinctIsOnce(xs: seq<Position>)
    ensures Distinct(xs) <==> forall x :: multiset(xs)[x] <= 1
  {
    if xs == [] {
    } else {
      var init, last := xs[..|xs| - 1], xs[|xs| - 1];
      DistinctIsOnce(init);
      assert xs == init + [last];
      assert last in init <==> multiset(init)[last] >= 1;
      assert multiset(xs)[last] == multiset(init)[last] + 1;
      assert forall x :: multiset(init)[x] <= multiset(xs)[x];
    }
  }

  lemma PermutationKeeps(xs: seq<Position>, ys: seq<Position>)
    requires multiset(xs) == multiset(ys)
    ensures Distinct(xs) <==> Distinct(ys)
    ensures forall q :: q in xs <==> q in ys
  {
    DistinctIsOnce(xs);
    DistinctIsOnce(ys);
    assert forall q :: q in xs <==> q in multiset(xs);
    assert forall q :: q in ys <==> q in multiset(ys);
  }

  /** Two entries of the player's own bots stand on different tiles, so its list repeats nothing. */
  lemma OwnUnitsApart(c: Config, s: State, p: nat, v: VisibleState)
    requires WellFormed(c, s) && p < |s.players| && VisibleStep(c, s, p, v) && SpreadOut(s, p)
    ensures Distinct(OwnUnits(v.bots, v.id))
  {
    SelectMembers(|s.bots|, SeenBot(c, s, p));
    OwnUnitsMembers(v.bots, v.id);
    hide OwnUnits, Select, SeenBot, WellFormed, VisibleStep;
    forall j, k | 0 <= j < k < |v.bots| && v.bots[j].owner == v.id && v.bots[k].owner == v.id
      ensures v.bots[j].pos != v.bots[k].pos
    {
      SeenIsOwn(c, s, p, v, j);
      SeenIsOwn(c, s, p, v, k);
    }
  }

  /** The list holds a tile exactly when one of the player's living bots stands there. */
  lemma OwnUnitsAreMine(c: Config, s: State, p: nat, v: VisibleState, q: Position)
    requires c.visionRadius2 >= 0 && WellFormed(c, s) && p < |s.players| && VisibleStep(c, s, p, v)
    ensures q in OwnUnits(v.bots, v.id) <==> exists i :: Mine(s, p, i) && s.bots[i].pos == q
  {
    OwnUnitsMembers(v.bots, v.id);
    hide OwnUnits, Select, SeenBot, WellFormed, VisibleStep;
    if k :| 0 <= k < |v.bots| && v.bots[k].owner == v.id && v.bots[k].pos == q {
      SeenIsOwn(c, s, p, v, k);
    }
    if i :| Mine(s, p, i) && s.bots[i].pos == q {
      var k := OwnIsSeen(c, s, p, v, i);
    }
  }

  /** However the bot sorts its list, it holds exactly the player's living bots. */
  lemma ViewMusters(c: Config, s: State, p: nat, v: VisibleState, units: seq<Position>)
    requires c.visionRadius2 >= 0 && WellFormed(c, s) && p < |s.players| && VisibleStep(c, s, p, v) && SpreadOut(s, p)
    requires multiset(units) == multiset(OwnUnits(v.bots, v.id))
    ensures Musters(s, p, units)
  {
    hide OwnUnits, Distinct, WellFormed, VisibleStep;
    OwnUnitsApart(c, s, p, v);
    PermutationKeeps(OwnUnits(v.bots, v.id), units);
    forall q
      ensures q in units <==> exists i :: Mine(s, p, i) && s.bots[i].pos == q
    {
      OwnUnitsAreMine(c, s, p, v, q);
    }
  }

  // ----- What the moves become ----------------------------------------------------

  lemma {:induction false} MovesOfMembers(units: seq<Position>, choices: seq<Choice>, k: nat)
    requires k <= |units| && k <= |choices|
    ensures forall m :: m in MovesOf(units, choices, k) <==>
            exists u :: 0 <= u < k && choices[u] == Go(m.dir) && units[u] == m.pos
  {
    if k == 0 {
    } else {
      MovesOfMembers(units, choices, k - 1);
    }
  }

  lemma {:induction false} MovesOfApart(units: seq<Position>, choices: seq<Choice>, k: nat)
    requires k <= |units| && k <= |choices| && Distinct(units)
    ensures TilesDiffer(MovesOf(units, choices, k))
  {
    if k == 0 {
    } else {
      MovesOfApart(units, choices, k - 1);
      MovesOfMembers(units, choices, k - 1);
      var init := MovesOf(units, choices, k - 1);
      forall a | 0 <= a < |init|
        ensures init[a].pos != units[k - 1]
      {
        assert init[a] in init;
        var u :| 0 <= u < k - 1 && choices[u] == Go(init[a].dir) && units[u] == init[a].pos;
      }
    }
  }

  /** Every choice to go is a real direction. */
  lemma ChoicesAreReal(units: seq<Position>, walls: set<Position>, score: (nat, Direction) -> real,
                       choices: seq<Choice>, u: nat, rows: int, cols: int)
    requires rows > 0 && cols > 0 && Plan(units, walls, score, choices, rows, cols) && u < |units|
    ensures choices[u].Go? ==> choices[u].dir != DirNone
  {
    assert Decided(units, walls, score, choices, u, rows, cols);
  }

  /** The client's validation lets the whole plan through. */
  lemma {:induction false} PlanPasses(c: Config, v: VisibleState, units: seq<Position>, score: (nat, Direction) -> real,
                                      choices: seq<Choice>)
    requires c.rows > 0 && c.cols > 0 && Distinct(units) && multiset(units) == multiset(OwnUnits(v.bots, v.id))
    requires Plan(units, v.walls, score, choices, c.rows, c.cols)
    ensures var moves := MovesOf(units, choices, |units|); Validated(moves, OwnTiles(v)) == moves
  {
    hide Decided;
    var moves := MovesOf(units, choices, |units|);
    MovesOfApart(units, choices, |units|);
    MovesOfMembers(units, choices, |units|);
    PermutationKeeps(OwnUnits(v.bots, v.id), units);
    OwnUnitsMembers(v.bots, v.id);
    forall k | 0 <= k < |moves|
      ensures moves[k].dir != DirNone && moves[k].pos in OwnTiles(v)
    {
      assert moves[k] in moves;
      var u :| 0 <= u < |units| && choices[u] == Go(moves[k].dir) && units[u] == moves[k].pos;
      ChoicesAreReal(units, v.walls, score, choices, u, c.rows, c.cols);
      assert units[u] in units;
    }
    DisciplinePasses(moves, OwnTiles(v));
  }

  /** The player's orders are the moves it sent; other players' orders are arbitrary. */
  ghost predicate OrdersFrom(p: nat, orders: seq<Order>, sent: seq<BotMove>) {
    && (forall k :: 0 <= k < |orders| && orders[k].player == p ==> BotMove(orders[k].pos, orders[k].dir) in sent)
    && forall m :: m in sent ==> exists k :: 0 <= k < |orders| && orders[k] == Order(p, m.pos, m.dir)
  }

  /** A bot's order, if it is given one, is its unit's choice. */
  lemma {:induction false} OrderIsChoice(s: State, p: nat, units: seq<Position>, choices: seq<Choice>,
                                         orders: seq<Order>, i: nat, u: nat)
    requires Mine(s, p, i) && Distinct(units) && |choices| == |units| && u < |units| && units[u] == s.bots[i].pos
    requires OrdersFrom(p, orders, MovesOf(units, choices, |units|))
    ensures forall k :: 0 <= k < |orders| && IsFor(s.bots, i, orders[k]) ==> choices[u] == Go(orders[k].dir)
    ensures choices[u].Go? ==> exists k :: 0 <= k < |orders| && IsFor(s.bots, i, orders[k])
  {
    MovesOfMembers(units, choices, |units|);
    hide MovesOf;
    forall k | 0 <= k < |orders| && IsFor(s.bots, i, orders[k])
      ensures choices[u] == Go(orders[k].dir)
    {
      assert BotMove(orders[k].pos, orders[k].dir) in MovesOf(units, choices, |units|);
      var w :| 0 <= w < |units| && choices[w] == Go(orders[k].dir) && units[w] == orders[k].pos;
      assert w == u;
    }
    if choices[u].Go? {
      var m := BotMove(units[u], choices[u].dir);
      assert m in MovesOf(units, choices, |units|);
      var k :| 0 <= k < |orders| && orders[k] == Order(p, m.pos, m.dir);
      assert IsFor(s.bots, i, orders[k]);
    }
  }

  lemma MineIsAlone(s: State, p: nat, i: nat)
    requires SpreadOut(s, p) && Mine(s, p, i)
    ensures Alone(s.bots, i)
  {
  }

  /** Every living bot of the player carries its unit's choice. */
  lemma {:induction false} OrdersAreChoices(s: State, p: nat, units: seq<Position>, choices: seq<Choice>,
                                            orders: seq<Order>, i: nat, u: nat)
    requires Identified(s.bots) && s.moves == map[] && SpreadOut(s, p) && Mine(s, p, i)
    requires Distinct(units) && |choices| == |units| && u < |units| && units[u] == s.bots[i].pos
    requires OrdersFrom(p, orders, MovesOf(units, choices, |units|))
    ensures var m := AfterOrders(s, orders).moves;
            (i in m <==> choices[u].Go?) && (i in m ==> choices[u] == Go(m[i]))
  {
    MineIsAlone(s, p, i);
    AloneObeysItsPlayer(s, i, orders);
    OrderIsChoice(s, p, units, choices, orders, i, u);
    hide *;
  }

  /** The engine takes each bot exactly where its unit planned to land. */
  lemma {:induction false} LandsAsPlanned(c: Config, s: State, p: nat, v: VisibleState, units: seq<Position>,
                                          score: (nat, Direction) -> real,
                       choices: seq<Choice>, orders: seq<Order>, i: nat, u: nat)
    requires c.visionRadius2 >= 0 && WellFormed(c, s) && p < |s.players| && VisibleStep(c, s, p, v)
             && WallsInView(c, s, p, v)
    requires s.moves == map[] && SpreadOut(s, p) && Mine(s, p, i)
    requires Distinct(units) && Plan(units, v.walls, score, choices, c.rows, c.cols)
    requires u < |units| && units[u] == s.bots[i].pos
    requires OrdersFrom(p, orders, MovesOf(units, choices, |units|))
    ensures Destination(c, AfterOrders(s, orders), i) == Landing(units[u], choices[u], c.rows, c.cols)
  {
    BotsAreIdentified(c, s, i);
    OrdersAreChoices(s, p, units, choices, orders, i, u);
    ChoicesAreReal(units, v.walls, score, choices, u, c.rows, c.cols);
    ReservationsHold(units, v.walls, score, choices, c.rows, c.cols);
    hide Move, VisibleStep, SpreadOut, OrdersFrom, AfterOrders, Plan, WellFormed;
  }

  lemma BotsAreIdentified(c: Config, s: State, i: nat)
    requires WellFormed(c, s)
    ensures Identified(s.bots) && c.rows > 0 && c.cols > 0
    ensures i < |s.bots| ==> InGrid(s.bots[i].pos, c.rows, c.cols)
  {
  }

  /** If the player's bots start apart, share no tile with an enemy and see the walls beside them,
      then whatever the sort,
      the scores and the other players' orders, none of them dies by self-collision. */
  lemma {:induction false} NoSelfCollision(c: Config, s: State, p: nat, v: VisibleState, units: seq<Position>,
                                           score: (nat, Direction) -> real, choices: seq<Choice>, orders: seq<Order>)
    requires c.visionRadius2 >= 0 && WellFormed(c, s) && p < |s.players| && s.moves == map[] && SpreadOut(s, p)
    requires VisibleStep(c, s, p, v) && WallsInView(c, s, p, v) && multiset(units) == multiset(OwnUnits(v.bots, v.id))
    requires Plan(units, v.walls, score, choices, c.rows, c.cols)
    requires OrdersFrom(p, orders, Validated(MovesOf(units, choices, |units|), OwnTiles(v)))
    ensures forall i :: Mine(s, p, i) ==> !Collides(c, AfterOrders(s, orders), i)
    ensures forall i, j :: Mine(s, p, i) && Mine(s, p, j) && i != j ==>
              Destination(c, AfterOrders(s, orders), i) != Destination(c, AfterOrders(s, orders), j)
  {
    ViewMusters(c, s, p, v, units);
    PlanPasses(c, v, units, score, choices);
    var s' := AfterOrders(s, orders);
    forall i, j | Mine(s, p, i) && Mine(s, p, j) && i != j
      ensures Destination(c, s', i) != Destination(c, s', j)
    {
      assert s.bots[i].pos in units && s.bots[j].pos in units;
      LandApart(c, s, p, v, units, score, choices, orders, i, j);
    }
    hide VisibleStep, OrdersFrom, Plan, WellFormed, Destination, Musters, AfterOrders;
    forall i | Mine(s, p, i)
      ensures !Collides(c, s', i)
    {
      if j :| j != i && HeadsFor(c, s', j, Destination(c, s', i)) && s.bots[j].owner == p {
        assert false;
      }
    }
  }

  lemma {:induction false} LandApart(c: Config, s: State, p: nat, v: VisibleState, units: seq<Position>,
                                     score: (nat, Direction) -> real,
                  choices: seq<Choice>, orders: seq<Order>, i: nat, j: nat)
    requires c.visionRadius2 >= 0 && WellFormed(c, s) && p < |s.players| && VisibleStep(c, s, p, v)
             && WallsInView(c, s, p, v)
    requires s.moves == map[] && SpreadOut(s, p) && Mine(s, p, i) && Mine(s, p, j) && i != j
    requires Distinct(units) && Plan(units, v.walls, score, choices, c.rows, c.cols)
    requires s.bots[i].pos in units && s.bots[j].pos in units
    requires OrdersFrom(p, orders, MovesOf(units, choices, |units|))
    ensures Destination(c, AfterOrders(s, orders), i) != Destination(c, AfterOrders(s, orders), j)
  {
    BotsAreIdentified(c, s, i);
    var u :| 0 <= u < |units| && units[u] == s.bots[i].pos;
    var w :| 0 <= w < |units| && units[w] == s.bots[j].pos;
    assert u != w by {
      assert s.bots[i].pos != s.bots[j].pos;
    }
    hide *;
    LandsAsPlanned(c, s, p, v, units, score, choices, orders, i, u);
    LandsAsPlanned(c, s, p, v, units, score, choices, orders, j, w);
    ReservationsHold(units, v.walls, score, choices, c.rows, c.cols);
  }

  lemma CountingTheTurn(c: Config, s: State, s': State, i: nat)
    requires c.rows > 0 && c.cols > 0 && i < |s.bots| && s' == s.(turn := s'.turn)
    ensures Destination(c, s', i) == Destination(c, s, i)
    ensures Collides(c, s', i) ==> Collides(c, s, i)
  {
    forall j, q
      ensures HeadsFor(c, s', j, q) <==> HeadsFor(c, s, j, q)
    {
    }
    hide Destination, HeadsFor;
  }

  lemma ClearedHasNoOrders(c: Config, s: State, t: TurnTrace)
    requires WellFormed(c, s) && (c.zoneEnabled ==> c.zoneShrinkInterval != 0) && TurnStep(c, s, t)
    ensures WellFormed(c, t.cleared) && t.cleared.moves == map[] && c.rows > 0 && c.cols > 0
    ensures |t.cleared.players| == |s.players| && t.ordered == AfterOrders(t.cleared, t.orders)
    ensures t.begun == t.ordered.(turn := t.begun.turn) && t.begun.bots == t.cleared.bots
            && MoveStep(c, t.begun, t.moved)
  {
    ClearedStaysWellFormed(c, s, t.inactive);
    hide WellFormed, MoveStep, CombatStep, ZoneStep, CaptureStep, CollectStep, SpawnStep, TickStep, EndgameStep;
  }

  /** A whole turn: the player decides on the view of this turn, and after the move phase all its
      bots are alive, on tiles of their own choosing and still apart. */
  lemma {:induction false} SurvivesTheMove(c: Config, s: State, t: TurnTrace, p: nat, v: VisibleState,
                                           units: seq<Position>,
                                           score: (nat, Direction) -> real, choices: seq<Choice>)
    requires WellFormed(c, s) && (c.zoneEnabled ==> c.zoneShrinkInterval != 0) && TurnStep(c, s, t)
    requires c.visionRadius2 >= 0 && p < |s.players| && WellFormed(c, t.cleared) && p < |t.cleared.players|
             && SpreadOut(t.cleared, p)
    requires VisibleStep(c, t.cleared, p, v) && multiset(units) == multiset(OwnUnits(v.bots, v.id))
    requires c.rows > 0 && c.cols > 0 && WallsInView(c, t.cleared, p, v)
             && Plan(units, v.walls, score, choices, c.rows, c.cols)
    requires OrdersFrom(p, t.orders, Validated(MovesOf(units, choices, |units|), OwnTiles(v)))
    ensures forall i :: Mine(t.cleared, p, i) ==> Mine(t.moved, p, i)
    ensures forall i, j :: Mine(t.cleared, p, i) && Mine(t.cleared, p, j) && i != j ==>
            t.moved.bots[i].pos != t.moved.bots[j].pos
  {
    ClearedHasNoOrders(c, s, t);
    NoSelfCollision(c, t.cleared, p, v, units, score, choices, t.orders);
    hide WellFormed, TurnStep, VisibleStep, Plan, OrdersFrom, SpreadOut, AfterOrders;
    forall i: nat | Mine(t.cleared, p, i)
      ensures Mine(t.moved, p, i) && t.moved.bots[i].pos == Destination(c, t.ordered, i)
    {
      CountingTheTurn(c, t.ordered, t.begun, i);
      hide Collides, Destination;
    }
  }
}

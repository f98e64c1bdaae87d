/** The kamikaze bot's reservations: bot by bot each of its units picks the best free tile and
    reserves it, so that no two ever end up together. */
module Kamikaze {
  import opened Torus
  import opened Tally
  import opened BotMoves

  datatype Choice = Hold | Go(dir: Direction)

  /** Neither a visible wall nor a reserved tile. */
  predicate Free(walls: set<Position>, committed: set<Position>, p: Position, d: Direction, rows: int, cols: int)
    requires rows > 0 && cols > 0
  {
    BotStep(p, d, rows, cols) !in walls && BotStep(p, d, rows, cols) !in committed
  }

  /** The unit holds if nothing is free; otherwise it takes the first of the best free steps. */
  ghost predicate Picks(walls: set<Position>, committed: set<Position>, p: Position, score: Direction -> real, n: nat,
                        choice: Choice, rows: int, cols: int)
    requires rows > 0 && cols > 0 && n <= 4
  {
    match choice
    case Hold => forall k :: 0 <= k < n ==> !Free(walls, committed, p, COMPASS[k], rows, cols)
    case Go(d) => exists best :: 0 <= best < n && COMPASS[best] == d && Free(walls, committed, p, d, rows, cols)
                    && forall k :: 0 <= k < n && Free(walls, committed, p, COMPASS[k], rows, cols) ==>
                         if k < best then score(COMPASS[k]) < score(d) else score(COMPASS[k]) <= score(d)
  }

  method PickStep(walls: set<Position>, committed: set<Position>, p: Position, score: Direction -> real, rows: int,
                  cols: int)
    returns (choice: Choice)
    requires rows > 0 && cols > 0
    ensures Picks(walls, committed, p, score, 4, choice, rows, cols)
  {
    hide BotStep;
    choice := Hold;
    var bestScore := 0.0;
    for k := 0 to 4
      invariant Picks(walls, committed, p, score, k, choice, rows, cols)
      invariant choice.Go? ==> bestScore == score(choice.dir)
    {
      var d := COMPASS[k];
      var next := BotStep(p, d, rows, cols);
      if next in walls || next in committed {
        continue;
      }
      if choice.Hold? || score(d) > bestScore {
        choice, bestScore := Go(d), score(d);
        assert COMPASS[k] == d;
      }
    }
  }

  /** So it is: a unit holds exactly when all four tiles are walls or reserved, and a step it takes
      is free and scores at least as high as any free one. */
  lemma PicksTheBest(walls: set<Position>, committed: set<Position>, p: Position, score: Direction -> real,
                     choice: Choice, rows: int, cols: int)
    requires rows > 0 && cols > 0 && Picks(walls, committed, p, score, 4, choice, rows, cols)
    ensures choice.Hold? <==> forall d :: d != DirNone ==> BotStep(p, d, rows, cols) in walls + committed
    ensures choice.Go? ==> choice.dir != DirNone && BotStep(p, choice.dir, rows, cols) !in walls + committed
    ensures choice.Go? ==>
              forall d :: d != DirNone && BotStep(p, d, rows, cols) !in walls + committed ==>
                score(d) <= score(choice.dir)
  {
    hide BotStep;
    assert COMPASS[0] == DirN && COMPASS[1] == DirE && COMPASS[2] == DirS && COMPASS[3] == DirW;
    assert forall d :: Free(walls, committed, p, d, rows, cols) <==> BotStep(p, d, rows, cols) !in walls + committed;
  }

  /** The tiles reserved once the first k units have decided: at first everyone's own, then each
      unit that goes swaps its tile for its landing. */
  function Committed(units: seq<Position>, choices: seq<Choice>, k: nat, rows: int, cols: int): set<Position>
    requires rows > 0 && cols > 0 && k <= |choices| && k <= |units|
  {
    if k == 0 then set p | p in units
    else Updated(Committed(units, choices, k - 1, rows, cols), units[k - 1], choices[k - 1], rows, cols)
  }

  function Updated(committed: set<Position>, p: Position, choice: Choice, rows: int, cols: int): set<Position>
    requires rows > 0 && cols > 0
  {
    if choice.Go? then committed - {p} + {BotStep(p, choice.dir, rows, cols)} else committed
  }

  function ScoreOf(score: (nat, Direction) -> real, k: nat): Direction -> real {
    d => score(k, d)
  }

  /** Unit k decided against the tiles reserved at its turn. */
  ghost predicate Decided(units: seq<Position>, walls: set<Position>, score: (nat, Direction) -> real,
                          choices: seq<Choice>, k: nat, rows: int, cols: int)
    requires rows > 0 && cols > 0 && k < |units| && k < |choices|
  {
    Picks(walls, Committed(units, choices, k, rows, cols), units[k], ScoreOf(score, k), 4, choices[k], rows, cols)
  }

  /** The moves of the units that go. */
  function MovesOf(units: seq<Position>, choices: seq<Choice>, k: nat): seq<BotMove>
    requires k <= |units| && k <= |choices|
  {
    if k == 0 then []
    else MovesOf(units, choices, k - 1) + if choices[k - 1].Go? then [BotMove(units[k - 1], choices[k - 1].dir)] else []
  }

  /** Everyone has decided, in turn. */
  ghost predicate Plan(units: seq<Position>, walls: set<Position>, score: (nat, Direction) -> real,
                       choices: seq<Choice>, rows: int, cols: int)
    requires rows > 0 && cols > 0
  {
    |choices| == |units| && forall k :: 0 <= k < |units| ==> Decided(units, walls, score, choices, k, rows, cols)
  }

  /** The reservation loop. The units come in whatever order the sort leaves them and the scores
      are arbitrary: neither the sort nor the heuristics matter to what is proved. */
  method ComputeMoves(units: seq<Position>, walls: set<Position>, score: (nat, Direction) -> real, rows: int, cols: int)
    returns (moves: seq<BotMove>)
    requires rows > 0 && cols > 0
    ensures exists choices ::
            Plan(units, walls, score, choices, rows, cols) && moves == MovesOf(units, choices, |units|)
  {
    var committed := set p | p in units;
    ghost var choices: seq<Choice> := [];
    moves := [];
    for k := 0 to |units|
      invariant |choices| == k && moves == MovesOf(units, choices, k)
      invariant committed == Committed(units, choices, k, rows, cols)
      invariant forall j :: 0 <= j < k ==> Decided(units, walls, score, choices, j, rows, cols)
    {
      hide *;
      var choice := PickStep(walls, committed, units[k], ScoreOf(score, k), rows, cols);
      DecideOne(units, walls, score, choices, choice, rows, cols);
      if choice.Go? {
        var next := BotStep(units[k], choice.dir, rows, cols);
        committed := committed - {units[k]} + {next};
        moves := moves + [BotMove(units[k], choice.dir)];
      }
      choices := choices + [choice];
    }
    assert Plan(units, walls, score, choices, rows, cols);
  }

  lemma {:induction false} PrefixKeeps(units: seq<Position>, choices: seq<Choice>, choice: Choice, k: nat, rows: int,
                                       cols: int)
    requires rows > 0 && cols > 0 && k <= |choices| && k <= |units|
    ensures Committed(units, choices + [choice], k, rows, cols) == Committed(units, choices, k, rows, cols)
    ensures MovesOf(units, choices + [choice], k) == MovesOf(units, choices, k)
  {
    if k == 0 {
    } else {
      PrefixKeeps(units, choices, choice, k - 1, rows, cols);
    }
  }

  lemma {:induction false} DecideOne(units: seq<Position>, walls: set<Position>, score: (nat, Direction) -> real,
                                     choices: seq<Choice>,
                                     choice: Choice, rows: int, cols: int)
    requires rows > 0 && cols > 0 && |choices| < |units|
    requires Picks(walls, Committed(units, choices, |choices|, rows, cols), units[|choices|], ScoreOf(score, |choices|),
                   4, choice, rows, cols)
    requires forall j :: 0 <= j < |choices| ==> Decided(units, walls, score, choices, j, rows, cols)
    ensures var k, more := |choices|, choices + [choice];
            && (forall j :: 0 <= j <= k ==> Decided(units, walls, score, more, j, rows, cols))
            && MovesOf(units, more, k + 1) == MovesOf(units, choices, k)
               + (if choice.Go? then [BotMove(units[k], choice.dir)] else [])
            && var held := Committed(units, choices, k, rows, cols);
               Committed(units, more, k + 1, rows, cols) == if choice.Go?
                   then held - {units[k]} + {BotStep(units[k], choice.dir, rows, cols)} else held
  {
    hide Picks;
    forall j: nat | j <= |choices|
      ensures Committed(units, choices + [choice], j, rows, cols) == Committed(units, choices, j, rows, cols)
    {
      PrefixKeeps(units, choices, choice, j, rows, cols);
    }
    PrefixKeeps(units, choices, choice, |choices|, rows, cols);
    forall j: nat | j <= |choices|
      ensures Decided(units, walls, score, choices + [choice], j, rows, cols)
    {
      assert j < |choices| ==> Decided(units, walls, score, choices, j, rows, cols);
    }
  }

  // ----- Nobody shares a tile -----------------------------------------------------

  function Landing(p: Position, choice: Choice, rows: int, cols: int): Position
    requires rows > 0 && cols > 0
  {
    match choice
    case Hold => p
    case Go(d) => BotStep(p, d, rows, cols)
  }

  /** Where the units are accounted for once the first k of them have decided. */
  function Places(units: seq<Position>, choices: seq<Choice>, k: nat, rows: int, cols: int): (r: seq<Position>)
    requires rows > 0 && cols > 0 && k <= |choices|
    ensures |r| == |units|
  {
    seq(|units|, i requires 0 <= i < |units| => if i < k then Landing(units[i], choices[i], rows, cols) else units[i])
  }

  /** No two units are accounted for on one tile, and those tiles are the reserved ones. */
  ghost predicate Apart(units: seq<Position>, choices: seq<Choice>, k: nat, rows: int, cols: int)
    requires rows > 0 && cols > 0 && k <= |choices| && k <= |units|
  {
    var places, committed := Places(units, choices, k, rows, cols), Committed(units, choices, k, rows, cols);
    Distinct(places) && forall q :: q in committed <==> q in places
  }

  lemma PlacesNext(units: seq<Position>, choices: seq<Choice>, k: nat, rows: int, cols: int)
    requires rows > 0 && cols > 0 && k < |choices| && k < |units|
    ensures Places(units, choices, k, rows, cols)[k] == units[k]
    ensures Places(units, choices, k + 1, rows, cols)
            == Places(units, choices, k, rows, cols)[k := Landing(units[k], choices[k], rows, cols)]
  {
    hide Landing;
  }

  /** Moving one of several distinct tiles to an unused one keeps them distinct. */
  lemma DistinctUpdate(places: seq<Position>, k: nat, p: Position)
    requires Distinct(places) && k < |places| && p !in places
    ensures Distinct(places[k := p])
    ensures forall q :: q in places[k := p] <==> q == p || (q in places && q != places[k])
  {
    forall q
      ensures q in places[k := p] <==> q == p || (q in places && q != places[k])
    {
      if q in places && q != places[k] {
        var i :| 0 <= i < |places| && places[i] == q;
        assert places[k := p][i] == q;
      }
      if q in places[k := p] {
        var i :| 0 <= i < |places| && places[k := p][i] == q;
        assert i != k ==> places[i] == q;
      }
      assert places[k := p][k] == p;
    }
  }

  /** One decision keeps everyone apart, and the reservations stay the tiles accounted for. */
  lemma {:induction false} ReserveOne(units: seq<Position>, walls: set<Position>, score: (nat, Direction) -> real,
                                      choices: seq<Choice>,
                                      k: nat, rows: int, cols: int)
    requires rows > 0 && cols > 0 && k < |choices| && k < |units|
             && Decided(units, walls, score, choices, k, rows, cols)
    requires Apart(units, choices, k, rows, cols)
    ensures Apart(units, choices, k + 1, rows, cols)
    ensures choices[k].Go? ==> Landing(units[k], choices[k], rows, cols) !in walls
  {
    hide BotStep, Places;
    var places := Places(units, choices, k, rows, cols);
    PlacesNext(units, choices, k, rows, cols);
    if choices[k].Go? {
      assert Free(walls, Committed(units, choices, k, rows, cols), units[k], choices[k].dir, rows, cols);
      DistinctUpdate(places, k, BotStep(units[k], choices[k].dir, rows, cols));
    } else {
      assert places[k := units[k]] == places;
    }
  }

  lemma {:induction false} StaysApart(units: seq<Position>, walls: set<Position>, score: (nat, Direction) -> real,
                                      choices: seq<Choice>,
                                      k: nat, rows: int, cols: int)
    requires rows > 0 && cols > 0 && Distinct(units) && Plan(units, walls, score, choices, rows, cols) && k <= |units|
    ensures Apart(units, choices, k, rows, cols)
  {
    if k == 0 {
      assert Places(units, choices, 0, rows, cols) == units;
    } else {
      hide *;
      PlanDecides(units, walls, score, choices, k - 1, rows, cols);
      StaysApart(units, walls, score, choices, k - 1, rows, cols);
      ReserveOne(units, walls, score, choices, k - 1, rows, cols);
    }
  }

  lemma PlanDecides(units: seq<Position>, walls: set<Position>, score: (nat, Direction) -> real, choices: seq<Choice>,
                    k: nat, rows: int, cols: int)
    requires rows > 0 && cols > 0 && Plan(units, walls, score, choices, rows, cols) && k < |units|
    ensures |choices| == |units| && Decided(units, walls, score, choices, k, rows, cols)
  {
  }

  /** Units that start apart end apart, movers and holders alike, and no mover enters a visible
      wall. */
  lemma {:induction false} ReservationsHold(units: seq<Position>, walls: set<Position>, score: (nat, Direction) -> real,
                                            choices: seq<Choice>,
                                            rows: int, cols: int)
    requires rows > 0 && cols > 0 && Distinct(units) && Plan(units, walls, score, choices, rows, cols)
    ensures forall i, j :: 0 <= i < j < |units| ==>
              Landing(units[i], choices[i], rows, cols) != Landing(units[j], choices[j], rows, cols)
    ensures forall i :: 0 <= i < |units| && choices[i].Go? ==> Landing(units[i], choices[i], rows, cols) !in walls
  {
    hide Landing, Committed, Decided, Plan;
    forall i | 0 <= i < |units|
      ensures |choices| == |units|
      ensures choices[i].Go? ==> Landing(units[i], choices[i], rows, cols) !in walls
    {
      PlanDecides(units, walls, score, choices, i, rows, cols);
      StaysApart(units, walls, score, choices, i, rows, cols);
      ReserveOne(units, walls, score, choices, i, rows, cols);
    }
    if units != [] {
      PlanDecides(units, walls, score, choices, 0, rows, cols);
      StaysApart(units, walls, score, choices, |units|, rows, cols);
      var places := Places(units, choices, |units|, rows, cols);
      assert forall i :: 0 <= i < |units| ==> places[i] == Landing(units[i], choices[i], rows, cols);
    }
  }
}

/** Breadth-first search over cardinal steps on the torus (the farmer bot's BFS). */
module Pathfinding {
  import opened Torus

  datatype Node = Node(pos: Position, dir: Direction)

  /** The board as the search sees it. */
  datatype Board = Board(passable: Position -> bool, rows: int, cols: int) {
    predicate Valid() { rows > 0 && cols > 0 }
  }

  // ----- Routes: what a shortest path is ------------------------------------------

  /** Where a route of steps leads. */
  ghost function End(b: Board, p: Position, route: seq<Direction>): Position
    requires b.Valid()
    decreases |route|
  {
    if route == [] then p else End(b, Move(p, route[0], b.rows, b.cols), route[1..])
  }

  /** Every step of the route is cardinal and enters a passable cell. */
  ghost predicate Walkable(b: Board, p: Position, route: seq<Direction>)
    requires b.Valid()
    decreases |route|
  {
    route == [] ||
    var q := Move(p, route[0], b.rows, b.cols);
    route[0] in COMPASS && b.passable(q) && Walkable(b, q, route[1..])
  }

  ghost predicate IsRoute(b: Board, p: Position, route: seq<Direction>, q: Position)
    requires b.Valid()
  {
    Walkable(b, p, route) && End(b, p, route) == q
  }

  ghost predicate IsShortest(b: Board, p: Position, route: seq<Direction>, q: Position)
    requires b.Valid()
  {
    IsRoute(b, p, route, q) && forall r :: IsRoute(b, p, r, q) ==> |route| <= |r|
  }

  lemma {:induction false} ExtendRoute(b: Board, p: Position, route: seq<Direction>, d: Direction)
    requires b.Valid()
    ensures End(b, p, route + [d]) == Move(End(b, p, route), d, b.rows, b.cols)
    ensures Walkable(b, p, route + [d])
            <==> Walkable(b, p, route) && d in COMPASS && b.passable(Move(End(b, p, route), d, b.rows, b.cols))
    decreases |route|
  {
    if route == [] {
      assert [] + [d] == [d];
      assert [d][1..] == [];
    } else {
      assert (route + [d])[1..] == route[1..] + [d];
      ExtendRoute(b, Move(p, route[0], b.rows, b.cols), route[1..], d);
    }
  }

  // ----- The search frontier ------------------------------------------------------

  /** Every visited cell has a recorded route; queue entries carry its first step. */
  ghost predicate Recorded(b: Board, start: Position, visited: set<Position>, queue: seq<Node>,
                           routes: map<Position, seq<Direction>>)
    requires b.Valid()
  {
    && routes.Keys == visited
    && start in visited && routes[start] == []
    && (forall p :: p in visited ==> InGrid(p, b.rows, b.cols) && IsRoute(b, start, routes[p], p))
    && forall i :: 0 <= i < |queue| ==>
         queue[i].pos in visited && routes[queue[i].pos] != [] && routes[queue[i].pos][0] == queue[i].dir
  }

  /** Route lengths never decrease along the queue and differ by at most one; no record
      is longer than the frontier. */
  ghost predicate Layered(queue: seq<Node>, routes: map<Position, seq<Direction>>, depth: nat)
    requires forall i :: 0 <= i < |queue| ==> queue[i].pos in routes
  {
    && (forall p :: p in routes ==> |routes[p]| <= depth + 1)
    && (forall i :: 0 <= i < |queue| ==> depth <= |routes[queue[i].pos]|)
    && forall i, j :: 0 <= i < j < |queue| ==> |routes[queue[i].pos]| <= |routes[queue[j].pos]|
  }

  ghost predicate Queued(queue: seq<Node>, p: Position) {
    exists i :: 0 <= i < |queue| && queue[i].pos == p
  }

  /** The step from p has been followed: its passable end is visited, at most one longer. */
  ghost predicate Followed(b: Board, p: Position, d: Direction, routes: map<Position, seq<Direction>>)
    requires b.Valid() && p in routes
  {
    var q := Move(p, d, b.rows, b.cols);
    b.passable(q) ==> q in routes && |routes[q]| <= |routes[p]| + 1
  }

  ghost predicate Expanded(b: Board, p: Position, routes: map<Position, seq<Direction>>)
    requires b.Valid() && p in routes
  {
    forall k :: 0 <= k < |COMPASS| ==> Followed(b, p, COMPASS[k], routes)
  }

  /** Visited cells other than the one being expanded are queued or expanded, and
      expanded cells are not the goal. */
  ghost predicate Settled(b: Board, goal: Position, visited: set<Position>, queue: seq<Node>,
                          routes: map<Position, seq<Direction>>, except: set<Position>)
    requires b.Valid() && routes.Keys == visited
  {
    forall p :: p in visited && p !in except && !Queued(queue, p) ==> Expanded(b, p, routes) && p != goal
  }

  /** The search invariant while the cells of except are being expanded. */
  ghost predicate Searching(b: Board, start: Position, goal: Position, visited: set<Position>, queue: seq<Node>,
                            routes: map<Position, seq<Direction>>, depth: nat, except: set<Position>)
    requires b.Valid()
  {
    && Recorded(b, start, visited, queue, routes)
    && Layered(queue, routes, depth)
    && Settled(b, goal, visited, queue, routes, except)
  }

  /** A route to q is no shorter than q's record, unless the queue holds something shorter. */
  lemma {:induction false} FrontierBlocks(b: Board, start: Position, goal: Position, visited: set<Position>,
                                          queue: seq<Node>,
                       routes: map<Position, seq<Direction>>, route: seq<Direction>, q: Position)
    requires b.Valid() && Recorded(b, start, visited, queue, routes)
    requires Settled(b, goal, visited, queue, routes, {})
    requires IsRoute(b, start, route, q)
    ensures (q in visited && |routes[q]| <= |route|)
            || exists i :: 0 <= i < |queue| && |routes[queue[i].pos]| < |route|
    decreases |route|
  {
    if route == [] {
    } else {
      var r, d := route[..|route| - 1], route[|route| - 1];
      assert r + [d] == route;
      ExtendRoute(b, start, r, d);
      var p := End(b, start, r);
      FrontierBlocks(b, start, goal, visited, queue, routes, r, p);
      if p in visited && |routes[p]| <= |r| {
        if Queued(queue, p) {
        } else {
          assert Expanded(b, p, routes);
          var k :| 0 <= k < |COMPASS| && COMPASS[k] == d;
          assert Followed(b, p, COMPASS[k], routes);
        }
      }
    }
  }

  /** Recording one more visited cell q, one step beyond p. */
  lemma RecordStep(b: Board, start: Position, visited: set<Position>, queue: seq<Node>,
                   routes: map<Position, seq<Direction>>, p: Position, k: nat, q: Position, dir: Direction)
    requires b.Valid() && Recorded(b, start, visited, queue, routes) && p in visited
    requires k < |COMPASS| && q == Move(p, COMPASS[k], b.rows, b.cols) && b.passable(q) && q !in visited
    requires dir == (routes[p] + [COMPASS[k]])[0]
    ensures Recorded(b, start, visited + {q}, queue + [Node(q, dir)], routes[q := routes[p] + [COMPASS[k]]])
  {
    ExtendRoute(b, start, routes[p], COMPASS[k]);
  }

  lemma QueueStep(queue: seq<Node>, routes: map<Position, seq<Direction>>, node: Node, route: seq<Direction>,
                  depth: nat)
    requires forall i :: 0 <= i < |queue| ==> queue[i].pos in routes
    requires node.pos !in routes && |route| == depth + 1
    requires Layered(queue, routes, depth)
    ensures Layered(queue + [node], routes[node.pos := route], depth)
  {
  }

  /** A longer table follows every step the shorter one followed. */
  lemma StillFollowed(b: Board, p: Position, d: Direction, routes: map<Position, seq<Direction>>,
                      q: Position, route: seq<Direction>)
    requires b.Valid() && p in routes && q !in routes && Followed(b, p, d, routes)
    ensures Followed(b, p, d, routes[q := route])
  {
  }

  lemma SettleStep(b: Board, goal: Position, queue: seq<Node>, routes: map<Position, seq<Direction>>,
                   p: Position, node: Node, route: seq<Direction>)
    requires b.Valid() && p in routes && node.pos !in routes
    requires Settled(b, goal, routes.Keys, queue, routes, {p})
    ensures Settled(b, goal, routes.Keys + {node.pos}, queue + [node], routes[node.pos := route], {p})
  {
    var routes', queue' := routes[node.pos := route], queue + [node];
    forall x | x in routes' && x !in {p} && !Queued(queue', x)
      ensures Expanded(b, x, routes') && x != goal
    {
      assert queue'[|queue|].pos == node.pos;
      assert forall i :: 0 <= i < |queue| ==> queue'[i] == queue[i];
      assert !Queued(queue, x);
      forall j | 0 <= j < |COMPASS|
        ensures Followed(b, x, COMPASS[j], routes')
      {
        StillFollowed(b, x, COMPASS[j], routes, node.pos, route);
      }
    }
  }

  /** Expanding step k of p, whether or not it reaches a new cell: the search invariant
      survives and step k is followed. */
  lemma ExpandStep(b: Board, start: Position, goal: Position, visited: set<Position>, queue: seq<Node>,
                   routes: map<Position, seq<Direction>>, p: Position, k: nat, q: Position, dir: Direction)
    requires b.Valid() && p in routes && Searching(b, start, goal, visited, queue, routes, |routes[p]|, {p})
    requires k < |COMPASS| && forall j :: 0 <= j < k ==> Followed(b, p, COMPASS[j], routes)
    requires InGrid(p, b.rows, b.cols) ==> q == Move(p, COMPASS[k], b.rows, b.cols)
    requires dir == (routes[p] + [COMPASS[k]])[0]
    ensures q == Move(p, COMPASS[k], b.rows, b.cols)
    ensures b.passable(q) && q !in visited ==>
              var visited', queue' := visited + {q}, queue + [Node(q, dir)];
              var routes' := routes[q := routes[p] + [COMPASS[k]]];
              && Searching(b, start, goal, visited', queue', routes', |routes[p]|, {p})
              && forall j :: 0 <= j < k + 1 ==> Followed(b, p, COMPASS[j], routes')
    ensures !(b.passable(q) && q !in visited) ==>
              forall j :: 0 <= j < k + 1 ==> Followed(b, p, COMPASS[j], routes)
  {
    hide Settled, Expanded, IsRoute, Move, Queued;
    if b.passable(q) && q !in visited {
      var route := routes[p] + [COMPASS[k]];
      RecordStep(b, start, visited, queue, routes, p, k, q, dir);
      SettleStep(b, goal, queue, routes, p, Node(q, dir), route);
      QueueStep(queue, routes, Node(q, dir), route, |routes[p]|);
      forall j | 0 <= j < k
        ensures Followed(b, p, COMPASS[j], routes[q := route])
      {
        StillFollowed(b, p, COMPASS[j], routes, q, route);
      }
    }
  }

  lemma ExpansionEnds(b: Board, start: Position, goal: Position, visited: set<Position>, queue: seq<Node>,
                      routes: map<Position, seq<Direction>>, p: Position)
    requires b.Valid() && p in routes && p != goal
    requires Searching(b, start, goal, visited, queue, routes, |routes[p]|, {p})
    requires forall j :: 0 <= j < |COMPASS| ==> Followed(b, p, COMPASS[j], routes)
    ensures Searching(b, start, goal, visited, queue, routes, |routes[p]|, {})
  {
    assert Expanded(b, p, routes);
  }

  lemma SearchBegins(b: Board, start: Position, goal: Position)
    requires b.Valid() && InGrid(start, b.rows, b.cols)
    ensures Searching(b, start, goal, {start}, [], map[start := []], 0, {start})
  {
  }

  lemma HeadIsRecorded(b: Board, start: Position, goal: Position, visited: set<Position>, queue: seq<Node>,
                       routes: map<Position, seq<Direction>>, depth: nat)
    requires b.Valid() && |queue| > 0 && Searching(b, start, goal, visited, queue, routes, depth, {})
    ensures routes.Keys == visited && queue[0].pos in routes && routes[queue[0].pos] != []
            && routes[queue[0].pos][0] == queue[0].dir
  {
  }

  lemma OneStepIsShortest(b: Board, start: Position, d: Direction)
    requires b.Valid() && d in COMPASS
    requires var q := Move(start, d, b.rows, b.cols); b.passable(q) && q != start
    ensures IsShortest(b, start, [d], Move(start, d, b.rows, b.cols))
  {
    ExtendRoute(b, start, [], d);
    assert [] + [d] == [d];
  }

  lemma HeadIsShortest(b: Board, start: Position, goal: Position, visited: set<Position>, queue: seq<Node>,
                       routes: map<Position, seq<Direction>>, depth: nat)
    requires b.Valid() && Searching(b, start, goal, visited, queue, routes, depth, {})
    requires |queue| > 0 && queue[0].pos == goal
    ensures goal in routes && IsShortest(b, start, routes[goal], goal)
    ensures routes[goal] != [] && routes[goal][0] != DirNone
  {
    forall r | IsRoute(b, start, r, goal)
      ensures |routes[goal]| <= |r|
    {
      FrontierBlocks(b, start, goal, visited, queue, routes, r, goal);
    }
  }

  lemma NoRoute(b: Board, start: Position, goal: Position, visited: set<Position>,
                routes: map<Position, seq<Direction>>, depth: nat)
    requires b.Valid() && Searching(b, start, goal, visited, [], routes, depth, {})
    ensures !exists r :: IsRoute(b, start, r, goal)
  {
    forall r | IsRoute(b, start, r, goal)
      ensures false
    {
      FrontierBlocks(b, start, goal, visited, [], routes, r, goal);
    }
  }

  ghost function Cells(rows: int, cols: int): set<Position> {
    set r, c | 0 <= r < rows && 0 <= c < cols :: Position(r, c)
  }

  lemma {:induction false} RouteEndsOpen(b: Board, p: Position, route: seq<Direction>)
    requires b.Valid() && Walkable(b, p, route) && route != []
    ensures b.passable(End(b, p, route))
    decreases |route|
  {
    if |route| > 1 {
      RouteEndsOpen(b, Move(p, route[0], b.rows, b.cols), route[1..]);
    }
  }

  /** What such an answer means for the bot: the step and the goal are passable, and a passable
      goal next door is entered at once. */
  lemma AnswersAreOpen(start: Position, goal: Position, b: Board, dir: Direction)
    requires b.Valid() && start != goal
    requires dir == DirNone <==> !exists r :: IsRoute(b, start, r, goal)
    requires dir != DirNone ==> exists r :: r != [] && r[0] == dir && IsShortest(b, start, r, goal)
    ensures dir != DirNone ==> b.passable(goal) && b.passable(Move(start, dir, b.rows, b.cols))
    ensures forall d :: d != DirNone && Move(start, d, b.rows, b.cols) == goal && b.passable(goal) ==>
              dir != DirNone && Move(start, dir, b.rows, b.cols) == goal
  {
    hide Move;
    if dir != DirNone {
      var r :| r != [] && r[0] == dir && IsShortest(b, start, r, goal);
      RouteEndsOpen(b, start, r);
    }
    forall d | d != DirNone && Move(start, d, b.rows, b.cols) == goal && b.passable(goal)
      ensures dir != DirNone && Move(start, dir, b.rows, b.cols) == goal
    {
      assert COMPASS[0] == DirN && COMPASS[1] == DirE && COMPASS[2] == DirS && COMPASS[3] == DirW;
      OneStepIsShortest(b, start, d);
      assert IsRoute(b, start, [d], goal);
      var r :| r != [] && r[0] == dir && IsShortest(b, start, r, goal);
      assert |r| <= 1 && r[1..] == [];
    }
  }

  /** Returns the first step of a shortest route of passable cells from start to goal,
      and no step exactly when start is the goal or there is no route. */
  method BFS(start: Position, goal: Position, b: Board) returns (dir: Direction)
    requires b.Valid() && InGrid(start, b.rows, b.cols)
    ensures dir == DirNone <==> start == goal || !exists r :: IsRoute(b, start, r, goal)
    ensures dir != DirNone ==> exists r :: r != [] && r[0] == dir && IsShortest(b, start, r, goal)
  {
    hide Searching, Followed, Move, IsRoute;
    if start == goal {
      return DirNone;
    }
    var visited, queue: seq<Node> := {start}, [];
    ghost var routes: map<Position, seq<Direction>> := map[start := []];
    SearchBegins(b, start, goal);
    for k := 0 to |COMPASS|
      invariant start in routes && routes[start] == [] && routes.Keys == visited
      invariant Searching(b, start, goal, visited, queue, routes, 0, {start})
      invariant forall j :: 0 <= j < k ==> Followed(b, start, COMPASS[j], routes)
    {
      var q := BotStep(start, COMPASS[k], b.rows, b.cols);
      if q == goal && b.passable(q) {
        OneStepIsShortest(b, start, COMPASS[k]);
        return COMPASS[k];
      }
      ExpandStep(b, start, goal, visited, queue, routes, start, k, q, COMPASS[k]);
      if b.passable(q) && q !in visited {
        routes := routes[q := routes[start] + [COMPASS[k]]];
        visited, queue := visited + {q}, queue + [Node(q, COMPASS[k])];
      }
    }
    ExpansionEnds(b, start, goal, visited, queue, routes, start);
    dir := Drain(start, goal, b, visited, queue, routes);
  }

  /** The main loop of BFS. */
  method Drain(start: Position, goal: Position, b: Board, visited0: set<Position>, queue0: seq<Node>,
               ghost routes0: map<Position, seq<Direction>>) returns (dir: Direction)
    requires b.Valid() && start != goal && Searching(b, start, goal, visited0, queue0, routes0, 0, {})
    ensures dir == DirNone <==> !exists r :: IsRoute(b, start, r, goal)
    ensures dir != DirNone ==> exists r :: r != [] && r[0] == dir && IsShortest(b, start, r, goal)
  {
    hide Searching, IsRoute;
    var visited, queue := visited0, queue0;
    ghost var routes, depth: nat := routes0, 0;
    while |queue| > 0
      invariant Searching(b, start, goal, visited, queue, routes, depth, {})
      decreases Cells(b.rows, b.cols) - visited, |queue|
    {
      var cur := queue[0];
      HeadIsRecorded(b, start, goal, visited, queue, routes, depth);
      if cur.pos == goal {
        HeadIsShortest(b, start, goal, visited, queue, routes, depth);
        return cur.dir;
      }
      PopHead(b, start, goal, visited, queue, routes, depth);
      depth := |routes[cur.pos]|;
      visited, queue, routes := Expand(b, start, goal, cur, visited, queue[1..], routes);
      VisitedAreCells(b, start, goal, visited, queue, routes, depth);
    }
    NoRoute(b, start, goal, visited, routes, depth);
    return DirNone;
  }

  /** Follows the four steps of the cell just dequeued. */
  method Expand(b: Board, ghost start: Position, ghost goal: Position, cur: Node, visited0: set<Position>,
                queue0: seq<Node>, ghost routes0: map<Position, seq<Direction>>)
    returns (visited: set<Position>, queue: seq<Node>, ghost routes: map<Position, seq<Direction>>)
    requires b.Valid() && routes0.Keys == visited0 && cur.pos in routes0 && routes0[cur.pos] != []
             && routes0[cur.pos][0] == cur.dir
    requires Searching(b, start, goal, visited0, queue0, routes0, |routes0[cur.pos]|, {cur.pos}) && cur.pos != goal
    ensures cur.pos in routes && routes[cur.pos] == routes0[cur.pos]
    ensures Searching(b, start, goal, visited, queue, routes, |routes[cur.pos]|, {})
    ensures visited0 <= visited && (visited == visited0 ==> queue == queue0)
  {
    hide Searching, Followed, Move;
    visited, queue, routes := visited0, queue0, routes0;
    for k := 0 to |COMPASS|
      invariant visited0 <= visited && routes.Keys == visited && cur.pos in routes
                && routes[cur.pos] == routes0[cur.pos]
      invariant Searching(b, start, goal, visited, queue, routes, |routes0[cur.pos]|, {cur.pos})
      invariant forall j :: 0 <= j < k ==> Followed(b, cur.pos, COMPASS[j], routes)
      invariant visited == visited0 ==> queue == queue0
    {
      var q := BotStep(cur.pos, COMPASS[k], b.rows, b.cols);
      ExpandStep(b, start, goal, visited, queue, routes, cur.pos, k, q, cur.dir);
      if q !in visited && b.passable(q) {
        routes := routes[q := routes[cur.pos] + [COMPASS[k]]];
        visited, queue := visited + {q}, queue + [Node(q, cur.dir)];
      }
    }
    ExpansionEnds(b, start, goal, visited, queue, routes, cur.pos);
  }

  lemma VisitedAreCells(b: Board, start: Position, goal: Position, visited: set<Position>, queue: seq<Node>,
                        routes: map<Position, seq<Direction>>, depth: nat)
    requires b.Valid() && Searching(b, start, goal, visited, queue, routes, depth, {})
    ensures visited <= Cells(b.rows, b.cols)
  {
    forall p | p in visited
      ensures p in Cells(b.rows, b.cols)
    {
      assert p == Position(p.row, p.col);
    }
  }

  lemma PopHead(b: Board, start: Position, goal: Position, visited: set<Position>, queue: seq<Node>,
                routes: map<Position, seq<Direction>>, depth: nat)
    requires b.Valid() && |queue| > 0 && Searching(b, start, goal, visited, queue, routes, depth, {})
    ensures Searching(b, start, goal, visited, queue[1..], routes, |routes[queue[0].pos]|, {queue[0].pos})
  {
    forall p | p in visited && p != queue[0].pos && !Queued(queue[1..], p)
      ensures !Queued(queue, p)
    {
      forall i | 0 <= i < |queue|
        ensures queue[i].pos != p
      {
        assert i > 0 ==> queue[1..][i - 1].pos == queue[i].pos;
      }
    }
  }
}

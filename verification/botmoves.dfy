/** The moves a bot returns and how the HTTP client filters them before the runner sees them. */
module BotMoves {
  import opened Torus
  import opened Rules

  datatype BotMove = BotMove(pos: Position, dir: Direction)

  /** Some earlier move that passed was for the same tile. */
  predicate Seen(kept: seq<BotMove>, pos: Position) {
    exists k :: 0 <= k < |kept| && kept[k].pos == pos
  }

  /** The moves that pass, in order: a real direction, an own tile, the first for its tile. */
  function Validated(moves: seq<BotMove>, owned: set<Position>): seq<BotMove> {
    if moves == [] then []
    else
      var kept, m := Validated(moves[..|moves| - 1], owned), moves[|moves| - 1];
      if m.dir == DirNone || m.pos !in owned || Seen(kept, m.pos) then kept else kept + [m]
  }

  /** The tiles on which the view shows a bot of its own player. */
  function OwnTiles(v: VisibleState): set<Position> {
    set k | 0 <= k < |v.bots| && v.bots[k].owner == v.id :: v.bots[k].pos
  }

  method ValidateMoves(moves: seq<BotMove>, v: VisibleState) returns (valid: seq<BotMove>)
    ensures valid == Validated(moves, OwnTiles(v))
  {
    var ownedPositions: set<Position> := {};
    for k := 0 to |v.bots|
      invariant ownedPositions == set j | 0 <= j < k && v.bots[j].owner == v.id :: v.bots[j].pos
    {
      if v.bots[k].owner == v.id {
        ownedPositions := ownedPositions + {v.bots[k].pos};
      }
    }
    assert ownedPositions == OwnTiles(v);
    valid := [];
    var seen: set<Position> := {};
    for k := 0 to |moves|
      invariant valid == Validated(moves[..k], OwnTiles(v))
      invariant forall q :: q in seen <==> Seen(valid, q)
    {
      assert moves[..k + 1][..k] == moves[..k];
      var m := moves[k];
      if m.dir == DirNone || m.pos !in ownedPositions || m.pos in seen {
        continue;
      }
      SeenGrows(valid, m);
      seen := seen + {m.pos};
      valid := valid + [m];
    }
    assert moves[..|moves|] == moves;
  }

  lemma SeenGrows(kept: seq<BotMove>, m: BotMove)
    ensures forall q :: Seen(kept + [m], q) <==> Seen(kept, q) || q == m.pos
  {
    forall q
      ensures Seen(kept + [m], q) <==> Seen(kept, q) || q == m.pos
    {
      if Seen(kept, q) {
        var k :| 0 <= k < |kept| && kept[k].pos == q;
        assert (kept + [m])[k].pos == q;
      }
      assert (kept + [m])[|kept|].pos == m.pos;
    }
  }

  /** No two moves are for the same tile. */
  ghost predicate TilesDiffer(moves: seq<BotMove>) {
    forall j, k :: 0 <= j < k < |moves| ==> moves[j].pos != moves[k].pos
  }

  ghost predicate OnePerTile(moves: seq<BotMove>, owned: set<Position>, kept: seq<BotMove>) {
    && (forall k :: 0 <= k < |kept| ==> kept[k] in moves && kept[k].dir != DirNone && kept[k].pos in owned)
    && TilesDiffer(kept)
  }

  /** Whatever a bot sends, at most one real move per own tile gets through. */
  lemma {:induction false} AtMostOnePerTile(moves: seq<BotMove>, owned: set<Position>)
    ensures OnePerTile(moves, owned, Validated(moves, owned))
  {
    if moves == [] {
    } else {
      var init, m := moves[..|moves| - 1], moves[|moves| - 1];
      var kept := Validated(init, owned);
      AtMostOnePerTile(init, owned);
      assert OnePerTile(moves, owned, kept) by {
        forall k | 0 <= k < |kept|
          ensures kept[k] in moves
        {
          assert kept[k] in init;
        }
      }
      assert m in moves;
      assert forall k :: 0 <= k < |kept| && kept[k].pos == m.pos ==> Seen(kept, m.pos);
    }
  }

  /** A disciplined bot's moves all get through: real directions, own tiles, one each. */
  lemma {:induction false} DisciplinePasses(moves: seq<BotMove>, owned: set<Position>)
    requires forall k :: 0 <= k < |moves| ==> moves[k].dir != DirNone && moves[k].pos in owned
    requires TilesDiffer(moves)
    ensures Validated(moves, owned) == moves
  {
    if moves == [] {
    } else {
      DisciplinePasses(moves[..|moves| - 1], owned);
    }
  }

  /** Move k is real, for an own tile, and no real move before it is for that tile. */
  ghost predicate Passes(moves: seq<BotMove>, owned: set<Position>, k: int) {
    && 0 <= k < |moves| && moves[k].dir != DirNone && moves[k].pos in owned
    && forall j :: 0 <= j < k && moves[j].dir != DirNone ==> moves[j].pos != moves[k].pos
  }

  ghost predicate Claimed(moves: seq<BotMove>, owned: set<Position>, q: Position) {
    q in owned && exists k :: 0 <= k < |moves| && moves[k].dir != DirNone && moves[k].pos == q
  }

  lemma {:induction false} SeenIsClaimed(moves: seq<BotMove>, owned: set<Position>, q: Position)
    ensures Seen(Validated(moves, owned), q) <==> Claimed(moves, owned, q)
  {
    if moves == [] {
    } else {
      var init, m := moves[..|moves| - 1], moves[|moves| - 1];
      SeenIsClaimed(init, owned, q);
      SeenIsClaimed(init, owned, m.pos);
      ClaimedOneMore(moves, owned, q);
      SeenGrows(Validated(init, owned), m);
      hide Seen, Claimed;
    }
  }

  lemma ClaimedOneMore(moves: seq<BotMove>, owned: set<Position>, q: Position)
    requires moves != []
    ensures var init, m := moves[..|moves| - 1], moves[|moves| - 1];
            Claimed(moves, owned, q) <==> Claimed(init, owned, q) || (q in owned && m.dir != DirNone && m.pos == q)
  {
    var init := moves[..|moves| - 1];
    if q in owned && !Claimed(init, owned, q) {
      forall k | 0 <= k < |init|
        ensures moves[k].dir != DirNone ==> moves[k].pos != q
      {
        assert init[k] == moves[k];
      }
    }
  }

  lemma PassesOneMore(moves: seq<BotMove>, owned: set<Position>)
    requires moves != []
    ensures var n := |moves| - 1;
            && (forall k :: k != n ==> (Passes(moves, owned, k) <==> Passes(moves[..n], owned, k)))
            && (Passes(moves, owned, n) <==>
                  moves[n].dir != DirNone && moves[n].pos in owned && !Claimed(moves[..n], owned, moves[n].pos))
  {
    var n := |moves| - 1;
    assert forall k :: 0 <= k < n ==> moves[..n][k] == moves[k];
  }

  /** A move gets through exactly when it is the first real one for one of the bot's own tiles. */
  lemma {:induction false} FirstMoveWins(moves: seq<BotMove>, owned: set<Position>, m: BotMove)
    ensures m in Validated(moves, owned) <==> exists k :: Passes(moves, owned, k) && moves[k] == m
  {
    if moves == [] {
    } else {
      var n := |moves| - 1;
      FirstMoveWins(moves[..n], owned, m);
      SeenIsClaimed(moves[..n], owned, moves[n].pos);
      PassesOneMore(moves, owned);
      PassersInRange(moves[..n], owned);
      hide Passes, Claimed, Seen;
    }
  }

  lemma PassersInRange(moves: seq<BotMove>, owned: set<Position>)
    ensures forall k :: Passes(moves, owned, k) ==> 0 <= k < |moves|
  {
  }
}

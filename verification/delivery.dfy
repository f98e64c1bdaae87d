/** Who receives an order: SubmitMove looks only at the tile, so an order is sure to reach a bot
    of the player who gave it exactly when the tile is not shared. */
module Delivery {
  import opened Torus
  import opened GameTypes
  import opened Rules
  import opened CaptureLoop

  /** Every bot standing on the tile has the same owner. */
  ghost predicate Unshared(bots: seq<Bot>, pos: Position) {
    forall i, j :: StandsAt(bots, i, pos) && StandsAt(bots, j, pos) ==> bots[i].owner == bots[j].owner
  }

  /** The bot that gets the orders for the tile. */
  ghost predicate Receives(s: State, i: nat, pos: Position, dir: Direction) {
    i < |s.bots| && Submit(s, pos, dir) == s.(moves := s.moves[s.bots[i].id := dir])
  }

  ghost predicate Identified(bots: seq<Bot>) {
    forall i :: 0 <= i < |bots| ==> bots[i].id == i
  }

  lemma FirstReceives(s: State, pos: Position, dir: Direction) returns (i: nat)
    requires exists j :: StandsAt(s.bots, j, pos)
    ensures StandsAt(s.bots, i, pos) && Receives(s, i, pos, dir)
  {
    StandingMembers(s.bots, pos);
    var j :| StandsAt(s.bots, j, pos);
    assert j in Standing(s.bots, pos);
    i := Standing(s.bots, pos)[0];
  }

  /** Every entitled player's order goes to one of that player's bots: this holds on a tile
      exactly when the bots there have a single owner. */
  lemma FairExactlyWhenUnshared(s: State, pos: Position, dir: Direction)
    requires Identified(s.bots) && s.moves == map[]
    ensures Unshared(s.bots, pos) <==>
              forall p :: Entitled(s.bots, Order(p, pos, dir)) ==>
                exists i: nat :: i < |s.bots| && s.bots[i].owner == p && i in Submit(s, pos, dir).moves
  {
    hide Submit;
    if exists j :: StandsAt(s.bots, j, pos) {
      var first := FirstReceives(s, pos, dir);
      assert Submit(s, pos, dir).moves == map[first := dir];
      assert forall j :: StandsAt(s.bots, j, pos) ==> Entitled(s.bots, Order(s.bots[j].owner, pos, dir));
    }
  }

  /** A concrete stray: player 1's order moves player 0's bot off a tile they share. */
  lemma {:induction false} SharedTileMisdelivers(c: Config, s: State, pos: Position)
    requires WellFormed(c, s)
    requires s.bots == [Bot(0, 0, pos, true), Bot(1, 1, pos, true)] && s.moves == map[]
    ensures AfterOrders(s, [Order(1, pos, DirN)]).moves == map[0 := DirN]
  {
    assert StandsAt(s.bots, 0, pos) && StandsAt(s.bots, 1, pos);
    var i := FirstReceives(s, pos, DirN);
    StandingMembers(s.bots, pos);
    assert Entitled(s.bots, Order(1, pos, DirN));
    assert AfterOrders(s, []) == s && [Order(1, pos, DirN)][..0] == [];
  }

  // ----- Orders on a tile of one's own --------------------------------------------

  /** Bot i is alone on its tile. */
  ghost predicate Alone(bots: seq<Bot>, i: nat) {
    i < |bots| && bots[i].alive && forall j :: StandsAt(bots, j, bots[i].pos) ==> j == i
  }

  predicate IsFor(bots: seq<Bot>, i: nat, o: Order) {
    i < |bots| && o.player == bots[i].owner && o.pos == bots[i].pos
  }

  lemma SubmitToAlone(s: State, i: nat, pos: Position, dir: Direction)
    requires Identified(s.bots) && Alone(s.bots, i)
    ensures i in Submit(s, pos, dir).moves <==> i in s.moves || pos == s.bots[i].pos
    ensures i in Submit(s, pos, dir).moves ==> Submit(s, pos, dir).moves[i] == if pos == s.bots[i].pos then dir
            else s.moves[i]
  {
    StandingMembers(s.bots, pos);
    assert StandsAt(s.bots, i, s.bots[i].pos);
    if pos == s.bots[i].pos {
      assert i in Standing(s.bots, pos);
    }
  }

  /** A bot alone on its tile carries its own player's last order for that tile and nobody
      else's. */
  lemma {:induction false} AloneObeysItsPlayer(s: State, i: nat, orders: seq<Order>)
    requires Identified(s.bots) && Alone(s.bots, i) && s.moves == map[]
    ensures var m := AfterOrders(s, orders).moves;
            && (i in m <==> exists k :: 0 <= k < |orders| && IsFor(s.bots, i, orders[k]))
            && (i in m ==> exists k :: 0 <= k < |orders| && IsFor(s.bots, i, orders[k]) && m[i] == orders[k].dir
                                        && forall j :: k < j < |orders| ==> !IsFor(s.bots, i, orders[j]))
  {
    if orders == [] {
    } else {
      var init, o := orders[..|orders| - 1], orders[|orders| - 1];
      var s1 := AfterOrders(s, init);
      AloneObeysItsPlayer(s, i, init);
      EntitledWhenAlone(s.bots, i, o);
      SubmitToAlone(s1, i, o.pos, o.dir);
      assert AfterOrders(s, orders) == if Entitled(s.bots, o) then Submit(s1, o.pos, o.dir) else s1;
      hide AfterOrders, Submit, Entitled, Alone;
      if IsFor(s.bots, i, o) {
        assert IsFor(s.bots, i, orders[|orders| - 1]);
      } else if i in s1.moves {
        var k :| 0 <= k < |init| && IsFor(s.bots, i, init[k]) && s1.moves[i] == init[k].dir
                 && forall j :: k < j < |init| ==> !IsFor(s.bots, i, init[j]);
        assert orders[k] == init[k];
        assert forall j :: k < j < |orders| ==> !IsFor(s.bots, i, orders[j]);
      } else {
        assert forall k :: 0 <= k < |init| ==> init[k] == orders[k];
      }
    }
  }

  lemma EntitledWhenAlone(bots: seq<Bot>, i: nat, o: Order)
    requires Alone(bots, i)
    ensures o.pos == bots[i].pos ==> (Entitled(bots, o) <==> o.player == bots[i].owner)
  {
    assert StandsAt(bots, i, bots[i].pos);
  }
}

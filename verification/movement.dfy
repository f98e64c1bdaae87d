/** What the move phase guarantees: walls stay empty, shared tiles are contested, and the
    order in which bots are listed does not matter. */
module Movement {
  import opened Torus
  import opened Tally
  import opened GameTypes
  import opened Rules
  import opened WellFormedSteps

  /** No living bot and no core stands on a wall. */
  ghost predicate OffWalls(s: State) {
    && (forall i :: 0 <= i < |s.bots| && s.bots[i].alive ==> s.bots[i].pos !in s.walls)
    && forall k :: 0 <= k < |s.cores| ==> s.cores[k].pos !in s.walls
  }

  lemma DestinationIsOpen(c: Config, s: State, i: nat)
    requires c.rows > 0 && c.cols > 0 && i < |s.bots| && s.bots[i].pos !in s.walls
    ensures Destination(c, s, i) !in s.walls
  {
    hide Wrap;
  }

  lemma MoveKeepsOffWalls(c: Config, s: State, s': State)
    requires WellFormed(c, s) && OffWalls(s) && MoveStep(c, s, s')
    ensures OffWalls(s')
  {
    hide Destination, Collides;
    forall i | 0 <= i < |s'.bots| && s'.bots[i].alive
      ensures s'.bots[i].pos !in s'.walls
    {
      DestinationIsOpen(c, s, i);
    }
  }

  /** A bot goes one step if its player ordered one and no wall is in the way, else nowhere. */
  lemma OrdersAreFollowed(c: Config, s: State, i: nat)
    requires WellFormed(c, s) && i < |s.bots|
    ensures i !in s.moves || s.moves[i] == DirNone ==> Destination(c, s, i) == s.bots[i].pos
    ensures i in s.moves && s.moves[i] != DirNone ==>
              var there := Move(s.bots[i].pos, s.moves[i], c.rows, c.cols);
              Destination(c, s, i) == if there in s.walls then s.bots[i].pos else there
  {
    hide Wrap;
  }

  /** A bot dies in the move phase exactly when another living bot has its destination and all
      that have it share its owner; every other living bot arrives, the dead stay as they are. */
  lemma MoveOutcome(c: Config, s: State, s': State, i: nat)
    requires WellFormed(c, s) && MoveStep(c, s, s') && i < |s.bots|
    ensures |s'.bots| == |s.bots| && (!s.bots[i].alive ==> s'.bots[i] == s.bots[i])
    ensures s.bots[i].alive ==>
              var there := Destination(c, s, i);
              && (!s'.bots[i].alive <==>
                    && (exists j :: 0 <= j < |s.bots| && j != i && s.bots[j].alive && Destination(c, s, j) == there)
                    && forall j :: 0 <= j < |s.bots| && s.bots[j].alive && Destination(c, s, j) == there ==>
                         s.bots[j].owner == s.bots[i].owner)
              && s'.bots[i] == s.bots[i].(alive := s'.bots[i].alive,
                                          pos := if s'.bots[i].alive then there else s.bots[i].pos)
    ensures s.bots[i].alive ==> (s'.bots[i].alive <==> i !in s'.deadBots[|s.deadBots|..])
  {
    hide Destination;
    if j :| 0 <= j < |s.bots| && j != i && s.bots[j].alive && Destination(c, s, j) == Destination(c, s, i) {
      assert HeadsFor(c, s, j, Destination(c, s, i));
    }
    forall j | 0 <= j < |s.bots| && s.bots[j].alive && Destination(c, s, j) == Destination(c, s, i)
      ensures HeadsFor(c, s, j, Destination(c, s, i))
    {
    }
  }

  /** Bots of two owners that head for one tile all arrive there, so tiles do become shared. */
  lemma RivalsArriveTogether(c: Config, s: State, s': State, i: nat, j: nat)
    requires WellFormed(c, s) && MoveStep(c, s, s') && i < |s.bots| && j < |s.bots|
             && s.bots[i].owner != s.bots[j].owner
    requires s.bots[i].alive && s.bots[j].alive && Destination(c, s, i) == Destination(c, s, j)
    ensures s'.bots[i].alive && s'.bots[j].alive && s'.bots[i].pos == s'.bots[j].pos == Destination(c, s, i)
  {
    hide Destination;
    MoveOutcome(c, s, s', i);
    MoveOutcome(c, s, s', j);
    assert HeadsFor(c, s, i, Destination(c, s, i)) && HeadsFor(c, s, j, Destination(c, s, i));
  }

  /** After the move phase a tile with two living bots holds bots of two owners. */
  lemma SharedTilesAreContested(c: Config, s: State, s': State, i: nat, j: nat)
    requires WellFormed(c, s) && MoveStep(c, s, s') && i < |s.bots| && j < |s.bots| && i != j
    requires s'.bots[i].alive && s'.bots[j].alive && s'.bots[i].pos == s'.bots[j].pos
    ensures exists k :: 0 <= k < |s'.bots| && s'.bots[k].alive && s'.bots[k].pos == s'.bots[i].pos
                        && s'.bots[k].owner != s'.bots[i].owner
  {
    hide Destination;
    var p := Destination(c, s, i);
    assert HeadsFor(c, s, j, p) && !Collides(c, s, i);
    var k :| HeadsFor(c, s, k, p) && s.bots[k].owner != s.bots[i].owner;
    assert HeadsFor(c, s, i, Destination(c, s, k));
    assert !Collides(c, s, k);
    assert s'.bots[k].pos == p;
  }

  /** r lists the bots of s in the order perm. */
  ghost predicate Relisted(s: State, r: State, perm: seq<nat>) {
    && |r.bots| == |s.bots| == |perm| && r.moves == s.moves && r.walls == s.walls
    && (forall k :: 0 <= k < |perm| ==> perm[k] < |s.bots| && r.bots[k] == s.bots[perm[k]])
    && Distinct(perm)
    && forall i :: 0 <= i < |s.bots| ==> i in perm
  }

  /** Each bot's fate is the same however the bots are listed. */
  lemma MoveIgnoresListing(c: Config, s: State, r: State, perm: seq<nat>, k: nat)
    requires c.rows > 0 && c.cols > 0 && Relisted(s, r, perm) && k < |perm|
    ensures MovedBots(c, r)[k] == MovedBots(c, s)[perm[k]]
  {
    hide Destination;
    RelistedDestination(c, s, r, perm, k);
    var p := Destination(c, r, k);
    forall m
      ensures 0 <= m < |perm| ==> (HeadsFor(c, r, m, p) <==> HeadsFor(c, s, perm[m], p))
    {
      if 0 <= m < |perm| {
        RelistedDestination(c, s, r, perm, m);
      }
    }
    if Collides(c, s, perm[k]) {
      var j :| j != perm[k] && HeadsFor(c, s, j, p);
      assert j in perm;
      var m :| 0 <= m < |perm| && perm[m] == j;
      assert HeadsFor(c, r, m, p);
    }
    if Collides(c, r, k) {
      var m :| m != k && HeadsFor(c, r, m, p);
      assert HeadsFor(c, s, perm[m], p) && perm[m] != perm[k];
      forall j | HeadsFor(c, s, j, p)
        ensures s.bots[j].owner == s.bots[perm[k]].owner
      {
        assert j in perm;
        var m :| 0 <= m < |perm| && perm[m] == j;
        assert HeadsFor(c, r, m, p);
      }
    }
  }

  lemma RelistedDestination(c: Config, s: State, r: State, perm: seq<nat>, k: nat)
    requires c.rows > 0 && c.cols > 0 && Relisted(s, r, perm) && k < |perm|
    ensures Destination(c, r, k) == Destination(c, s, perm[k])
  {
    hide Wrap;
  }

  // ----- Whole turns --------------------------------------------------------------

  lemma OffWallsAfterDeaths(s: State, s': State)
    requires OffWalls(s) && s'.walls == s.walls && s'.cores == s.cores && |s'.bots| == |s.bots|
    requires forall i :: 0 <= i < |s.bots| ==> s'.bots[i].pos == s.bots[i].pos && (s'.bots[i].alive ==> s.bots[i].alive)
    ensures OffWalls(s')
  {
  }

  lemma {:induction false} SpawnAllOffWalls(c: Config, s: State, p: nat, ids: seq<nat>)
    requires OffWalls(s) && p < |s.players| && forall k :: 0 <= k < |ids| ==> ids[k] < |s.cores|
    ensures OffWalls(SpawnAll(c, s, p, ids))
  {
    if ids == [] {
    } else {
      SpawnAllOffWalls(c, s, p, ids[..|ids| - 1]);
    }
  }

  lemma {:induction false} StageOffWalls(c: Config, s: State, stages: seq<State>, rankings: seq<seq<nat>>, s': State,
                                         p: nat)
    requires WellFormed(c, s) && OffWalls(s) && SpawnStep(c, s, stages, rankings, s') && p < |stages|
    ensures OffWalls(stages[p])
  {
    hide WellFormed, OffWalls, Eligible, Before, SpawnAll;
    if p == 0 {
    } else {
      StageOffWalls(c, s, stages, rankings, s', p - 1);
      StagesStayWellFormed(c, s, stages, rankings, s', p - 1);
      var q := stages[p - 1];
      if q.players[p - 1].energy >= c.spawnCost {
        SpawnAllOffWalls(c, q, p - 1,
                         rankings[p - 1][..Affordable(q.players[p - 1].energy, c.spawnCost, |rankings[p - 1]|)]);
      }
    }
  }

  /** A whole turn keeps living bots and cores off the walls. */
  lemma TurnKeepsOffWalls(c: Config, s: State, t: TurnTrace)
    requires WellFormed(c, s) && (c.zoneEnabled ==> c.zoneShrinkInterval != 0) && TurnStep(c, s, t) && OffWalls(s)
    ensures OffWalls(t.moved) && OffWalls(t.ended)
  {
    BoardIsReal(c, s);
    TurnStaysWellFormed(c, s, t);
    hide WellFormed, MoveStep, CombatStep, ZoneStep, CaptureStep, CollectStep, SpawnStep, EndgameStep, OffWalls;
    OrdersKeepOffWalls(c, s, t);
    MoveKeepsOffWalls(c, t.begun, t.moved);
    CombatKeepsOffWalls(c, t.moved, t.fought);
    ZoneKeepsOffWalls(c, t.fought, t.sheltered);
    HarvestKeepsOffWalls(c, t.sheltered, t.captured, t.collected);
    StageOffWalls(c, t.collected, t.stages, t.rankings, t.spawned, |t.collected.players|);
    SpawnedIsLastStage(c, t);
    EndgameKeepsOffWalls(c, t.spawned, t.ticked, t.ended, t.verdict);
  }

  lemma SpawnedIsLastStage(c: Config, t: TurnTrace)
    requires SpawnStep(c, t.collected, t.stages, t.rankings, t.spawned)
    ensures t.stages[|t.collected.players|] == t.spawned
  {
  }

  lemma OrdersKeepOffWalls(c: Config, s: State, t: TurnTrace)
    requires c.rows > 0 && c.cols > 0 && OffWalls(s) && t.cleared == Cleared(c, s, t.inactive)
    requires t.ordered == AfterOrders(t.cleared, t.orders) && t.begun == t.ordered.(turn := t.ordered.turn + 1)
    ensures OffWalls(t.begun)
  {
  }

  lemma CombatKeepsOffWalls(c: Config, s: State, s': State)
    requires c.rows > 0 && c.cols > 0 && OffWalls(s) && CombatStep(c, s, s')
    ensures OffWalls(s')
  {
    hide Focused;
    OffWallsAfterDeaths(s, s');
  }

  lemma ZoneKeepsOffWalls(c: Config, s: State, s': State)
    requires c.rows > 0 && c.cols > 0 && (c.zoneEnabled ==> c.zoneShrinkInterval != 0) && OffWalls(s)
             && ZoneStep(c, s, s')
    ensures OffWalls(s')
  {
    hide Outside;
    OffWallsAfterDeaths(s, s');
  }

  lemma HarvestKeepsOffWalls(c: Config, s: State, s1: State, s2: State)
    requires c.rows > 0 && c.cols > 0 && OffWalls(s) && CaptureStep(s, s1) && CollectStep(c, s1, s2)
    ensures OffWalls(s2)
  {
    hide Razed, HarvestOf, CaptureNotices, Settled, Enriched;
  }

  lemma EndgameKeepsOffWalls(c: Config, s: State, s1: State, s2: State, v: Verdict)
    requires OffWalls(s) && TickStep(c, s, s1) && EndgameStep(c, s1, s2, v)
    ensures OffWalls(s2)
  {
    hide Survives, Dominates, Crowned, Reports, Leads, Quiet, SoleSurvivorIs;
  }
}

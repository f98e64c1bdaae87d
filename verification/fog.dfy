/** What the fog of war shows and hides. */
module FogOfWar {
  import opened Torus
  import opened Tally
  import opened GameTypes
  import opened Rules

  /** Some living bot of the player is close enough to the tile. */
  ghost predicate Reaches(c: Config, s: State, p: nat, pos: Position)
    requires c.rows > 0 && c.cols > 0
  {
    exists i :: 0 <= i < |s.bots| && s.bots[i].alive && s.bots[i].owner == p
                && Distance2(s.bots[i].pos, pos, c.rows, c.cols) <= c.visionRadius2
  }

  lemma ReachIsSight(c: Config, s: State, p: nat)
    requires c.rows > 0 && c.cols > 0
    ensures forall pos :: Reaches(c, s, p, pos) <==> InSight(c, s, p, pos)
  {
    hide Distance2;
  }

  lemma BoardIs(c: Config, s: State)
    requires WellFormed(c, s)
    ensures c.rows > 0 && c.cols > 0
  {
  }

  /** A view lists a bot exactly when it is alive and some living bot of the player is within
      the vision radius of it. */
  lemma ListsExactlyWhatIsSeen(c: Config, s: State, p: nat, v: VisibleState, b: VisibleBot)
    requires WellFormed(c, s) && p < |s.players| && VisibleStep(c, s, p, v)
    ensures b in v.bots <==> exists i :: 0 <= i < |s.bots| && s.bots[i].alive && Reaches(c, s, p, s.bots[i].pos)
                                          && b == VisibleBot(s.bots[i].pos, s.bots[i].owner)
  {
    BoardIs(c, s);
    ReachIsSight(c, s, p);
    hide InSight, Reaches, WellFormed;
    var ids := Select(|s.bots|, SeenBot(c, s, p));
    SelectMembers(|s.bots|, SeenBot(c, s, p));
    if i :|
         0 <= i < |s.bots| && s.bots[i].alive && InSight(c, s, p, s.bots[i].pos)
         && b == VisibleBot(s.bots[i].pos, s.bots[i].owner) {
      assert i in ids;
      var k :| 0 <= k < |ids| && ids[k] == i;
      assert v.bots[k] == b;
    }
    if b in v.bots {
      var k :| 0 <= k < |v.bots| && v.bots[k] == b;
      assert ids[k] in ids;
    }
  }

  /** The same for energy nodes: charged and within reach, one entry each. */
  lemma ListsChargedNodes(c: Config, s: State, p: nat, v: VisibleState, q: Position)
    requires WellFormed(c, s) && p < |s.players| && VisibleStep(c, s, p, v)
    ensures q in v.nodes <==> Reaches(c, s, p, q) && exists i :: 0 <= i < |s.nodes| && s.nodes[i].hasEnergy
                                                                   && s.nodes[i].pos == q
    ensures |v.nodes| == |ChargedInReach(c, s, p)|
  {
    hide InSight, Reaches, WellFormed, VisibleStep, Select, ChargedInReach;
    BoardIs(c, s);
    ReachIsSight(c, s, p);
    NodesOfView(c, s, p, v);
    NodesAreCounted(c, s, p);
    var ids := Select(|s.nodes|, SeenNode(c, s, p));
    SelectMembers(|s.nodes|, SeenNode(c, s, p));
    if i :| 0 <= i < |s.nodes| && s.nodes[i].hasEnergy && s.nodes[i].pos == q && InSight(c, s, p, q) {
      assert i in ids;
      var k :| 0 <= k < |ids| && ids[k] == i;
      assert v.nodes[k] == q;
    }
    if q in v.nodes {
      var k :| 0 <= k < |v.nodes| && v.nodes[k] == q;
      assert ids[k] in ids;
    }
  }

  ghost function ChargedInReach(c: Config, s: State, p: nat): set<nat>
    requires c.rows > 0 && c.cols > 0
  {
    set i: nat | i < |s.nodes| && s.nodes[i].hasEnergy && Reaches(c, s, p, s.nodes[i].pos)
  }

  lemma NodesAreCounted(c: Config, s: State, p: nat)
    requires c.rows > 0 && c.cols > 0
    ensures |Select(|s.nodes|, SeenNode(c, s, p))| == |ChargedInReach(c, s, p)|
  {
    hide InSight, Reaches, Select;
    ReachIsSight(c, s, p);
    SelectCount(|s.nodes|, SeenNode(c, s, p));
    assert Passing(|s.nodes|, SeenNode(c, s, p)) == ChargedInReach(c, s, p);
  }

  lemma NodesOfView(c: Config, s: State, p: nat, v: VisibleState)
    requires WellFormed(c, s) && p < |s.players| && VisibleStep(c, s, p, v)
    ensures var ids := Select(|s.nodes|, SeenNode(c, s, p));
            |v.nodes| == |ids| && forall k :: 0 <= k < |ids| ==> ids[k] < |s.nodes| && v.nodes[k] == s.nodes[ids[k]].pos
  {
  }

  /** And for cores, active or razed. */
  lemma ListsCoresInReach(c: Config, s: State, p: nat, v: VisibleState, b: VisibleCore)
    requires WellFormed(c, s) && p < |s.players| && VisibleStep(c, s, p, v)
    ensures b in v.cores <==> exists i :: 0 <= i < |s.cores| && Reaches(c, s, p, s.cores[i].pos)
                                           && b == VisibleCore(s.cores[i].pos, s.cores[i].owner, s.cores[i].active)
    ensures |v.cores| == |CoresInReach(c, s, p)|
  {
    hide InSight, Reaches, WellFormed, VisibleStep, Select, CoresInReach;
    BoardIs(c, s);
    ReachIsSight(c, s, p);
    CoresOfView(c, s, p, v);
    CoresAreCounted(c, s, p);
    var ids := Select(|s.cores|, SeenCore(c, s, p));
    SelectMembers(|s.cores|, SeenCore(c, s, p));
    if i :|
         0 <= i < |s.cores| && InSight(c, s, p, s.cores[i].pos)
         && b == VisibleCore(s.cores[i].pos, s.cores[i].owner, s.cores[i].active) {
      assert i in ids;
      var k :| 0 <= k < |ids| && ids[k] == i;
      assert v.cores[k] == b;
    }
    if b in v.cores {
      var k :| 0 <= k < |v.cores| && v.cores[k] == b;
      assert ids[k] in ids;
    }
  }

  ghost function CoresInReach(c: Config, s: State, p: nat): set<nat>
    requires c.rows > 0 && c.cols > 0
  {
    set i: nat | i < |s.cores| && Reaches(c, s, p, s.cores[i].pos)
  }

  lemma CoresAreCounted(c: Config, s: State, p: nat)
    requires c.rows > 0 && c.cols > 0
    ensures |Select(|s.cores|, SeenCore(c, s, p))| == |CoresInReach(c, s, p)|
  {
    hide InSight, Reaches, Select;
    ReachIsSight(c, s, p);
    SelectCount(|s.cores|, SeenCore(c, s, p));
    assert Passing(|s.cores|, SeenCore(c, s, p)) == CoresInReach(c, s, p);
  }

  lemma CoresOfView(c: Config, s: State, p: nat, v: VisibleState)
    requires WellFormed(c, s) && p < |s.players| && VisibleStep(c, s, p, v)
    ensures var ids := Select(|s.cores|, SeenCore(c, s, p));
            |v.cores| == |ids| && forall k :: 0 <= k < |ids| ==>
              ids[k] < |s.cores|
              && v.cores[k] == VisibleCore(s.cores[ids[k]].pos, s.cores[ids[k]].owner, s.cores[ids[k]].active)
  {
  }

  /** And for the bots on this turn's record of deaths. */
  lemma ListsTheDead(c: Config, s: State, p: nat, v: VisibleState, b: VisibleBot)
    requires WellFormed(c, s) && p < |s.players| && VisibleStep(c, s, p, v)
    ensures b in v.dead <==>
            exists i :: 0 <= i < |s.deadBots| && s.deadBots[i] < |s.bots| && Reaches(c, s, p, s.bots[s.deadBots[i]].pos)
                        && b == VisibleBot(s.bots[s.deadBots[i]].pos, s.bots[s.deadBots[i]].owner)
  {
    hide InSight, Reaches, WellFormed, VisibleStep, Select;
    BoardIs(c, s);
    ReachIsSight(c, s, p);
    DeadOfView(c, s, p, v);
    var ids := Select(|s.deadBots|, SeenDead(c, s, p));
    SelectMembers(|s.deadBots|, SeenDead(c, s, p));
    if i :|
         0 <= i < |s.deadBots| && s.deadBots[i] < |s.bots| && InSight(c, s, p, s.bots[s.deadBots[i]].pos)
         && b == VisibleBot(s.bots[s.deadBots[i]].pos, s.bots[s.deadBots[i]].owner) {
      assert i in ids;
      var k :| 0 <= k < |ids| && ids[k] == i;
      assert v.dead[k] == b;
    }
    if b in v.dead {
      var k :| 0 <= k < |v.dead| && v.dead[k] == b;
      assert ids[k] in ids;
    }
  }

  lemma DeadOfView(c: Config, s: State, p: nat, v: VisibleState)
    requires WellFormed(c, s) && p < |s.players| && VisibleStep(c, s, p, v)
    ensures var ids := Select(|s.deadBots|, SeenDead(c, s, p));
            |v.dead| == |ids| && forall k :: 0 <= k < |ids| ==>
              s.deadBots[ids[k]] < |s.bots|
              && v.dead[k] == VisibleBot(s.bots[s.deadBots[ids[k]]].pos, s.bots[s.deadBots[ids[k]]].owner)
  {
  }

  /** The walls within reach, the player's own figures, and the zone if the match has one. */
  lemma TellsTheRest(c: Config, s: State, p: nat, v: VisibleState)
    requires WellFormed(c, s) && p < |s.players| && VisibleStep(c, s, p, v)
    ensures forall q :: q in v.walls <==> q in s.walls && Reaches(c, s, p, q)
    ensures v.id == p && v.turn == s.turn && v.energy == s.players[p].energy && v.score == s.players[p].score
    ensures v.zone.Some? <==> c.zoneEnabled
    ensures c.zoneEnabled ==> v.zone.value == ZoneBounds(s.zoneCenter, s.zoneRadius, s.zoneActive)
  {
    BoardIs(c, s);
    ReachIsSight(c, s, p);
    hide InSight, Reaches, WellFormed, SeenBot, SeenDead, SeenNode, SeenCore, Select;
  }

  /** No bot is listed twice: the view has as many entries as there are bots in sight. */
  lemma ListsEachOnce(c: Config, s: State, p: nat, v: VisibleState, j: nat, k: nat)
    requires WellFormed(c, s) && p < |s.players| && VisibleStep(c, s, p, v) && j < k < |v.bots|
    ensures exists a, b :: 0 <= a < b < |s.bots| && s.bots[a].alive && s.bots[b].alive
                           && v.bots[j] == VisibleBot(s.bots[a].pos, s.bots[a].owner)
                              && v.bots[k] == VisibleBot(s.bots[b].pos, s.bots[b].owner)
  {
    hide InSight, WellFormed;
    var ids := Select(|s.bots|, SeenBot(c, s, p));
    SelectMembers(|s.bots|, SeenBot(c, s, p));
    assert ids[j] in ids && ids[k] in ids && ids[j] < ids[k];
  }

  /** The match loop clears the turn's record before it asks for orders, so the dead are never
      shown, although a view has a list for them. */
  lemma DeadAreNeverShown(c: Config, s: State, inactive: seq<nat>, p: nat, v: VisibleState)
    requires c.rows > 0 && c.cols > 0 && WellFormed(c, Cleared(c, s, inactive)) && p < |Cleared(c, s, inactive).players|
    requires VisibleStep(c, Cleared(c, s, inactive), p, v)
    ensures v.dead == []
  {
    var s0 := Cleared(c, s, inactive);
    SelectMembers(|s0.deadBots|, SeenDead(c, s0, p));
    assert |s0.deadBots| == 0;
    hide WellFormed, SeenDead;
  }
}

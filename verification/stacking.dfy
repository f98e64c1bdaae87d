/** When automatic spawns can pile up: the new bots of a turn stand alone exactly when each
    player's cores they came from are on different tiles. */
module Stacking {
  import opened Torus
  import opened GameTypes
  import opened Rules
  import opened Scheduling
  import opened Population

  /** The bots a player's spawns add, in order. */
  lemma {:induction false} SpawnedBots(c: Config, s: State, p: nat, ids: seq<nat>)
    requires p < |s.players| && forall k :: 0 <= k < |ids| ==> ids[k] < |s.cores|
    ensures var r := SpawnAll(c, s, p, ids);
            && |r.bots| == |s.bots| + |ids| && r.bots[..|s.bots|] == s.bots
            && (forall k :: 0 <= k < |s.cores| ==> r.cores[k].pos == s.cores[k].pos)
            && forall i :: |s.bots| <= i < |r.bots| ==>
               r.bots[i].alive && r.bots[i].pos == s.cores[ids[i - |s.bots|]].pos
  {
    if ids == [] {
    } else {
      var init := ids[..|ids| - 1];
      SpawnedBots(c, s, p, init);
      var r0 := SpawnAll(c, s, p, init);
      assert SpawnAll(c, s, p, ids).bots[..|r0.bots|] == r0.bots;
      hide SpawnAll;
      forall k | 0 <= k < |init|
        ensures ids[k] == init[k]
      {
      }
    }
  }

  /** Every bot added since s stands on a tile with no other living bot. */
  ghost predicate NewcomersAlone(s: State, s': State) {
    forall i, j :: |s.bots| <= i < |s'.bots| && 0 <= j < |s'.bots| && j != i && s'.bots[j].alive ==>
        s'.bots[i].pos != s'.bots[j].pos
  }

  ghost predicate TilesApart(s: State, ids: seq<nat>) {
    forall a, b :: 0 <= a < b < |ids| && ids[a] < |s.cores| && ids[b] < |s.cores| ==>
        s.cores[ids[a]].pos != s.cores[ids[b]].pos
  }

  lemma {:induction false} ChosenAreEligible(c: Config, s: State, p: nat, ids: seq<nat>, s': State)
    requires p < |s.players| && PlayerSpawns(c, s, p, ids, s')
    ensures var chosen := Chosen(c, s, p, ids);
            (forall k :: 0 <= k < |chosen| ==> Eligible(s, p, chosen[k]) && chosen[k] < |s.cores|)
                && s' == SpawnAll(c, s, p, chosen)
  {
    hide Eligible, Before;
    var chosen := Chosen(c, s, p, ids);
    forall k | 0 <= k < |chosen|
      ensures Eligible(s, p, chosen[k]) && chosen[k] < |s.cores|
    {
      assert chosen[k] in ids;
    }
  }

  /** Occupied cores are skipped, so a newcomer never meets a bot that lived before its stage. */
  lemma NewcomersFindRoom(c: Config, s: State, p: nat, ids: seq<nat>, s': State, i: nat, j: nat)
    requires p < |s.players| && PlayerSpawns(c, s, p, ids, s')
    requires j < |s.bots| <= i < |s'.bots| && s.bots[j].alive
    ensures s'.bots[i].pos != s.bots[j].pos
  {
    ChosenAreEligible(c, s, p, ids, s');
    var chosen := Chosen(c, s, p, ids);
    SpawnedBots(c, s, p, chosen);
    hide SpawnAll, Chosen, PlayerSpawns;
    var k := chosen[i - |s.bots|];
    assert Eligible(s, p, k) && !StandsAt(s.bots, j, s.cores[k].pos);
  }

  /** So it can only meet another newcomer of the same player, from another core on its tile. */
  lemma SpawnsStackExactlyWhenCoresDo(c: Config, s: State, p: nat, ids: seq<nat>, s': State)
    requires p < |s.players| && PlayerSpawns(c, s, p, ids, s')
    ensures NewcomersAlone(s, s') <==> TilesApart(s, Chosen(c, s, p, ids))
  {
    ChosenAreEligible(c, s, p, ids, s');
    var chosen := Chosen(c, s, p, ids);
    SpawnedBots(c, s, p, chosen);
    hide SpawnAll, Chosen, PlayerSpawns, Eligible;
    var n := |s.bots|;
    forall i, j | n <= i < |s'.bots| && 0 <= j < n && s'.bots[j].alive
      ensures s'.bots[i].pos != s'.bots[j].pos
    {
      assert s'.bots[..n][j] == s.bots[j];
      NewcomersFindRoom(c, s, p, ids, s', i, j);
    }
    if NewcomersAlone(s, s') {
      forall a, b | 0 <= a < b < |chosen|
        ensures s.cores[chosen[a]].pos != s.cores[chosen[b]].pos
      {
        assert s'.bots[n + a].pos != s'.bots[n + b].pos;
      }
    }
  }

  // ----- The whole phase ----------------------------------------------------------

  lemma AloneInTwoSteps(s: State, s1: State, s2: State)
    requires Breeds(s, s1) && Breeds(s1, s2)
    ensures NewcomersAlone(s, s2) <==> NewcomersAlone(s, s1) && NewcomersAlone(s1, s2)
  {
    hide DeathsIn, SpawnsIn, LivingTotal, Range;
    assert forall i :: 0 <= i < |s1.bots| ==> s2.bots[i] == s2.bots[..|s1.bots|][i] == s1.bots[i];
  }

  lemma {:induction false} StagesAlone(c: Config, s: State, stages: seq<State>, rankings: seq<seq<nat>>, s': State,
                                       p: nat)
    requires WellFormed(c, s) && SpawnStep(c, s, stages, rankings, s') && p < |stages|
    ensures NewcomersAlone(s, stages[p]) <==>
            forall q: nat :: q < p ==> TilesApart(stages[q], Chosen(c, stages[q], q, rankings[q]))
  {
    hide WellFormed, PlayerSpawns, Breeds, TilesApart, Chosen, NewcomersAlone;
    if p == 0 {
      NobodyIsAlone(s);
    } else {
      StagesAlone(c, s, stages, rankings, s', p - 1);
      SpawnsStackExactlyWhenCoresDo(c, stages[p - 1], p - 1, rankings[p - 1], stages[p]);
      StagesBreed(c, s, stages, rankings, s', 0, p - 1);
      StagesBreed(c, s, stages, rankings, s', p - 1, p);
      AloneInTwoSteps(s, stages[p - 1], stages[p]);
    }
  }

  lemma NobodyIsAlone(s: State)
    ensures NewcomersAlone(s, s)
  {
  }

  /** After the spawn phase all newcomers stand alone exactly when every player's chosen cores
      are on different tiles. */
  lemma PhaseStacksExactlyWhenCoresDo(c: Config, s: State, stages: seq<State>, rankings: seq<seq<nat>>, s': State)
    requires WellFormed(c, s) && SpawnStep(c, s, stages, rankings, s')
    ensures NewcomersAlone(s, s') <==>
            forall q: nat :: q < |s.players| ==> TilesApart(stages[q], Chosen(c, stages[q], q, rankings[q]))
  {
    StagesAlone(c, s, stages, rankings, s', |s.players|);
  }

  /** Newcomers of different players never share a tile: the later stage sees the earlier bots. */
  lemma PlayersNeverStack(c: Config, s: State, stages: seq<State>, rankings: seq<seq<nat>>, s': State, p: nat, i: nat,
                          j: nat)
    requires WellFormed(c, s) && SpawnStep(c, s, stages, rankings, s') && p < |s.players|
    requires j < |stages[p].bots| <= i < |stages[p + 1].bots| && stages[p].bots[j].alive
    ensures |stages[p + 1].bots| <= |s'.bots| && s'.bots[j] == stages[p].bots[j] && s'.bots[i].pos != s'.bots[j].pos
  {
    hide WellFormed, PlayerSpawns, Breeds;
    NewcomersFindRoom(c, stages[p], p, rankings[p], stages[p + 1], i, j);
    StagesBreed(c, s, stages, rankings, s', p, p + 1);
    StagesBreed(c, s, stages, rankings, s', p + 1, |s.players|);
    BredStay(stages[p], stages[p + 1]);
    BredStay(stages[p + 1], s');
  }

  lemma BredStay(s: State, s': State)
    requires Breeds(s, s')
    ensures |s.bots| <= |s'.bots| && forall i :: 0 <= i < |s.bots| ==> s'.bots[i] == s.bots[i]
  {
    assert forall i :: 0 <= i < |s.bots| ==> s'.bots[i] == s'.bots[..|s.bots|][i];
  }

  /** It does happen: two cores on one tile and energy for two spawns. */
  lemma {:induction false} TwinCoresStack(c: Config, s: State, pos: Position)
    requires c.spawnCost == 1 && s.bots == [] && |s.players| == 1 && s.players[0].energy == 2
    requires s.cores == [Core(pos, 0, true, 0, 0), Core(pos, 0, true, 1, 0)]
    ensures PlayerSpawns(c, s, 0, [0, 1], SpawnAll(c, s, 0, [0, 1])) && !NewcomersAlone(s, SpawnAll(c, s, 0, [0, 1]))
  {
    var ids := [0, 1];
    assert forall k: nat :: Eligible(s, 0, k) <==> k < 2;
    assert forall k: nat :: k in ids <==> k < 2;
    assert Affordable(2, 1, 2) == 1 + Affordable(1, 1, 1) == 2;
    assert ids[..2] == ids;
    SpawnsStackExactlyWhenCoresDo(c, s, 0, ids, SpawnAll(c, s, 0, ids));
    assert s.cores[ids[0]].pos == s.cores[ids[1]].pos;
  }
}

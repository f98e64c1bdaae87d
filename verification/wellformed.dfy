/** Every phase keeps the state well formed: IDs are indices, owners exist, positions are
    wrapped, and each BotCount is the number of living bots. */
module WellFormedSteps {
  import opened Torus
  import opened GameTypes
  import opened Rules
  import opened MoveLoop
  import opened SpawnLoop

  /** Phases that only flag and move bots: same IDs and owners, wrapped positions. */
  lemma SameBots(c: Config, bots: seq<Bot>, bots': seq<Bot>, n: nat)
    requires BotsOk(c, bots, n) && |bots'| == |bots|
    requires forall i :: 0 <= i < |bots| ==> bots'[i].id == bots[i].id && bots'[i].owner == bots[i].owner
                                             && InGrid(bots'[i].pos, c.rows, c.cols)
    ensures BotsOk(c, bots', n)
  {
  }

  lemma MoveStaysWellFormed(c: Config, s: State, s': State)
    requires WellFormed(c, s) && MoveStep(c, s, s')
    ensures WellFormed(c, s')
  {
    hide Collides, Destination;
    forall i | 0 <= i < |s.bots|
      ensures InGrid(s'.bots[i].pos, c.rows, c.cols)
    {
      DestinationInGrid(c, s, i);
    }
    SameBots(c, s.bots, s'.bots, |s.players|);
    var died := s'.deadBots[|s.deadBots|..];
    CollidersAreBots(c, s);
    assert forall k :: 0 <= k < |died| ==> died[k] in died;
    assert s'.deadBots == s.deadBots + died;
  }

  lemma CollidersAreBots(c: Config, s: State)
    requires c.rows > 0 && c.cols > 0
    ensures forall i :: Collides(c, s, i) ==> 0 <= i < |s.bots|
  {
  }

  lemma CombatStaysWellFormed(c: Config, s: State, s': State)
    requires WellFormed(c, s) && CombatStep(c, s, s')
    ensures WellFormed(c, s')
  {
    hide Focused, CombatNotices;
    SameBots(c, s.bots, s'.bots, |s.players|);
  }

  lemma ZoneStaysWellFormed(c: Config, s: State, s': State)
    requires WellFormed(c, s) && (c.zoneEnabled ==> c.zoneShrinkInterval != 0) && ZoneStep(c, s, s')
    ensures WellFormed(c, s')
  {
    hide Outside, ShrunkRadius;
    SameBots(c, s.bots, s'.bots, |s.players|);
  }

  lemma CaptureStaysWellFormed(c: Config, s: State, s': State)
    requires WellFormed(c, s) && CaptureStep(s, s')
    ensures WellFormed(c, s')
  {
    hide Razed, CaptureNotices;
  }

  lemma CollectStaysWellFormed(c: Config, s: State, s': State)
    requires WellFormed(c, s) && CollectStep(c, s, s')
    ensures WellFormed(c, s')
  {
    hide HarvestOf, CollectNotices;
  }

  /** Each intermediate state of the spawn phase is well formed, with the same players and cores. */
  lemma {:induction false} StagesStayWellFormed(c: Config, s: State, stages: seq<State>, rankings: seq<seq<nat>>,
                                                s': State, p: nat)
    requires WellFormed(c, s) && SpawnStep(c, s, stages, rankings, s') && p < |stages|
    ensures WellFormed(c, stages[p])
    ensures |stages[p].players| == |s.players| && |stages[p].cores| == |s.cores| && stages[p].turn == s.turn
  {
    hide WellFormed, PlayerSpawns;
    if p == 0 {
    } else {
      StagesStayWellFormed(c, s, stages, rankings, s', p - 1);
      PlayerSpawnsStaysWellFormed(c, stages[p - 1], p - 1, rankings[p - 1], stages[p]);
    }
  }

  lemma SpawnStaysWellFormed(c: Config, s: State, stages: seq<State>, rankings: seq<seq<nat>>, s': State)
    requires WellFormed(c, s) && SpawnStep(c, s, stages, rankings, s')
    ensures WellFormed(c, s')
  {
    StagesStayWellFormed(c, s, stages, rankings, s', |s.players|);
  }

  lemma TickStaysWellFormed(c: Config, s: State, s': State)
    requires WellFormed(c, s) && TickStep(c, s, s')
    ensures WellFormed(c, s')
  {
  }

  lemma EndgameStaysWellFormed(c: Config, s: State, s': State, v: Verdict)
    requires WellFormed(c, s) && EndgameStep(c, s, s', v)
    ensures WellFormed(c, s')
  {
    hide Survives, Dominates, Crowned, Reports, Leads, Quiet, SoleSurvivorIs;
    if exists w :: SoleSurvivorIs(s, w) {
      var w :| EliminationStep(s, w, s', v);
    } else if exists p :: Crowned(s, p) {
    }
  }

  lemma CoreAddedStaysWellFormed(c: Config, s: State, owner: nat, at: Position)
    requires WellFormed(c, s) && owner < |s.players| && InGrid(at, c.rows, c.cols)
    ensures WellFormed(c, WithCore(s, owner, at))
  {
  }

  lemma ClearedStaysWellFormed(c: Config, s: State, inactive: seq<nat>)
    requires WellFormed(c, s)
    ensures WellFormed(c, Cleared(c, s, inactive))
  {
  }

  lemma OrdersStayWellFormed(c: Config, s: State, moves: map<nat, Direction>, turn: int)
    requires WellFormed(c, s)
    ensures WellFormed(c, s.(moves := moves)) && WellFormed(c, s.(turn := turn))
  {
  }

  /** Every state a turn passes through is well formed. */
  ghost predicate AllWellFormed(c: Config, t: TurnTrace) {
    && WellFormed(c, t.cleared) && WellFormed(c, t.ordered) && WellFormed(c, t.begun) && WellFormed(c, t.moved)
    && WellFormed(c, t.fought) && WellFormed(c, t.sheltered) && WellFormed(c, t.captured)
    && WellFormed(c, t.collected) && WellFormed(c, t.spawned) && WellFormed(c, t.ticked) && WellFormed(c, t.ended)
  }

  lemma TurnStaysWellFormed(c: Config, s: State, t: TurnTrace)
    requires WellFormed(c, s) && (c.zoneEnabled ==> c.zoneShrinkInterval != 0) && TurnStep(c, s, t)
    ensures AllWellFormed(c, t)
  {
    BoardIsReal(c, s);
    hide WellFormed, MoveStep, CombatStep, ZoneStep, CaptureStep, CollectStep, SpawnStep, TickStep, EndgameStep;
    ClearedStaysWellFormed(c, s, t.inactive);
    OrdersStayWellFormed(c, t.cleared, t.ordered.moves, 0);
    OrdersStayWellFormed(c, t.ordered, map[], t.ordered.turn + 1);
    MoveStaysWellFormed(c, t.begun, t.moved);
    CombatStaysWellFormed(c, t.moved, t.fought);
    ZoneStaysWellFormed(c, t.fought, t.sheltered);
    CaptureStaysWellFormed(c, t.sheltered, t.captured);
    CollectStaysWellFormed(c, t.captured, t.collected);
    SpawnStaysWellFormed(c, t.collected, t.stages, t.rankings, t.spawned);
    TickStaysWellFormed(c, t.spawned, t.ticked);
    EndgameStaysWellFormed(c, t.ticked, t.ended, t.verdict);
  }

  lemma BoardIsReal(c: Config, s: State)
    requires WellFormed(c, s)
    ensures c.rows > 0 && c.cols > 0
  {
  }

  // ----- What the phases leave alone ----------------------------------------------

  /** The spawn phase adds bots and touches nothing but bots, energy, cores' spawn turns and events. */
  lemma SpawnLeaves(c: Config, s: State, stages: seq<State>, rankings: seq<seq<nat>>, s': State)
    requires WellFormed(c, s) && SpawnStep(c, s, stages, rankings, s')
    ensures s' == s.(bots := s'.bots, nextBotId := s'.nextBotId, players := s'.players, cores := s'.cores,
                     events := s'.events)
  {
    StageLeaves(c, s, stages, rankings, s', |s.players|);
  }

  lemma {:induction false} StageLeaves(c: Config, s: State, stages: seq<State>, rankings: seq<seq<nat>>, s': State,
                                       p: nat)
    requires WellFormed(c, s) && SpawnStep(c, s, stages, rankings, s') && p < |stages|
    ensures var r := stages[p];
            r == s.(bots := r.bots, nextBotId := r.nextBotId, players := r.players, cores := r.cores,
                    events := r.events)
  {
    hide WellFormed, Eligible, Before, SpawnAll;
    if p == 0 {
    } else {
      StageLeaves(c, s, stages, rankings, s', p - 1);
      StagesStayWellFormed(c, s, stages, rankings, s', p - 1);
      var q := stages[p - 1];
      if q.players[p - 1].energy >= c.spawnCost {
        SpawnAllLeaves(c, q, p - 1,
                       rankings[p - 1][..Affordable(q.players[p - 1].energy, c.spawnCost, |rankings[p - 1]|)]);
      }
    }
  }

  lemma {:induction false} SpawnAllLeaves(c: Config, s: State, p: nat, ids: seq<nat>)
    requires p < |s.players| && forall k :: 0 <= k < |ids| ==> ids[k] < |s.cores|
    ensures var r := SpawnAll(c, s, p, ids);
            r == s.(bots := r.bots, nextBotId := r.nextBotId, players := r.players, cores := r.cores,
                    events := r.events)
  {
    if ids == [] {
    } else {
      SpawnAllLeaves(c, s, p, ids[..|ids| - 1]);
    }
  }

  /** A turn counts once, and goes on only below the turn limit. */
  lemma TurnAdvances(c: Config, s: State, t: TurnTrace)
    requires WellFormed(c, s) && (c.zoneEnabled ==> c.zoneShrinkInterval != 0) && TurnStep(c, s, t)
    ensures t.ended.turn == s.turn + 1 && t.ticked.turn == t.ended.turn
    ensures t.verdict == Ongoing ==> t.ended.turn < c.maxTurns
  {
    TurnStaysWellFormed(c, s, t);
    SpawnLeaves(c, t.collected, t.stages, t.rankings, t.spawned);
    hide WellFormed, SpawnStep, MovedBots, Destination, Collides;
    EndgameKeepsTurn(c, t.ticked, t.ended, t.verdict);
  }

  lemma EndgameKeepsTurn(c: Config, s: State, s': State, v: Verdict)
    requires EndgameStep(c, s, s', v)
    ensures s'.turn == s.turn && (v == Ongoing ==> s.turn < c.maxTurns)
    ensures v == Ongoing ==> ClosingStep(c, s, s', v)
  {
    hide Survives, Dominates, Crowned, Reports, Leads, Quiet, SoleSurvivorIs;
  }
}

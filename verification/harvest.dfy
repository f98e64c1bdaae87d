/** The collections a turn records are exactly those of its collection phase. */
module Harvesting {
  import opened Tally
  import opened GameTypes
  import opened Rules
  import opened WellFormedSteps
  import opened Ledgers
  import opened Runs

  ghost function Collected(): Event -> int {
    (e: Event) => if e.EnergyCollected? then 1 else 0
  }

  /** The weight looks at collections only. */
  ghost predicate WeighsCollections(w: Event -> int) {
    forall e: Event :: !e.EnergyCollected? ==> w(e) == 0
  }

  /** The weight looks only at what is collected and at who goes inactive. */
  ghost predicate IgnoresBattle(w: Event -> int) {
    forall e: Event :: !e.EnergyCollected? && !e.BotInactive? ==> w(e) == 0
  }

  lemma {:induction false} OtherEventsWeighNothing(before: seq<Event>, after: seq<Event>, w: Event -> int)
    requires IgnoresBattle(w) && |before| <= |after| && after[..|before|] == before
    requires forall k :: |before| <= k < |after| ==> !after[k].EnergyCollected? && !after[k].BotInactive?
    ensures Sum(after, w) == Sum(before, w)
  {
    var extra := after[|before|..];
    assert after == before + extra;
    SumConcat(before, extra, w);
    Idle(extra, w);
  }

  lemma {:induction false} MoveWeighs(c: Config, s: State, s': State, w: Event -> int)
    requires c.rows > 0 && c.cols > 0 && MoveStep(c, s, s') && IgnoresBattle(w)
    ensures Sum(s'.events, w) == Sum(s.events, w)
  {
    hide MovedBots, Collides, IgnoresBattle;
    OtherEventsWeighNothing(s.events, s'.events, w);
  }

  lemma {:induction false} CombatWeighs(c: Config, s: State, s': State, w: Event -> int)
    requires c.rows > 0 && c.cols > 0 && CombatStep(c, s, s') && IgnoresBattle(w)
    ensures Sum(s'.events, w) == Sum(s.events, w)
  {
    CombatNoticesAre(c, s.bots, |s.bots|);
    hide StruckBots, Fallen, CombatNotices, IgnoresBattle, Recount, Credited;
    OtherEventsWeighNothing(s.events, s'.events, w);
  }

  lemma {:induction false} ZoneWeighs(c: Config, s: State, s': State, w: Event -> int)
    requires Playable(c) && ZoneStep(c, s, s') && IgnoresBattle(w)
    ensures Sum(s'.events, w) == Sum(s.events, w)
  {
    hide ShelteredBots, ShrunkRadius, OutsideTest, IgnoresBattle, Recount;
    if c.zoneEnabled && s.zoneActive {
      OtherEventsWeighNothing(s.events, s'.events, w);
    }
  }

  lemma {:induction false} CaptureWeighs(s: State, s': State, w: Event -> int)
    requires CaptureStep(s, s') && IgnoresBattle(w)
    ensures Sum(s'.events, w) == Sum(s.events, w)
  {
    hide CaptureNotices, RazedCores, Settled, IgnoresBattle;
    var notices := s'.events[|s.events|..];
    forall k | |s.events| <= k < |s'.events|
      ensures s'.events[k].CoreCaptured?
    {
      assert s'.events[k] == notices[k - |s.events|];
    }
    OtherEventsWeighNothing(s.events, s'.events, w);
  }

  lemma {:induction false} PlayerWeighs(c: Config, s: State, p: nat, ids: seq<nat>, s': State, w: Event -> int)
    requires p < |s.players| && PlayerSpawns(c, s, p, ids, s') && IgnoresBattle(w)
    ensures Sum(s'.events, w) == Sum(s.events, w)
  {
    hide Eligible, Before, IgnoresBattle;
    if s.players[p].energy >= c.spawnCost {
      SpawnAllEvents(c, s, p, ids[..Affordable(s.players[p].energy, c.spawnCost, |ids|)]);
      OtherEventsWeighNothing(s.events, s'.events, w);
    }
  }

  lemma {:induction false} StageWeighs(c: Config, s: State, stages: seq<State>, rankings: seq<seq<nat>>, s': State,
                                       p: nat, w: Event -> int)
    requires WellFormed(c, s) && SpawnStep(c, s, stages, rankings, s') && p < |stages| && IgnoresBattle(w)
    ensures Sum(stages[p].events, w) == Sum(s.events, w)
  {
    hide WellFormed, PlayerSpawns, IgnoresBattle;
    if p == 0 {
    } else {
      StageWeighs(c, s, stages, rankings, s', p - 1, w);
      PlayerWeighs(c, stages[p - 1], p - 1, rankings[p - 1], stages[p], w);
    }
  }

  lemma {:induction false} OpeningWeighs(c: Config, s: State, t: TurnTrace, w: Event -> int)
    requires Playable(c) && TurnStep(c, s, t)
    ensures Sum(t.begun.events, w) == Sum(InactiveNotices(t.inactive), w)
  {
    hide Phases, AfterOrders;
    BegunIsOrdered(c, t);
  }

  lemma {:induction false} BegunIsOrdered(c: Config, t: TurnTrace)
    requires Playable(c) && Phases(c, t)
    ensures t.begun == t.ordered.(turn := t.ordered.turn + 1)
  {
  }

  /** What the turn's phases are, one by one. */
  lemma {:induction false} PhasesOf(c: Config, s: State, t: TurnTrace)
    requires Playable(c) && TurnStep(c, s, t)
    ensures MoveStep(c, t.begun, t.moved) && CombatStep(c, t.moved, t.fought) && ZoneStep(c, t.fought, t.sheltered)
    ensures CaptureStep(t.sheltered, t.captured) && CollectStep(c, t.captured, t.collected)
    ensures SpawnStep(c, t.collected, t.stages, t.rankings, t.spawned) && TickStep(c, t.spawned, t.ticked)
    ensures EndgameStep(c, t.ticked, t.ended, t.verdict)
  {
  }

  ghost function TurnCollections(c: Config, t: TurnTrace): seq<Event>
    requires c.rows > 0 && c.cols > 0
  {
    CollectNotices(c, t.captured.bots, t.captured.nodes, |t.captured.nodes|)
  }

  /** Over a turn's events such a weight is its weight over the notices of inactivity and the
      collection phase. */
  lemma {:induction false} TurnRecords(c: Config, s: State, t: TurnTrace, w: Event -> int)
    requires Playable(c) && WellFormed(c, s) && TurnStep(c, s, t) && IgnoresBattle(w)
    ensures Sum(t.ended.events, w) == Sum(InactiveNotices(t.inactive), w) + Sum(TurnCollections(c, t), w)
  {
    TurnStaysWellFormed(c, s, t);
    PhasesOf(c, s, t);
    OpeningWeighs(c, s, t, w);
    TurnFrame(c, s, t);
    SpawnTail(c, t);
    TickEvents(c, t.spawned, t.ticked);
    CollectEvents(c, t.captured, t.collected);
    hide *;
    MoveWeighs(c, t.begun, t.moved, w);
    CombatWeighs(c, t.moved, t.fought, w);
    ZoneWeighs(c, t.fought, t.sheltered, w);
    CaptureWeighs(t.sheltered, t.captured, w);
    SumConcat(t.captured.events, TurnCollections(c, t), w);
    CollectionsAre(c, t);
    CollectedIsWellFormed(c, t);
    StageWeighs(c, t.collected, t.stages, t.rankings, t.spawned, |t.collected.players|, w);
  }

  /** A weight of collections alone is its weight over the collection phase. */
  lemma {:induction false} TurnWeighs(c: Config, s: State, t: TurnTrace, w: Event -> int)
    requires Playable(c) && WellFormed(c, s) && TurnStep(c, s, t) && WeighsCollections(w)
    ensures Sum(t.ended.events, w) == Sum(TurnCollections(c, t), w)
  {
    Idle(InactiveNotices(t.inactive), w);
    assert IgnoresBattle(w);
    hide *;
    TurnRecords(c, s, t, w);
  }

  lemma {:induction false} CollectedIsWellFormed(c: Config, t: TurnTrace)
    requires AllWellFormed(c, t)
    ensures WellFormed(c, t.collected)
  {
  }

  lemma {:induction false} CollectionsAre(c: Config, t: TurnTrace)
    requires c.rows > 0 && c.cols > 0
    ensures TurnCollections(c, t) == CollectNotices(c, t.captured.bots, t.captured.nodes, |t.captured.nodes|)
  {
  }

  lemma {:induction false} CollectEvents(c: Config, s: State, s': State)
    requires c.rows > 0 && c.cols > 0 && CollectStep(c, s, s')
    ensures s'.events == s.events + CollectNotices(c, s.bots, s.nodes, |s.nodes|)
  {
    hide CollectNotices, HarvestedNodes, Enriched;
  }

  lemma {:induction false} SpawnTail(c: Config, t: TurnTrace)
    requires SpawnStep(c, t.collected, t.stages, t.rankings, t.spawned)
    ensures |t.stages| == |t.collected.players| + 1 && t.stages[|t.collected.players|] == t.spawned
  {
  }

  lemma {:induction false} TickEvents(c: Config, s: State, s': State)
    requires TickStep(c, s, s')
    ensures s'.events == s.events && s'.players == s.players && s'.bots == s.bots
  {
  }
}

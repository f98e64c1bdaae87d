/** A stalemate verdict is justified by fifty turns in which nothing happened. */
module StalemateVerdicts {
  import opened Torus
  import opened Tally
  import opened GameTypes
  import opened Rules
  import opened WellFormedSteps
  import opened EndLoop
  import opened Population
  import opened Ledgers
  import opened Runs
  import opened Verdicts
  import opened Harvesting

  /** Nobody died, nobody was born, nothing was collected. */
  ghost predicate Uneventful(events: seq<Event>) {
    forall k :: 0 <= k < |events| ==> events[k].BotInactive? || events[k].CoreCaptured?
  }

  ghost function CollectedBelow(n: int): Event -> int {
    (e: Event) => if e.EnergyCollected? && e.player < n then 1 else 0
  }

  ghost function SpawnedBelow(n: int): Event -> int {
    (e: Event) => if e.BotSpawned? && e.owner < n then 1 else 0
  }

  lemma {:induction false} OneMorePlayer(log: seq<Event>, n: nat)
    ensures Sum(log, CollectedBelow(n + 1)) == Sum(log, CollectedBelow(n)) + Sum(log, CollectedBy(n))
    ensures Sum(log, SpawnedBelow(n + 1)) == Sum(log, SpawnedBelow(n)) + Sum(log, SpawnedBy(n))
  {
    if log == [] {
    } else {
      OneMorePlayer(log[..|log| - 1], n);
    }
  }

  lemma {:induction false} NoPlayers(log: seq<Event>)
    ensures Sum(log, CollectedBelow(0)) == 0 && Sum(log, SpawnedBelow(0)) == 0
  {
    Idle(log, CollectedBelow(0));
    Idle(log, SpawnedBelow(0));
  }

  /** All the energy held, from the log of all players. */
  lemma {:induction false} EnergyHeld(c: Config, s: State, log: seq<Event>, n: nat)
    requires EnergyBooks(c, s, log) && n <= |s.players|
    ensures EnergyTotal(s.players[..n]) == Sum(log, CollectedBelow(n)) - c.spawnCost * Sum(log, SpawnedBelow(n))
  {
    if n == 0 {
      NoPlayers(log);
    } else {
      EnergyHeld(c, s, log, n - 1);
      assert s.players[..n][..n - 1] == s.players[..n - 1];
      OneMorePlayer(log, n - 1);
      Distribute(c.spawnCost, Sum(log, SpawnedBelow(n - 1)), Sum(log, SpawnedBy(n - 1)));
    }
  }

  lemma {:induction false} EnergyHeldByAll(c: Config, s: State, log: seq<Event>)
    requires EnergyBooks(c, s, log)
    ensures EnergyTotal(s.players)
            == Sum(log, CollectedBelow(|s.players|)) - c.spawnCost * Sum(log, SpawnedBelow(|s.players|))
  {
    EnergyHeld(c, s, log, |s.players|);
    assert s.players[..|s.players|] == s.players;
  }

  lemma {:induction false} UnspawnedMeansNone(events: seq<Event>)
    requires SpawnsIn(events) == []
    ensures forall k :: 0 <= k < |events| ==> !events[k].BotSpawned?
  {
    if events == [] {
    } else {
      UnspawnedMeansNone(events[..|events| - 1]);
    }
  }

  lemma {:induction false} UnkilledMeansNone(events: seq<Event>)
    requires DeathsIn(events) == []
    ensures forall k :: 0 <= k < |events| ==> !events[k].BotDied? && !events[k].CombatDeath? && !events[k].ZoneDeath?
  {
    if events == [] {
    } else {
      UnkilledMeansNone(events[..|events| - 1]);
    }
  }

  lemma {:induction false} TakerIsPlayer(c: Config, bots: seq<Bot>, node: EnergyNode, n: nat)
    requires c.rows > 0 && c.cols > 0 && BotsOk(c, bots, n) && HarvestOf(c, bots, node).Taken?
    ensures HarvestOf(c, bots, node).player < n
  {
    hide Distance2;
  }

  /** Each collection of the phase counts for some player. */
  lemma {:induction false} CollectionsCount(c: Config, bots: seq<Bot>, nodes: seq<EnergyNode>, k: nat, n: nat)
    requires c.rows > 0 && c.cols > 0 && BotsOk(c, bots, n) && k <= |nodes|
    ensures Sum(CollectNotices(c, bots, nodes, k), CollectedBelow(n))
            == Sum(CollectNotices(c, bots, nodes, k), Collected())
  {
    hide HarvestOf, BotsOk;
    if k == 0 {
    } else {
      CollectionsCount(c, bots, nodes, k - 1, n);
      var init := CollectNotices(c, bots, nodes, k - 1);
      var h := HarvestOf(c, bots, nodes[k - 1]);
      if h.Taken? {
        TakerIsPlayer(c, bots, nodes[k - 1], n);
        SumAppend(init, EnergyCollected(k - 1, h.player), CollectedBelow(n));
        SumAppend(init, EnergyCollected(k - 1, h.player), Collected());
      } else {
        assert CollectNotices(c, bots, nodes, k) == init;
      }
    }
  }

  lemma {:induction false} UncollectedMeansNone(events: seq<Event>)
    requires Sum(events, Collected()) == 0
    ensures forall k :: 0 <= k < |events| ==> !events[k].EnergyCollected?
  {
    forall k | 0 <= k < |events|
      ensures !events[k].EnergyCollected?
    {
      SumCovers(events, Collected(), k);
    }
  }

  /** All players together collect what the turn's events say was collected. */
  lemma {:induction false} TurnCollectsForPlayers(c: Config, s: State, t: TurnTrace)
    requires Playable(c) && WellFormed(c, s) && TurnStep(c, s, t)
    ensures Sum(t.ended.events, CollectedBelow(|s.players|)) == Sum(t.ended.events, Collected())
  {
    var n := |s.players|;
    TurnWeighs(c, s, t, CollectedBelow(n));
    TurnWeighs(c, s, t, Collected());
    TurnStaysWellFormed(c, s, t);
    TurnFrame(c, s, t);
    CapturedBots(c, s, t);
    hide *;
    CollectionsAre(c, t);
    CollectionsCount(c, t.captured.bots, t.captured.nodes, |t.captured.nodes|, n);
  }

  lemma {:induction false} CapturedBots(c: Config, s: State, t: TurnTrace)
    requires Playable(c) && WellFormed(c, s) && TurnStep(c, s, t)
    ensures BotsOk(c, t.captured.bots, |s.players|)
  {
    TurnStaysWellFormed(c, s, t);
    hide MovedBots, Collides, StruckBots, CombatNotices, Fallen, ShrunkRadius, ShelteredBots, OutsideTest,
      CaptureNotices, CollectNotices, SpawnStep, EndgameStep, Counted, BotsOk, InitialRadius;
  }

  /** What a turn did to the energy held and the bots living. */
  lemma {:induction false} TurnTotals(c: Config, s: State, t: TurnTrace, log: seq<Event>)
    requires Playable(c) && WellFormed(c, s) && TurnStep(c, s, t)
    requires EnergyBooks(c, s, log) && EnergyBooks(c, t.ticked, log + t.ended.events)
    ensures EnergyTotal(t.ticked.players) == EnergyTotal(s.players) + Sum(t.ended.events, Collected())
                                             - c.spawnCost * Sum(t.ended.events, SpawnedBelow(|s.players|))
    ensures PopulationAccounted(s, t.ended) && t.ended.bots == t.ticked.bots && t.ended.deadBots == t.ticked.deadBots
  {
    PopulationLedger(c, s, t);
    TurnFrame(c, s, t);
    TurnCollectsForPlayers(c, s, t);
    hide *;
    TotalsApart(c, s, t.ticked, log, t.ended.events);
  }

  lemma {:induction false} TotalsApart(c: Config, s: State, s': State, log: seq<Event>, ev: seq<Event>)
    requires EnergyBooks(c, s, log) && EnergyBooks(c, s', log + ev) && |s'.players| == |s.players|
    ensures EnergyTotal(s'.players) == EnergyTotal(s.players) + Sum(ev, CollectedBelow(|s.players|))
                                       - c.spawnCost * Sum(ev, SpawnedBelow(|s.players|))
  {
    hide *;
    var n := |s.players|;
    EnergyHeldByAll(c, s, log);
    EnergyHeldByAll(c, s', log + ev);
    SumConcat(log, ev, CollectedBelow(n));
    SumConcat(log, ev, SpawnedBelow(n));
    Distribute(c.spawnCost, Sum(log, SpawnedBelow(n)), Sum(ev, SpawnedBelow(n)));
  }

  lemma {:induction false} EmptyRecord(ev: seq<Event>)
    requires DeathsIn(ev) == [] && SpawnsIn(ev) == [] && Sum(ev, Collected()) == 0
    ensures Uneventful(ev)
  {
    UnkilledMeansNone(ev);
    UnspawnedMeansNone(ev);
    UncollectedMeansNone(ev);
  }

  lemma {:induction false} UneventfulRecord(ev: seq<Event>, n: int)
    requires Uneventful(ev)
    ensures DeathsIn(ev) == [] && SpawnsIn(ev) == [] && Sum(ev, Collected()) == 0 && Sum(ev, SpawnedBelow(n)) == 0
  {
    NothingRecorded(ev);
    Idle(ev, SpawnedBelow(n));
    Idle(ev, Collected());
  }

  lemma {:induction false} UnspawnedWeighsNothing(ev: seq<Event>, n: int)
    requires SpawnsIn(ev) == []
    ensures Sum(ev, SpawnedBelow(n)) == 0
  {
    UnspawnedMeansNone(ev);
    Idle(ev, SpawnedBelow(n));
  }

  lemma {:induction false} AccountedCounts(s: State, r: State)
    requires PopulationAccounted(s, r)
    ensures LivingTotal(r.bots) == LivingTotal(s.bots) - |r.deadBots| + |SpawnsIn(r.events)|
            && DeathsIn(r.events) == r.deadBots
  {
  }

  /** With last turn's totals remembered, no progress means exactly that nothing happened. */
  lemma {:induction false} QuietIsUneventful(c: Config, s: State, t: TurnTrace, log: seq<Event>)
    requires Playable(c) && WellFormed(c, s) && TurnStep(c, s, t)
    requires EnergyBooks(c, s, log) && EnergyBooks(c, t.ticked, log + t.ended.events)
    requires t.ticked.lastTotalEnergy == EnergyTotal(s.players) && t.ticked.lastTotalBots == LivingTotal(s.bots)
    ensures Quiet(t.ticked) <==> Uneventful(t.ended.events)
  {
    TurnTotals(c, s, t, log);
    hide *;
    AccountedCounts(s, t.ended);
    QuietByTotals(t.ticked, t.ended, |s.players|, EnergyTotal(s.players), LivingTotal(s.bots), c.spawnCost);
  }

  lemma {:induction false} QuietByTotals(s: State, r: State, n: int, energy: int, living: int, cost: int)
    requires s.lastTotalEnergy == energy && s.lastTotalBots == living && r.bots == s.bots && r.deadBots == s.deadBots
    requires EnergyTotal(s.players) == energy + Sum(r.events, Collected()) - cost * Sum(r.events, SpawnedBelow(n))
    requires LivingTotal(r.bots) == living - |r.deadBots| + |SpawnsIn(r.events)| && DeathsIn(r.events) == r.deadBots
    ensures Quiet(s) <==> Uneventful(r.events)
  {
    hide Uneventful, DeathsIn, SpawnsIn;
    if Quiet(s) {
      UnspawnedWeighsNothing(r.events, n);
      EmptyRecord(r.events);
    }
    if Uneventful(r.events) {
      UneventfulRecord(r.events, n);
    }
  }

  // ----- Streaks ------------------------------------------------------------------

  /** How many turns up to turn k, the first one aside, passed without an event of progress. */
  ghost function QuietStreak(ts: seq<TurnTrace>, k: nat): nat
    requires k <= |ts|
  {
    if k <= 1 then 0
    else if Uneventful(ts[k - 1].ended.events) then QuietStreak(ts, k - 1) + 1
    else 0
  }

  lemma {:induction false} QuietThroughout(ts: seq<TurnTrace>, k: nat, j: nat)
    requires k <= |ts| && k - QuietStreak(ts, k) <= j < k
    ensures Uneventful(ts[j].ended.events)
  {
    hide Uneventful;
    if j < k - 1 {
      QuietThroughout(ts, k - 1, j);
    }
  }

  lemma {:induction false} StreakLeavesFirstTurn(ts: seq<TurnTrace>, k: nat)
    requires k <= |ts|
    ensures QuietStreak(ts, k) < k || k == 0
  {
    hide Uneventful;
    if k > 1 {
      StreakLeavesFirstTurn(ts, k - 1);
    }
  }

  /** The remembered totals and the stalemate counter between turns. */
  ghost predicate Watching(s: State, ts: seq<TurnTrace>, k: nat)
    requires k <= |ts|
  {
    && s.stalemateTurns == QuietStreak(ts, k)
    && (k > 0 ==> s.lastTotalEnergy == EnergyTotal(s.players) && s.lastTotalBots == LivingTotal(s.bots))
    && (k == 0 ==> s.lastTotalEnergy == 0 && s.lastTotalBots == 0)
  }

  lemma {:induction false} WatchedTotals(s: State, dominance: map<nat, nat>, s': State)
    requires s' == Watched(s.(dominance := dominance))
    ensures s'.lastTotalEnergy == EnergyTotal(s'.players) && s'.lastTotalBots == LivingTotal(s'.bots)
    ensures s'.stalemateTurns == if Quiet(s) then s.stalemateTurns + 1 else 0
  {
  }

  /** Whether the match goes on or ends in stalemate, the counter follows the streak. */
  lemma {:induction false} WatchStep(c: Config, s: State, t: TurnTrace, log: seq<Event>, ts: seq<TurnTrace>, k: nat)
    requires Playable(c) && WellFormed(c, s) && TurnStep(c, s, t) && 0 < k <= |ts| && ts[k - 1] == t
    requires EnergyBooks(c, s, log) && EnergyBooks(c, t.ticked, log + t.ended.events)
    requires Watching(s, ts, k - 1) && ClosingStep(c, t.ticked, t.ended, t.verdict) && LivingTotal(t.ticked.bots) > 0
    ensures Watching(t.ended, ts, k)
  {
    TurnFrame(c, s, t);
    hide TurnStep, WellFormed, EnergyBooks;
    WatchedTotals(t.ticked, DominanceAfter(t.ticked, |t.ticked.players|), t.ended);
    hide DominanceAfter, Watched, Uneventful;
    if k > 1 {
      QuietIsUneventful(c, s, t, log);
    }
  }

  lemma {:induction false} WatchBegins(c: Config, s: State, ts: seq<TurnTrace>)
    requires Opening(c, s)
    ensures Watching(At(s, ts, 0), ts, 0)
  {
  }

  lemma {:induction false} WatchThroughout(c: Config, s: State, ts: seq<TurnTrace>, k: nat)
    requires Playable(c) && Opening(c, s) && Run(c, s, ts) && k <= |ts|
    requires k > 0 ==> ts[k - 1].verdict == Ongoing
    ensures Watching(At(s, ts, k), ts, k)
  {
    hide *;
    OpeningIsWellFormed(c, s);
    if k == 0 {
      WatchBegins(c, s, ts);
    } else {
      RunGoesOn(c, s, ts, k - 1);
      WatchThroughout(c, s, ts, k - 1);
      EndgameOf(c, s, ts, k - 1);
      var t := ts[k - 1];
      GoingOnMeansLife(c, t.ticked, t.ended);
      BooksAround(c, s, ts, k - 1);
      WatchStep(c, At(s, ts, k - 1), t, Log(ts, k - 1), ts, k);
      AtNext(s, ts, k - 1);
    }
  }

  /** The energy ledger before turn k and at its endgame check. */
  lemma {:induction false} BooksAround(c: Config, s: State, ts: seq<TurnTrace>, k: nat)
    requires Playable(c) && Opening(c, s) && Run(c, s, ts) && k < |ts|
    ensures EnergyBooks(c, At(s, ts, k), Log(ts, k)) && EnergyBooks(c, ts[k].ticked, Log(ts, k) + ts[k].ended.events)
  {
    hide TurnStep, WellFormed, ScoreBooks, EnergyBooks, Opening;
    RunKeepsBooks(c, s, ts, k);
    RunKeepsBooks(c, s, ts, k + 1);
  }

  lemma {:induction false} StalemateClosed(c: Config, s: State, s': State, v: Verdict)
    requires EndgameStep(c, s, s', v) && v.Ended? && v.result.reason == Stalemate
    ensures ClosingStep(c, s, s', v) && s'.stalemateTurns >= 50 && LivingTotal(s.bots) > 0
  {
    hide Survives, SoleSurvivorIs, Crowned, Leads, Quiet;
    if exists w :: SoleSurvivorIs(s, w) {
    } else if forall p :: !Survives(s, p) {
    } else if exists p :: Crowned(s, p) {
    } else {
      var p :| Survives(s, p);
      SurvivorsCount(s, p);
    }
  }

  lemma {:induction false} NotStaleBefore(c: Config, s: State, ts: seq<TurnTrace>, k: nat)
    requires Playable(c) && Opening(c, s) && Run(c, s, ts) && k <= |ts|
    requires k > 0 ==> ts[k - 1].verdict == Ongoing
    ensures QuietStreak(ts, k) < 50
  {
    hide *;
    if k == 0 {
      StreakBegins(ts);
    } else {
      OpeningIsWellFormed(c, s);
      RunGoesOn(c, s, ts, k - 1);
      WatchThroughout(c, s, ts, k);
      AtNext(s, ts, k - 1);
      EndgameOf(c, s, ts, k - 1);
      GoingOnMeansLife(c, ts[k - 1].ticked, ts[k - 1].ended);
      StillCounting(c, ts[k - 1].ticked, ts[k - 1].ended, ts, k);
    }
  }

  lemma {:induction false} StreakBegins(ts: seq<TurnTrace>)
    ensures QuietStreak(ts, 0) < 50
  {
  }

  lemma {:induction false} StillCounting(c: Config, s: State, s': State, ts: seq<TurnTrace>, k: nat)
    requires ClosingStep(c, s, s', Ongoing) && k <= |ts| && Watching(s', ts, k)
    ensures QuietStreak(ts, k) < 50
  {
    hide QuietStreak, Watched, DominanceAfter, Leads;
  }

  lemma {:induction false} StaleStreak(c: Config, s: State, ts: seq<TurnTrace>, k: nat)
    requires Playable(c) && Opening(c, s) && Run(c, s, ts) && k == |ts| - 1
    requires ts[k].verdict.Ended? && ts[k].verdict.result.reason == Stalemate
    ensures QuietStreak(ts, k + 1) == 50
  {
    OpeningIsWellFormed(c, s);
    RunGoesOn(c, s, ts, k);
    hide *;
    WatchThroughout(c, s, ts, k);
    NotStaleBefore(c, s, ts, k);
    EndgameOf(c, s, ts, k);
    StalemateClosed(c, ts[k].ticked, ts[k].ended, ts[k].verdict);
    BooksAround(c, s, ts, k);
    WatchStep(c, At(s, ts, k), ts[k], Log(ts, k), ts, k + 1);
    WatchedStreak(ts[k].ended, ts, k);
  }

  lemma {:induction false} WatchedStreak(s: State, ts: seq<TurnTrace>, k: nat)
    requires k < |ts| && Watching(s, ts, k + 1)
    ensures s.stalemateTurns == QuietStreak(ts, k + 1) <= QuietStreak(ts, k) + 1
  {
    hide Uneventful;
  }

  /** A stalemate verdict after k + 1 turns: in each of the last fifty nobody died, nobody was
      born and no energy was collected, and the first turn is not among them. */
  lemma {:induction false} StalemateIsEarned(c: Config, s: State, ts: seq<TurnTrace>, k: nat)
    requires Playable(c) && Opening(c, s) && Run(c, s, ts) && k == |ts| - 1
    requires ts[k].verdict.Ended? && ts[k].verdict.result.reason == Stalemate
    ensures QuietStreak(ts, k + 1) == 50 <= k
    ensures forall j :: k + 1 - 50 <= j <= k ==> Uneventful(ts[j].ended.events)
  {
    hide *;
    StaleStreak(c, s, ts, k);
    StreakLeavesFirstTurn(ts, k + 1);
    forall j | k + 1 - 50 <= j <= k
      ensures Uneventful(ts[j].ended.events)
    {
      QuietThroughout(ts, k + 1, j);
    }
  }
}

/** Runs of the match loop from an opening position, and what every run keeps. */
module Runs {
  import opened Torus
  import opened Tally
  import opened GameTypes
  import opened Rules
  import opened WellFormedSteps
  import opened Movement
  import opened Ledgers

  /** The board is real and the zone schedule, if used, has an interval. */
  predicate Playable(c: Config) {
    c.rows > 0 && c.cols > 0 && (c.zoneEnabled ==> c.zoneShrinkInterval != 0)
  }

  /** A run of the loop: each turn starts where the one before ended, and only the last
      turn can end the match. */
  ghost predicate Run(c: Config, s: State, ts: seq<TurnTrace>)
    requires Playable(c)
  {
    && (forall k {:trigger TurnStep(c, At(s, ts, k), ts[k])} :: 0 <= k < |ts| ==> TurnStep(c, At(s, ts, k), ts[k]))
    && forall k :: 0 <= k < |ts| - 1 ==> ts[k].verdict == Ongoing
  }

  /** The state after the first k turns. */
  ghost function At(s: State, ts: seq<TurnTrace>, k: nat): State
    requires k <= |ts|
  {
    if k == 0 then s else ts[k - 1].ended
  }

  /** Everything the first k turns recorded. */
  ghost function Log(ts: seq<TurnTrace>, k: nat): seq<Event>
    requires k <= |ts|
  {
    if k == 0 then [] else Log(ts, k - 1) + ts[k - 1].ended.events
  }

  lemma AtNext(s: State, ts: seq<TurnTrace>, k: nat)
    requires k < |ts|
    ensures At(s, ts, k + 1) == ts[k].ended && Log(ts, k + 1) == Log(ts, k) + ts[k].ended.events
  {
  }

  // ----- Opening positions --------------------------------------------------------

  /** Before the first turn: no energy held, one point per core, all counters at zero. */
  ghost predicate Opening(c: Config, s: State) {
    && WellFormed(c, s) && s.turn == 0 && !s.zoneActive && s.deadBots == []
    && (forall p :: 0 <= p < |s.players| ==>
          s.players[p].energy == 0 && s.players[p].score == Sum(s.cores, ActiveOf(p))
          && s.combatDeaths[p] == 0 && s.dominance[p] == 0)
    && s.stalemateTurns == 0 && s.lastTotalEnergy == 0 && s.lastTotalBots == 0
    && (forall k :: 0 <= k < |s.cores| ==> s.cores[k].lastSpawnedTurn == 0)
  }

  /** A fresh match is an opening, and setting up players, cores and bots keeps it one. */
  lemma OpeningWithPlayer(c: Config, s: State, s': State)
    requires Opening(c, s) && WellFormed(c, s')
    requires s' == s.(players := s.players + [Player(|s.players|, 0, 0, 0)],
                      dominance := s.dominance[|s.players| := 0], combatDeaths := s.combatDeaths + [0])
    ensures Opening(c, s')
  {
    SumBound(s.cores, ActiveOf(|s.players|), 0, 0);
  }

  lemma OpeningWithCore(c: Config, s: State, s': State, owner: nat, at: Position)
    requires Opening(c, s) && WellFormed(c, s') && owner < |s.players|
    requires s' == WithCore(s, owner, at)
    ensures Opening(c, s') && (OffWalls(s) ==> OffWalls(s'))
  {
    forall p
      ensures Sum(s'.cores, ActiveOf(p)) == Sum(s.cores, ActiveOf(p)) + (if p == owner then 1 else 0)
    {
      SumAppend(s.cores, Core(at, owner, true, s.nextCoreId, 0), ActiveOf(p));
    }
  }

  lemma OpeningWithBot(c: Config, s: State, s': State, owner: nat, at: Position)
    requires Opening(c, s) && owner < |s.players| && InGrid(at, c.rows, c.cols)
    requires s' == s.(bots := s.bots + [Bot(s.nextBotId, owner, at, true)], nextBotId := s.nextBotId + 1,
                      events := s.events + [BotSpawned(s.nextBotId, owner)],
                      players := s.players[owner := s.players[owner].(botCount := s.players[owner].botCount + 1)])
    ensures Opening(c, s') && (OffWalls(s) && at !in s.walls ==> OffWalls(s'))
  {
    var b := Bot(s.nextBotId, owner, at, true);
    CountOneBirth(s.players, s.bots, b);
    assert Counted(s'.players, s'.bots);
  }

  // ----- Every state of every run -------------------------------------------------

  lemma {:induction false} RunStaysWellFormed(c: Config, s: State, ts: seq<TurnTrace>, k: nat)
    requires Playable(c) && WellFormed(c, s) && Run(c, s, ts) && k <= |ts|
    ensures WellFormed(c, At(s, ts, k)) && At(s, ts, k).turn == s.turn + k
  {
    hide WellFormed, TurnStep;
    if k == 0 {
    } else {
      RunStaysWellFormed(c, s, ts, k - 1);
      assert TurnStep(c, At(s, ts, k - 1), ts[k - 1]);
      TurnStaysWellFormed(c, At(s, ts, k - 1), ts[k - 1]);
      TurnAdvances(c, At(s, ts, k - 1), ts[k - 1]);
    }
  }

  lemma {:induction false} RunKeepsOffWalls(c: Config, s: State, ts: seq<TurnTrace>, k: nat)
    requires Playable(c) && WellFormed(c, s) && OffWalls(s) && Run(c, s, ts) && k <= |ts|
    ensures OffWalls(At(s, ts, k))
  {
    hide WellFormed, TurnStep, OffWalls;
    if k == 0 {
    } else {
      RunKeepsOffWalls(c, s, ts, k - 1);
      RunStaysWellFormed(c, s, ts, k - 1);
      assert TurnStep(c, At(s, ts, k - 1), ts[k - 1]);
      TurnKeepsOffWalls(c, At(s, ts, k - 1), ts[k - 1]);
    }
  }

  /** What a turn carries over unchanged, phase by phase. */
  lemma TurnFrame(c: Config, s: State, t: TurnTrace)
    requires Playable(c) && WellFormed(c, s) && TurnStep(c, s, t)
    ensures t.ticked.dominance == s.dominance && t.ticked.stalemateTurns == s.stalemateTurns
    ensures t.ticked.lastTotalEnergy == s.lastTotalEnergy && t.ticked.lastTotalBots == s.lastTotalBots
    ensures t.fought.turn == s.turn + 1 && t.collected.turn == s.turn + 1 && t.ticked.turn == s.turn + 1
    ensures t.fought.zoneActive == t.cleared.zoneActive && t.fought.zoneRadius == t.cleared.zoneRadius
    ensures t.fought.zoneCenter == s.zoneCenter
    ensures t.ended.zoneActive == t.cleared.zoneActive && t.ended.zoneRadius == t.sheltered.zoneRadius
    ensures t.captured.nodes == s.nodes && t.spawned.nodes == t.collected.nodes && t.ended.nodes == t.ticked.nodes
    ensures t.sheltered.cores == s.cores && t.collected.cores == t.captured.cores && t.ended.cores == t.spawned.cores
    ensures t.ended.bots == t.ticked.bots && t.ended.events == t.ticked.events && t.ended.deadBots == t.ticked.deadBots
    ensures |t.ticked.players| == |s.players| && |t.ended.players| == |s.players| && |t.ended.nodes| == |s.nodes|
  {
    TurnStaysWellFormed(c, s, t);
    SpawnLeaves(c, t.collected, t.stages, t.rankings, t.spawned);
    StagesStayWellFormed(c, t.collected, t.stages, t.rankings, t.spawned, |t.collected.players|);
    EndgameFrame(c, t.ticked, t.ended, t.verdict);
    hide WellFormed, SpawnStep, MovedBots, Collides, Focused, Fallen, CombatNotices, StruckBots, OutsideTest,
      ShrunkRadius, ShelteredBots, CaptureNotices, CollectNotices, EndgameStep, InitialRadius;
  }

  lemma EndgameFrame(c: Config, s: State, s': State, v: Verdict)
    requires EndgameStep(c, s, s', v)
    ensures s' == s.(players := s'.players, dominance := s'.dominance, stalemateTurns := s'.stalemateTurns,
                     lastTotalEnergy := s'.lastTotalEnergy, lastTotalBots := s'.lastTotalBots)
    ensures |s'.players| == |s.players|
    ensures v == Ongoing ==> s'.players == s.players
  {
    hide Survives, Dominates, Crowned, Reports, Leads, Quiet, SoleSurvivorIs;
  }

  /** What the endgame check of turn k saw, and what it inherited from the turn before. */
  lemma EndgameOf(c: Config, s: State, ts: seq<TurnTrace>, k: nat)
    requires Playable(c) && WellFormed(c, s) && Run(c, s, ts) && k < |ts|
    ensures EndgameStep(c, ts[k].ticked, ts[k].ended, ts[k].verdict)
    ensures ts[k].ended.bots == ts[k].ticked.bots && ts[k].ended.events == ts[k].ticked.events
    ensures ts[k].ended.deadBots == ts[k].ticked.deadBots
    ensures ts[k].ticked.dominance == At(s, ts, k).dominance
            && ts[k].ticked.stalemateTurns == At(s, ts, k).stalemateTurns
    ensures ts[k].ticked.lastTotalEnergy == At(s, ts, k).lastTotalEnergy
    ensures ts[k].ticked.lastTotalBots == At(s, ts, k).lastTotalBots
    ensures |At(s, ts, k).players| == |ts[k].ticked.players| == |ts[k].ended.players| == |s.players|
    ensures WellFormed(c, At(s, ts, k)) && TurnStep(c, At(s, ts, k), ts[k])
  {
    RunStaysWellFormed(c, s, ts, k);
    RunSizes(c, s, ts, k);
    assert TurnStep(c, At(s, ts, k), ts[k]);
    hide WellFormed, At;
    TurnFrame(c, At(s, ts, k), ts[k]);
    hide MoveStep, CombatStep, ZoneStep, CaptureStep, CollectStep, SpawnStep, TickStep, EndgameStep;
  }

  // ----- Ledgers over runs --------------------------------------------------------

  lemma OpeningBalances(c: Config, s: State)
    requires Opening(c, s)
    ensures Books(c, s, [])
  {
  }

  /** While a match goes on, after any number of turns, both ledgers balance against the log;
      in the last turn they balance up to the elimination bonus. */
  lemma {:induction false} RunKeepsBooks(c: Config, s: State, ts: seq<TurnTrace>, k: nat)
    requires Playable(c) && Opening(c, s) && Run(c, s, ts) && k <= |ts|
    ensures k < |ts| || k == 0 || ts[k - 1].verdict == Ongoing ==> Books(c, At(s, ts, k), Log(ts, k))
    ensures k > 0 ==> Books(c, ts[k - 1].ticked, Log(ts, k))
  {
    hide WellFormed, TurnStep, Books;
    if k == 0 {
      OpeningBalances(c, s);
    } else {
      RunKeepsBooks(c, s, ts, k - 1);
      OpeningIsWellFormed(c, s);
      RunStaysWellFormed(c, s, ts, k - 1);
      var s0, t := At(s, ts, k - 1), ts[k - 1];
      assert TurnStep(c, s0, t);
      TurnKeepsBooks(c, s0, t, Log(ts, k - 1));
      TurnFrame(c, s0, t);
      if t.verdict == Ongoing {
        OngoingKeepsBooks(c, s0, t, Log(ts, k));
      }
    }
  }

  lemma OpeningIsWellFormed(c: Config, s: State)
    requires Opening(c, s)
    ensures WellFormed(c, s)
  {
  }

  lemma OngoingKeepsBooks(c: Config, s: State, t: TurnTrace, log: seq<Event>)
    requires Playable(c) && TurnStep(c, s, t) && t.verdict == Ongoing && Books(c, t.ticked, log)
    ensures Books(c, t.ended, log)
  {
    hide MoveStep, CombatStep, ZoneStep, CaptureStep, CollectStep, SpawnStep, EndgameStep;
    EndgameFrame(c, t.ticked, t.ended, t.verdict);
  }

  /** The final scores: the ledger, plus two per surviving enemy core for a sole survivor. */
  lemma FinalScores(c: Config, s: State, ts: seq<TurnTrace>, p: nat)
    requires Playable(c) && Opening(c, s) && Run(c, s, ts) && ts != [] && p < |s.players|
    requires var v := ts[|ts| - 1].verdict; v.Ended?
    ensures var r, last := ts[|ts| - 1].verdict.result, ts[|ts| - 1].ended;
            |r.scores| == |s.players| && |r.combatDeaths| == |s.players|
            && r.scores[p] == Sum(last.cores, ActiveOf(p)) + 2 * Sum(Log(ts, |ts|), CapturedBy(p))
                              + c.killScore * Sum(Log(ts, |ts|), CreditTo(p))
                              + (if r.reason == Elimination && r.winner == p then 2 * Sum(last.cores, EnemyCoreOf(p))
                                 else 0)
  {
    var k := |ts| - 1;
    OpeningIsWellFormed(c, s);
    hide *;
    RunKeepsBooks(c, s, ts, k + 1);
    EndgameOf(c, s, ts, k);
    ScoresAtTheEnd(c, At(s, ts, k), ts[k], Log(ts, k + 1), p);
  }

  lemma {:induction false} RunSizes(c: Config, s: State, ts: seq<TurnTrace>, k: nat)
    requires Playable(c) && WellFormed(c, s) && Run(c, s, ts) && k <= |ts|
    ensures |At(s, ts, k).players| == |s.players| && |At(s, ts, k).nodes| == |s.nodes|
            && |At(s, ts, k).cores| == |s.cores|
    ensures At(s, ts, k).zoneCenter == s.zoneCenter
  {
    hide WellFormed, TurnStep;
    if k == 0 {
    } else {
      RunSizes(c, s, ts, k - 1);
      RunStaysWellFormed(c, s, ts, k - 1);
      assert TurnStep(c, At(s, ts, k - 1), ts[k - 1]);
      TurnSizes(c, At(s, ts, k - 1), ts[k - 1]);
    }
  }

  lemma TurnSizes(c: Config, s: State, t: TurnTrace)
    requires Playable(c) && WellFormed(c, s) && TurnStep(c, s, t)
    ensures |t.ended.players| == |s.players| && |t.ended.nodes| == |s.nodes| && |t.ended.cores| == |s.cores|
    ensures t.ended.zoneCenter == s.zoneCenter
  {
    TurnFrame(c, s, t);
    TurnStaysWellFormed(c, s, t);
    StagesStayWellFormed(c, t.collected, t.stages, t.rankings, t.spawned, |t.collected.players|);
    SpawnLeaves(c, t.collected, t.stages, t.rankings, t.spawned);
    EndgameFrame(c, t.ticked, t.ended, t.verdict);
    hide WellFormed, SpawnStep, MovedBots, Collides, Focused, Fallen, CombatNotices, StruckBots, OutsideTest,
      ShrunkRadius, ShelteredBots, CaptureNotices, CollectNotices, EndgameStep, InitialRadius;
  }

  lemma {:induction false} ScoresAtTheEnd(c: Config, s: State, t: TurnTrace, log: seq<Event>, p: nat)
    requires Playable(c) && TurnStep(c, s, t) && t.verdict.Ended? && Books(c, t.ticked, log) && p < |t.ticked.players|
    ensures var r := t.verdict.result;
            |r.scores| == |t.ticked.players| && |r.combatDeaths| == |t.ticked.players|
            && r.scores[p] == Sum(t.ended.cores, ActiveOf(p)) + 2 * Sum(log, CapturedBy(p))
                              + c.killScore * Sum(log, CreditTo(p))
                              + (if r.reason == Elimination && r.winner == p then 2 * Sum(t.ended.cores, EnemyCoreOf(p))
                                 else 0)
  {
    hide MoveStep, CombatStep, ZoneStep, CaptureStep, CollectStep, SpawnStep, TickStep, EndgameStep, EnergyBooks;
    ResultScores(c, t.ticked, t.ended, t.verdict, p);
  }

  lemma ResultScores(c: Config, s: State, s': State, v: Verdict, p: nat)
    requires EndgameStep(c, s, s', v) && v.Ended? && p < |s.players|
    ensures |v.result.scores| == |s.players| && v.result.combatDeaths == s.combatDeaths && s'.cores == s.cores
    ensures v.result.scores[p] == s.players[p].score
              + (if v.result.reason == Elimination && v.result.winner == p then 2 * Sum(s.cores, EnemyCoreOf(p)) else 0)
  {
    hide Survives, SoleSurvivorIs, Crowned, EliminationStep, DominanceStep, ClosingStep, Reports;
    if exists w :: SoleSurvivorIs(s, w) {
      var w :| EliminationStep(s, w, s', v);
      EliminationScores(s, w, s', v, p);
    } else if forall q :: !Survives(s, q) {
      ReportedScores(s', v.result, -1, Draw, p);
    } else if exists q :: Crowned(s, q) {
      var q :| DominanceStep(s, q, s', v);
      DominanceScores(s, q, s', v, p);
    } else {
      ClosingScores(c, s, s', v, p);
    }
  }

  lemma ReportedScores(s: State, r: MatchResult, winner: int, reason: Reason, p: nat)
    requires Reports(s, r, winner, reason) && p < |s.players|
    ensures |r.scores| == |s.players| && r.combatDeaths == s.combatDeaths && r.scores[p] == s.players[p].score
    ensures r.winner == winner && r.reason == reason
  {
  }

  lemma EliminationScores(s: State, w: int, s': State, v: Verdict, p: nat)
    requires EliminationStep(s, w, s', v) && p < |s.players|
    ensures v.Ended? && |v.result.scores| == |s.players| && v.result.combatDeaths == s.combatDeaths
            && s'.cores == s.cores
    ensures v.result.winner == w && v.result.reason == Elimination
    ensures v.result.scores[p] == s.players[p].score + (if w == p then 2 * Sum(s.cores, EnemyCoreOf(p)) else 0)
  {
    hide Reports, SoleSurvivorIs;
    ReportedScores(s', v.result, w, Elimination, p);
  }

  lemma DominanceScores(s: State, q: int, s': State, v: Verdict, p: nat)
    requires DominanceStep(s, q, s', v) && p < |s.players|
    ensures v.Ended? && |v.result.scores| == |s.players| && v.result.combatDeaths == s.combatDeaths
            && s'.cores == s.cores
    ensures v.result.reason == Dominance && v.result.scores[p] == s.players[p].score
  {
    hide Reports, Crowned, DominanceAfter;
    ReportedScores(s', v.result, q, Dominance, p);
  }

  lemma ClosingScores(c: Config, s: State, s': State, v: Verdict, p: nat)
    requires ClosingStep(c, s, s', v) && v.Ended? && p < |s.players|
    ensures |v.result.scores| == |s.players| && v.result.combatDeaths == s.combatDeaths && s'.cores == s.cores
    ensures v.result.reason != Elimination && v.result.scores[p] == s.players[p].score
  {
    hide Reports, Leads, Quiet, DominanceAfter;
    if s'.stalemateTurns >= STALEMATE_TURNS {
      ReportedScores(s', v.result, v.result.winner, Stalemate, p);
    } else {
      ReportedScores(s', v.result, v.result.winner, Turns, p);
    }
  }
}

/** The total score is conserved: over all players it is the number of cores, plus one per core
    razed, plus KillScore per combat credit, whatever happened on the way. */
module Conservation {
  import opened Tally
  import opened GameTypes
  import opened Rules
  import opened WellFormedSteps
  import opened Ledgers
  import opened Runs

  /** What captures can only move between players: score and standing cores, combat pay aside. */
  ghost function Stake(c: Config, s: State, p: nat): int
    requires p < |s.players| == |s.combatDeaths|
  {
    s.players[p].score + Sum(s.cores, ActiveOf(p)) - c.killScore * s.combatDeaths[p]
  }

  ghost function Stakes(c: Config, s: State, n: nat): int
    requires n <= |s.players| == |s.combatDeaths|
  {
    if n == 0 then 0 else Stakes(c, s, n - 1) + Stake(c, s, n - 1)
  }

  lemma {:induction false} StakesAgree(c: Config, s: State, s': State, n: nat)
    requires n <= |s.players| == |s.combatDeaths| == |s'.players| == |s'.combatDeaths|
    requires forall p: nat :: p < n ==> Stake(c, s', p) == Stake(c, s, p)
    ensures Stakes(c, s', n) == Stakes(c, s, n)
  {
    hide Stake;
    if n == 0 {
    } else {
      StakesAgree(c, s, s', n - 1);
    }
  }

  // ----- Phases that leave the stakes alone ---------------------------------------

  ghost predicate SameStakes(s: State, s': State) {
    && |s.players| == |s.combatDeaths| && |s'.players| == |s.players| && s'.combatDeaths == s.combatDeaths
    && (forall p :: 0 <= p < |s.players| ==> s'.players[p].score == s.players[p].score)
    && |s'.cores| == |s.cores|
    && forall k :: 0 <= k < |s.cores| ==>
         s'.cores[k].active == s.cores[k].active && s'.cores[k].owner == s.cores[k].owner
  }

  lemma {:induction false} SameStakesAgree(c: Config, s: State, s': State)
    requires SameStakes(s, s')
    ensures Stakes(c, s', |s.players|) == Stakes(c, s, |s.players|)
  {
    forall p: nat | p < |s.players|
      ensures Stake(c, s', p) == Stake(c, s, p)
    {
      SumShift(s'.cores, s.cores, ActiveOf(p), ActiveOf(p));
    }
    StakesAgree(c, s, s', |s.players|);
  }

  lemma SameStakesCompose(s: State, s1: State, s2: State)
    requires SameStakes(s, s1) && SameStakes(s1, s2)
    ensures SameStakes(s, s2)
  {
  }

  lemma OpeningKeepsStakes(c: Config, s: State, t: TurnTrace)
    requires WellFormed(c, s) && t.cleared == Cleared(c, s, t.inactive)
    requires t.ordered == AfterOrders(t.cleared, t.orders) && t.begun == t.ordered.(turn := t.ordered.turn + 1)
    ensures SameStakes(s, t.begun)
  {
    hide InitialRadius;
  }

  lemma MoveKeepsStakes(c: Config, s: State, s': State)
    requires WellFormed(c, s) && MoveStep(c, s, s')
    ensures SameStakes(s, s')
  {
    hide MovedBots, Collides;
  }

  lemma ZoneKeepsStakes(c: Config, s: State, s': State)
    requires WellFormed(c, s) && (c.zoneEnabled ==> c.zoneShrinkInterval != 0) && ZoneStep(c, s, s')
    ensures SameStakes(s, s')
  {
    hide ShrunkRadius, ShelteredBots, OutsideTest;
  }

  lemma CollectKeepsStakes(c: Config, s: State, s': State)
    requires WellFormed(c, s) && CollectStep(c, s, s')
    ensures SameStakes(s, s')
  {
    hide CollectNotices, HarvestedNodes;
  }

  lemma PlayerKeepsStakes(c: Config, s: State, p: nat, ids: seq<nat>, s': State)
    requires |s.players| == |s.combatDeaths| && p < |s.players| && PlayerSpawns(c, s, p, ids, s')
    ensures SameStakes(s, s')
  {
    hide Eligible, Before;
    if s.players[p].energy >= c.spawnCost {
      SpawnAllCosts(c, s, p, ids[..Affordable(s.players[p].energy, c.spawnCost, |ids|)]);
    }
    hide SpawnAll;
  }

  lemma {:induction false} StageKeepsStakes(c: Config, s: State, stages: seq<State>, rankings: seq<seq<nat>>, s': State,
                                            p: nat)
    requires WellFormed(c, s) && SpawnStep(c, s, stages, rankings, s') && p < |stages|
    ensures SameStakes(s, stages[p])
  {
    hide WellFormed, PlayerSpawns, SameStakes;
    if p > 0 {
      StageKeepsStakes(c, s, stages, rankings, s', p - 1);
      StakesFit(s, stages[p - 1]);
      PlayerKeepsStakes(c, stages[p - 1], p - 1, rankings[p - 1], stages[p]);
      SameStakesCompose(s, stages[p - 1], stages[p]);
    } else {
      SameAsItself(c, s);
    }
  }

  lemma StakesFit(s: State, s': State)
    requires SameStakes(s, s')
    ensures |s'.players| == |s'.combatDeaths| == |s.players|
  {
  }

  lemma SameAsItself(c: Config, s: State)
    requires WellFormed(c, s)
    ensures SameStakes(s, s)
  {
  }

  // ----- Combat pays, captures transfer -------------------------------------------

  lemma {:induction false} CombatKeepsStakes(c: Config, s: State, s': State)
    requires WellFormed(c, s) && CombatStep(c, s, s')
    ensures |s'.players| == |s'.combatDeaths| == |s.players|
    ensures Stakes(c, s', |s.players|) == Stakes(c, s, |s.players|)
  {
    BoardIsReal(c, s);
    CreditsFit(c, s);
    hide CombatNotices, StruckBots, Fallen, WellFormed;
    var notices := CombatNotices(c, s.bots, |s.bots|);
    forall p: nat | p < |s.players|
      ensures Stake(c, s', p) == Stake(c, s, p)
    {
      Distribute(c.killScore, s.combatDeaths[p], Sum(notices, CreditTo(p)));
    }
    StakesAgree(c, s, s', |s.players|);
  }

  lemma CreditsFit(c: Config, s: State)
    requires WellFormed(c, s)
    ensures |s.combatDeaths| == |s.players|
  {
  }

  /** What a list of captures moves between the first n players. */
  ghost function Flows(notices: seq<Event>, n: nat): int {
    if n == 0 then 0 else Flows(notices, n - 1) + 2 * Sum(notices, CapturedBy(n - 1)) - 2 * Sum(notices, LostBy(n - 1))
  }

  lemma {:induction false} FlowsAppend(notices: seq<Event>, e: Event, n: nat)
    requires e.CoreCaptured?
    ensures Flows(notices + [e], n)
            == Flows(notices, n) + (if e.newOwner < n then 2 else 0) - (if e.oldOwner < n then 2 else 0)
  {
    if n == 0 {
    } else {
      FlowsAppend(notices, e, n - 1);
      SumAppend(notices, e, CapturedBy(n - 1));
      SumAppend(notices, e, LostBy(n - 1));
    }
  }

  /** Every capture has a taker and a loser, so between them nothing is gained. */
  lemma {:induction false} FlowsCancel(notices: seq<Event>, n: nat)
    requires forall k :: 0 <= k < |notices| ==>
             notices[k].CoreCaptured? && notices[k].newOwner < n && notices[k].oldOwner < n
    ensures Flows(notices, n) == 0
  {
    if notices == [] {
      NoFlows(n);
    } else {
      var init := notices[..|notices| - 1];
      FlowsCancel(init, n);
      FlowsAppend(init, notices[|notices| - 1], n);
      assert init + [notices[|notices| - 1]] == notices;
    }
  }

  lemma {:induction false} NoFlows(n: nat)
    ensures Flows([], n) == 0
  {
    if n == 0 {
    } else {
      NoFlows(n - 1);
    }
  }

  lemma {:induction false} StakesFlow(c: Config, s: State, s': State, notices: seq<Event>, n: nat)
    requires n <= |s.players| == |s.combatDeaths| == |s'.players| == |s'.combatDeaths|
    requires forall p: nat :: p < n ==>
               Stake(c, s', p) == Stake(c, s, p) + 2 * Sum(notices, CapturedBy(p)) - 2 * Sum(notices, LostBy(p))
    ensures Stakes(c, s', n) == Stakes(c, s, n) + Flows(notices, n)
  {
    hide Stake;
    if n == 0 {
    } else {
      StakesFlow(c, s, s', notices, n - 1);
    }
  }

  lemma CapturersArePlayers(c: Config, s: State, s': State)
    requires WellFormed(c, s) && CaptureStep(s, s')
    ensures forall k :: |s.events| <= k < |s'.events| ==>
              s'.events[k].CoreCaptured? && s'.events[k].newOwner < |s.players| && s'.events[k].oldOwner < |s.players|
  {
    hide Settled, RazedCores;
    var notices := s'.events[|s.events|..];
    forall k | 0 <= k < |notices|
      ensures notices[k].CoreCaptured? && notices[k].newOwner < |s.players| && notices[k].oldOwner < |s.players|
    {
      var i :| RazedBy(s, notices[k].core, i) && s.bots[i].owner == notices[k].newOwner;
    }
    forall k | |s.events| <= k < |s'.events|
      ensures s'.events[k] == notices[k - |s.events|]
    {
    }
  }

  lemma {:induction false} CaptureKeepsStakes(c: Config, s: State, s': State)
    requires WellFormed(c, s) && CaptureStep(s, s')
    ensures |s'.players| == |s'.combatDeaths| == |s.players|
    ensures Stakes(c, s', |s.players|) == Stakes(c, s, |s.players|)
  {
    CapturersArePlayers(c, s, s');
    CaptureRazesExactly(s, s');
    CreditsFit(c, s);
    hide CaptureNotices, RazedCores, WellFormed;
    var notices := s'.events[|s.events|..];
    FlowsCancel(notices, |s.players|);
    forall p: nat | p < |s.players|
      ensures Stake(c, s', p) == Stake(c, s, p) + 2 * Sum(notices, CapturedBy(p)) - 2 * Sum(notices, LostBy(p))
    {
      LossesAreCores(s.cores, s'.cores, notices, p);
    }
    StakesFlow(c, s, s', notices, |s.players|);
  }

  // ----- Turns and runs -----------------------------------------------------------

  lemma {:induction false} TurnConserves(c: Config, s: State, t: TurnTrace)
    requires Playable(c) && WellFormed(c, s) && TurnStep(c, s, t)
    ensures |t.ticked.players| == |t.ticked.combatDeaths| == |s.players| == |s.combatDeaths|
    ensures Stakes(c, t.ticked, |s.players|) == Stakes(c, s, |s.players|)
  {
    hide WellFormed, MoveStep, CombatStep, ZoneStep, CaptureStep, CollectStep, SpawnStep, TickStep, EndgameStep;
    hide SameStakes, Cleared, AfterOrders, Stakes;
    TurnStaysWellFormed(c, s, t);
    CreditsFit(c, s);
    EarlyStakes(c, s, t);
    CombatKeepsStakes(c, t.moved, t.fought);
    ZoneKeepsStakes(c, t.fought, t.sheltered);
    StakesFit(t.fought, t.sheltered);
    SameStakesAgree(c, t.fought, t.sheltered);
    CaptureKeepsStakes(c, t.sheltered, t.captured);
    LateStakes(c, t);
    StakesFit(t.captured, t.ticked);
    SameStakesAgree(c, t.captured, t.ticked);
  }

  lemma {:induction false} EarlyStakes(c: Config, s: State, t: TurnTrace)
    requires Playable(c) && WellFormed(c, s) && TurnStep(c, s, t) && |s.players| == |s.combatDeaths|
    ensures |t.moved.players| == |t.moved.combatDeaths| == |s.players|
    ensures Stakes(c, t.moved, |s.players|) == Stakes(c, s, |s.players|)
  {
    hide WellFormed, MoveStep, CombatStep, ZoneStep, CaptureStep, CollectStep, SpawnStep, TickStep, EndgameStep;
    hide SameStakes, Cleared, AfterOrders, Stakes;
    TurnStaysWellFormed(c, s, t);
    OpeningKeepsStakes(c, s, t);
    MoveKeepsStakes(c, t.begun, t.moved);
    SameStakesCompose(s, t.begun, t.moved);
    StakesFit(s, t.moved);
    SameStakesAgree(c, s, t.moved);
  }

  lemma LateStakes(c: Config, t: TurnTrace)
    requires Playable(c) && AllWellFormed(c, t) && CollectStep(c, t.captured, t.collected)
    requires SpawnStep(c, t.collected, t.stages, t.rankings, t.spawned) && TickStep(c, t.spawned, t.ticked)
    ensures SameStakes(t.captured, t.ticked)
  {
    hide WellFormed, CollectStep, PlayerSpawns, SameStakes;
    CollectKeepsStakes(c, t.captured, t.collected);
    StageKeepsStakes(c, t.collected, t.stages, t.rankings, t.spawned, |t.collected.players|);
    SameStakesCompose(t.captured, t.collected, t.spawned);
    TickKeepsStakes(c, t.captured, t.spawned, t.ticked);
  }

  lemma TickKeepsStakes(c: Config, s: State, s1: State, s2: State)
    requires SameStakes(s, s1) && TickStep(c, s1, s2)
    ensures SameStakes(s, s2)
  {
  }

  lemma EndgameKeepsStakes(c: Config, s: State, s': State)
    requires |s.players| == |s.combatDeaths| && EndgameStep(c, s, s', Ongoing)
    ensures SameStakes(s, s')
  {
    hide EndgameStep;
    EndgameFrame(c, s, s', Ongoing);
  }

  /** While the match goes on the stakes are those of the opening; also at the last endgame check. */
  lemma {:induction false} RunConserves(c: Config, s: State, ts: seq<TurnTrace>, k: nat)
    requires Playable(c) && WellFormed(c, s) && Run(c, s, ts) && k < |ts|
    ensures |ts[k].ticked.players| == |ts[k].ticked.combatDeaths| == |s.players| == |s.combatDeaths|
    ensures Stakes(c, ts[k].ticked, |s.players|) == Stakes(c, s, |s.players|)
  {
    hide WellFormed, TurnStep, EndgameStep, Stakes, SameStakes;
    EndgameOf(c, s, ts, k);
    TurnConserves(c, At(s, ts, k), ts[k]);
    if k == 0 {
    } else {
      RunConserves(c, s, ts, k - 1);
      EndgameOf(c, s, ts, k - 1);
      EndgameKeepsStakes(c, ts[k - 1].ticked, ts[k - 1].ended);
      SameStakesAgree(c, ts[k - 1].ticked, ts[k - 1].ended);
    }
  }

  // ----- The total ----------------------------------------------------------------

  ghost function ScoreOf(): Player -> int {
    (p: Player) => p.score
  }

  ghost function Itself(): nat -> int {
    (n: nat) => n
  }

  ghost function ActiveBelow(n: int): Core -> int {
    (k: Core) => if k.active && k.owner < n then 1 else 0
  }

  ghost function IsRazed(): Core -> int {
    (k: Core) => if k.active then 0 else 1
  }

  lemma {:induction false} OneMoreOwner(cores: seq<Core>, n: nat)
    ensures Sum(cores, ActiveBelow(n + 1)) == Sum(cores, ActiveBelow(n)) + Sum(cores, ActiveOf(n))
  {
    if cores == [] {
    } else {
      OneMoreOwner(cores[..|cores| - 1], n);
    }
  }

  lemma {:induction false} NoOwners(cores: seq<Core>)
    ensures Sum(cores, ActiveBelow(0)) == 0
  {
    if cores == [] {
    } else {
      NoOwners(cores[..|cores| - 1]);
    }
  }

  lemma {:induction false} StakesAddUp(c: Config, s: State, n: nat)
    requires n <= |s.players| == |s.combatDeaths|
    ensures Stakes(c, s, n) == Sum(s.players[..n], ScoreOf())
            + Sum(s.cores, ActiveBelow(n)) - c.killScore * Sum(s.combatDeaths[..n], Itself())
  {
    if n == 0 {
      NoOwners(s.cores);
    } else {
      StakesAddUp(c, s, n - 1);
      OneMoreOwner(s.cores, n - 1);
      SumAppend(s.players[..n - 1], s.players[n - 1], ScoreOf());
      SumAppend(s.combatDeaths[..n - 1], s.combatDeaths[n - 1], Itself());
      assert s.players[..n] == s.players[..n - 1] + [s.players[n - 1]];
      assert s.combatDeaths[..n] == s.combatDeaths[..n - 1] + [s.combatDeaths[n - 1]];
      Distribute(c.killScore, Sum(s.combatDeaths[..n - 1], Itself()), s.combatDeaths[n - 1]);
    }
  }

  lemma {:induction false} CoresStandOrFell(cores: seq<Core>, n: nat)
    requires forall k :: 0 <= k < |cores| ==> cores[k].owner < n
    ensures Sum(cores, ActiveBelow(n)) == |cores| - Sum(cores, IsRazed())
  {
    if cores == [] {
    } else {
      CoresStandOrFell(cores[..|cores| - 1], n);
    }
  }

  lemma {:induction false} TotalOf(c: Config, s: State)
    requires WellFormed(c, s)
    ensures |s.players| == |s.combatDeaths|
    ensures Stakes(c, s, |s.players|)
            == Sum(s.players, ScoreOf()) + |s.cores| - Sum(s.cores, IsRazed())
               - c.killScore * Sum(s.combatDeaths, Itself())
  {
    StakesAddUp(c, s, |s.players|);
    CoresStandOrFell(s.cores, |s.players|);
    assert s.players[..|s.players|] == s.players && s.combatDeaths[..|s.combatDeaths|] == s.combatDeaths;
  }

  lemma {:induction false} NoneRazed(cores: seq<Core>)
    requires forall k :: 0 <= k < |cores| ==> cores[k].active
    ensures Sum(cores, IsRazed()) == 0
  {
    SumBound(cores, IsRazed(), 0, 0);
  }

  /** From an opening with all its cores standing, after every turn, before any elimination bonus. */
  lemma {:induction false} TotalScoreIsAccounted(c: Config, s: State, ts: seq<TurnTrace>, k: nat)
    requires Playable(c) && Opening(c, s) && Run(c, s, ts) && k < |ts|
    requires forall m :: 0 <= m < |s.cores| ==> s.cores[m].active
    ensures var r := ts[k].ticked;
            |r.cores| == |s.cores| && Sum(r.players, ScoreOf())
              == |r.cores| + Sum(r.cores, IsRazed()) + c.killScore * Sum(r.combatDeaths, Itself())
  {
    OpeningIsWellFormed(c, s);
    OpeningTotal(c, s);
    NoneRazed(s.cores);
    hide *;
    RunConserves(c, s, ts, k);
    TotalOf(c, s);
    TickedIsWellFormed(c, s, ts, k);
    TotalOf(c, ts[k].ticked);
  }

  lemma TickedIsWellFormed(c: Config, s: State, ts: seq<TurnTrace>, k: nat)
    requires Playable(c) && WellFormed(c, s) && Run(c, s, ts) && k < |ts|
    ensures WellFormed(c, ts[k].ticked) && |ts[k].ticked.cores| == |s.cores|
  {
    EndgameOf(c, s, ts, k);
    hide WellFormed, TurnStep, EndgameStep;
    TurnStaysWellFormed(c, At(s, ts, k), ts[k]);
    RunSizes(c, s, ts, k);
    RunSizes(c, s, ts, k + 1);
    EndgameFrame(c, ts[k].ticked, ts[k].ended, ts[k].verdict);
  }

  /** At the opening every point is a standing core. */
  lemma OpeningTotal(c: Config, s: State)
    requires Opening(c, s)
    ensures Sum(s.players, ScoreOf()) == |s.cores| - Sum(s.cores, IsRazed()) && Sum(s.combatDeaths, Itself()) == 0
  {
    SumBound(s.combatDeaths, Itself(), 0, 0);
    OpeningPoints(s, |s.players|);
    CoresStandOrFell(s.cores, |s.players|);
    assert s.players[..|s.players|] == s.players;
  }

  lemma {:induction false} OpeningPoints(s: State, n: nat)
    requires n <= |s.players| && forall p :: 0 <= p < |s.players| ==> s.players[p].score == Sum(s.cores, ActiveOf(p))
    ensures Sum(s.players[..n], ScoreOf()) == Sum(s.cores, ActiveBelow(n))
  {
    if n == 0 {
      NoOwners(s.cores);
    } else {
      OpeningPoints(s, n - 1);
      OneMoreOwner(s.cores, n - 1);
      SumAppend(s.players[..n - 1], s.players[n - 1], ScoreOf());
      assert s.players[..n] == s.players[..n - 1] + [s.players[n - 1]];
    }
  }
}

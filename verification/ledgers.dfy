/** Score and energy ledgers: every point and every unit of energy is accounted for by the
    events recorded since the match began. */
module Ledgers {
  import opened Tally
  import opened GameTypes
  import opened Rules
  import opened CollectLoop
  import opened WellFormedSteps

  ghost function ActiveOf(p: int): Core -> int {
    (k: Core) => if k.active && k.owner == p then 1 else 0
  }

  ghost function SpawnedBy(p: int): Event -> int {
    (e: Event) => if e.BotSpawned? && e.owner == p then 1 else 0
  }

  /** Score is the player's active cores, two per capture and KillScore per combat credit;
      credits are the player's bots named in death notices, once each per notice. */
  ghost predicate ScoreBooks(c: Config, s: State, log: seq<Event>) {
    && |s.combatDeaths| == |s.players|
    && forall p :: 0 <= p < |s.players| ==>
         && s.combatDeaths[p] == Sum(log, CreditTo(p))
         && s.players[p].score
            == Sum(s.cores, ActiveOf(p)) + 2 * Sum(log, CapturedBy(p)) + c.killScore * s.combatDeaths[p]
  }

  /** Energy is what was collected less the price of the spawns, and never negative. */
  ghost predicate EnergyBooks(c: Config, s: State, log: seq<Event>) {
    forall p :: 0 <= p < |s.players| ==>
      && s.players[p].energy >= 0
      && s.players[p].energy == Sum(log, CollectedBy(p)) - c.spawnCost * Sum(log, SpawnedBy(p))
  }

  // ----- Events that concern nobody's books ---------------------------------------

  lemma {:induction false} Idle(events: seq<Event>, w: Event -> int)
    requires forall k :: 0 <= k < |events| ==> w(events[k]) == 0
    ensures Sum(events, w) == 0
  {
    SumBound(events, w, 0, 0);
  }

  /** Appending events that neither capture nor credit. */
  lemma {:induction false} ScoreIdle(log: seq<Event>, extra: seq<Event>, p: int)
    requires forall k :: 0 <= k < |extra| ==> !extra[k].CoreCaptured? && !extra[k].CombatDeath?
    ensures Sum(log + extra, CreditTo(p)) == Sum(log, CreditTo(p))
    ensures Sum(log + extra, CapturedBy(p)) == Sum(log, CapturedBy(p))
  {
    Idle(extra, CreditTo(p));
    Idle(extra, CapturedBy(p));
    SumConcat(log, extra, CreditTo(p));
    SumConcat(log, extra, CapturedBy(p));
  }

  /** Appending events that neither collect nor spawn. */
  lemma {:induction false} EnergyIdle(log: seq<Event>, extra: seq<Event>, p: int)
    requires forall k :: 0 <= k < |extra| ==> !extra[k].EnergyCollected? && !extra[k].BotSpawned?
    ensures Sum(log + extra, CollectedBy(p)) == Sum(log, CollectedBy(p))
    ensures Sum(log + extra, SpawnedBy(p)) == Sum(log, SpawnedBy(p))
  {
    Idle(extra, CollectedBy(p));
    Idle(extra, SpawnedBy(p));
    SumConcat(log, extra, CollectedBy(p));
    SumConcat(log, extra, SpawnedBy(p));
  }

  /** A step that leaves scores, credits and core ownership alone keeps the score books. */
  lemma ScoreUntouched(c: Config, s: State, s': State, log: seq<Event>, extra: seq<Event>)
    requires ScoreBooks(c, s, log) && |s'.players| == |s.players| && s'.combatDeaths == s.combatDeaths
    requires forall p :: 0 <= p < |s.players| ==> s'.players[p].score == s.players[p].score
    requires |s'.cores| == |s.cores|
    requires forall k :: 0 <= k < |s.cores| ==>
             s'.cores[k].active == s.cores[k].active && s'.cores[k].owner == s.cores[k].owner
    requires forall k :: 0 <= k < |extra| ==> !extra[k].CoreCaptured? && !extra[k].CombatDeath?
    ensures ScoreBooks(c, s', log + extra)
  {
    forall p | 0 <= p < |s.players|
      ensures Sum(log + extra, CreditTo(p)) == Sum(log, CreditTo(p))
      ensures Sum(log + extra, CapturedBy(p)) == Sum(log, CapturedBy(p))
      ensures Sum(s'.cores, ActiveOf(p)) == Sum(s.cores, ActiveOf(p))
    {
      ScoreIdle(log, extra, p);
      SumShift(s'.cores, s.cores, ActiveOf(p), ActiveOf(p));
    }
  }

  lemma EnergyUntouched(c: Config, s: State, s': State, log: seq<Event>, extra: seq<Event>)
    requires EnergyBooks(c, s, log) && |s'.players| == |s.players|
    requires forall p :: 0 <= p < |s.players| ==> s'.players[p].energy == s.players[p].energy
    requires forall k :: 0 <= k < |extra| ==> !extra[k].EnergyCollected? && !extra[k].BotSpawned?
    ensures EnergyBooks(c, s', log + extra)
  {
    forall p | 0 <= p < |s.players|
      ensures Sum(log + extra, CollectedBy(p)) == Sum(log, CollectedBy(p))
      ensures Sum(log + extra, SpawnedBy(p)) == Sum(log, SpawnedBy(p))
    {
      EnergyIdle(log, extra, p);
    }
  }

  // ----- Combat credits -----------------------------------------------------------

  lemma {:induction false} CombatKeepsScoreBooks(c: Config, s: State, s': State, log: seq<Event>)
    requires c.rows > 0 && c.cols > 0 && ScoreBooks(c, s, log) && CombatStep(c, s, s')
    ensures ScoreBooks(c, s', log + CombatNotices(c, s.bots, |s.bots|))
  {
    hide Focused, Fallen, CombatNotices, StruckBots;
    var extra := CombatNotices(c, s.bots, |s.bots|);
    forall p | 0 <= p < |s.players|
      ensures Sum(log + extra, CreditTo(p)) == Sum(log, CreditTo(p)) + Sum(extra, CreditTo(p))
      ensures Sum(log + extra, CapturedBy(p)) == Sum(log, CapturedBy(p))
      ensures c.killScore * (s.combatDeaths[p] + Sum(extra, CreditTo(p)))
              == c.killScore * s.combatDeaths[p] + c.killScore * Sum(extra, CreditTo(p))
    {
      SumConcat(log, extra, CreditTo(p));
      SumConcat(log, extra, CapturedBy(p));
      CombatNoticesAre(c, s.bots, |s.bots|);
      Idle(extra, CapturedBy(p));
      Distribute(c.killScore, s.combatDeaths[p], Sum(extra, CreditTo(p)));
    }
  }

  lemma {:induction false} CombatNoticesAre(c: Config, bots: seq<Bot>, n: nat)
    requires c.rows > 0 && c.cols > 0
    ensures forall k :: 0 <= k < |CombatNotices(c, bots, n)| ==> CombatNotices(c, bots, n)[k].CombatDeath?
  {
    hide Focused, Killers;
    if n == 0 {
    } else {
      CombatNoticesAre(c, bots, n - 1);
    }
  }

  // ----- Captures -----------------------------------------------------------------

  /** Cores razed one notice at a time. */
  ghost predicate RazedExactly(before: seq<Core>, after: seq<Core>, notices: seq<Event>) {
    && |after| == |before|
    && (forall n :: 0 <= n < |notices| ==>
          && notices[n].CoreCaptured? && notices[n].core < |before| && before[notices[n].core].active
          && notices[n].oldOwner == before[notices[n].core].owner)
    && (forall m, n :: 0 <= m < n < |notices| ==> notices[m].core != notices[n].core)
    && forall k :: 0 <= k < |before| ==>
         after[k] == if exists n :: 0 <= n < |notices| && notices[n].core == k then before[k].(active := false)
             else before[k]
  }

  /** Undoing the last of a list of razings leaves the others. */
  lemma {:induction false} OneRazingBack(before: seq<Core>, after: seq<Core>, notices: seq<Event>)
    requires RazedExactly(before, after, notices) && notices != []
    ensures var init, e := notices[..|notices| - 1], notices[|notices| - 1];
            && e.CoreCaptured? && e.core < |before| && before[e.core].active && e.oldOwner == before[e.core].owner
            && after[e.core] == before[e.core].(active := false)
            && RazedExactly(before, after[e.core := before[e.core]], init)
  {
    var init, e := notices[..|notices| - 1], notices[|notices| - 1];
    assert notices[|notices| - 1].core == e.core;
    var mid := after[e.core := before[e.core]];
    forall k | 0 <= k < |before|
      ensures mid[k] == if exists n :: 0 <= n < |init| && init[n].core == k then before[k].(active := false)
              else before[k]
    {
      if k != e.core {
        if n :| 0 <= n < |notices| && notices[n].core == k {
          assert init[n].core == k;
        }
      }
    }
    assert forall n :: 0 <= n < |init| ==> init[n] == notices[n];
  }

  /** Each loss notice takes one active core off its owner. */
  lemma {:induction false} LossesAreCores(before: seq<Core>, after: seq<Core>, notices: seq<Event>, p: int)
    requires RazedExactly(before, after, notices)
    ensures Sum(after, ActiveOf(p)) == Sum(before, ActiveOf(p)) - Sum(notices, LostBy(p))
    decreases |notices|
  {
    if notices == [] {
      assert after == before;
    } else {
      var init, e := notices[..|notices| - 1], notices[|notices| - 1];
      var mid := after[e.core := before[e.core]];
      OneRazingBack(before, after, notices);
      hide RazedExactly;
      LossesAreCores(before, mid, init, p);
      SumUpdate(mid, e.core, after[e.core], ActiveOf(p));
      assert mid[e.core := after[e.core]] == after;
    }
  }

  lemma CaptureRazesExactly(s: State, s': State)
    requires CaptureStep(s, s')
    ensures RazedExactly(s.cores, s'.cores, s'.events[|s.events|..])
  {
    var notices := s'.events[|s.events|..];
    forall k | 0 <= k < |s.cores|
      ensures Razed(s, k) <==> exists n :: 0 <= n < |notices| && notices[n].core == k
    {
    }
  }

  lemma CaptureKeepsScoreBooks(c: Config, s: State, s': State, log: seq<Event>)
    requires ScoreBooks(c, s, log) && CaptureStep(s, s')
    ensures ScoreBooks(c, s', log + s'.events[|s.events|..])
  {
    hide Razed, RazedBy, CaptureNotices;
    var extra := s'.events[|s.events|..];
    CaptureRazesExactly(s, s');
    forall p | 0 <= p < |s.players|
      ensures Sum(log + extra, CreditTo(p)) == Sum(log, CreditTo(p))
      ensures Sum(log + extra, CapturedBy(p)) == Sum(log, CapturedBy(p)) + Sum(extra, CapturedBy(p))
      ensures Sum(s'.cores, ActiveOf(p)) == Sum(s.cores, ActiveOf(p)) - Sum(extra, LostBy(p))
    {
      SumConcat(log, extra, CreditTo(p));
      SumConcat(log, extra, CapturedBy(p));
      Idle(extra, CreditTo(p));
      LossesAreCores(s.cores, s'.cores, extra, p);
    }
  }

  // ----- Collection ---------------------------------------------------------------

  lemma {:induction false} SumIsNatural(events: seq<Event>, p: int)
    ensures Sum(events, CollectedBy(p)) >= 0
  {
    SumBoundBelow(events, CollectedBy(p));
  }

  lemma {:induction false} CollectKeepsEnergyBooks(c: Config, s: State, s': State, log: seq<Event>)
    requires c.rows > 0 && c.cols > 0 && EnergyBooks(c, s, log) && CollectStep(c, s, s')
    ensures EnergyBooks(c, s', log + CollectNotices(c, s.bots, s.nodes, |s.nodes|))
  {
    hide HarvestOf, HarvestedNodes, CollectNotices;
    var extra := CollectNotices(c, s.bots, s.nodes, |s.nodes|);
    CollectNoticesAre(c, s.bots, s.nodes, |s.nodes|);
    forall p | 0 <= p < |s.players|
      ensures Sum(log + extra, CollectedBy(p)) == Sum(log, CollectedBy(p)) + Sum(extra, CollectedBy(p))
      ensures Sum(log + extra, SpawnedBy(p)) == Sum(log, SpawnedBy(p)) && Sum(extra, CollectedBy(p)) >= 0
    {
      SumConcat(log, extra, CollectedBy(p));
      SumConcat(log, extra, SpawnedBy(p));
      Idle(extra, SpawnedBy(p));
      SumIsNatural(extra, p);
    }
  }

  // ----- Spawns -------------------------------------------------------------------

  /** What the energy pays for leaves it nonnegative. */
  lemma {:induction false} AffordableIsPaid(energy: int, cost: int, k: nat)
    requires energy >= 0
    ensures energy - cost * Affordable(energy, cost, k) >= 0
    decreases k
  {
    if k > 0 && energy >= cost {
      var m := Affordable(energy - cost, cost, k - 1);
      AffordableIsPaid(energy - cost, cost, k - 1);
      assert cost * (1 + m) == cost + cost * m;
    }
  }

  lemma {:induction false} SpawnAnnounced(c: Config, s: State, p: nat, ids: seq<nat>)
    requires p < |s.players| && ids != [] && forall k :: 0 <= k < |ids| ==> ids[k] < |s.cores|
    ensures var r0 := SpawnAll(c, s, p, ids[..|ids| - 1]);
            SpawnAll(c, s, p, ids).events == r0.events + [BotSpawned(r0.nextBotId, p)]
  {
  }

  lemma {:induction false} SpawnedByIs(e: Event, q: int)
    requires e.BotSpawned?
    ensures SpawnedBy(q)(e) == if q == e.owner then 1 else 0
  {
  }

  /** The spawns of one player append one birth notice each. */
  lemma {:induction false} SpawnAllEvents(c: Config, s: State, p: nat, ids: seq<nat>)
    requires p < |s.players| && forall k :: 0 <= k < |ids| ==> ids[k] < |s.cores|
    ensures var r := SpawnAll(c, s, p, ids);
            && |s.events| <= |r.events| && r.events[..|s.events|] == s.events
            && (forall k :: |s.events| <= k < |r.events| ==> r.events[k].BotSpawned?)
            && (forall q :: Sum(r.events[|s.events|..], SpawnedBy(q)) == if q == p then |ids| else 0)
  {
    if ids != [] {
      var n := |ids| - 1;
      SpawnAllEvents(c, s, p, ids[..n]);
      var r0 := SpawnAll(c, s, p, ids[..n]);
      var e := BotSpawned(r0.nextBotId, p);
      SpawnAnnounced(c, s, p, ids);
      hide SpawnAll, SpawnedBy, Sum;
      assert (r0.events + [e])[|s.events|..] == r0.events[|s.events|..] + [e];
      assert (r0.events + [e])[..|s.events|] == s.events;
      forall q
        ensures Sum(r0.events[|s.events|..] + [e], SpawnedBy(q)) == if q == p then |ids| else 0
      {
        SumAppend(r0.events[|s.events|..], e, SpawnedBy(q));
        SpawnedByIs(e, q);
      }
    } else {
      assert s.events[|s.events|..] == [];
    }
  }

  /** They cost the player, nobody else, and score nothing. */
  lemma {:induction false} SpawnAllCosts(c: Config, s: State, p: nat, ids: seq<nat>)
    requires p < |s.players| && forall k :: 0 <= k < |ids| ==> ids[k] < |s.cores|
    ensures var r := SpawnAll(c, s, p, ids);
            && (forall q :: 0 <= q < |s.players| ==>
                  r.players[q].energy == s.players[q].energy - (if q == p then c.spawnCost * |ids| else 0)
                  && r.players[q].score == s.players[q].score)
            && (forall k :: 0 <= k < |s.cores| ==>
                  r.cores[k].active == s.cores[k].active && r.cores[k].owner == s.cores[k].owner)
            && r.combatDeaths == s.combatDeaths
  {
    if ids == [] {
    } else {
      var n := |ids| - 1;
      SpawnAllCosts(c, s, p, ids[..n]);
      Distribute(c.spawnCost, n, 1);
    }
  }

  /** Both books across one player's spawns, given the books before. */
  lemma PlayerSpawnsKeepBooks(c: Config, s: State, p: nat, ids: seq<nat>, s': State, log: seq<Event>)
    requires p < |s.players| && PlayerSpawns(c, s, p, ids, s')
    requires ScoreBooks(c, s, log + s.events) && EnergyBooks(c, s, log + s.events)
    ensures |s'.players| == |s.players| && ScoreBooks(c, s', log + s'.events) && EnergyBooks(c, s', log + s'.events)
  {
    hide Eligible, Before, ScoreBooks;
    if s.players[p].energy >= c.spawnCost {
      var m := Affordable(s.players[p].energy, c.spawnCost, |ids|);
      var chosen := ids[..m];
      SpawnAllEvents(c, s, p, chosen);
      SpawnAllCosts(c, s, p, chosen);
      AffordableIsPaid(s.players[p].energy, c.spawnCost, |ids|);
      var extra := s'.events[|s.events|..];
      assert log + s'.events == (log + s.events) + extra;
      forall k | 0 <= k < |extra|
        ensures extra[k].BotSpawned?
      {
        assert extra[k] == s'.events[|s.events| + k];
      }
      ScoreUntouched(c, s, s', log + s.events, extra);
      SpawnsArePaid(c, s, s', log + s.events, extra, p, m);
    }
  }

  lemma {:induction false} SpawnsArePaid(c: Config, s: State, s': State, log: seq<Event>, extra: seq<Event>, p: nat,
                                         m: nat)
    requires EnergyBooks(c, s, log) && p < |s.players| == |s'.players|
    requires forall k :: 0 <= k < |extra| ==> extra[k].BotSpawned?
    requires forall q :: Sum(extra, SpawnedBy(q)) == if q == p then m else 0
    requires forall q :: 0 <= q < |s.players| ==>
               s'.players[q].energy == s.players[q].energy - (if q == p then c.spawnCost * m else 0)
    requires s'.players[p].energy >= 0
    ensures EnergyBooks(c, s', log + extra)
  {
    forall q | 0 <= q < |s.players|
      ensures s'.players[q].energy >= 0
      ensures s'.players[q].energy == Sum(log + extra, CollectedBy(q)) - c.spawnCost * Sum(log + extra, SpawnedBy(q))
    {
      SumConcat(log, extra, CollectedBy(q));
      SumConcat(log, extra, SpawnedBy(q));
      Idle(extra, CollectedBy(q));
      Distribute(c.spawnCost, Sum(log, SpawnedBy(q)), Sum(extra, SpawnedBy(q)));
    }
  }

  // ----- Whole turns and whole runs -----------------------------------------------

  ghost predicate Books(c: Config, s: State, log: seq<Event>) {
    ScoreBooks(c, s, log) && EnergyBooks(c, s, log)
  }

  /** The opening of a turn, its orders and its moves do not touch the books. */
  lemma MoveKeepsBooks(c: Config, s: State, t: TurnTrace, log: seq<Event>)
    requires c.rows > 0 && c.cols > 0 && Books(c, s, log) && t.cleared == Cleared(c, s, t.inactive)
    requires t.ordered == AfterOrders(t.cleared, t.orders) && t.begun == t.ordered.(turn := t.ordered.turn + 1)
    requires MoveStep(c, t.begun, t.moved)
    ensures Books(c, t.moved, log + t.moved.events)
  {
    hide MovedBots, Collides, AfterOrders;
    assert t.begun.events == InactiveNotices(t.inactive);
    var died := t.moved.deadBots[|t.begun.deadBots|..];
    var extra := t.moved.events;
    forall k | 0 <= k < |extra|
      ensures extra[k].BotInactive? || extra[k].BotDied?
    {
    }
    hide ScoreBooks, EnergyBooks;
    ScoreUntouched(c, s, t.moved, log, extra);
    EnergyUntouched(c, s, t.moved, log, extra);
  }

  lemma CombatKeepsBooks(c: Config, s: State, s': State, log: seq<Event>)
    requires c.rows > 0 && c.cols > 0 && Books(c, s, log + s.events) && CombatStep(c, s, s')
    ensures Books(c, s', log + s'.events)
  {
    hide ScoreBooks, EnergyBooks, Focused, StruckBots, CombatNotices, Fallen;
    var extra := CombatNotices(c, s.bots, |s.bots|);
    assert log + s'.events == (log + s.events) + extra;
    CombatKeepsScoreBooks(c, s, s', log + s.events);
    CombatNoticesAre(c, s.bots, |s.bots|);
    EnergyUntouched(c, s, s', log + s.events, extra);
  }

  lemma ZoneKeepsBooks(c: Config, s: State, s': State, log: seq<Event>)
    requires c.rows > 0 && c.cols > 0 && (c.zoneEnabled ==> c.zoneShrinkInterval != 0)
    requires Books(c, s, log + s.events) && ZoneStep(c, s, s')
    ensures Books(c, s', log + s'.events)
  {
    hide ScoreBooks, EnergyBooks, OutsideTest, ShrunkRadius, ShelteredBots;
    if c.zoneEnabled && s.zoneActive {
      var extra := ZoneNotices(Select(|s.bots|, OutsideTest(c, s, ShrunkRadius(c, s))));
      assert log + s'.events == (log + s.events) + extra;
      ScoreUntouched(c, s, s', log + s.events, extra);
      EnergyUntouched(c, s, s', log + s.events, extra);
    }
  }

  lemma CaptureKeepsBooks(c: Config, s: State, s': State, log: seq<Event>)
    requires Books(c, s, log + s.events) && CaptureStep(s, s')
    ensures Books(c, s', log + s'.events)
  {
    hide ScoreBooks, EnergyBooks, Razed, CaptureNotices;
    var extra := s'.events[|s.events|..];
    assert log + s'.events == (log + s.events) + extra;
    CaptureKeepsScoreBooks(c, s, s', log + s.events);
    EnergyUntouched(c, s, s', log + s.events, extra);
  }

  lemma CollectKeepsBooks(c: Config, s: State, s': State, log: seq<Event>)
    requires c.rows > 0 && c.cols > 0 && Books(c, s, log + s.events) && CollectStep(c, s, s')
    ensures Books(c, s', log + s'.events)
  {
    hide ScoreBooks, EnergyBooks, HarvestedNodes, CollectNotices;
    var extra := CollectNotices(c, s.bots, s.nodes, |s.nodes|);
    assert log + s'.events == (log + s.events) + extra;
    CollectKeepsEnergyBooks(c, s, s', log + s.events);
    CollectNoticesAre(c, s.bots, s.nodes, |s.nodes|);
    ScoreUntouched(c, s, s', log + s.events, extra);
  }

  lemma {:induction false} StageKeepsBooks(c: Config, s: State, stages: seq<State>, rankings: seq<seq<nat>>, s': State,
                                           p: nat, log: seq<Event>)
    requires WellFormed(c, s) && SpawnStep(c, s, stages, rankings, s') && p < |stages|
    requires Books(c, s, log + s.events)
    ensures Books(c, stages[p], log + stages[p].events)
  {
    hide WellFormed, ScoreBooks, EnergyBooks, PlayerSpawns;
    if p == 0 {
    } else {
      StageKeepsBooks(c, s, stages, rankings, s', p - 1, log);
      StagesStayWellFormed(c, s, stages, rankings, s', p - 1);
      PlayerSpawnsKeepBooks(c, stages[p - 1], p - 1, rankings[p - 1], stages[p], log);
    }
  }

  lemma TickKeepsBooks(c: Config, s: State, s': State, log: seq<Event>)
    requires Books(c, s, log) && TickStep(c, s, s')
    ensures Books(c, s', log)
  {
  }

  /** Both ledgers survive a turn, up to the endgame check. */
  lemma TurnKeepsBooks(c: Config, s: State, t: TurnTrace, log: seq<Event>)
    requires WellFormed(c, s) && (c.zoneEnabled ==> c.zoneShrinkInterval != 0) && TurnStep(c, s, t)
    requires Books(c, s, log)
    ensures Books(c, t.ticked, log + t.ticked.events)
  {
    BoardIsReal(c, s);
    TurnStaysWellFormed(c, s, t);
    hide WellFormed, MoveStep, CombatStep, ZoneStep, CaptureStep, CollectStep, EndgameStep, Books, Cleared,
        PlayerSpawns;
    MoveKeepsBooks(c, s, t, log);
    CombatKeepsBooks(c, t.moved, t.fought, log);
    ZoneKeepsBooks(c, t.fought, t.sheltered, log);
    CaptureKeepsBooks(c, t.sheltered, t.captured, log);
    CollectKeepsBooks(c, t.captured, t.collected, log);
    StageKeepsBooks(c, t.collected, t.stages, t.rankings, t.spawned, |t.collected.players|, log);
    TickKeepsBooks(c, t.spawned, t.ticked, log + t.spawned.events);
  }
}

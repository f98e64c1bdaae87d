/** The population ledger: who dies, who is born, and how the turn's record lists them. */
module Population {
  import opened Torus
  import opened Tally
  import opened GameTypes
  import opened Rules
  import opened CollectLoop
  import opened CombatLoop
  import opened WellFormedSteps
  import opened FocusFire

  /** The bots whose death the events announce, in order. */
  ghost function DeathsIn(events: seq<Event>): seq<nat> {
    if events == [] then []
    else
      var e := events[|events| - 1];
      DeathsIn(events[..|events| - 1]) + (if e.BotDied? || e.CombatDeath? || e.ZoneDeath? then [e.bot] else [])
  }

  /** The bots whose birth the events announce, in order. */
  ghost function SpawnsIn(events: seq<Event>): seq<nat> {
    if events == [] then []
    else
      var e := events[|events| - 1];
      SpawnsIn(events[..|events| - 1]) + (if e.BotSpawned? then [e.bot] else [])
  }

  lemma {:induction false} RecordConcat(xs: seq<Event>, ys: seq<Event>)
    ensures DeathsIn(xs + ys) == DeathsIn(xs) + DeathsIn(ys)
    ensures SpawnsIn(xs + ys) == SpawnsIn(xs) + SpawnsIn(ys)
  {
    if ys == [] {
      assert xs + ys == xs;
    } else {
      var init := ys[..|ys| - 1];
      assert (xs + ys)[..|xs + ys| - 1] == xs + init;
      RecordConcat(xs, init);
    }
  }

  lemma {:induction false} NothingRecorded(events: seq<Event>)
    requires forall k :: 0 <= k < |events| ==> !events[k].BotDied? && !events[k].CombatDeath? && !events[k].ZoneDeath?
    ensures DeathsIn(events) == []
    ensures (forall k :: 0 <= k < |events| ==> !events[k].BotSpawned?) ==> SpawnsIn(events) == []
  {
    if events == [] {
    } else {
      NothingRecorded(events[..|events| - 1]);
    }
  }

  /** The step kills exactly the listed bots, lists each once and announces each once. */
  ghost predicate Culls(s: State, s': State, died: seq<nat>) {
    && |s'.bots| == |s.bots|
    && (forall i :: 0 <= i < |s.bots| ==> s'.bots[i].alive == (s.bots[i].alive && i !in died))
    && (forall k :: 0 <= k < |died| ==> died[k] < |s.bots| && s.bots[died[k]].alive) && Distinct(died)
    && s'.deadBots == s.deadBots + died
    && DeathsIn(s'.events) == DeathsIn(s.events) + died
    && SpawnsIn(s'.events) == SpawnsIn(s.events)
  }

  lemma CullsCompose(s: State, s1: State, s2: State, d1: seq<nat>, d2: seq<nat>)
    requires Culls(s, s1, d1) && Culls(s1, s2, d2)
    ensures Culls(s, s2, d1 + d2)
  {
    var d := d1 + d2;
    forall i | 0 <= i < |s.bots|
      ensures s2.bots[i].alive == (s.bots[i].alive && i !in d)
    {
      assert i in d <==> i in d1 || i in d2;
    }
    assert forall k :: 0 <= k < |d1| ==> d1[k] in d1;
    assert Distinct(d);
  }

  /** Culling lowers the number of living bots by the number listed. */
  lemma {:induction false} CullingCounts(bots: seq<Bot>, bots': seq<Bot>, died: seq<nat>)
    requires |bots'| == |bots| && Distinct(died)
    requires forall i :: 0 <= i < |bots| ==> bots'[i].alive == (bots[i].alive && i !in died)
    requires forall k :: 0 <= k < |died| ==> died[k] < |bots| && bots[died[k]].alive
    ensures LivingTotal(bots') == LivingTotal(bots) - |died|
    decreases |died|
  {
    if died == [] {
      SumShift(bots', bots, Alive(), Alive());
    } else {
      var init, d := died[..|died| - 1], died[|died| - 1];
      var mid := bots'[d := bots[d]];
      assert forall i :: i in died <==> i in init || i == d;
      CullingCounts(bots, mid, init);
      SumUpdate(mid, d, bots'[d], Alive());
      assert mid[d := bots'[d]] == bots';
    }
  }

  // ----- The three deadly phases --------------------------------------------------

  /** Killing a selection of living bots, listing and announcing each. */
  lemma {:induction false} SelectionCulls(s: State, s': State, died: seq<nat>)
    requires |s'.bots| == |s.bots| && Distinct(died) && s'.deadBots == s.deadBots + died
    requires forall i :: i in died ==> i < |s.bots| && s.bots[i].alive
    requires forall i :: 0 <= i < |s.bots| ==> s'.bots[i].alive == (s.bots[i].alive && i !in died)
    requires DeathsIn(s'.events) == DeathsIn(s.events) + died && SpawnsIn(s'.events) == SpawnsIn(s.events)
    ensures Culls(s, s', died)
  {
    hide DeathsIn, SpawnsIn, Distinct;
    assert forall k :: 0 <= k < |died| ==> died[k] in died;
  }

  lemma {:induction false} NoticesListDeaths(died: seq<nat>)
    ensures DeathsIn(DeathNotices(died)) == died && SpawnsIn(DeathNotices(died)) == []
    ensures DeathsIn(ZoneNotices(died)) == died && SpawnsIn(ZoneNotices(died)) == []
  {
    if died == [] {
    } else {
      var init := died[..|died| - 1];
      NoticesListDeaths(init);
      assert DeathNotices(died)[..|died| - 1] == DeathNotices(init);
      assert ZoneNotices(died)[..|died| - 1] == ZoneNotices(init);
    }
  }

  /** The listed collision victims are bots that were alive, and nobody else died. */
  lemma {:induction false} CollidersDie(c: Config, s: State, s': State, died: seq<nat>)
    requires c.rows > 0 && c.cols > 0 && s'.bots == MovedBots(c, s) && forall i: nat :: i in died <==> Collides(c, s, i)
    ensures |s'.bots| == |s.bots|
    ensures forall i :: i in died ==> i < |s.bots| && s.bots[i].alive
    ensures forall i :: 0 <= i < |s.bots| ==> s'.bots[i].alive == (s.bots[i].alive && i !in died)
  {
    hide Destination, HeadsFor;
    forall i: nat | i < |s.bots|
      ensures s'.bots[i].alive == (s.bots[i].alive && i !in died)
    {
      assert i in died <==> Collides(c, s, i);
    }
  }

  lemma MoveCulls(c: Config, s: State, s': State)
    requires WellFormed(c, s) && MoveStep(c, s, s')
    ensures |s.deadBots| <= |s'.deadBots| && Culls(s, s', s'.deadBots[|s.deadBots|..])
  {
    BoardIsReal(c, s);
    hide WellFormed, Collides, MovedBots, Recount, DeathNotices, DeathsIn, SpawnsIn, Culls;
    var died := s'.deadBots[|s.deadBots|..];
    CollidersDie(c, s, s', died);
    NoticesListDeaths(died);
    RecordConcat(s.events, DeathNotices(died));
    SelectionCulls(s, s', died);
  }

  lemma {:induction false} CombatNoticesList(c: Config, bots: seq<Bot>, n: nat)
    requires c.rows > 0 && c.cols > 0
    ensures DeathsIn(CombatNotices(c, bots, n)) == Select(n, FocusedTest(c, bots))
    ensures SpawnsIn(CombatNotices(c, bots, n)) == []
  {
    hide Focused, Killers;
    if n == 0 {
    } else {
      CombatNoticesList(c, bots, n - 1);
      var init := CombatNotices(c, bots, n - 1);
      if Focused(c, bots, n - 1) {
        assert CombatNotices(c, bots, n)[..|init|] == init;
      } else {
        assert CombatNotices(c, bots, n) == init;
      }
    }
  }

  lemma {:induction false} SelectionFacts(n: nat, test: int -> bool)
    ensures Distinct(Select(n, test)) && forall x :: x in Select(n, test) <==> 0 <= x < n && test(x)
  {
    SelectMembers(n, test);
  }

  lemma CombatCulls(c: Config, s: State, s': State)
    requires WellFormed(c, s) && CombatStep(c, s, s')
    ensures Culls(s, s', Fallen(c, s.bots))
  {
    BoardIsReal(c, s);
    hide Focused, WellFormed, Recount, Credited, CreditsAdded;
    var died := Fallen(c, s.bots);
    forall i | Focused(c, s.bots, i)
      ensures 0 <= i < |s.bots| && s.bots[i].alive
    {
      FocusedIsLiving(c, s.bots, i);
    }
    SelectionFacts(|s.bots|, FocusedTest(c, s.bots));
    CombatNoticesList(c, s.bots, |s.bots|);
    RecordConcat(s.events, CombatNotices(c, s.bots, |s.bots|));
    hide CombatNotices, DeathsIn, SpawnsIn, Select, Distinct, Culls;
    SelectionCulls(s, s', died);
  }

  ghost function ZoneDead(c: Config, s: State): seq<nat>
    requires c.rows > 0 && c.cols > 0 && (c.zoneEnabled ==> c.zoneShrinkInterval != 0)
  {
    if c.zoneEnabled && s.zoneActive then Select(|s.bots|, OutsideTest(c, s, ShrunkRadius(c, s))) else []
  }

  lemma ZoneCulls(c: Config, s: State, s': State)
    requires WellFormed(c, s) && (c.zoneEnabled ==> c.zoneShrinkInterval != 0) && ZoneStep(c, s, s')
    ensures Culls(s, s', ZoneDead(c, s))
  {
    BoardIsReal(c, s);
    hide Distance2, ShrunkRadius, WellFormed, Recount;
    if c.zoneEnabled && s.zoneActive {
      SweepCulls(c, s, ShrunkRadius(c, s), s');
    } else {
      assert s'.deadBots == s.deadBots + [];
    }
  }

  lemma {:induction false} SweepCulls(c: Config, s: State, radius: int, s': State)
    requires c.rows > 0 && c.cols > 0
    requires var died := Select(|s.bots|, OutsideTest(c, s, radius));
             s'.bots == ShelteredBots(c, s, radius, |s.bots|) && s'.deadBots == s.deadBots + died
                 && s'.events == s.events + ZoneNotices(died)
    ensures Culls(s, s', Select(|s.bots|, OutsideTest(c, s, radius)))
  {
    var died := Select(|s.bots|, OutsideTest(c, s, radius));
    SelectionFacts(|s.bots|, OutsideTest(c, s, radius));
    NoticesListDeaths(died);
    RecordConcat(s.events, ZoneNotices(died));
    hide ZoneNotices, DeathsIn, SpawnsIn, Select, Distance2, Distinct, Culls;
    SelectionCulls(s, s', died);
  }

  // ----- The spawn phase ----------------------------------------------------------

  /** The step only appends living bots, announcing each once in order. */
  ghost predicate Breeds(s: State, s': State) {
    && |s.bots| <= |s'.bots| && s'.bots[..|s.bots|] == s.bots
    && (forall i :: |s.bots| <= i < |s'.bots| ==> s'.bots[i].alive)
    && s'.deadBots == s.deadBots && DeathsIn(s'.events) == DeathsIn(s.events)
    && SpawnsIn(s'.events) == SpawnsIn(s.events) + Range(|s.bots|, |s'.bots|)
    && LivingTotal(s'.bots) == LivingTotal(s.bots) + |s'.bots| - |s.bots|
  }

  function Range(lo: nat, hi: nat): (r: seq<nat>)
    requires lo <= hi
  {
    seq(hi - lo, k requires 0 <= k < hi - lo => lo + k)
  }

  lemma BreedsCompose(s: State, s1: State, s2: State)
    requires Breeds(s, s1) && Breeds(s1, s2)
    ensures Breeds(s, s2)
  {
    hide DeathsIn, SpawnsIn, LivingTotal;
    assert s2.bots[..|s.bots|] == s1.bots[..|s.bots|];
    assert Range(|s.bots|, |s2.bots|) == Range(|s.bots|, |s1.bots|) + Range(|s1.bots|, |s2.bots|);
    forall i | |s.bots| <= i < |s2.bots|
      ensures s2.bots[i].alive
    {
      if i < |s1.bots| {
        assert s2.bots[..|s1.bots|][i] == s1.bots[i];
      }
    }
  }

  lemma SpawnOneBreeds(c: Config, s: State, p: nat, k: nat)
    requires s.nextBotId == |s.bots| && p < |s.players| && k < |s.cores|
    ensures Breeds(s, SpawnOne(c, s, p, k))
  {
    var e := BotSpawned(s.nextBotId, p);
    assert (s.events + [e])[..|s.events|] == s.events;
    SumAppend(s.bots, Bot(s.nextBotId, p, s.cores[k].pos, true), Alive());
    assert Range(|s.bots|, |s.bots| + 1) == [s.nextBotId];
  }

  lemma {:induction false} SpawnAllBreeds(c: Config, s: State, p: nat, ids: seq<nat>)
    requires s.nextBotId == |s.bots| && p < |s.players| && forall k :: 0 <= k < |ids| ==> ids[k] < |s.cores|
    ensures Breeds(s, SpawnAll(c, s, p, ids)) && SpawnAll(c, s, p, ids).nextBotId == |SpawnAll(c, s, p, ids).bots|
  {
    if ids != [] {
      hide Breeds;
      var init := ids[..|ids| - 1];
      SpawnAllBreeds(c, s, p, init);
      SpawnOneBreeds(c, SpawnAll(c, s, p, init), p, ids[|ids| - 1]);
      BreedsCompose(s, SpawnAll(c, s, p, init), SpawnAll(c, s, p, ids));
    } else {
      assert Range(|s.bots|, |s.bots|) == [];
    }
  }

  lemma PlayerBreeds(c: Config, s: State, p: nat, ids: seq<nat>, s': State)
    requires WellFormed(c, s) && p < |s.players| && PlayerSpawns(c, s, p, ids, s')
    ensures Breeds(s, s')
  {
    hide Eligible, Before;
    if s.players[p].energy >= c.spawnCost {
      SpawnAllBreeds(c, s, p, ids[..Affordable(s.players[p].energy, c.spawnCost, |ids|)]);
    } else {
      SpawnAllBreeds(c, s, p, []);
    }
  }

  /** From stage q to a later stage p. */
  lemma {:induction false} StagesBreed(c: Config, s: State, stages: seq<State>, rankings: seq<seq<nat>>, s': State,
                                       q: nat, p: nat)
    requires WellFormed(c, s) && SpawnStep(c, s, stages, rankings, s') && q <= p < |stages|
    ensures Breeds(stages[q], stages[p])
  {
    hide WellFormed, PlayerSpawns, Breeds;
    if q == p {
      NothingBred(stages[p]);
    } else {
      StagesBreed(c, s, stages, rankings, s', q, p - 1);
      StagesStayWellFormed(c, s, stages, rankings, s', p - 1);
      PlayerBreeds(c, stages[p - 1], p - 1, rankings[p - 1], stages[p]);
      BreedsCompose(stages[q], stages[p - 1], stages[p]);
    }
  }

  lemma NothingBred(s: State)
    ensures Breeds(s, s)
  {
    assert Range(|s.bots|, |s.bots|) == [];
  }

  // ----- Whole turns --------------------------------------------------------------

  /** The record of a finished turn, against the state it started from: births are appended
      bots, deaths are living bots listed and announced once each, and nobody revives. */
  ghost predicate PopulationAccounted(s: State, r: State) {
    && |s.bots| <= |r.bots|
    && LivingTotal(r.bots) == LivingTotal(s.bots) - |r.deadBots| + |SpawnsIn(r.events)|
    && DeathsIn(r.events) == r.deadBots && Distinct(r.deadBots)
    && SpawnsIn(r.events) == Range(|s.bots|, |r.bots|)
    && (forall i :: 0 <= i < |s.bots| ==> r.bots[i].alive == (s.bots[i].alive && i !in r.deadBots))
    && (forall k :: 0 <= k < |r.deadBots| ==> r.deadBots[k] < |s.bots| && s.bots[r.deadBots[k]].alive)
    && forall i :: |s.bots| <= i < |r.bots| ==> r.bots[i].alive
  }

  lemma CaptureRecordsNoPopulation(s: State, s': State)
    requires CaptureStep(s, s')
    ensures DeathsIn(s'.events) == DeathsIn(s.events) && SpawnsIn(s'.events) == SpawnsIn(s.events)
    ensures s'.bots == s.bots && s'.deadBots == s.deadBots
  {
    hide CaptureNotices, Settled, RazedCores;
    var notices := s'.events[|s.events|..];
    assert s'.events == s.events + notices;
    RecordConcat(s.events, notices);
    NothingRecorded(notices);
  }

  lemma CollectRecordsNoPopulation(c: Config, s: State, s': State)
    requires c.rows > 0 && c.cols > 0 && CollectStep(c, s, s')
    ensures DeathsIn(s'.events) == DeathsIn(s.events) && SpawnsIn(s'.events) == SpawnsIn(s.events)
    ensures s'.bots == s.bots && s'.deadBots == s.deadBots
  {
    hide HarvestOf, Enriched, HarvestedNodes;
    var notices := CollectNotices(c, s.bots, s.nodes, |s.nodes|);
    CollectNoticesAre(c, s.bots, s.nodes, |s.nodes|);
    RecordConcat(s.events, notices);
    NothingRecorded(notices);
  }

  lemma ClearedRecord(c: Config, s: State, inactive: seq<nat>)
    requires c.rows > 0 && c.cols > 0
    ensures var r := Cleared(c, s, inactive);
            r.bots == s.bots && r.deadBots == [] && DeathsIn(r.events) == [] && SpawnsIn(r.events) == []
  {
    NothingRecorded(InactiveNotices(inactive));
  }

  lemma OrdersLeaveRecord(t: TurnTrace)
    requires t.ordered == AfterOrders(t.cleared, t.orders) && t.begun == t.ordered.(turn := t.ordered.turn + 1)
    ensures t.begun.bots == t.cleared.bots && t.begun.deadBots == t.cleared.deadBots
            && t.begun.events == t.cleared.events
  {
  }

  lemma EndgameLeavesRecord(c: Config, s: State, s': State, v: Verdict)
    requires EndgameStep(c, s, s', v)
    ensures s'.bots == s.bots && s'.deadBots == s.deadBots && s'.events == s.events
  {
    hide Survives, Dominates, Crowned, Reports, Leads, Quiet, SoleSurvivorIs;
  }

  lemma PopulationLedger(c: Config, s: State, t: TurnTrace)
    requires WellFormed(c, s) && (c.zoneEnabled ==> c.zoneShrinkInterval != 0) && TurnStep(c, s, t)
    ensures PopulationAccounted(s, t.ended)
  {
    hide WellFormed, MoveStep, CombatStep, ZoneStep, CaptureStep, CollectStep, SpawnStep, EndgameStep;
    hide Culls, Breeds, Cleared, AfterOrders, PopulationAccounted, DeathsIn, SpawnsIn;
    BoardIsReal(c, s);
    TurnStaysWellFormed(c, s, t);
    ClearedRecord(c, s, t.inactive);
    OrdersLeaveRecord(t);
    var died := StrikesCull(c, t);
    BirthsFollow(c, t);
    EndgameLeavesRecord(c, t.ticked, t.ended, t.verdict);
    Balance(s, t.begun, t.sheltered, t.collected, t.spawned, t.ended, died);
  }

  /** The three phases that kill, taken together. */
  lemma StrikesCull(c: Config, t: TurnTrace) returns (died: seq<nat>)
    requires c.rows > 0 && c.cols > 0 && (c.zoneEnabled ==> c.zoneShrinkInterval != 0)
    requires WellFormed(c, t.begun) && WellFormed(c, t.moved) && WellFormed(c, t.fought)
    requires MoveStep(c, t.begun, t.moved) && CombatStep(c, t.moved, t.fought) && ZoneStep(c, t.fought, t.sheltered)
    ensures Culls(t.begun, t.sheltered, died)
  {
    hide *;
    MoveCulls(c, t.begun, t.moved);
    CombatCulls(c, t.moved, t.fought);
    ZoneCulls(c, t.fought, t.sheltered);
    var d1, d2, d3 := t.moved.deadBots[|t.begun.deadBots|..], Fallen(c, t.moved.bots), ZoneDead(c, t.fought);
    CullsCompose(t.begun, t.moved, t.fought, d1, d2);
    CullsCompose(t.begun, t.fought, t.sheltered, d1 + d2, d3);
    died := d1 + d2 + d3;
  }

  /** Captures and collection leave the bots alone; then the spawns add theirs. */
  lemma BirthsFollow(c: Config, t: TurnTrace)
    requires c.rows > 0 && c.cols > 0 && WellFormed(c, t.captured) && WellFormed(c, t.collected)
    requires CaptureStep(t.sheltered, t.captured) && CollectStep(c, t.captured, t.collected)
    requires SpawnStep(c, t.collected, t.stages, t.rankings, t.spawned)
    ensures t.collected.bots == t.sheltered.bots && t.collected.deadBots == t.sheltered.deadBots
    ensures DeathsIn(t.collected.events) == DeathsIn(t.sheltered.events)
    ensures SpawnsIn(t.collected.events) == SpawnsIn(t.sheltered.events)
    ensures Breeds(t.collected, t.spawned)
  {
    hide WellFormed, CaptureStep, CollectStep, PlayerSpawns, Breeds, DeathsIn, SpawnsIn;
    CaptureRecordsNoPopulation(t.sheltered, t.captured);
    CollectRecordsNoPopulation(c, t.captured, t.collected);
    StagesBreed(c, t.collected, t.stages, t.rankings, t.spawned, 0, |t.collected.players|);
  }

  lemma Balance(s: State, begun: State, sheltered: State, collected: State, spawned: State, r: State, died: seq<nat>)
    requires begun.bots == s.bots && begun.deadBots == []
             && DeathsIn(begun.events) == [] && SpawnsIn(begun.events) == []
    requires Culls(begun, sheltered, died)
    requires collected.bots == sheltered.bots && collected.deadBots == sheltered.deadBots
    requires DeathsIn(collected.events) == DeathsIn(sheltered.events)
             && SpawnsIn(collected.events) == SpawnsIn(sheltered.events)
    requires Breeds(collected, spawned)
    requires r.bots == spawned.bots && r.deadBots == spawned.deadBots && r.events == spawned.events
    ensures PopulationAccounted(s, r)
  {
    CullingCounts(s.bots, sheltered.bots, died);
    assert r.deadBots == died;
    forall i | 0 <= i < |s.bots|
      ensures r.bots[i].alive == (s.bots[i].alive && i !in r.deadBots)
    {
      assert spawned.bots[..|collected.bots|][i] == sheltered.bots[i];
    }
  }

  // ----- Combat, seen from the record ---------------------------------------------

  /** In one combat phase the living drop by the newly listed dead, who are fewer than half of
      those who fought; every killer named in a death notice is alive afterwards, and every
      victim is named at least two. */
  lemma CombatLosesAMinority(c: Config, s: State, s': State)
    requires WellFormed(c, s) && CombatStep(c, s, s')
    ensures |s.deadBots| <= |s'.deadBots|
    ensures var deaths := |s'.deadBots| - |s.deadBots|;
            LivingTotal(s'.bots) == LivingTotal(s.bots) - deaths && (deaths > 0 ==> 2 * deaths < LivingTotal(s.bots))
    ensures forall k :: |s.events| <= k < |s'.events| ==>
              var e := s'.events[k];
              e.CombatDeath? && |e.killers| >= 2 && e.bot < |s'.bots| && !s'.bots[e.bot].alive
              && forall m :: 0 <= m < |e.killers| ==> e.killers[m].bot < |s'.bots| && s'.bots[e.killers[m].bot].alive
  {
    hide Focused, Enemies, Enemy, Killers;
    BoardIsReal(c, s);
    CombatCulls(c, s, s');
    CullingCounts(s.bots, s'.bots, Fallen(c, s.bots));
    if Fallen(c, s.bots) != [] {
      DeadAreAMinority(c, s.bots);
    }
    NamedKillersLive(c, s, s', |s.bots|);
  }

  lemma {:induction false} NamedKillersLive(c: Config, s: State, s': State, n: nat)
    requires WellFormed(c, s) && CombatStep(c, s, s') && n <= |s.bots|
    ensures forall k :: 0 <= k < |CombatNotices(c, s.bots, n)| ==>
              var e := CombatNotices(c, s.bots, n)[k];
              e.CombatDeath? && |e.killers| >= 2 && e.bot < |s'.bots| && !s'.bots[e.bot].alive
              && forall m :: 0 <= m < |e.killers| ==> e.killers[m].bot < |s'.bots| && s'.bots[e.killers[m].bot].alive
  {
    BoardIsReal(c, s);
    hide Focused, Enemies, Enemy, Killers, WellFormed;
    if n == 0 {
    } else {
      NamedKillersLive(c, s, s', n - 1);
      if Focused(c, s.bots, n - 1) {
        VictimIsNamed(c, s, s', n - 1);
      }
    }
  }

  lemma VictimIsNamed(c: Config, s: State, s': State, i: nat)
    requires WellFormed(c, s) && CombatStep(c, s, s') && i < |s.bots| && Focused(c, s.bots, i)
    ensures var killers := Killers(c, s.bots, i);
            |killers| >= 2 && i < |s'.bots| && !s'.bots[i].alive
            && forall m :: 0 <= m < |killers| ==> killers[m].bot < |s'.bots| && s'.bots[killers[m].bot].alive
  {
    hide Enemy, Focused, Enemies;
    VictimsAreOutnumbered(c, s.bots, i);
    EnemiesAre(c, s.bots, i);
    var foes := Enemies(c, s.bots, i);
    forall m | 0 <= m < |foes|
      ensures foes[m] < |s'.bots| && s.bots[foes[m]].id == foes[m] && s'.bots[foes[m]].alive
    {
      EnemyLives(c, s.bots, i, foes[m]);
      KillersSurvive(c, s.bots, i, foes[m]);
    }
  }
}

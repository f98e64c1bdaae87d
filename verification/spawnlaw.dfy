/** What the spawn phase comes to, in cores, tiles and energy alone: which cores give the new
    bots, in what order, and how many the energy pays for. */
module SpawnOutcome {
  import opened Tally
  import opened GameTypes
  import opened Rules
  import opened WellFormedSteps
  import opened Population
  import opened Ledgers
  import opened Scheduling
  import opened Stacking

  /** Core k is an active core of player p and no living bot stands on it. */
  ghost predicate Backs(s: State, p: nat, k: nat) {
    && k < |s.cores| && s.cores[k].active && s.cores[k].owner == p
    && forall j :: 0 <= j < |s.bots| && s.bots[j].alive ==> s.bots[j].pos != s.cores[k].pos
  }

  ghost function Backing(s: State, p: nat): set<nat> {
    set k: nat | k < |s.cores| && Backs(s, p, k)
  }

  /** Idle for longer, or as long with a lower ID. */
  ghost predicate Sooner(a: Core, b: Core) {
    a.lastSpawnedTurn < b.lastSpawnedTurn || (a.lastSpawnedTurn == b.lastSpawnedTurn && a.id < b.id)
  }

  /** The cores of from, in priority order, are the front of those backing player p. */
  ghost predicate TakesTheFront(s: State, p: nat, from: seq<nat>) {
    && (forall m :: 0 <= m < |from| ==> Backs(s, p, from[m]))
    && (forall l, m :: 0 <= l < m < |from| ==> Sooner(s.cores[from[l]], s.cores[from[m]]))
    && forall k: nat, m :: Backs(s, p, k) && k !in from && 0 <= m < |from| ==> Sooner(s.cores[from[m]], s.cores[k])
  }

  /** As many spawns as there are backing cores, as long as each can be paid when its turn comes. */
  ghost predicate PaysFor(energy: int, cost: int, backing: nat, n: nat) {
    && n <= backing && (forall m: nat :: m < n ==> energy - m * cost >= cost)
    && (n == backing || energy - n * cost < cost)
  }

  lemma EligibleBacks(s: State, p: nat)
    ensures forall k: nat :: Eligible(s, p, k) <==> Backs(s, p, k)
  {
    forall k: nat
      ensures Eligible(s, p, k) <==> Backs(s, p, k)
    {
      if k < |s.cores| && !Backs(s, p, k) && s.cores[k].active && s.cores[k].owner == p {
        var j :| 0 <= j < |s.bots| && s.bots[j].alive && s.bots[j].pos == s.cores[k].pos;
        assert StandsAt(s.bots, j, s.cores[k].pos);
      }
    }
  }

  lemma {:induction false} DistinctCount(xs: seq<nat>, members: set<nat>)
    requires Distinct(xs) && forall x :: x in members <==> x in xs
    ensures |members| == |xs|
  {
    if xs == [] {
      assert members == {};
    } else {
      var init, last := xs[..|xs| - 1], xs[|xs| - 1];
      assert xs == init + [last] && last !in init;
      DistinctCount(init, members - {last});
      assert members == members - {last} + {last};
    }
  }

  lemma {:induction false} AffordableIsMost(energy: int, cost: int, k: nat)
    ensures PaysFor(energy, cost, k, Affordable(energy, cost, k))
    decreases k
  {
    if k == 0 || energy < cost {
    } else {
      AffordableIsMost(energy - cost, cost, k - 1);
      var n := Affordable(energy - cost, cost, k - 1);
      forall m: nat | m < n + 1
        ensures energy - m * cost >= cost
      {
        if m > 0 {
          assert energy - cost - (m - 1) * cost >= cost;
          Distribute(cost, m - 1, 1);
        }
      }
      Distribute(cost, n, 1);
    }
  }

  lemma RankedFront(c: Config, s: State, p: nat, ids: seq<nat>)
    requires p < |s.players| && Ranking(s, p, ids)
    ensures |Backing(s, p)| == |ids|
    ensures forall n: nat :: n <= |ids| ==> TakesTheFront(s, p, ids[..n])
  {
    EligibleBacks(s, p);
    hide Eligible, Backs;
    RankedOnce(s, p, ids);
    DistinctCount(ids, Backing(s, p));
    forall n: nat | n <= |ids|
      ensures TakesTheFront(s, p, ids[..n])
    {
      FrontOf(s, p, ids, n);
    }
  }

  lemma RankedOnce(s: State, p: nat, ids: seq<nat>)
    requires Ranking(s, p, ids) && forall k: nat :: Eligible(s, p, k) <==> Backs(s, p, k)
    ensures Distinct(ids) && forall k :: k in Backing(s, p) <==> k in ids
  {
    hide Eligible, Backs;
    forall k | k in ids
      ensures k in Backing(s, p)
    {
      assert Backs(s, p, k);
    }
  }

  lemma FrontOf(s: State, p: nat, ids: seq<nat>, n: nat)
    requires Ranking(s, p, ids) && n <= |ids| && forall k: nat :: Eligible(s, p, k) <==> Backs(s, p, k)
    ensures TakesTheFront(s, p, ids[..n])
  {
    hide Eligible;
    assert forall a :: 0 <= a < n ==> ids[..n][a] == ids[a];
    forall m | 0 <= m < n
      ensures Backs(s, p, ids[m])
    {
      assert ids[m] in ids;
    }
    forall k: nat, m | Backs(s, p, k) && k !in ids[..n] && 0 <= m < n
      ensures Sooner(s.cores[ids[m]], s.cores[k])
    {
      assert k in ids;
      var b :| 0 <= b < |ids| && ids[b] == k;
    }
  }

  /** The bots a player's spawns add. */
  lemma {:induction false} SpawnAllBots(c: Config, s: State, p: nat, from: seq<nat>)
    requires p < |s.players| && forall m :: 0 <= m < |from| ==> from[m] < |s.cores|
    ensures var r := SpawnAll(c, s, p, from);
            && r.nextBotId == s.nextBotId + |from|
            && |r.bots| == |s.bots| + |from| && r.bots[..|s.bots|] == s.bots
            && forall m :: 0 <= m < |from| ==>
                 r.bots[|s.bots| + m] == Bot(s.nextBotId + m, p, s.cores[from[m]].pos, true)
  {
    if from == [] {
    } else {
      var init := from[..|from| - 1];
      SpawnAllBots(c, s, p, init);
      SpawnedBots(c, s, p, init);
      var r0 := SpawnAll(c, s, p, init);
      assert SpawnAll(c, s, p, from).bots == r0.bots + [Bot(r0.nextBotId, p, r0.cores[from[|from| - 1]].pos, true)];
      hide SpawnAll;
    }
  }

  /** One player's stage: a front of the backing cores, by priority, each gives one bot, and the
      energy decides how many. */
  lemma StageSpawnsTheFront(c: Config, s: State, p: nat, ids: seq<nat>, s': State) returns (from: seq<nat>)
    requires p < |s.players| && PlayerSpawns(c, s, p, ids, s')
    ensures TakesTheFront(s, p, from) && PaysFor(s.players[p].energy, c.spawnCost, |Backing(s, p)|, |from|)
    ensures |s'.bots| == |s.bots| + |from| && s'.bots[..|s.bots|] == s.bots
    ensures forall m :: 0 <= m < |from| ==>
              s'.bots[|s.bots| + m] == Bot(s.nextBotId + m, p, s.cores[from[m]].pos, true)
    ensures |s'.cores| == |s.cores| && forall k :: 0 <= k < |s.cores| ==>
              s'.cores[k] == if k in from then s.cores[k].(lastSpawnedTurn := s.turn) else s.cores[k]
    ensures |s'.players| == |s.players| && forall q :: 0 <= q < |s.players| ==>
              s'.players[q].energy == s.players[q].energy - if q == p then c.spawnCost * |from| else 0
  {
    from := Chosen(c, s, p, ids);
    hide *;
    ChosenTakeTheFront(c, s, p, ids, s');
    SpawnAllBots(c, s, p, from);
    SpawnAllCosts(c, s, p, from);
    forall k | 0 <= k < |s.cores|
      ensures s'.cores[k] == if k in from then s.cores[k].(lastSpawnedTurn := s.turn) else s.cores[k]
    {
      SpawnAllCores(c, s, p, from, k);
    }
  }

  lemma {:induction false} ChosenTakeTheFront(c: Config, s: State, p: nat, ids: seq<nat>, s': State)
    requires p < |s.players| && PlayerSpawns(c, s, p, ids, s')
    ensures var from := Chosen(c, s, p, ids);
            && (forall m :: 0 <= m < |from| ==> from[m] < |s.cores|) && s' == SpawnAll(c, s, p, from)
            && TakesTheFront(s, p, from) && PaysFor(s.players[p].energy, c.spawnCost, |Backing(s, p)|, |from|)
  {
    hide Ranking, Backing, TakesTheFront;
    if s.players[p].energy >= c.spawnCost {
      RankedFront(c, s, p, ids);
      AffordableIsMost(s.players[p].energy, c.spawnCost, |ids|);
      RankedInRange(s, p, ids);
    } else {
      NoFront(s, p);
    }
  }

  lemma RankedInRange(s: State, p: nat, ids: seq<nat>)
    requires Ranking(s, p, ids)
    ensures forall m :: 0 <= m < |ids| ==> ids[m] < |s.cores|
  {
  }

  lemma NoFront(s: State, p: nat)
    ensures TakesTheFront(s, p, [])
  {
  }

  // ----- The whole phase ----------------------------------------------------------

  /** Bot i came from a core of its owner that was active and free when the owner's stage began. */
  ghost predicate CameFrom(s: State, stages: seq<State>, b: Bot, i: nat, k: nat) {
    && k < |s.cores| && s.cores[k].active && s.cores[k].owner == b.owner && s.cores[k].pos == b.pos
    && b.owner + 1 < |stages| && |stages[b.owner].bots| <= i < |stages[b.owner + 1].bots|
    && forall j :: 0 <= j < |stages[b.owner].bots| && stages[b.owner].bots[j].alive ==>
         stages[b.owner].bots[j].pos != b.pos
  }

  /** The stage of player p in which bot i appeared. */
  lemma {:induction false} StageOfNewcomer(stages: seq<State>, i: nat, n: nat) returns (p: nat)
    requires 0 < n < |stages| && |stages[0].bots| <= i < |stages[n].bots|
    ensures p < n && |stages[p].bots| <= i < |stages[p + 1].bots|
  {
    if i >= |stages[n - 1].bots| {
      p := n - 1;
    } else {
      p := StageOfNewcomer(stages, i, n - 1);
    }
  }

  /** Owners, tiles and activity of cores do not change in the spawn phase. */
  lemma {:induction false} CoresStand(c: Config, s: State, stages: seq<State>, rankings: seq<seq<nat>>, s': State,
                                      p: nat, k: nat)
    requires WellFormed(c, s) && SpawnStep(c, s, stages, rankings, s') && p < |stages| && k < |s.cores|
    ensures |stages[p].cores| == |s.cores|
    ensures stages[p].cores[k] == s.cores[k].(lastSpawnedTurn := stages[p].cores[k].lastSpawnedTurn)
  {
    hide WellFormed, PlayerSpawns;
    StagesStayWellFormed(c, s, stages, rankings, s', p);
    if p == 0 {
    } else {
      CoresStand(c, s, stages, rankings, s', p - 1, k);
      var from := StageSpawnsTheFront(c, stages[p - 1], p - 1, rankings[p - 1], stages[p]);
      hide TakesTheFront, PaysFor;
    }
  }

  /** Every new bot came from such a core. */
  lemma NewcomersHaveCores(c: Config, s: State, stages: seq<State>, rankings: seq<seq<nat>>, s': State, i: nat)
    requires WellFormed(c, s) && SpawnStep(c, s, stages, rankings, s') && |s.bots| <= i < |s'.bots|
    ensures exists k :: CameFrom(s, stages, s'.bots[i], i, k)
  {
    var p := StageOfNewcomer(stages, i, |s.players|);
    hide WellFormed, PlayerSpawns, TakesTheFront, PaysFor, Breeds;
    var from := StageSpawnsTheFront(c, stages[p], p, rankings[p], stages[p + 1]);
    var m := i - |stages[p].bots|;
    FrontBacks(stages[p], p, from, m);
    StagesStayWellFormed(c, s, stages, rankings, s', p);
    CoresStand(c, s, stages, rankings, s', p, from[m]);
    StagesBreed(c, s, stages, rankings, s', p + 1, |s.players|);
    BredStay(stages[p + 1], s');
    assert s'.bots[i] == stages[p + 1].bots[|stages[p].bots| + m];
    assert CameFrom(s, stages, s'.bots[i], i, from[m]);
  }

  lemma FrontBacks(s: State, p: nat, from: seq<nat>, m: nat)
    requires TakesTheFront(s, p, from) && m < |from|
    ensures Backs(s, p, from[m])
  {
  }

  /** A razed core gives nobody a bot, whatever energy its owner has. */
  lemma RazedCoreIsIdle(c: Config, s: State, stages: seq<State>, rankings: seq<seq<nat>>, s': State)
    requires WellFormed(c, s) && SpawnStep(c, s, stages, rankings, s')
    requires forall k :: 0 <= k < |s.cores| ==> !s.cores[k].active
    ensures |s'.bots| <= |s.bots|
  {
    hide WellFormed, SpawnStep;
    if |s'.bots| > |s.bots| {
      NewcomersHaveCores(c, s, stages, rankings, s', |s.bots|);
    }
  }
}

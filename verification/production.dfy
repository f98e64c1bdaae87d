/** Energy production is bounded: a node yields at most once per interval. */
module Production {
  import opened Torus
  import opened Tally
  import opened GameTypes
  import opened Rules
  import opened Runs
  import opened Harvesting
  import opened StalemateVerdicts

  /** A node recharges every EnergyInterval turns, and never faster than every turn. */
  function Period(c: Config): (p: nat)
    ensures p >= 1
  {
    if c.energyInterval < 1 then 1 else c.energyInterval
  }

  /** Turn t took the charge of node i, whether collected or destroyed. */
  ghost predicate Emptied(t: TurnTrace, i: nat) {
    i < |t.captured.nodes| && i < |t.collected.nodes| && t.captured.nodes[i].hasEnergy
        && !t.collected.nodes[i].hasEnergy
  }

  /** A node in one turn: harvested or not, then ticked. */
  ghost predicate NodeTurn(c: Config, before: EnergyNode, after: EnergyNode, emptied: bool) {
    && (emptied ==> before.hasEnergy)
    && after == TickedNode(c, if emptied then before.(hasEnergy := false, tick := 0) else before)
  }

  lemma {:induction false} HarvestedNode(c: Config, bots: seq<Bot>, nodes: seq<EnergyNode>, i: nat)
    requires c.rows > 0 && c.cols > 0 && i < |nodes|
    ensures var r := HarvestedNodes(c, bots, nodes, |nodes|)[i];
            r == (if nodes[i].hasEnergy && !r.hasEnergy then nodes[i].(hasEnergy := false, tick := 0) else nodes[i])
  {
    hide Near;
    if HarvestOf(c, bots, nodes[i]) != Untouched {
      assert HarvestIs(c, bots, nodes[i], HarvestOf(c, bots, nodes[i]));
    }
  }

  lemma {:induction false} TurnOfNode(c: Config, s: State, t: TurnTrace, i: nat)
    requires Playable(c) && WellFormed(c, s) && TurnStep(c, s, t) && i < |s.nodes|
    ensures i < |t.ended.nodes| && NodeTurn(c, s.nodes[i], t.ended.nodes[i], Emptied(t, i))
  {
    TurnFrame(c, s, t);
    PhasesOf(c, s, t);
    hide TurnStep, WellFormed, MoveStep, CombatStep, ZoneStep, CaptureStep, SpawnStep, EndgameStep, HarvestedNodes,
        CollectNotices;
    HarvestedNode(c, t.captured.bots, t.captured.nodes, i);
  }

  /** Node i as the run sees it between turns. */
  ghost function NodeAt(s: State, ts: seq<TurnTrace>, k: nat, i: nat): EnergyNode
    requires k <= |ts| && i < |At(s, ts, k).nodes|
  {
    At(s, ts, k).nodes[i]
  }

  lemma {:induction false} NodeInRun(c: Config, s: State, ts: seq<TurnTrace>, k: nat, i: nat)
    requires Playable(c) && WellFormed(c, s) && Run(c, s, ts) && k < |ts| && i < |s.nodes|
    ensures i < |At(s, ts, k).nodes| && i < |At(s, ts, k + 1).nodes|
    ensures NodeTurn(c, NodeAt(s, ts, k, i), NodeAt(s, ts, k + 1, i), Emptied(ts[k], i))
  {
    hide TurnStep, WellFormed, NodeTurn, Emptied;
    RunStaysWellFormed(c, s, ts, k);
    RunSizes(c, s, ts, k);
    RunSizes(c, s, ts, k + 1);
    assert TurnStep(c, At(s, ts, k), ts[k]);
    TurnOfNode(c, At(s, ts, k), ts[k], i);
  }

  /** After turn a empties a node, it charges again no sooner than a period later. */
  lemma {:induction false} RechargeTakesAPeriod(c: Config, s: State, ts: seq<TurnTrace>, i: nat, a: nat, k: nat)
    requires Playable(c) && WellFormed(c, s) && Run(c, s, ts) && i < |s.nodes|
    requires a < k <= |ts| && Emptied(ts[a], i)
    ensures i < |At(s, ts, k).nodes|
    ensures var node := NodeAt(s, ts, k, i);
            if node.hasEnergy then k - a >= Period(c) else node.tick <= k - a
    decreases k
  {
    hide Run, WellFormed, Emptied, At, NodeAt;
    NodeInRun(c, s, ts, k - 1, i);
    if k - 1 > a {
      RechargeTakesAPeriod(c, s, ts, i, a, k - 1);
    }
  }

  /** And no later: since its last emptying in turn a the node has counted one tick a turn, and it
      is charged exactly when a period has passed. */
  lemma {:induction false} RechargesOnTime(c: Config, s: State, ts: seq<TurnTrace>, i: nat, a: nat, k: nat)
    requires Playable(c) && WellFormed(c, s) && Run(c, s, ts) && i < |s.nodes|
    requires a < k <= |ts| && Emptied(ts[a], i) && forall b :: a < b < k ==> !Emptied(ts[b], i)
    ensures i < |At(s, ts, k).nodes|
    ensures NodeAt(s, ts, k, i).hasEnergy <==> k - a >= Period(c)
    ensures NodeAt(s, ts, k, i).tick == if k - a >= Period(c) then 0 else k - a
    decreases k
  {
    hide Run, WellFormed, Emptied, At, NodeAt;
    NodeInRun(c, s, ts, k - 1, i);
    if k - 1 > a {
      RechargesOnTime(c, s, ts, i, a, k - 1);
    }
  }

  /** A node not emptied since the opening goes on from the tick it opened with. */
  lemma {:induction false} FirstChargeOnTime(c: Config, s: State, ts: seq<TurnTrace>, i: nat, k: nat)
    requires Playable(c) && WellFormed(c, s) && Run(c, s, ts) && i < |s.nodes| && k <= |ts|
    requires forall b :: 0 <= b < k ==> !Emptied(ts[b], i)
    ensures i < |At(s, ts, k).nodes|
    ensures var node := NodeAt(s, ts, k, i);
            && (s.nodes[i].hasEnergy ==> node == s.nodes[i])
            && (!s.nodes[i].hasEnergy ==>
                  && (node.hasEnergy <==> k > 0 && s.nodes[i].tick + k >= c.energyInterval)
                  && node.tick == if node.hasEnergy then 0 else s.nodes[i].tick + k)
  {
    hide Run, WellFormed, Emptied;
    if k == 0 {
    } else {
      NodeInRun(c, s, ts, k - 1, i);
      hide At, NodeAt;
      FirstChargeOnTime(c, s, ts, i, k - 1);
    }
  }

  /** Two emptyings of one node lie at least a period apart, in every run. */
  lemma {:induction false} EmptyingsAreApart(c: Config, s: State, ts: seq<TurnTrace>, i: nat, a: nat, b: nat)
    requires Playable(c) && WellFormed(c, s) && Run(c, s, ts) && i < |s.nodes|
    requires a < b < |ts| && Emptied(ts[a], i) && Emptied(ts[b], i)
    ensures b - a >= Period(c)
  {
    hide Run, WellFormed, Emptied, At, NodeAt;
    RechargeTakesAPeriod(c, s, ts, i, a, b);
    NodeInRun(c, s, ts, b, i);
  }

  // ----- Counting emptyings -------------------------------------------------------

  ghost function Emptyings(ts: seq<TurnTrace>, k: nat, i: nat): nat
    requires k <= |ts|
  {
    if k == 0 then 0 else Emptyings(ts, k - 1, i) + (if Emptied(ts[k - 1], i) then 1 else 0)
  }

  lemma {:induction false} NoneInBetween(ts: seq<TurnTrace>, lo: nat, hi: nat, i: nat)
    requires lo <= hi <= |ts| && forall k :: lo <= k < hi ==> !Emptied(ts[k], i)
    ensures Emptyings(ts, hi, i) == Emptyings(ts, lo, i)
    decreases hi
  {
    hide Emptied;
    if lo < hi {
      NoneInBetween(ts, lo, hi - 1, i);
    }
  }

  /** At most one yield at once and one per period afterwards. */
  function Yield(c: Config, turns: nat): nat {
    if turns == 0 then 0 else 1 + (turns - 1) / Period(c)
  }

  lemma {:induction false} YieldGrows(c: Config, k: nat)
    ensures Yield(c, k) <= Yield(c, k + 1)
    ensures k >= Period(c) ==> Yield(c, k - Period(c)) + 1 <= Yield(c, k)
    ensures k > 0 ==> Yield(c, k) >= 1
  {
    var p := Period(c);
    hide Period;
    if k > 0 {
      QuotientGrows(k - 1, p);
    }
    if k > p {
      QuotientShift(k - 1 - p, p);
    }
  }

  lemma {:induction false} QuotientShift(x: nat, p: nat)
    requires p > 0
    ensures (x + p) / p == x / p + 1
  {
    var q, r := x / p, x % p;
    assert (q + 1) * p == q * p + p;
    ModuloIsUnique(x + p, p, q + 1, r);
  }

  lemma {:induction false} QuotientGrows(a: nat, p: nat)
    requires p > 0
    ensures a / p <= (a + 1) / p
  {
    var q, r := a / p, a % p;
    if r + 1 < p {
      ModuloIsUnique(a + 1, p, q, r + 1);
    } else {
      assert (q + 1) * p == q * p + p;
      ModuloIsUnique(a + 1, p, q + 1, 0);
    }
  }

  lemma {:induction false} EmptyingsAreBounded(c: Config, s: State, ts: seq<TurnTrace>, k: nat, i: nat)
    requires Playable(c) && WellFormed(c, s) && Run(c, s, ts) && i < |s.nodes| && k <= |ts|
    ensures Emptyings(ts, k, i) <= Yield(c, k)
  {
    hide Run, WellFormed, Emptied, Yield;
    YieldAtZero(c);
    if k == 0 {
    } else {
      YieldGrows(c, k - 1);
      YieldGrows(c, k);
      if !Emptied(ts[k - 1], i) {
        EmptyingsAreBounded(c, s, ts, k - 1, i);
      } else {
        var lo: nat := if k >= Period(c) then k - Period(c) else 0;
        forall a | lo <= a < k - 1
          ensures !Emptied(ts[a], i)
        {
          if Emptied(ts[a], i) {
            EmptyingsAreApart(c, s, ts, i, a, k - 1);
          }
        }
        NoneInBetween(ts, lo, k - 1, i);
        EmptyingsAreBounded(c, s, ts, lo, i);
      }
    }
  }

  lemma {:induction false} YieldAtZero(c: Config)
    ensures Yield(c, 0) == 0
  {
  }

  // ----- Collections are emptyings ------------------------------------------------

  ghost function EmptiedNow(t: TurnTrace, n: nat): nat {
    if n == 0 then 0 else EmptiedNow(t, n - 1) + (if Emptied(t, n - 1) then 1 else 0)
  }

  lemma {:induction false} TakenNodesEmpty(c: Config, bots: seq<Bot>, nodes: seq<EnergyNode>, i: nat)
    requires c.rows > 0 && c.cols > 0 && i < |nodes| && HarvestOf(c, bots, nodes[i]).Taken?
    ensures nodes[i].hasEnergy && !HarvestedNodes(c, bots, nodes, |nodes|)[i].hasEnergy
  {
    hide Near;
    assert HarvestIs(c, bots, nodes[i], HarvestOf(c, bots, nodes[i]));
  }

  lemma {:induction false} CollectionsAreEmptyings(c: Config, t: TurnTrace, n: nat)
    requires c.rows > 0 && c.cols > 0 && CollectStep(c, t.captured, t.collected) && n <= |t.captured.nodes|
    ensures Sum(CollectNotices(c, t.captured.bots, t.captured.nodes, n), Collected()) <= EmptiedNow(t, n)
  {
    hide HarvestOf;
    var bots, nodes := t.captured.bots, t.captured.nodes;
    if n == 0 {
    } else {
      CollectionsAreEmptyings(c, t, n - 1);
      var init := CollectNotices(c, bots, nodes, n - 1);
      var h := HarvestOf(c, bots, nodes[n - 1]);
      if h.Taken? {
        TakenNodesEmpty(c, bots, nodes, n - 1);
        SumAppend(init, EnergyCollected(n - 1, h.player), Collected());
      } else {
        assert CollectNotices(c, bots, nodes, n) == init;
      }
    }
  }

  /** Emptyings of the first n nodes over the first k turns. */
  ghost function AllEmptyings(ts: seq<TurnTrace>, k: nat, n: nat): nat
    requires k <= |ts|
  {
    if n == 0 then 0 else AllEmptyings(ts, k, n - 1) + Emptyings(ts, k, n - 1)
  }

  lemma {:induction false} OneMoreTurn(ts: seq<TurnTrace>, k: nat, n: nat)
    requires k < |ts|
    ensures AllEmptyings(ts, k + 1, n) == AllEmptyings(ts, k, n) + EmptiedNow(ts[k], n)
  {
    hide Emptied;
    if n == 0 {
    } else {
      OneMoreTurn(ts, k, n - 1);
    }
  }

  lemma {:induction false} NothingEmptied(ts: seq<TurnTrace>, n: nat)
    ensures AllEmptyings(ts, 0, n) == 0
  {
    if n == 0 {
    } else {
      NothingEmptied(ts, n - 1);
    }
  }

  lemma {:induction false} TurnCollectsWhatItEmpties(c: Config, s: State, t: TurnTrace)
    requires Playable(c) && WellFormed(c, s) && TurnStep(c, s, t)
    ensures Sum(t.ended.events, Collected()) <= EmptiedNow(t, |s.nodes|)
  {
    TurnWeighs(c, s, t, Collected());
    PhasesOf(c, s, t);
    TurnFrame(c, s, t);
    hide *;
    CollectionsAre(c, t);
    CollectionsAreEmptyings(c, t, |t.captured.nodes|);
  }

  lemma {:induction false} LogCollects(c: Config, s: State, ts: seq<TurnTrace>, k: nat)
    requires Playable(c) && WellFormed(c, s) && Run(c, s, ts) && k <= |ts|
    ensures Sum(Log(ts, k), Collected()) <= AllEmptyings(ts, k, |s.nodes|)
  {
    hide *;
    if k > 0 {
      LogCollects(c, s, ts, k - 1);
      RunSizes(c, s, ts, k - 1);
      EndgameOf(c, s, ts, k - 1);
      AtNext(s, ts, k - 1);
      TurnCollectsWhatItEmpties(c, At(s, ts, k - 1), ts[k - 1]);
      SumConcat(Log(ts, k - 1), ts[k - 1].ended.events, Collected());
      OneMoreTurn(ts, k - 1, |s.nodes|);
    } else {
      NothingLogged(ts);
      NothingEmptied(ts, |s.nodes|);
    }
  }

  lemma {:induction false} NothingLogged(ts: seq<TurnTrace>)
    ensures Sum(Log(ts, 0), Collected()) == 0
  {
  }

  lemma {:induction false} AllBounded(c: Config, s: State, ts: seq<TurnTrace>, k: nat, n: nat)
    requires Playable(c) && WellFormed(c, s) && Run(c, s, ts) && k <= |ts| && n <= |s.nodes|
    ensures AllEmptyings(ts, k, n) <= n * Yield(c, k)
  {
    hide Run, WellFormed, Yield;
    if n == 0 {
    } else {
      AllBounded(c, s, ts, k, n - 1);
      EmptyingsAreBounded(c, s, ts, k, n - 1);
      assert n * Yield(c, k) == (n - 1) * Yield(c, k) + Yield(c, k);
    }
  }

  lemma {:induction false} CollectedForPlayers(log: seq<Event>, n: int)
    ensures Sum(log, CollectedBelow(n)) <= Sum(log, Collected())
  {
    if log == [] {
    } else {
      CollectedForPlayers(log[..|log| - 1], n);
    }
  }

  /** After k >= 1 turns, the energy held and the energy spent on spawns, by all players
      together, is at most one unit per node and one more per node and full period. */
  lemma {:induction false} ProductionIsBounded(c: Config, s: State, ts: seq<TurnTrace>, k: nat)
    requires Playable(c) && Opening(c, s) && Run(c, s, ts) && 1 <= k <= |ts|
    ensures EnergyTotal(ts[k - 1].ticked.players) + c.spawnCost * Sum(Log(ts, k), SpawnedBelow(|s.players|))
            <= |s.nodes| * (1 + (k - 1) / Period(c))
  {
    hide *;
    OpeningIsWellFormed(c, s);
    YieldIs(c, k);
    BooksAround(c, s, ts, k - 1);
    AtNext(s, ts, k - 1);
    EndgameOf(c, s, ts, k - 1);
    LogCollects(c, s, ts, k);
    AllBounded(c, s, ts, k, |s.nodes|);
    EnergyHeldByAll(c, ts[k - 1].ticked, Log(ts, k));
    CollectedForPlayers(Log(ts, k), |s.players|);
  }

  lemma {:induction false} YieldIs(c: Config, k: nat)
    requires k >= 1
    ensures Yield(c, k) == 1 + (k - 1) / Period(c)
  {
  }
}

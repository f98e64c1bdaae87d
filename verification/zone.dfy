/** The storm over a whole run: its radius in closed form, and whom it kills. */
module Zone {
  import opened Torus
  import opened GameTypes
  import opened Rules
  import opened Runs

  function Max(x: int, y: int): int {
    if x < y then y else x
  }

  /** A usable schedule: shrinking, towards a minimum no larger than the first radius. */
  predicate Scheduled(c: Config) {
    && Playable(c) && c.zoneEnabled && c.zoneStartTurn >= 0 && c.zoneShrinkInterval >= 1
    && c.zoneShrinkStep >= 0 && c.zoneMinRadius <= InitialRadius(c)
  }

  /** One step per full interval since the start turn, never below the minimum. */
  function ClosedRadius(c: Config, turn: int): int
    requires Scheduled(c) && turn >= c.zoneStartTurn
  {
    Max(c.zoneMinRadius, InitialRadius(c) - c.zoneShrinkStep * ((turn - c.zoneStartTurn) / c.zoneShrinkInterval))
  }

  lemma QuotientStep(a: int, n: int)
    requires a >= 0 && n >= 1
    ensures (a + 1) / n == a / n + (if (a + 1) % n == 0 then 1 else 0)
  {
    var q, r := a / n, a % n;
    assert a == q * n + r;
    if r + 1 == n {
      assert (q + 1) * n == q * n + n;
      ModuloIsUnique(a + 1, n, q + 1, 0);
    } else {
      ModuloIsUnique(a + 1, n, q, r + 1);
    }
  }

  lemma OneStepDown(step: int, q: int)
    ensures step * (q + 1) == step * q + step
  {
  }

  /** The turn after one with the closed-form radius has it too. */
  lemma ShrinkFollowsSchedule(c: Config, s: State)
    requires Scheduled(c) && s.zoneActive && s.turn - 1 >= c.zoneStartTurn
             && s.zoneRadius == ClosedRadius(c, s.turn - 1)
    ensures ShrunkRadius(c, s) == ClosedRadius(c, s.turn)
  {
    hide InitialRadius;
    var a := s.turn - 1 - c.zoneStartTurn;
    QuotientStep(a, c.zoneShrinkInterval);
    OneStepDown(c.zoneShrinkStep, a / c.zoneShrinkInterval);
  }

  lemma FirstRadius(c: Config, s: State)
    requires Scheduled(c) && s.zoneActive && s.turn == c.zoneStartTurn && s.zoneRadius == InitialRadius(c)
    ensures ShrunkRadius(c, s) == ClosedRadius(c, s.turn)
  {
    hide InitialRadius;
    ModuloIsUnique(0, c.zoneShrinkInterval, 0, 0);
  }

  lemma RadiusAtStart(c: Config)
    requires Scheduled(c)
    ensures ClosedRadius(c, c.zoneStartTurn) == InitialRadius(c)
  {
    hide InitialRadius;
    ModuloIsUnique(0, c.zoneShrinkInterval, 0, 0);
  }

  /** The first radius is nine tenths of the way to the nearer edge, rounded down, and at least 7. */
  lemma FirstRadiusIsNineTenths(c: Config)
    requires c.rows > 0 && c.cols > 0
    ensures var r := InitialRadius(c);
            var half := if c.rows / 2 < c.cols / 2 then c.rows / 2 else c.cols / 2;
            r >= 7 && (if 9 * half < 70 then r == 7 else 10 * r <= 9 * half < 10 * r + 10)
  {
  }

  /** One turn: awake from the start turn on, at the closed-form radius, deadly beyond it. */
  ghost predicate StormRaged(c: Config, t: TurnTrace, turn: int)
    requires Scheduled(c)
  {
    && t.sheltered.turn == turn && |t.sheltered.bots| == |t.fought.bots|
    && (t.sheltered.zoneActive <==> turn >= c.zoneStartTurn)
    && (turn >= c.zoneStartTurn ==> t.sheltered.zoneRadius == ClosedRadius(c, turn))
    && forall i :: 0 <= i < |t.fought.bots| ==>
         (t.sheltered.bots[i].alive <==>
            t.fought.bots[i].alive
            && (turn >= c.zoneStartTurn ==>
                  Distance2(t.fought.bots[i].pos, t.fought.zoneCenter, c.rows, c.cols)
                  <= ClosedRadius(c, turn) * ClosedRadius(c, turn)))
  }

  /** The zone between turns. */
  ghost predicate StormStands(c: Config, s: State, turn: nat)
    requires Scheduled(c)
  {
    && (s.zoneActive <==> turn >= 1 && turn >= c.zoneStartTurn)
    && (s.zoneActive ==> s.zoneRadius == ClosedRadius(c, turn))
  }

  lemma StormTurn(c: Config, s: State, t: TurnTrace, turn: nat)
    requires Scheduled(c) && WellFormed(c, s) && TurnStep(c, s, t) && s.turn == turn && StormStands(c, s, turn)
    ensures StormRaged(c, t, turn + 1) && StormStands(c, t.ended, turn + 1)
  {
    hide WellFormed, MoveStep, CombatStep, CaptureStep, CollectStep, SpawnStep, TickStep, EndgameStep, ClosedRadius,
      Distance2, InitialRadius;
    TurnFrame(c, s, t);
    if turn + 1 >= c.zoneStartTurn {
      RadiusAtStart(c);
      if s.zoneActive || turn == c.zoneStartTurn {
        ShrinkFollowsSchedule(c, t.fought);
      } else {
        FirstRadius(c, t.fought);
      }
    }
    hide ShrunkRadius;
  }

  /** In every run the storm strikes first on its start turn, at that radius. */
  lemma FirstStrike(c: Config, s: State, ts: seq<TurnTrace>, k: nat)
    requires Scheduled(c) && Opening(c, s) && Run(c, s, ts) && k < |ts| && k + 1 == c.zoneStartTurn
    ensures ts[k].sheltered.zoneActive
    ensures var r := ts[k].sheltered.zoneRadius;
            var half := if c.rows / 2 < c.cols / 2 then c.rows / 2 else c.cols / 2;
            r >= 7 && (if 9 * half < 70 then r == 7 else 10 * r <= 9 * half < 10 * r + 10)
  {
    hide Opening, TurnStep, ClosedRadius, InitialRadius;
    StormInClosedForm(c, s, ts, k);
    RadiusAtStart(c);
    FirstRadiusIsNineTenths(c);
  }

  lemma {:induction false} StormStandsThroughout(c: Config, s: State, ts: seq<TurnTrace>, k: nat)
    requires Scheduled(c) && Opening(c, s) && Run(c, s, ts) && k <= |ts|
    ensures StormStands(c, At(s, ts, k), k)
  {
    hide TurnStep, WellFormed, ClosedRadius;
    if k == 0 {
    } else {
      StormStandsThroughout(c, s, ts, k - 1);
      OpeningIsWellFormed(c, s);
      RunStaysWellFormed(c, s, ts, k - 1);
      assert TurnStep(c, At(s, ts, k - 1), ts[k - 1]);
      StormTurn(c, At(s, ts, k - 1), ts[k - 1], k - 1);
    }
  }

  /** In every run, turn k + 1 has the storm at its closed-form radius, and the bots alive
      after the zone phase are exactly those alive before it within that radius. */
  lemma StormInClosedForm(c: Config, s: State, ts: seq<TurnTrace>, k: nat)
    requires Scheduled(c) && Opening(c, s) && Run(c, s, ts) && k < |ts|
    ensures StormRaged(c, ts[k], k + 1) && ts[k].fought.zoneCenter == s.zoneCenter
  {
    hide TurnStep, WellFormed, StormRaged;
    StormStandsThroughout(c, s, ts, k);
    OpeningIsWellFormed(c, s);
    RunStaysWellFormed(c, s, ts, k);
    RunSizes(c, s, ts, k);
    assert TurnStep(c, At(s, ts, k), ts[k]);
    StormTurn(c, At(s, ts, k), ts[k], k);
    TurnFrame(c, At(s, ts, k), ts[k]);
  }
}

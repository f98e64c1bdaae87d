/** Verdicts are justified by the history of the run: dominance and stalemate counters equal
    streaks over the recorded turns. */
module Verdicts {
  import opened Torus
  import opened Tally
  import opened GameTypes
  import opened Rules
  import opened EndLoop
  import opened Runs

  // ----- Dominance ----------------------------------------------------------------

  ghost function LivingBots(bots: seq<Bot>): set<nat> {
    set i: nat | i < |bots| && bots[i].alive
  }

  ghost function LivingBotsOf(bots: seq<Bot>, p: int): set<nat> {
    set i: nat | i < |bots| && bots[i].alive && bots[i].owner == p
  }

  /** Player p has at least four of every five living bots. */
  ghost predicate HoldsFourFifths(bots: seq<Bot>, p: int) {
    5 * |LivingBotsOf(bots, p)| >= 4 * |LivingBots(bots)|
  }

  lemma {:induction false} LivingIsCount(bots: seq<Bot>, p: int)
    ensures Living(bots, p) == |LivingBotsOf(bots, p)| && LivingTotal(bots) == |LivingBots(bots)|
  {
    SumIsCount(bots, LivingOf(p));
    SumIsCount(bots, Alive());
    assert Marked(bots, LivingOf(p)) == LivingBotsOf(bots, p);
    assert Marked(bots, Alive()) == LivingBots(bots);
  }

  /** For how many turns, up to and including turn k, player p has held four fifths of the bots. */
  ghost function HeldStreak(ts: seq<TurnTrace>, k: nat, p: int): nat
    requires k <= |ts|
  {
    if k == 0 then 0
    else if HoldsFourFifths(ts[k - 1].ended.bots, p) then HeldStreak(ts, k - 1, p) + 1
    else 0
  }

  lemma {:induction false} HeldThroughout(ts: seq<TurnTrace>, k: nat, p: int, j: nat)
    requires k <= |ts| && k - HeldStreak(ts, k, p) <= j < k
    ensures HoldsFourFifths(ts[j].ended.bots, p)
  {
    hide HoldsFourFifths;
    if j < k - 1 {
      HeldThroughout(ts, k - 1, p, j);
    }
  }

  /** Two players cannot both hold four fifths of a living population. */
  lemma {:induction false} OneDominates(bots: seq<Bot>, p: int, q: int)
    requires |LivingBots(bots)| > 0 && HoldsFourFifths(bots, p) && HoldsFourFifths(bots, q)
    ensures p == q
  {
    if p != q {
      var ps, qs := LivingBotsOf(bots, p), LivingBotsOf(bots, q);
      assert |ps + qs| == |ps| + |qs|;
      SubsetSize(ps + qs, LivingBots(bots));
    }
  }

  /** The counters between turns are the streaks, and at most one is running. */
  ghost predicate CountersAreStreaks(s: State, ts: seq<TurnTrace>, k: nat)
    requires k <= |ts|
  {
    && (forall p :: 0 <= p < |s.players| ==> p in s.dominance && s.dominance[p] == HeldStreak(ts, k, p))
    && forall p, q :: 0 <= p < |s.players| && 0 <= q < |s.players| && p != q ==>
         HeldStreak(ts, k, p) == 0 || HeldStreak(ts, k, q) == 0
  }

  /** When a match goes on, somebody lives. */
  lemma {:induction false} GoingOnMeansLife(c: Config, s: State, s': State)
    requires EndgameStep(c, s, s', Ongoing)
    ensures LivingTotal(s.bots) > 0
    ensures ClosingStep(c, s, s', Ongoing) && !exists p :: Crowned(s, p)
  {
    hide Survives, Crowned, SoleSurvivorIs, ClosingStep;
    var p :| Survives(s, p);
    SurvivorsCount(s, p);
  }

  lemma {:induction false} OngoingCounters(c: Config, s: State, s': State, p: nat)
    requires ClosingStep(c, s, s', Ongoing) && p in s.dominance && p < |s.players|
    ensures p in s'.dominance && s'.dominance[p] == if Dominates(s, p) then s.dominance[p] + 1 else 0
    ensures s'.bots == s.bots && |s'.players| == |s.players|
  {
    hide Dominates, Quiet, Leads, Reports;
  }

  lemma {:induction false} CountersStep(c: Config, s: State, s': State, ts: seq<TurnTrace>, k: nat)
    requires 0 < k <= |ts| && ts[k - 1].ended == s' && CountersAreStreaks(s, ts, k - 1)
    requires ClosingStep(c, s, s', Ongoing) && LivingTotal(s.bots) > 0
    ensures CountersAreStreaks(s', ts, k)
  {
    hide Dominates, HoldsFourFifths, ClosingStep;
    OngoingBots(c, s, s');
    forall p | 0 <= p < |s.players|
      ensures p in s'.dominance && s'.dominance[p] == HeldStreak(ts, k, p)
    {
      OngoingCounters(c, s, s', p);
      DominanceIsByBots(s, s', p);
    }
    LivingIsCount(s.bots, 0);
    forall p, q | 0 <= p < |s'.players| && 0 <= q < |s'.players| && p != q
      ensures HeldStreak(ts, k, p) == 0 || HeldStreak(ts, k, q) == 0
    {
      if HoldsFourFifths(s'.bots, p) && HoldsFourFifths(s'.bots, q) {
        OneDominates(s'.bots, p, q);
      }
    }
  }

  lemma {:induction false} OngoingBots(c: Config, s: State, s': State)
    requires ClosingStep(c, s, s', Ongoing)
    ensures s'.bots == s.bots && |s'.players| == |s.players|
  {
  }

  lemma {:induction false} CountersCarry(s: State, s': State, ts: seq<TurnTrace>, k: nat)
    requires k <= |ts| && CountersAreStreaks(s, ts, k) && s'.dominance == s.dominance && |s'.players| == |s.players|
    ensures CountersAreStreaks(s', ts, k)
  {
  }

  /** One turn of the run, given the counters before it. */
  lemma {:induction false} CountersTurn(c: Config, s: State, ts: seq<TurnTrace>, j: nat)
    requires Playable(c) && WellFormed(c, s) && Run(c, s, ts) && j < |ts| && ts[j].verdict == Ongoing
    requires CountersAreStreaks(At(s, ts, j), ts, j)
    ensures CountersAreStreaks(ts[j].ended, ts, j + 1)
  {
    hide *;
    var t := ts[j];
    EndgameOf(c, s, ts, j);
    GoingOnMeansLife(c, t.ticked, t.ended);
    CountersCarry(At(s, ts, j), t.ticked, ts, j);
    CountersStep(c, t.ticked, t.ended, ts, j + 1);
  }

  lemma {:induction false} CountersThroughout(c: Config, s: State, ts: seq<TurnTrace>, k: nat)
    requires Playable(c) && Opening(c, s) && Run(c, s, ts) && k <= |ts|
    requires k > 0 ==> ts[k - 1].verdict == Ongoing
    ensures CountersAreStreaks(At(s, ts, k), ts, k)
  {
    hide *;
    OpeningIsWellFormed(c, s);
    if k == 0 {
      CountersBegin(c, s, ts);
    } else {
      RunGoesOn(c, s, ts, k - 1);
      CountersThroughout(c, s, ts, k - 1);
      CountersTurn(c, s, ts, k - 1);
      AtNext(s, ts, k - 1);
    }
  }

  lemma {:induction false} CountersBegin(c: Config, s: State, ts: seq<TurnTrace>)
    requires Opening(c, s)
    ensures CountersAreStreaks(At(s, ts, 0), ts, 0)
  {
    OpeningCounters(c, s);
    hide Opening;
  }

  lemma {:induction false} OpeningCounters(c: Config, s: State)
    requires Opening(c, s)
    ensures WellFormed(c, s)
    ensures forall p :: 0 <= p < |s.players| ==> p in s.dominance && s.dominance[p] == 0
  {
  }

  lemma {:induction false} DominanceIsByBots(s: State, s': State, p: int)
    requires s'.bots == s.bots
    ensures HoldsFourFifths(s'.bots, p) == Dominates(s, p)
  {
    LivingIsCount(s.bots, p);
  }

  /** The state a dominance verdict was reached in, with the counters as streaks. */
  lemma {:induction false} CrownedLast(c: Config, s: State, ts: seq<TurnTrace>, k: nat, w: int)
    requires Playable(c) && Opening(c, s) && Run(c, s, ts) && k == |ts| - 1
    requires ts[k].verdict.Ended? && ts[k].verdict.result.reason == Dominance && w == ts[k].verdict.result.winner
    ensures CountersAreStreaks(ts[k].ticked, ts, k) && 0 <= w < |s.players| && |ts[k].ticked.players| == |s.players|
    ensures w in ts[k].ticked.dominance && Dominates(ts[k].ticked, w)
            && ts[k].ticked.dominance[w] + 1 >= 100
    ensures ts[k].ended.bots == ts[k].ticked.bots && HeldStreak(ts, k, w) < 100
  {
    OpeningIsWellFormed(c, s);
    RunGoesOn(c, s, ts, k);
    hide *;
    EndgameOf(c, s, ts, k);
    CrownedWinner(c, ts[k].ticked, ts[k].ended, ts[k].verdict);
    CountersThroughout(c, s, ts, k);
    CountersCarry(At(s, ts, k), ts[k].ticked, ts, k);
    NotCrownedBefore(c, s, ts, k, w);
  }

  lemma {:induction false} RunGoesOn(c: Config, s: State, ts: seq<TurnTrace>, k: nat)
    requires Playable(c) && Run(c, s, ts) && k < |ts|
    ensures k > 0 ==> ts[k - 1].verdict == Ongoing
  {
  }

  lemma {:induction false} LastTurnCounts(ts: seq<TurnTrace>, n: nat, s: State, w: int)
    requires 0 < n <= |ts| && CountersAreStreaks(s, ts, n - 1) && 0 <= w < |s.players| && w in s.dominance
    requires Dominates(s, w) && ts[n - 1].ended.bots == s.bots
    ensures HeldStreak(ts, n, w) == s.dominance[w] + 1 == HeldStreak(ts, n - 1, w) + 1
  {
    DominanceIsByBots(s, ts[n - 1].ended, w);
    hide Dominates, HoldsFourFifths;
  }

  lemma {:induction false} CrownedStreak(c: Config, s: State, ts: seq<TurnTrace>, k: nat, w: int)
    requires Playable(c) && Opening(c, s) && Run(c, s, ts) && k == |ts| - 1
    requires ts[k].verdict.Ended? && ts[k].verdict.result.reason == Dominance && w == ts[k].verdict.result.winner
    ensures 0 <= w < |s.players| && HeldStreak(ts, k + 1, w) == 100
  {
    hide *;
    CrownedLast(c, s, ts, k, w);
    LastTurnCounts(ts, k + 1, ts[k].ticked, w);
  }

  /** A dominance verdict after k + 1 turns: the winner w held at least four fifths of the
      living bots at the end of each of the last hundred, and the streak was not longer. */
  lemma {:induction false} DominanceIsEarned(c: Config, s: State, ts: seq<TurnTrace>, k: nat, w: int)
    requires Playable(c) && Opening(c, s) && Run(c, s, ts) && k == |ts| - 1
    requires ts[k].verdict.Ended? && ts[k].verdict.result.reason == Dominance && w == ts[k].verdict.result.winner
    ensures 0 <= w < |s.players| && HeldStreak(ts, k + 1, w) == 100 <= k + 1
    ensures forall j :: k + 1 - 100 <= j <= k ==> HoldsFourFifths(ts[j].ended.bots, w)
  {
    hide *;
    CrownedStreak(c, s, ts, k, w);
    StreakWithin(ts, k + 1, w);
    forall j | k + 1 - 100 <= j <= k
      ensures HoldsFourFifths(ts[j].ended.bots, w)
    {
      HeldThroughout(ts, k + 1, w, j);
    }
  }

  lemma {:induction false} StreakWithin(ts: seq<TurnTrace>, k: nat, p: int)
    requires k <= |ts|
    ensures HeldStreak(ts, k, p) <= k
  {
    hide HoldsFourFifths;
    if k == 0 {
    } else {
      StreakWithin(ts, k - 1, p);
    }
  }

  lemma {:induction false} CrownedWinner(c: Config, s: State, s': State, v: Verdict)
    requires EndgameStep(c, s, s', v) && v.Ended? && v.result.reason == Dominance
    ensures var w := v.result.winner;
            0 <= w < |s.players| && w in s.dominance && Dominates(s, w) && s.dominance[w] + 1 >= 100
  {
    hide Survives, SoleSurvivorIs, Dominates, Leads, Quiet;
    if exists w :: SoleSurvivorIs(s, w) {
    } else if forall p :: !Survives(s, p) {
    } else if exists p :: Crowned(s, p) {
      var p :| DominanceStep(s, p, s', v);
    }
  }

  /** A player who is not crowned has a streak below the limit. */
  lemma {:induction false} UncrownedStreak(s: State, s': State, ts: seq<TurnTrace>, k: nat, p: int)
    requires 0 < k <= |ts| && ts[k - 1].ended == s' && s'.bots == s.bots
    requires CountersAreStreaks(s, ts, k - 1) && 0 <= p < |s.players| && !Crowned(s, p)
    ensures HeldStreak(ts, k, p) < 100
  {
    DominanceIsByBots(s, s', p);
    hide Dominates, HoldsFourFifths;
  }

  lemma {:induction false} UncrownedTurn(c: Config, s: State, ts: seq<TurnTrace>, j: nat, p: int)
    requires Playable(c) && Opening(c, s) && Run(c, s, ts) && j < |ts| && 0 <= p < |s.players|
    requires ts[j].verdict == Ongoing
    ensures HeldStreak(ts, j + 1, p) < 100
  {
    OpeningIsWellFormed(c, s);
    RunGoesOn(c, s, ts, j);
    hide *;
    var t := ts[j];
    EndgameOf(c, s, ts, j);
    CountersThroughout(c, s, ts, j);
    CountersCarry(At(s, ts, j), t.ticked, ts, j);
    GoingOnMeansLife(c, t.ticked, t.ended);
    UncrownedStreak(t.ticked, t.ended, ts, j + 1, p);
  }

  /** As long as the match goes on no streak has reached the limit. */
  lemma {:induction false} NotCrownedBefore(c: Config, s: State, ts: seq<TurnTrace>, k: nat, p: int)
    requires Playable(c) && Opening(c, s) && Run(c, s, ts) && k <= |ts| && 0 <= p < |s.players|
    requires k > 0 ==> ts[k - 1].verdict == Ongoing
    ensures HeldStreak(ts, k, p) < 100
  {
    hide *;
    if k == 0 {
      NoStreakYet(ts, p);
    } else {
      UncrownedTurn(c, s, ts, k - 1, p);
    }
  }

  lemma {:induction false} NoStreakYet(ts: seq<TurnTrace>, p: int)
    ensures HeldStreak(ts, 0, p) < 100
  {
  }

  // ----- Elimination --------------------------------------------------------------

  /** Elimination is about bots alone: a match ends by it exactly when a single player has living
      bots, and that player wins, whatever cores are left. */
  lemma EliminationIsByBots(c: Config, s: State, s': State, v: Verdict, w: int)
    requires EndgameStep(c, s, s', v)
    ensures v.Ended? && v.result.reason == Elimination && v.result.winner == w <==> SoleSurvivorIs(s, w)
  {
    hide Survives, Crowned, Leads, Watched, DominanceAfter, Dominates;
    if u :| SoleSurvivorIs(s, u) {
      var x :| EliminationStep(s, x, s', v);
      assert x == u;
    }
  }

  /** For one, a lone bot without any core wins over a player whose core still stands. */
  lemma CorelessSurvivorWins(c: Config, s: State, s': State, v: Verdict, a: Position, b: Position)
    requires EndgameStep(c, s, s', v)
    requires s.bots == [Bot(0, 0, a, true)] && s.cores == [Core(b, 1, true, 0, 0)]
    ensures v.Ended? && v.result.winner == 0 && v.result.reason == Elimination
  {
    assert s.bots[0].alive && s.bots[0].owner == 0;
    EliminationIsByBots(c, s, s', v, 0);
  }
}

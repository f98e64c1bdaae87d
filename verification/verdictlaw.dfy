/** The whole endgame check over a run: which verdict is due when, and what the result says. */
module VerdictTable {
  import opened Tally
  import opened GameTypes
  import opened Rules
  import opened Runs
  import opened Verdicts
  import opened StalemateVerdicts

  /** Every living bot, and there are some, belongs to w. */
  ghost predicate LoneSurvivor(bots: seq<Bot>, w: int) {
    LivingBotsOf(bots, w) != {} && LivingBotsOf(bots, w) == LivingBots(bots)
  }

  /** Nobody has a better score, nor at equal score more energy, nor at equal energy more bots;
      of equals the first is taken. */
  ghost predicate Best(r: MatchResult, w: int) {
    && |r.energy| == |r.scores| == |r.botsAlive| && 0 <= w < |r.scores|
    && forall p :: 0 <= p < |r.scores| ==> NotBehind(r, w, p)
  }

  ghost predicate NotBehind(r: MatchResult, w: int, p: int)
    requires |r.energy| == |r.scores| == |r.botsAlive| && 0 <= w < |r.scores| && 0 <= p < |r.scores|
  {
    && r.scores[p] <= r.scores[w]
    && (r.scores[p] == r.scores[w] ==> r.energy[p] <= r.energy[w])
    && (r.scores[p] == r.scores[w] && r.energy[p] == r.energy[w] ==> r.botsAlive[p] <= r.botsAlive[w])
    && (r.scores[p] == r.scores[w] && r.energy[p] == r.energy[w] && r.botsAlive[p] == r.botsAlive[w] ==> w <= p)
  }

  /** The result tells the state it was drawn up in. */
  ghost predicate Tells(s: State, r: MatchResult) {
    && r.turns == s.turn && |r.energy| == |r.scores| == |r.botsAlive| == |s.players|
    && forall p :: 0 <= p < |s.players| ==>
         && r.scores[p] == s.players[p].score && r.energy[p] == s.players[p].energy
         && r.botsAlive[p] == |LivingBotsOf(s.bots, p)|
  }

  ghost predicate EndsBy(v: Verdict, reason: Reason) {
    v.Ended? && v.result.reason == reason
  }

  /** After k + 1 turns player p has held four fifths for a hundred. */
  ghost predicate HeldAHundred(ts: seq<TurnTrace>, k: nat, p: int)
    requires k < |ts|
  {
    0 <= p < |ts[k].ended.players| && HeldStreak(ts, k + 1, p) == 100
  }

  /** The verdict after k + 1 turns, by the first case that applies. */
  ghost predicate Due(c: Config, ts: seq<TurnTrace>, k: nat, v: Verdict)
    requires k < |ts|
  {
    var t := ts[k].ended;
    if exists w :: LoneSurvivor(t.bots, w) then
      EndsBy(v, Elimination) && LoneSurvivor(t.bots, v.result.winner)
    else if LivingBots(t.bots) == {} then
      EndsBy(v, Draw) && v.result.winner == -1
    else if exists p :: HeldAHundred(ts, k, p) then
      EndsBy(v, Dominance) && HeldAHundred(ts, k, v.result.winner)
    else if QuietStreak(ts, k + 1) == 50 then
      EndsBy(v, Stalemate) && Best(v.result, v.result.winner)
    else if k + 1 >= c.maxTurns then
      EndsBy(v, Turns) && Best(v.result, v.result.winner)
    else v == Ongoing
  }

  // ----- The cases ----------------------------------------------------------------

  lemma SurvivorsAreBots(s: State)
    ensures forall w :: SoleSurvivorIs(s, w) <==> LoneSurvivor(s.bots, w)
    ensures (forall p :: !Survives(s, p)) <==> LivingBots(s.bots) == {}
  {
    forall p
      ensures Survives(s, p) <==> LivingBotsOf(s.bots, p) != {}
    {
      SurvivesIs(s, p);
    }
    forall w
      ensures SoleSurvivorIs(s, w) <==> LoneSurvivor(s.bots, w)
    {
      SoleIs(s, w);
    }
    if i :| i in LivingBots(s.bots) {
      assert Survives(s, s.bots[i].owner);
    }
    assert forall p :: LivingBotsOf(s.bots, p) <= LivingBots(s.bots);
  }

  lemma SurvivesIs(s: State, p: int)
    ensures Survives(s, p) <==> LivingBotsOf(s.bots, p) != {}
  {
    if i :| 0 <= i < |s.bots| && s.bots[i].alive && s.bots[i].owner == p {
      assert i in LivingBotsOf(s.bots, p);
    }
    if i :| i in LivingBotsOf(s.bots, p) {
    }
  }

  lemma SoleIs(s: State, w: int)
    ensures SoleSurvivorIs(s, w) <==> LoneSurvivor(s.bots, w)
  {
    SurvivesIs(s, w);
    if SoleSurvivorIs(s, w) {
      forall i | i in LivingBots(s.bots)
        ensures i in LivingBotsOf(s.bots, w)
      {
        assert Survives(s, s.bots[i].owner);
      }
      assert LivingBotsOf(s.bots, w) == LivingBots(s.bots);
    }
    if LoneSurvivor(s.bots, w) {
      forall r | Survives(s, r)
        ensures r == w
      {
        var i :| 0 <= i < |s.bots| && s.bots[i].alive && s.bots[i].owner == r;
        assert i in LivingBots(s.bots);
      }
    }
  }

  lemma LeaderIsBest(s: State, r: MatchResult, w: int, reason: Reason)
    requires Leads(s, w) && Reports(s, r, w, reason)
    ensures Best(r, w) && Tells(s, r)
  {
    ReportTells(s, r, w, reason);
    forall p | 0 <= p < |s.players|
      ensures NotBehind(r, w, p)
    {
      LeaderIsNotBehind(s, r, w, reason, p);
    }
  }

  lemma LeaderIsNotBehind(s: State, r: MatchResult, w: int, reason: Reason, p: int)
    requires Leads(s, w) && Reports(s, r, w, reason) && 0 <= p < |s.players|
    ensures NotBehind(r, w, p)
  {
    assert !Ahead(s, p, w) && (p < w ==> Ahead(s, w, p));
    assert r.scores[p] == s.players[p].score && r.scores[w] == s.players[w].score;
    hide Living;
  }

  lemma ReportTells(s: State, r: MatchResult, w: int, reason: Reason)
    requires Reports(s, r, w, reason)
    ensures Tells(s, r)
  {
    forall p | 0 <= p < |s.players|
      ensures r.botsAlive[p] == |LivingBotsOf(s.bots, p)|
    {
      LivingIsCount(s.bots, p);
    }
    hide Living, LivingBotsOf;
  }

  lemma {:induction false} CrownedMeansHundred(s: State, ts: seq<TurnTrace>, k: nat, p: int)
    requires k < |ts| && CountersAreStreaks(s, ts, k) && ts[k].ended.bots == s.bots && 0 <= p < |s.players|
    requires HeldStreak(ts, k, p) < 100
    requires |ts[k].ended.players| == |s.players|
    ensures Crowned(s, p) <==> HeldAHundred(ts, k, p)
  {
    DominanceIsByBots(s, ts[k].ended, p);
    hide Dominates, HoldsFourFifths;
  }

  lemma ClosingVerdict(c: Config, s: State, s': State, v: Verdict)
    requires ClosingStep(c, s, s', v)
    ensures s'.stalemateTurns >= 50 ==> EndsBy(v, Stalemate) && Best(v.result, v.result.winner) && Tells(s', v.result)
    ensures s'.stalemateTurns < 50 && s'.turn >= c.maxTurns ==>
              EndsBy(v, Turns) && Best(v.result, v.result.winner) && Tells(s', v.result)
    ensures s'.stalemateTurns < 50 && s'.turn < c.maxTurns ==> v == Ongoing
  {
    hide Leads, Reports, Best, Tells;
    if s'.stalemateTurns >= 50 {
      LeaderIsBest(s', v.result, v.result.winner, Stalemate);
      ReportNames(s', v.result, v.result.winner, Stalemate);
    } else if s'.turn >= c.maxTurns {
      LeaderIsBest(s', v.result, v.result.winner, Turns);
      ReportNames(s', v.result, v.result.winner, Turns);
    }
  }

  /** What the check concludes from the survivors and the crowned. */
  lemma CheckConcludes(c: Config, s: State, s': State, v: Verdict)
    requires EndgameStep(c, s, s', v)
    ensures s'.bots == s.bots && |s'.players| == |s.players|
    ensures var crowned := exists p :: Crowned(s, p);
            if exists w :: LoneSurvivor(s.bots, w) then EndsBy(v, Elimination) && LoneSurvivor(s.bots, v.result.winner)
            else if LivingBots(s.bots) == {} then EndsBy(v, Draw) && v.result.winner == -1
            else if crowned then EndsBy(v, Dominance) && Crowned(s, v.result.winner)
            else ClosingStep(c, s, s', v)
    ensures v.Ended? ==> Tells(s', v.result)
  {
    SurvivorsAreBots(s);
    EndgameFrame(c, s, s', v);
    hide Survives, SoleSurvivorIs, LoneSurvivor, LivingBots, Crowned, ClosingStep, Reports, Tells, DominanceAfter;
    if exists w :: SoleSurvivorIs(s, w) {
      var w :| EliminationStep(s, w, s', v);
      ReportTells(s', v.result, w, Elimination);
      ReportNames(s', v.result, w, Elimination);
    } else if forall p :: !Survives(s, p) {
      ReportTells(s', v.result, -1, Draw);
      ReportNames(s', v.result, -1, Draw);
    } else if exists p :: Crowned(s, p) {
      var p :| DominanceStep(s, p, s', v);
      ReportTells(s', v.result, p, Dominance);
      ReportNames(s', v.result, p, Dominance);
    } else {
      ClosingVerdict(c, s, s', v);
    }
  }

  lemma ReportNames(s: State, r: MatchResult, w: int, reason: Reason)
    requires Reports(s, r, w, reason)
    ensures r.winner == w && r.reason == reason
  {
  }

  // ----- Over a run ---------------------------------------------------------------

  lemma {:induction false} CrownsInRun(c: Config, s: State, ts: seq<TurnTrace>, k: nat)
    requires Playable(c) && Opening(c, s) && Run(c, s, ts) && k < |ts|
    ensures |ts[k].ticked.players| == |s.players|
    ensures forall p :: Crowned(ts[k].ticked, p) <==> HeldAHundred(ts, k, p)
  {
    hide *;
    OpeningIsWellFormed(c, s);
    RunGoesOn(c, s, ts, k);
    EndgameOf(c, s, ts, k);
    CountersThroughout(c, s, ts, k);
    CountersCarry(At(s, ts, k), ts[k].ticked, ts, k);
    forall p
      ensures Crowned(ts[k].ticked, p) <==> HeldAHundred(ts, k, p)
    {
      if 0 <= p < |s.players| {
        NotCrownedBefore(c, s, ts, k, p);
        CrownedMeansHundred(ts[k].ticked, ts, k, p);
      } else {
        CrownedIsPlayer(ts[k].ticked, ts, k, p);
      }
    }
  }

  lemma CrownedIsPlayer(s: State, ts: seq<TurnTrace>, k: nat, p: int)
    requires k < |ts| && |ts[k].ended.players| == |s.players|
    ensures Crowned(s, p) || HeldAHundred(ts, k, p) ==> 0 <= p < |s.players|
  {
  }

  lemma {:induction false} QuietInRun(c: Config, s: State, ts: seq<TurnTrace>, k: nat)
    requires Playable(c) && Opening(c, s) && Run(c, s, ts) && k < |ts|
    requires ClosingStep(c, ts[k].ticked, ts[k].ended, ts[k].verdict) && LivingTotal(ts[k].ticked.bots) > 0
    ensures ts[k].ended.stalemateTurns == QuietStreak(ts, k + 1) <= 50
  {
    hide *;
    OpeningIsWellFormed(c, s);
    RunGoesOn(c, s, ts, k);
    EndgameOf(c, s, ts, k);
    WatchThroughout(c, s, ts, k);
    NotStaleBefore(c, s, ts, k);
    BooksAround(c, s, ts, k);
    WatchStep(c, At(s, ts, k), ts[k], Log(ts, k), ts, k + 1);
    WatchedStreak(ts[k].ended, ts, k);
  }

  lemma LifeIsCounted(bots: seq<Bot>)
    ensures LivingBots(bots) != {} ==> LivingTotal(bots) > 0
  {
    LivingIsCount(bots, 0);
  }

  lemma {:induction false} TurnsInRun(c: Config, s: State, ts: seq<TurnTrace>, k: nat)
    requires Playable(c) && Opening(c, s) && Run(c, s, ts) && k < |ts|
    ensures ts[k].ended.turn == k + 1
  {
    OpeningIsWellFormed(c, s);
    OpeningTurn(c, s);
    hide *;
    RunStaysWellFormed(c, s, ts, k + 1);
    AtNext(s, ts, k);
  }

  lemma OpeningTurn(c: Config, s: State)
    requires Opening(c, s)
    ensures s.turn == 0
  {
  }

  /** In every run, every turn: the verdict is the one that is due, and a result tells the state. */
  lemma {:induction false} VerdictIsDue(c: Config, s: State, ts: seq<TurnTrace>, k: nat)
    requires Playable(c) && Opening(c, s) && Run(c, s, ts) && k < |ts|
    ensures Due(c, ts, k, ts[k].verdict)
    ensures ts[k].verdict.Ended? ==> ts[k].verdict.result.turns == k + 1 && Tells(ts[k].ended, ts[k].verdict.result)
  {
    OpeningIsWellFormed(c, s);
    hide *;
    EndgameOf(c, s, ts, k);
    CheckConcludes(c, ts[k].ticked, ts[k].ended, ts[k].verdict);
    CrownsInRun(c, s, ts, k);
    TurnsInRun(c, s, ts, k);
    LifeIsCounted(ts[k].ticked.bots);
    ResultTurns(ts[k].ended, ts[k].verdict);
    if (forall w :: !LoneSurvivor(ts[k].ticked.bots, w)) && LivingBots(ts[k].ticked.bots) != {}
       && !exists p :: Crowned(ts[k].ticked, p) {
      QuietInRun(c, s, ts, k);
      ClosingVerdict(c, ts[k].ticked, ts[k].ended, ts[k].verdict);
    }
    DueFrom(c, ts, k, ts[k].verdict);
  }

  lemma ResultTurns(s: State, v: Verdict)
    ensures v.Ended? && Tells(s, v.result) ==> v.result.turns == s.turn
  {
  }

  lemma {:induction false} DueFrom(c: Config, ts: seq<TurnTrace>, k: nat, v: Verdict)
    requires k < |ts|
    requires var s, s' := ts[k].ticked, ts[k].ended;
             && s'.bots == s.bots && |s'.players| == |s.players|
             && (forall p :: Crowned(s, p) <==> HeldAHundred(ts, k, p))
             && if exists w :: LoneSurvivor(s.bots, w) then
                  EndsBy(v, Elimination) && LoneSurvivor(s.bots, v.result.winner)
                else if LivingBots(s.bots) == {} then EndsBy(v, Draw) && v.result.winner == -1
                else if exists p :: Crowned(s, p) then EndsBy(v, Dominance) && Crowned(s, v.result.winner)
                else
                  && (QuietStreak(ts, k + 1) >= 50 ==> EndsBy(v, Stalemate) && Best(v.result, v.result.winner))
                  && QuietStreak(ts, k + 1) <= 50
                  && (QuietStreak(ts, k + 1) < 50 && k + 1 >= c.maxTurns ==>
                        EndsBy(v, Turns) && Best(v.result, v.result.winner))
                  && (QuietStreak(ts, k + 1) < 50 && k + 1 < c.maxTurns ==> v == Ongoing)
    ensures Due(c, ts, k, v)
  {
    hide LoneSurvivor, LivingBots, Crowned, HeldAHundred, QuietStreak, Best, EndsBy;
  }

  /** A match that ends by its turn limit has taken exactly that many turns; no match takes more. */
  lemma {:induction false} TurnLimitIsExact(c: Config, s: State, ts: seq<TurnTrace>)
    requires Playable(c) && Opening(c, s) && Run(c, s, ts) && c.maxTurns > 0
    ensures |ts| <= c.maxTurns
    ensures ts != [] && EndsBy(ts[|ts| - 1].verdict, Turns) ==> |ts| == c.maxTurns
  {
    hide Opening, TurnStep, LoneSurvivor, LivingBots, HeldAHundred, QuietStreak, Best;
    if |ts| > 0 {
      VerdictIsDue(c, s, ts, |ts| - 1);
    }
    if |ts| > 1 {
      VerdictIsDue(c, s, ts, |ts| - 2);
    }
  }

  // ----- The bonus ----------------------------------------------------------------

  /** A lone survivor gets two points for each standing core of somebody else; no verdict changes
      any other score. */
  lemma {:induction false} EliminationPays(c: Config, s: State, s': State, v: Verdict, p: nat)
    requires EndgameStep(c, s, s', v) && p < |s.players| == |s'.players|
    ensures s'.players[p].score == s.players[p].score
              + if LoneSurvivor(s.bots, p) then 2 * |EnemyCores(s.cores, p)| else 0
  {
    SurvivorsAreBots(s);
    EnemyCoresCount(s.cores, p);
    hide Survives, LoneSurvivor, LivingBots, Crowned, EnemyCores, Reports, Leads, Quiet, DominanceAfter, Sum;
  }

  ghost function EnemyCores(cores: seq<Core>, p: nat): set<nat> {
    set k: nat | k < |cores| && cores[k].active && cores[k].owner != p
  }

  lemma {:induction false} EnemyCoresCount(cores: seq<Core>, p: nat)
    ensures Sum(cores, EnemyCoreOf(p)) == |EnemyCores(cores, p)|
  {
    SumIsCount(cores, EnemyCoreOf(p));
    assert Marked(cores, EnemyCoreOf(p)) == EnemyCores(cores, p);
  }
}

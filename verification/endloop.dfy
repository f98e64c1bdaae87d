/** The loops of the endgame check, step by step: facts engine.dfy uses. */
module EndLoop {
  import opened Tally
  import opened GameTypes
  import opened Rules

  lemma SumStep<T(!new)>(xs: seq<T>, i: nat, w: T -> int)
    requires i < |xs|
    ensures Sum(xs[..i + 1], w) == Sum(xs[..i], w) + w(xs[i])
  {
    assert xs[..i + 1][..i] == xs[..i];
  }

  lemma WholePrefix<T>(xs: seq<T>)
    ensures xs[..|xs|] == xs
  {
  }

  /** The state with the dominance counters of the players below n updated. */
  ghost predicate DominanceBelow(s: State, n: nat, dominance: map<nat, nat>) {
    dominance == DominanceAfter(s, n)
  }

  lemma DominanceIs(s: State, n: nat, dominance: map<nat, nat>)
    requires DominanceBelow(s, n, dominance)
    ensures dominance == DominanceAfter(s, n)
  {
  }

  lemma DominanceBegins(s: State)
    ensures DominanceBelow(s, 0, s.dominance)
  {
    assert DominanceAfter(s, 0) == s.dominance;
  }

  /** The four fifths and the limit, in the terms of the loop. */
  lemma CrownMeans(s: State, p: nat, botCount: nat, totalBots: nat)
    requires botCount == Living(s.bots, p) && totalBots == LivingTotal(s.bots) && p < |s.players| && p in s.dominance
    ensures Dominates(s, p) <==> 5 * botCount >= 4 * totalBots
    ensures Crowned(s, p) <==> Dominates(s, p) && s.dominance[p] + 1 >= DOMINANCE_TURNS
  {
  }

  lemma NoneCrowned(s: State)
    ensures (forall q :: 0 <= q < |s.players| ==> !Crowned(s, q)) ==> forall p :: !Crowned(s, p)
  {
  }

  lemma DominanceOneMore(c: Config, s: State, n: nat, dominance: map<nat, nat>)
    requires WellFormed(c, s) && n < |s.players| && DominanceBelow(s, n, dominance)
    ensures n in dominance && n in s.dominance && dominance[n] == s.dominance[n]
    ensures DominanceBelow(s, n + 1, dominance[n := if Dominates(s, n) then dominance[n] + 1 else 0])
  {
    hide Dominates;
    var d' := dominance[n := if Dominates(s, n) then dominance[n] + 1 else 0];
    assert d' == DominanceAfter(s, n + 1);
  }

  lemma LoneSurvivor(s: State, alive: set<nat>, w: nat)
    requires forall p: nat :: p in alive <==> Survives(s, p)
    requires |alive| == 1 && w in alive
    ensures SoleSurvivorIs(s, w)
  {
    hide Survives;
    assert alive == {w} by {
      assert |alive - {w}| == 0;
    }
    SurvivorsAreNat(s);
  }

  lemma SurvivorsAreNat(s: State)
    ensures forall p :: Survives(s, p) ==> p >= 0
  {
  }

  lemma ManySurvivors(s: State, alive: set<nat>)
    requires forall p: nat :: p in alive <==> Survives(s, p)
    ensures |alive| == 0 <==> forall p :: !Survives(s, p)
    ensures |alive| != 1 ==> !exists w :: SoleSurvivorIs(s, w)
  {
    hide Survives;
    SurvivorsAreNat(s);
    if w :| SoleSurvivorIs(s, w) {
      assert w in alive;
      assert alive == {w};
    }
    if |alive| > 0 {
      var p :| p in alive;
    }
  }

  lemma SurvivorIsPlayer(c: Config, s: State, p: nat)
    requires WellFormed(c, s) && Survives(s, p)
    ensures p < |s.players|
  {
  }

  /** A newcomer ahead of the best so far is ahead of everyone before it. */
  lemma NewBest(s: State, n: nat, best: int)
    requires n < |s.players| && 0 <= best < |s.players|
    requires (forall i :: 0 <= i < n ==> !Ahead(s, i, best)) && Ahead(s, n, best)
    ensures forall i :: 0 <= i < n ==> Ahead(s, n, i) && !Ahead(s, i, n)
    ensures !Ahead(s, n, n)
  {
    forall i | 0 <= i < n
      ensures Ahead(s, n, i) && !Ahead(s, i, n)
    {
      assert !Ahead(s, i, best);
    }
  }

  lemma SurvivorsCount(s: State, p: int)
    requires Survives(s, p)
    ensures LivingTotal(s.bots) > 0
  {
    var i :| 0 <= i < |s.bots| && s.bots[i].alive && s.bots[i].owner == p;
    SumCovers(s.bots, Alive(), i);
  }
}

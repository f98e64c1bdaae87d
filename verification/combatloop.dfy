/** The loops of the combat phase, step by step: facts engine.dfy uses. */
module CombatLoop {
  import opened Tally
  import opened GameTypes
  import opened Rules

  lemma EnemiesStep(c: Config, bots: seq<Bot>, i: int, n: nat)
    requires c.rows > 0 && c.cols > 0
    ensures Select(0, EnemyTest(c, bots, i)) == []
    ensures Select(n + 1, EnemyTest(c, bots, i))
            == Select(n, EnemyTest(c, bots, i)) + (if Enemy(c, bots, i, n) then [n] else [])
  {
    hide Enemy;
  }

  lemma EnemiesAre(c: Config, bots: seq<Bot>, i: int)
    requires c.rows > 0 && c.cols > 0
    ensures forall j :: j in Enemies(c, bots, i) <==> Enemy(c, bots, i, j)
    ensures forall k :: 0 <= k < |Enemies(c, bots, i)| ==> Enemy(c, bots, i, Enemies(c, bots, i)[k])
    ensures Distinct(Enemies(c, bots, i))
  {
    SelectMembers(|bots|, EnemyTest(c, bots, i));
    var foes := Enemies(c, bots, i);
    assert forall k :: 0 <= k < |foes| ==> foes[k] in foes;
  }

  lemma {:induction false} EnemiesListed(c: Config, bots: seq<Bot>, i: int)
    requires c.rows > 0 && c.cols > 0
    ensures Enemies(c, bots, i) == Select(|bots|, EnemyTest(c, bots, i))
  {
  }

  lemma EnemiesAreLiving(c: Config, bots: seq<Bot>, i: int)
    requires c.rows > 0 && c.cols > 0
    ensures forall k :: 0 <= k < |Enemies(c, bots, i)| ==>
              Enemies(c, bots, i)[k] < |bots| && bots[Enemies(c, bots, i)[k]].alive
  {
    EnemiesAre(c, bots, i);
  }

  ghost function Awarded(c: Config, players: seq<Player>, killers: seq<Killer>): seq<Player> {
    seq(|players|, p requires 0 <= p < |players| =>
      players[p].(score := players[p].score + c.killScore * Sum(killers, OwnedBy(p))))
  }

  ghost predicate OwnedCredits(before: seq<nat>, after: seq<nat>, killers: seq<Killer>) {
    |after| == |before| && forall p :: 0 <= p < |before| ==> after[p] == before[p] + Sum(killers, OwnedBy(p))
  }

  lemma AwardNone(c: Config, players: seq<Player>, credits: seq<nat>)
    ensures Awarded(c, players, []) == players && OwnedCredits(credits, credits, [])
  {
  }

  lemma AwardOneMore(c: Config, players: seq<Player>, credits: seq<nat>, now: seq<nat>, killers: seq<Killer>, k: Killer)
    requires k.owner < |players| == |credits| && OwnedCredits(credits, now, killers)
    ensures var ps := Awarded(c, players, killers);
            Awarded(c, players, killers + [k])
            == ps[k.owner := ps[k.owner].(score := ps[k.owner].score + c.killScore)]
    ensures OwnedCredits(credits, now[k.owner := now[k.owner] + 1], killers + [k])
  {
    forall p
      ensures Sum(killers + [k], OwnedBy(p)) == Sum(killers, OwnedBy(p)) + (if p == k.owner then 1 else 0)
    {
      SumAppend(killers, k, OwnedBy(p));
    }
    Distribute(c.killScore, Sum(killers, OwnedBy(k.owner)), 1);
    hide Sum, OwnedBy;
  }

  // ----- The kill loop, halfway ---------------------------------------------------

  ghost predicate StruckBelow(c: Config, s: State, i: nat, bots: seq<Bot>, players: seq<Player>,
                              deadBots: seq<nat>, events: seq<Event>, credits: seq<nat>)
  {
    && c.rows > 0 && c.cols > 0
    && bots == StruckBots(c, s.bots, i)
    && players == Recount(Credited(c, s.players, CombatNotices(c, s.bots, i)), bots)
    && deadBots == s.deadBots + Select(i, FocusedTest(c, s.bots))
    && events == s.events + CombatNotices(c, s.bots, i)
    && CreditsAdded(s.combatDeaths, credits, CombatNotices(c, s.bots, i))
  }

  lemma StrikeBegins(c: Config, s: State)
    requires WellFormed(c, s)
    ensures StruckBelow(c, s, 0, s.bots, s.players, s.deadBots, s.events, s.combatDeaths)
  {
    RecountStable(s.players, s.bots);
    assert StruckBots(c, s.bots, 0) == s.bots;
    assert Credited(c, s.players, []) == s.players;
  }

  lemma StruckFacts(c: Config, s: State, i: nat, bots: seq<Bot>, players: seq<Player>,
                    deadBots: seq<nat>, events: seq<Event>, credits: seq<nat>)
    requires WellFormed(c, s) && i < |s.bots| && StruckBelow(c, s, i, bots, players, deadBots, events, credits)
    ensures |bots| == |s.bots| && |players| == |credits| == |s.players| && bots[i] == s.bots[i]
    ensures bots[i].id == i && bots[i].owner < |players|
    ensures forall j :: 0 <= j < |bots| ==> bots[j].id == s.bots[j].id && bots[j].owner == s.bots[j].owner
                                             && bots[j].pos == s.bots[j].pos
  {
  }

  lemma StrikeSpares(c: Config, s: State, i: nat, bots: seq<Bot>, players: seq<Player>,
                     deadBots: seq<nat>, events: seq<Event>, credits: seq<nat>)
    requires i < |s.bots| && StruckBelow(c, s, i, bots, players, deadBots, events, credits) && !Focused(c, s.bots, i)
    ensures StruckBelow(c, s, i + 1, bots, players, deadBots, events, credits)
  {
    hide Focused;
    assert StruckBots(c, s.bots, i + 1) == StruckBots(c, s.bots, i);
    assert CombatNotices(c, s.bots, i + 1) == CombatNotices(c, s.bots, i);
    assert Select(i + 1, FocusedTest(c, s.bots)) == Select(i, FocusedTest(c, s.bots));
  }

  /** What one more victim adds to the bots, the dead and the notices. */
  lemma FellingExtends(c: Config, bots: seq<Bot>, i: nat)
    requires c.rows > 0 && c.cols > 0 && i < |bots| && Focused(c, bots, i)
    ensures var struck := StruckBots(c, bots, i);
            i < |struck| && StruckBots(c, bots, i + 1) == struck[i := struck[i].(alive := false)]
    ensures Select(i + 1, FocusedTest(c, bots)) == Select(i, FocusedTest(c, bots)) + [i]
    ensures CombatNotices(c, bots, i + 1) == CombatNotices(c, bots, i) + [CombatDeath(i, Killers(c, bots, i))]
  {
    hide Focused, Killers;
  }

  /** Bot i is as it was while the loop has not reached it. */
  lemma StruckBotsAre(c: Config, bots: seq<Bot>, i: nat)
    requires c.rows > 0 && c.cols > 0 && i < |bots| && Focused(c, bots, i)
    ensures |StruckBots(c, bots, i)| == |bots| && StruckBots(c, bots, i)[i] == bots[i] && bots[i].alive
  {
    hide Enemies;
  }

  lemma StrikeFells(c: Config, s: State, i: nat, bots: seq<Bot>, players: seq<Player>,
                    deadBots: seq<nat>, events: seq<Event>, credits: seq<nat>, credits': seq<nat>)
    requires WellFormed(c, s) && i < |s.bots|
    requires StruckBelow(c, s, i, bots, players, deadBots, events, credits) && Focused(c, s.bots, i)
    requires OwnedCredits(credits, credits', Killers(c, s.bots, i))
    ensures var o := s.bots[i].owner;
            o < |players| && i < |bots| &&
            var counted := players[o := players[o].(botCount := players[o].botCount - 1)];
            StruckBelow(c, s, i + 1, bots[i := bots[i].(alive := false)],
                        Awarded(c, counted, Killers(c, s.bots, i)),
                        deadBots + [i], events + [CombatDeath(i, Killers(c, s.bots, i))], credits')
  {
    var notices := CombatNotices(c, s.bots, i);
    var notice := CombatDeath(i, Killers(c, s.bots, i));
    FellingExtends(c, s.bots, i);
    StruckBotsAre(c, s.bots, i);
    hide Killers, Enemies, Recount, CombatNotices, FocusedTest, Focused, StruckBots, Select;
    forall p
      ensures Sum(notices + [notice], CreditTo(p)) == Sum(notices, CreditTo(p)) + Sum(notice.killers, OwnedBy(p))
    {
      SumAppend(notices, notice, CreditTo(p));
    }
    assert Counted(players, bots);
    CountOneDeath(players, bots, i);
    AwardsMeetCredits(c, s.players, notices, notice, bots, StruckBots(c, s.bots, i + 1));
    assert events + [notice] == s.events + (notices + [notice]);
    assert deadBots + [i] == s.deadBots + (Select(i, FocusedTest(c, s.bots)) + [i]);
  }

  /** Crediting a notice is the same as awarding its killers. */
  lemma {:induction false} AwardsMeetCredits(c: Config, players: seq<Player>, notices: seq<Event>, notice: Event,
                                             bots: seq<Bot>, bots': seq<Bot>)
    requires notice.CombatDeath?
    requires forall p ::
             Sum(notices + [notice], CreditTo(p)) == Sum(notices, CreditTo(p)) + Sum(notice.killers, OwnedBy(p))
    ensures Awarded(c, Recount(Recount(Credited(c, players, notices), bots), bots'), notice.killers)
            == Recount(Credited(c, players, notices + [notice]), bots')
  {
    forall p | 0 <= p < |players|
      ensures c.killScore * Sum(notices + [notice], CreditTo(p))
              == c.killScore * Sum(notices, CreditTo(p)) + c.killScore * Sum(notice.killers, OwnedBy(p))
    {
      Distribute(c.killScore, Sum(notices, CreditTo(p)), Sum(notice.killers, OwnedBy(p)));
    }
  }

  lemma FocusedIsLiving(c: Config, bots: seq<Bot>, i: int)
    requires c.rows > 0 && c.cols > 0 && Focused(c, bots, i)
    ensures 0 <= i < |bots| && bots[i].alive
    ensures forall k :: 0 <= k < |Enemies(c, bots, i)| ==> Enemies(c, bots, i)[k] < |bots|
  {
  }

  /** Deaths leave IDs, owners and positions alone. */
  lemma StruckStaysOk(c: Config, s: State, bots: seq<Bot>, n: nat)
    requires WellFormed(c, s) && n == |s.players| && |bots| == |s.bots|
    requires forall j :: 0 <= j < |bots| ==> bots[j].id == s.bots[j].id && bots[j].owner == s.bots[j].owner
                                             && bots[j].pos == s.bots[j].pos
    ensures BotsOk(c, bots, n)
  {
  }

  lemma KillersMatch(c: Config, bots: seq<Bot>, now: seq<Bot>, i: int, killers: seq<Killer>)
    requires c.rows > 0 && c.cols > 0 && |now| == |bots|
    requires forall j :: 0 <= j < |bots| ==> now[j].id == bots[j].id && now[j].owner == bots[j].owner
    requires var foes := Enemies(c, bots, i);
             |killers| == |foes| && forall k :: 0 <= k < |foes| ==>
               foes[k] < |now| && killers[k] == Killer(now[foes[k]].id, now[foes[k]].owner)
    ensures killers == Killers(c, bots, i)
  {
  }

  lemma StrikeEnds(c: Config, s: State, bots: seq<Bot>, players: seq<Player>,
                   deadBots: seq<nat>, events: seq<Event>, credits: seq<nat>)
    requires StruckBelow(c, s, |s.bots|, bots, players, deadBots, events, credits)
    ensures CombatStep(c, s, s.(bots := bots, players := players, deadBots := deadBots, events := events,
                                combatDeaths := credits))
  {
  }
}

/** What the combat phase comes to, in distances and owners alone: who dies, whom the notices
    name and what the killers' players earn. */
module CombatOutcome {
  import opened Torus
  import opened Tally
  import opened GameTypes
  import opened Rules
  import opened CombatLoop

  /** The living bots of other owners within the attack radius of bot i. */
  ghost function Rivals(c: Config, bots: seq<Bot>, i: nat): set<nat>
    requires c.rows > 0 && c.cols > 0 && i < |bots|
  {
    set j: nat | j < |bots| && bots[j].alive && bots[j].owner != bots[i].owner
                 && Distance2(bots[i].pos, bots[j].pos, c.rows, c.cols) <= c.attackRadius2
  }

  lemma RivalsAreEnemies(c: Config, s: State, i: nat)
    requires WellFormed(c, s) && i < |s.bots| && s.bots[i].alive
    ensures forall j: nat :: j in Enemies(c, s.bots, i) <==> j in Rivals(c, s.bots, i)
    ensures |Enemies(c, s.bots, i)| == |Rivals(c, s.bots, i)|
  {
    SelectMembers(|s.bots|, EnemyTest(c, s.bots, i));
    SelectCount(|s.bots|, EnemyTest(c, s.bots, i));
    hide Distance2, Select;
    assert Passing(|s.bots|, EnemyTest(c, s.bots, i)) == Rivals(c, s.bots, i);
  }

  lemma OverwhelmedIsFocused(c: Config, s: State, i: nat)
    requires WellFormed(c, s) && i < |s.bots| && s.bots[i].alive
    ensures Focused(c, s.bots, i) <==>
            && Rivals(c, s.bots, i) != {}
            && forall j :: j in Rivals(c, s.bots, i) ==> |Rivals(c, s.bots, j)| < |Rivals(c, s.bots, i)|
  {
    RivalsAreEnemies(c, s, i);
    forall j | j in Rivals(c, s.bots, i)
      ensures |Enemies(c, s.bots, j)| == |Rivals(c, s.bots, j)|
    {
      RivalsAreEnemies(c, s, j);
    }
    hide Enemies, Distance2;
  }

  /** A living bot dies in combat exactly when it has rivals in range and each of them has fewer;
      nothing else about any bot changes. */
  lemma CombatKillsTheMostExposed(c: Config, s: State, s': State, i: nat)
    requires WellFormed(c, s) && CombatStep(c, s, s') && i < |s.bots|
    ensures |s'.bots| == |s.bots| && s'.bots[i] == s.bots[i].(alive := s'.bots[i].alive)
    ensures s'.bots[i].alive <==>
            && s.bots[i].alive
            && (|Rivals(c, s.bots, i)| == 0
                || exists j :: j in Rivals(c, s.bots, i) && |Rivals(c, s.bots, j)| >= |Rivals(c, s.bots, i)|)
  {
    if s.bots[i].alive {
      OverwhelmedIsFocused(c, s, i);
    }
    hide Focused, Rivals, CombatNotices, Fallen;
  }

  /** For one, two bots of one player kill a lone enemy in range of both. */
  lemma TwoKillOne(c: Config, s: State, s': State, a: Position, b: Position, d: Position)
    requires WellFormed(c, s) && CombatStep(c, s, s')
    requires s.bots == [Bot(0, 0, a, true), Bot(1, 1, b, true), Bot(2, 1, d, true)]
    requires InRadius(a, b, c.attackRadius2, c.rows, c.cols) && InRadius(a, d, c.attackRadius2, c.rows, c.cols)
    ensures s'.bots == [Bot(0, 0, a, false), Bot(1, 1, b, true), Bot(2, 1, d, true)]
  {
    hide WellFormed, CombatStep, Rivals;
    BoardIs(c, s);
    TwoAgainstOne(c, s.bots, a, b, d);
    CombatKillsTheMostExposed(c, s, s', 0);
    CombatKillsTheMostExposed(c, s, s', 1);
    CombatKillsTheMostExposed(c, s, s', 2);
  }

  lemma TwoAgainstOne(c: Config, bots: seq<Bot>, a: Position, b: Position, d: Position)
    requires c.rows > 0 && c.cols > 0 && bots == [Bot(0, 0, a, true), Bot(1, 1, b, true), Bot(2, 1, d, true)]
    requires InRadius(a, b, c.attackRadius2, c.rows, c.cols) && InRadius(a, d, c.attackRadius2, c.rows, c.cols)
    ensures Rivals(c, bots, 0) == {1, 2} && Rivals(c, bots, 1) == {0} && Rivals(c, bots, 2) == {0}
  {
    DistanceIsSymmetric(a, b, c.rows, c.cols);
    DistanceIsSymmetric(a, d, c.rows, c.cols);
    hide Distance2;
    assert Rivals(c, bots, 1) == {0};
    assert Rivals(c, bots, 2) == {0};
  }

  // ----- Notices and pay ----------------------------------------------------------

  /** Who had a hand in whose death, for one player: the pairs of a victim below n and a bot of
      player p within range of it. */
  ghost function Strikes(c: Config, s: State, s': State, p: nat, n: nat): set<(nat, nat)>
    requires c.rows > 0 && c.cols > 0 && n <= |s.bots| == |s'.bots|
  {
    set i: nat, j: nat | i < n && j < |s.bots| && s.bots[i].alive && !s'.bots[i].alive
                         && j in Rivals(c, s.bots, i) && s.bots[j].owner == p :: (i, j)
  }

  ghost function OfPlayer(bots: seq<Bot>, foes: seq<nat>, p: nat): set<nat>
    requires forall k :: 0 <= k < |foes| ==> foes[k] < |bots|
  {
    set j | j in foes && bots[j].owner == p
  }

  ghost function Named(bots: seq<Bot>, foes: seq<nat>): seq<Killer>
    requires forall k :: 0 <= k < |foes| ==> foes[k] < |bots|
  {
    seq(|foes|, k requires 0 <= k < |foes| => Killer(bots[foes[k]].id, bots[foes[k]].owner))
  }

  lemma {:induction false} NamedCount(bots: seq<Bot>, foes: seq<nat>, p: nat)
    requires Distinct(foes) && forall k :: 0 <= k < |foes| ==> foes[k] < |bots|
    ensures Sum(Named(bots, foes), OwnedBy(p)) == |OfPlayer(bots, foes, p)|
  {
    if foes == [] {
    } else {
      var n := |foes| - 1;
      var init := foes[..n];
      NamedCount(bots, init, p);
      NamedGrows(bots, foes, p);
      hide Named, OfPlayer;
      SumAppend(Named(bots, init), Killer(bots[foes[n]].id, bots[foes[n]].owner), OwnedBy(p));
    }
  }

  lemma NamedGrows(bots: seq<Bot>, foes: seq<nat>, p: nat)
    requires foes != [] && Distinct(foes) && forall k :: 0 <= k < |foes| ==> foes[k] < |bots|
    ensures var init, j := foes[..|foes| - 1], foes[|foes| - 1];
            && Named(bots, foes) == Named(bots, init) + [Killer(bots[j].id, bots[j].owner)]
            && |OfPlayer(bots, foes, p)| == |OfPlayer(bots, init, p)| + if bots[j].owner == p then 1 else 0
  {
    var init, j := foes[..|foes| - 1], foes[|foes| - 1];
    assert foes == init + [j] && j !in init;
    var before := OfPlayer(bots, init, p);
    assert OfPlayer(bots, foes, p) == if bots[j].owner == p then before + {j} else before;
  }

  lemma KillersOfPlayer(c: Config, s: State, i: nat, p: nat)
    requires WellFormed(c, s) && i < |s.bots| && s.bots[i].alive
    ensures Sum(Killers(c, s.bots, i), OwnedBy(p))
            == |set j | j in Rivals(c, s.bots, i) && s.bots[j].owner == p|
  {
    RivalsAreEnemies(c, s, i);
    EnemiesAre(c, s.bots, i);
    var foes := Enemies(c, s.bots, i);
    assert Killers(c, s.bots, i) == Named(s.bots, foes);
    NamedCount(s.bots, foes, p);
    hide Enemies;
    assert OfPlayer(s.bots, foes, p) == set j | j in Rivals(c, s.bots, i) && s.bots[j].owner == p;
  }

  /** One more victim adds a pair for each of the player's bots in range of it. */
  lemma StrikesGrow(c: Config, s: State, s': State, p: nat, n: nat)
    requires c.rows > 0 && c.cols > 0 && n < |s.bots| == |s'.bots|
    ensures |Strikes(c, s, s', p, n + 1)| == |Strikes(c, s, s', p, n)|
            + if s.bots[n].alive && !s'.bots[n].alive then |set j | j in Rivals(c, s.bots, n) && s.bots[j].owner == p|
              else 0
  {
    var js := set j | j in Rivals(c, s.bots, n) && s.bots[j].owner == p;
    StrikesExtend(c, s, s', p, n, js);
    hide *;
    PairedCount(n, js);
  }

  lemma StrikesExtend(c: Config, s: State, s': State, p: nat, n: nat, js: set<nat>)
    requires c.rows > 0 && c.cols > 0 && n < |s.bots| == |s'.bots|
    requires js == set j | j in Rivals(c, s.bots, n) && s.bots[j].owner == p
    ensures var died := s.bots[n].alive && !s'.bots[n].alive;
            Strikes(c, s, s', p, n + 1) == Strikes(c, s, s', p, n) + if died then Paired(n, js) else {}
    ensures Strikes(c, s, s', p, n) !! Paired(n, js)
  {
    hide Distance2;
  }

  ghost function Paired(i: nat, js: set<nat>): set<(nat, nat)> {
    set j | j in js :: (i, j)
  }

  lemma {:induction false} PairedCount(i: nat, js: set<nat>)
    ensures |Paired(i, js)| == |js|
  {
    if js == {} {
      assert Paired(i, js) == {};
    } else {
      var j :| j in js;
      PairedCount(i, js - {j});
      assert Paired(i, js) == Paired(i, js - {j}) + {(i, j)};
    }
  }

  lemma {:induction false} CreditsAreStrikes(c: Config, s: State, s': State, p: nat, n: nat)
    requires WellFormed(c, s) && CombatStep(c, s, s') && n <= |s.bots| == |s'.bots|
    ensures Sum(CombatNotices(c, s.bots, n), CreditTo(p)) == |Strikes(c, s, s', p, n)|
  {
    hide CombatStep, WellFormed, Rivals, Strikes, Focused, Killers;
    BoardIs(c, s);
    if n == 0 {
      NoStrikes(c, s, s', p);
    } else {
      CreditsAreStrikes(c, s, s', p, n - 1);
      StrikesGrow(c, s, s', p, n - 1);
      DeathIsFocus(c, s, s', n - 1);
      if Focused(c, s.bots, n - 1) {
        SumAppend(CombatNotices(c, s.bots, n - 1), CombatDeath(n - 1, Killers(c, s.bots, n - 1)), CreditTo(p));
        KillersOfPlayer(c, s, n - 1, p);
      } else {
        assert CombatNotices(c, s.bots, n) == CombatNotices(c, s.bots, n - 1);
      }
    }
  }

  lemma BoardIs(c: Config, s: State)
    requires WellFormed(c, s)
    ensures c.rows > 0 && c.cols > 0
  {
  }

  lemma NoStrikes(c: Config, s: State, s': State, p: nat)
    requires c.rows > 0 && c.cols > 0 && |s.bots| == |s'.bots|
    ensures Strikes(c, s, s', p, 0) == {}
  {
  }

  lemma DeathIsFocus(c: Config, s: State, s': State, i: nat)
    requires WellFormed(c, s) && CombatStep(c, s, s') && i < |s.bots|
    ensures |s'.bots| == |s.bots| && (Focused(c, s.bots, i) <==> s.bots[i].alive && !s'.bots[i].alive)
  {
    FocusedLives(c, s.bots, i);
    hide Focused;
  }

  lemma FocusedLives(c: Config, bots: seq<Bot>, i: nat)
    requires c.rows > 0 && c.cols > 0
    ensures Focused(c, bots, i) ==> i < |bots| && bots[i].alive
  {
  }

  /** Combat pays a player once for every pair of a victim and one of its bots in range of it. */
  lemma CombatPaysPerStrike(c: Config, s: State, s': State, p: nat)
    requires WellFormed(c, s) && CombatStep(c, s, s') && p < |s.players|
    ensures |s'.bots| == |s.bots| && |s'.players| == |s.players| && |s'.combatDeaths| == |s.players|
    ensures s'.combatDeaths[p] == s.combatDeaths[p] + |Strikes(c, s, s', p, |s.bots|)|
    ensures s'.players[p].score == s.players[p].score + c.killScore * |Strikes(c, s, s', p, |s.bots|)|
    ensures s'.players[p].energy == s.players[p].energy
  {
    hide Focused, Rivals, Strikes, Fallen, CombatNotices, StruckBots;
    CreditsAreStrikes(c, s, s', p, |s.bots|);
  }

  lemma KillersAreRivals(c: Config, s: State, i: nat)
    requires WellFormed(c, s) && i < |s.bots| && s.bots[i].alive
    ensures |Killers(c, s.bots, i)| == |Rivals(c, s.bots, i)|
    ensures forall j :: j in Rivals(c, s.bots, i) ==> Killer(j, s.bots[j].owner) in Killers(c, s.bots, i)
  {
    RivalsAreEnemies(c, s, i);
    EnemiesAre(c, s.bots, i);
    var foes, named := Enemies(c, s.bots, i), Killers(c, s.bots, i);
    forall j | j in Rivals(c, s.bots, i)
      ensures Killer(j, s.bots[j].owner) in named
    {
      var k :| 0 <= k < |foes| && foes[k] == j;
      assert named[k] == Killer(j, s.bots[j].owner);
    }
  }

  lemma {:induction false} NoticeIsOfVictim(c: Config, bots: seq<Bot>, n: nat, e: Event)
    requires c.rows > 0 && c.cols > 0 && e in CombatNotices(c, bots, n)
    ensures e.CombatDeath? && Focused(c, bots, e.bot) && e.killers == Killers(c, bots, e.bot)
  {
    hide Focused, Killers;
    if n > 0 && e in CombatNotices(c, bots, n - 1) {
      NoticeIsOfVictim(c, bots, n - 1, e);
    }
  }

  /** Each notice of the phase is of a victim and names every rival in range of it, once. */
  lemma NoticesNameTheRivals(c: Config, s: State, s': State, e: Event)
    requires WellFormed(c, s) && CombatStep(c, s, s') && |s.events| <= |s'.events| && e in s'.events[|s.events|..]
    ensures e.CombatDeath? && e.bot < |s.bots| == |s'.bots| && s.bots[e.bot].alive && !s'.bots[e.bot].alive
    ensures |e.killers| == |Rivals(c, s.bots, e.bot)|
    ensures forall j :: j in Rivals(c, s.bots, e.bot) ==> Killer(j, s.bots[j].owner) in e.killers
  {
    hide Focused, Rivals, Killers, CombatNotices, StruckBots, Fallen, WellFormed;
    BoardIs(c, s);
    assert s'.events[|s.events|..] == CombatNotices(c, s.bots, |s.bots|);
    NoticeIsOfVictim(c, s.bots, |s.bots|, e);
    FocusedLives(c, s.bots, e.bot);
    DeathIsFocus(c, s, s', e.bot);
    KillersAreRivals(c, s, e.bot);
  }
}

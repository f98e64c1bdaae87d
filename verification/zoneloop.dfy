/** The loop of the zone phase, step by step: facts engine.dfy uses. */
module ZoneLoop {
  import opened Tally
  import opened GameTypes
  import opened Rules

  ghost predicate StormBelow(c: Config, s: State, radius: int, i: nat, bots: seq<Bot>, players: seq<Player>,
                             deadBots: seq<nat>, events: seq<Event>)
  {
    && c.rows > 0 && c.cols > 0
    && bots == ShelteredBots(c, s, radius, i)
    && players == Recount(s.players, bots)
    && deadBots == s.deadBots + Select(i, OutsideTest(c, s, radius))
    && events == s.events + ZoneNotices(Select(i, OutsideTest(c, s, radius)))
  }

  lemma StormBegins(c: Config, s: State, radius: int)
    requires WellFormed(c, s)
    ensures StormBelow(c, s, radius, 0, s.bots, s.players, s.deadBots, s.events)
  {
    RecountStable(s.players, s.bots);
    assert ShelteredBots(c, s, radius, 0) == s.bots;
  }

  lemma StormFacts(c: Config, s: State, radius: int, i: nat, bots: seq<Bot>, players: seq<Player>,
                   deadBots: seq<nat>, events: seq<Event>)
    requires WellFormed(c, s) && i < |s.bots| && StormBelow(c, s, radius, i, bots, players, deadBots, events)
    ensures |bots| == |s.bots| && |players| == |s.players| && bots[i] == s.bots[i]
    ensures bots[i].id == i && bots[i].owner < |players|
  {
  }

  lemma StormSpares(c: Config, s: State, radius: int, i: nat, bots: seq<Bot>, players: seq<Player>,
                    deadBots: seq<nat>, events: seq<Event>)
    requires i < |s.bots| && StormBelow(c, s, radius, i, bots, players, deadBots, events) && !Outside(c, s, radius, i)
    ensures StormBelow(c, s, radius, i + 1, bots, players, deadBots, events)
  {
    hide Outside;
    assert ShelteredBots(c, s, radius, i + 1) == ShelteredBots(c, s, radius, i);
    assert Select(i + 1, OutsideTest(c, s, radius)) == Select(i, OutsideTest(c, s, radius));
  }

  lemma StormTakes(c: Config, s: State, radius: int, i: nat, bots: seq<Bot>, players: seq<Player>,
                   deadBots: seq<nat>, events: seq<Event>)
    requires WellFormed(c, s) && i < |s.bots| && s.bots[i].alive
    requires StormBelow(c, s, radius, i, bots, players, deadBots, events) && Outside(c, s, radius, i)
    ensures var o := s.bots[i].owner;
            o < |players| && i < |bots| &&
            StormBelow(c, s, radius, i + 1, bots[i := bots[i].(alive := false)],
                       players[o := players[o].(botCount := players[o].botCount - 1)],
                       deadBots + [i], events + [ZoneDeath(i)])
  {
    hide Outside;
    var died := Select(i, OutsideTest(c, s, radius));
    assert Select(i + 1, OutsideTest(c, s, radius)) == died + [i];
    assert ZoneNotices(died + [i]) == ZoneNotices(died) + [ZoneDeath(i)];
    var bots' := bots[i := bots[i].(alive := false)];
    assert bots' == ShelteredBots(c, s, radius, i + 1);
    assert Counted(players, bots);
    CountOneDeath(players, bots, i);
    assert Recount(players, bots') == Recount(s.players, bots');
    assert deadBots + [i] == s.deadBots + (died + [i]);
    assert events + [ZoneDeath(i)] == s.events + (ZoneNotices(died) + [ZoneDeath(i)]);
  }

  /** Without a storm the phase changes nothing. */
  lemma StormRests(c: Config, s: State)
    requires c.rows > 0 && c.cols > 0 && (c.zoneEnabled ==> c.zoneShrinkInterval != 0)
    ensures !c.zoneEnabled || !s.zoneActive ==> ZoneStep(c, s, s)
    ensures c.zoneEnabled && !s.zoneActive ==> ShrunkRadius(c, s) == s.zoneRadius
  {
  }

  lemma StormEnds(c: Config, s: State, bots: seq<Bot>, players: seq<Player>, deadBots: seq<nat>, events: seq<Event>)
    requires c.zoneShrinkInterval != 0 && c.zoneEnabled && s.zoneActive
    requires StormBelow(c, s, ShrunkRadius(c, s), |s.bots|, bots, players, deadBots, events)
    ensures ZoneStep(c, s, s.(zoneRadius := ShrunkRadius(c, s), bots := bots, players := players,
                              deadBots := deadBots, events := events))
  {
  }
}

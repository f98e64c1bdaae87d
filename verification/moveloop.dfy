/** The loop of the move phase, step by step: facts engine.dfy uses. */
module MoveLoop {
  import opened Torus
  import opened Tally
  import opened GameTypes
  import opened Rules

  ghost function BoundFor(c: Config, s: State, p: Position): int -> bool
    requires c.rows > 0 && c.cols > 0
  {
    i => c.rows > 0 && c.cols > 0 && HeadsFor(c, s, i, p)
  }

  /** The living bots among the first n that head for p, in index order. */
  ghost function Heading(c: Config, s: State, n: nat, p: Position): seq<nat>
    requires c.rows > 0 && c.cols > 0
  {
    Select(n, BoundFor(c, s, p))
  }

  lemma HeadingStep(c: Config, s: State, n: nat, p: Position)
    requires c.rows > 0 && c.cols > 0
    ensures Heading(c, s, 0, p) == []
    ensures Heading(c, s, n + 1, p) == Heading(c, s, n, p) + (if HeadsFor(c, s, n, p) then [n] else [])
  {
  }

  /** Filing bot n under its destination keeps every bucket the list of bots heading there. */
  lemma FileBot(c: Config, s: State, n: nat, m: map<Position, seq<nat>>, m': map<Position, seq<nat>>)
    requires c.rows > 0 && c.cols > 0 && n < |s.bots|
    requires forall p :: Bucket(m, p) == Heading(c, s, n, p)
    requires m' == if s.bots[n].alive
                   then m[Destination(c, s, n) := Bucket(m, Destination(c, s, n)) + [n]] else m
    ensures forall p :: Bucket(m', p) == Heading(c, s, n + 1, p)
  {
    hide Destination, Heading;
    forall p
      ensures Bucket(m', p) == Heading(c, s, n + 1, p)
    {
      HeadingStep(c, s, n, p);
      assert Bucket(m, p) == Heading(c, s, n, p);
    }
  }

  lemma NothingFiled(c: Config, s: State)
    requires c.rows > 0 && c.cols > 0
    ensures forall p :: Bucket(map[], p) == Heading(c, s, 0, p)
  {
  }

  function Bucket(m: map<Position, seq<nat>>, p: Position): seq<nat> {
    if p in m then m[p] else []
  }

  lemma HeadingMembers(c: Config, s: State, p: Position)
    requires c.rows > 0 && c.cols > 0
    ensures forall j :: j in Heading(c, s, |s.bots|, p) <==> HeadsFor(c, s, j, p)
    ensures Distinct(Heading(c, s, |s.bots|, p))
  {
    SelectMembers(|s.bots|, BoundFor(c, s, p));
  }

  /** The group heading for a bot's destination is larger than one and of one owner exactly
      when the bot collides. */
  lemma GroupCollides(c: Config, s: State, i: nat, p: Position)
    requires c.rows > 0 && c.cols > 0 && HeadsFor(c, s, i, p)
    ensures var group := Heading(c, s, |s.bots|, p);
            Collides(c, s, i) <==>
              |group| > 1 && forall k :: 0 <= k < |group| ==> s.bots[group[k]].owner == s.bots[i].owner
  {
    HeadingMembers(c, s, p);
    var group := Heading(c, s, |s.bots|, p);
    if |group| > 1 {
      var other := if group[0] == i then group[1] else group[0];
      assert other in group && other != i;
      assert HeadsFor(c, s, other, p);
    }
    if Collides(c, s, i) {
      var j :| j != i && HeadsFor(c, s, j, Destination(c, s, i));
      assert i in group && j in group;
    }
    assert forall k :: 0 <= k < |group| ==> group[k] in group;
  }
  ghost function Slain(bots: seq<Bot>, group: seq<nat>): (r: seq<Bot>)
    ensures |r| == |bots|
  {
    seq(|bots|, i requires 0 <= i < |bots| => if i in group then bots[i].(alive := false) else bots[i])
  }

  lemma SlainOneMore(now: seq<Bot>, bots: seq<Bot>, group: seq<nat>, k: nat)
    requires k < |group| && Distinct(group) && forall j :: 0 <= j < |group| ==>
             group[j] < |bots| && bots[group[j]].alive
    requires now == Slain(bots, group[..k])
    ensures group[k] < |now| && now[group[k]].alive
    ensures now[group[k] := now[group[k]].(alive := false)] == Slain(bots, group[..k + 1])
    ensures DeathNotices(group[..k + 1]) == DeathNotices(group[..k]) + [BotDied(group[k])]
    ensures group[..k + 1] == group[..k] + [group[k]]
  {
    assert group[..k + 1] == group[..k] + [group[k]];
    assert group[k] !in group[..k];
  }

  // ----- The second pass, halfway -------------------------------------------------

  /** Bot j's collision has been acted on: some bot below i heads for the same tile. */
  ghost predicate Doomed(c: Config, s: State, i: int, j: int)
    requires c.rows > 0 && c.cols > 0
  {
    Collides(c, s, j) && exists k :: 0 <= k < i && HeadsFor(c, s, k, Destination(c, s, j))
  }

  /** Bot j once the bots below i have been processed. */
  ghost function MidwayOne(c: Config, s: State, i: int, j: int): Bot
    requires c.rows > 0 && c.cols > 0 && 0 <= j < |s.bots|
  {
    var b := s.bots[j];
    if !b.alive then b
    else if Collides(c, s, j) then (if Doomed(c, s, i, j) then b.(alive := false) else b)
    else if j < i then b.(pos := Destination(c, s, j))
    else b
  }

  ghost predicate Midway(c: Config, s: State, i: int, died: seq<nat>,
                         bots: seq<Bot>, players: seq<Player>, deadBots: seq<nat>, events: seq<Event>)
  {
    && c.rows > 0 && c.cols > 0
    && |bots| == |s.bots| && (forall j :: 0 <= j < |bots| ==> bots[j] == MidwayOne(c, s, i, j))
    && players == Recount(s.players, bots)
    && deadBots == s.deadBots + died && events == s.events + DeathNotices(died)
    && Distinct(died) && (forall j: nat :: j in died <==> Doomed(c, s, i, j))
  }

  lemma MoveBegins(c: Config, s: State)
    requires WellFormed(c, s)
    ensures Midway(c, s, 0, [], s.bots, s.players, s.deadBots, s.events)
  {
    RecountStable(s.players, s.bots);
  }

  lemma MidwayBot(c: Config, s: State, i: nat, died: seq<nat>,
                  bots: seq<Bot>, players: seq<Player>, deadBots: seq<nat>, events: seq<Event>)
    requires WellFormed(c, s) && i < |s.bots| && Midway(c, s, i, died, bots, players, deadBots, events)
    ensures bots[i].id == i && (bots[i].alive ==> s.bots[i].alive) && |players| == |s.players|
    ensures Counted(players, bots)
  {
  }

  lemma MidwayIsOk(c: Config, s: State, i: nat, died: seq<nat>,
                   bots: seq<Bot>, players: seq<Player>, deadBots: seq<nat>, events: seq<Event>)
    requires WellFormed(c, s) && Midway(c, s, i, died, bots, players, deadBots, events)
    ensures BotsOk(c, bots, |players|)
  {
    forall j | 0 <= j < |bots|
      ensures bots[j].id == j && bots[j].owner < |players| && InGrid(bots[j].pos, c.rows, c.cols)
    {
      assert bots[j] == MidwayOne(c, s, i, j);
      DestinationInGrid(c, s, j);
    }
  }

  lemma DestinationInGrid(c: Config, s: State, j: nat)
    requires WellFormed(c, s) && j < |s.bots|
    ensures InGrid(Destination(c, s, j), c.rows, c.cols)
  {
    hide Wrap;
  }

  /** Past i, a group is doomed once more only if i starts it. */
  lemma DoomedNext(c: Config, s: State, i: nat, j: int)
    requires c.rows > 0 && c.cols > 0 && i < |s.bots|
    ensures Doomed(c, s, i + 1, j) <==>
              Doomed(c, s, i, j) || (Collides(c, s, j) && HeadsFor(c, s, i, Destination(c, s, j)))
  {
  }

  lemma MidwaySkip(c: Config, s: State, i: nat, died: seq<nat>,
                   bots: seq<Bot>, players: seq<Player>, deadBots: seq<nat>, events: seq<Event>)
    requires i < |s.bots| && Midway(c, s, i, died, bots, players, deadBots, events) && !bots[i].alive
    ensures Midway(c, s, i + 1, died, bots, players, deadBots, events)
  {
    forall j
      ensures Doomed(c, s, i + 1, j) <==> Doomed(c, s, i, j)
    {
      DoomedNext(c, s, i, j);
    }
  }

  lemma MidwayGroup(c: Config, s: State, i: nat, died: seq<nat>,
                    bots: seq<Bot>, players: seq<Player>, deadBots: seq<nat>, events: seq<Event>)
    requires WellFormed(c, s) && i < |s.bots| && Midway(c, s, i, died, bots, players, deadBots, events) && bots[i].alive
    ensures var group := Heading(c, s, |s.bots|, Destination(c, s, i));
            && (forall k :: 0 <= k < |group| ==> group[k] < |bots| && bots[group[k]].owner == s.bots[group[k]].owner)
            && bots[i].owner == s.bots[i].owner
            && (Collides(c, s, i) <==>
                  |group| > 1 && forall k :: 0 <= k < |group| ==> s.bots[group[k]].owner == s.bots[i].owner)
  {
    GroupCollides(c, s, i, Destination(c, s, i));
  }

  lemma MidwayKill(c: Config, s: State, i: nat, died: seq<nat>,
                   bots: seq<Bot>, players: seq<Player>, deadBots: seq<nat>, events: seq<Event>)
    requires WellFormed(c, s) && i < |s.bots| && Midway(c, s, i, died, bots, players, deadBots, events)
    requires bots[i].alive && Collides(c, s, i)
    ensures var group := Heading(c, s, |s.bots|, Destination(c, s, i));
            var bots' := Slain(bots, group);
            && Distinct(group) && (forall k :: 0 <= k < |group| ==> group[k] < |bots| && bots[group[k]].alive)
            && BotsOk(c, bots, |players|)
            && Midway(c, s, i + 1, died + group, bots', Recount(players, bots'),
                      deadBots + group, events + DeathNotices(group))
  {
    hide WellFormed, Collides, HeadsFor, Heading, Destination, Doomed, MidwayOne, BotsOk;
    var group := Heading(c, s, |s.bots|, Destination(c, s, i));
    MidwayIsOk(c, s, i, died, bots, players, deadBots, events);
    NotYetDoomed(c, s, i, bots);
    KillDooms(c, s, i, group);
    DistinctUnion(died, group);
    SlainBots(c, s, i, bots, group);
    assert DeathNotices(died + group) == DeathNotices(died) + DeathNotices(group);
    assert Recount(players, Slain(bots, group)) == Recount(s.players, Slain(bots, group));
  }

  lemma NotYetDoomed(c: Config, s: State, i: nat, bots: seq<Bot>)
    requires c.rows > 0 && c.cols > 0 && i < |s.bots| && i < |bots| && bots[i] == MidwayOne(c, s, i, i)
    requires bots[i].alive && Collides(c, s, i)
    ensures !Doomed(c, s, i, i)
  {
  }

  lemma DistinctUnion(xs: seq<nat>, ys: seq<nat>)
    requires Distinct(xs) && Distinct(ys) && forall y: nat :: y in ys ==> y !in xs
    ensures Distinct(xs + ys)
    ensures forall x: nat :: x in xs + ys <==> x in xs || x in ys
  {
    forall i, j | 0 <= i < j < |xs + ys|
      ensures (xs + ys)[i] != (xs + ys)[j]
    {
      if i < |xs| <= j {
        assert (xs + ys)[j] in ys && (xs + ys)[i] in xs;
      }
    }
  }

  lemma KillDooms(c: Config, s: State, i: nat, group: seq<nat>)
    requires c.rows > 0 && c.cols > 0 && i < |s.bots| && Collides(c, s, i) && !Doomed(c, s, i, i)
    requires group == Heading(c, s, |s.bots|, Destination(c, s, i))
    ensures Distinct(group) && forall k :: 0 <= k < |group| ==> group[k] < |s.bots|
    ensures forall j: nat :: j in group ==> Collides(c, s, j) && !Doomed(c, s, i, j) && s.bots[j].alive
    ensures forall j: nat :: Doomed(c, s, i + 1, j) <==> Doomed(c, s, i, j) || j in group
  {
    HeadingMembers(c, s, Destination(c, s, i));
    forall j: nat
      ensures Doomed(c, s, i + 1, j) <==> Doomed(c, s, i, j) || j in group
      ensures j in group ==> Collides(c, s, j) && !Doomed(c, s, i, j) && s.bots[j].alive
    {
      DoomedNext(c, s, i, j);
      GroupSharesFate(c, s, i, j);
    }
  }

  lemma SlainBots(c: Config, s: State, i: nat, bots: seq<Bot>, group: seq<nat>)
    requires c.rows > 0 && c.cols > 0 && i < |s.bots| && Collides(c, s, i)
    requires |bots| == |s.bots| && forall j :: 0 <= j < |bots| ==> bots[j] == MidwayOne(c, s, i, j)
    requires forall j: nat :: j in group ==> j < |s.bots| && Collides(c, s, j) && !Doomed(c, s, i, j) && s.bots[j].alive
    requires forall j: nat :: Doomed(c, s, i + 1, j) <==> Doomed(c, s, i, j) || j in group
    ensures forall j :: 0 <= j < |bots| ==> Slain(bots, group)[j] == MidwayOne(c, s, i + 1, j)
    ensures forall k :: 0 <= k < |group| ==> group[k] < |bots| && bots[group[k]].alive
  {
    hide Destination, HeadsFor, Collides, Doomed;
    forall k | 0 <= k < |group|
      ensures group[k] < |bots| && bots[group[k]].alive
    {
      assert group[k] in group;
    }
  }

  /** Bots heading for a colliding bot's tile collide as well, and not earlier than it. */
  lemma GroupSharesFate(c: Config, s: State, i: int, j: int)
    requires c.rows > 0 && c.cols > 0 && Collides(c, s, i) && !Doomed(c, s, i, i)
    ensures HeadsFor(c, s, j, Destination(c, s, i)) ==> Collides(c, s, j) && !Doomed(c, s, i, j)
    ensures Collides(c, s, j) && HeadsFor(c, s, i, Destination(c, s, j)) ==> HeadsFor(c, s, j, Destination(c, s, i))
  {
    if HeadsFor(c, s, j, Destination(c, s, i)) && j != i {
      assert HeadsFor(c, s, i, Destination(c, s, j));
    }
  }

  lemma MidwayMove(c: Config, s: State, i: nat, died: seq<nat>,
                   bots: seq<Bot>, players: seq<Player>, deadBots: seq<nat>, events: seq<Event>)
    requires i < |s.bots| && Midway(c, s, i, died, bots, players, deadBots, events)
    requires bots[i].alive && !Collides(c, s, i)
    ensures Midway(c, s, i + 1, died, bots[i := bots[i].(pos := Destination(c, s, i))], players, deadBots, events)
  {
    forall j
      ensures Doomed(c, s, i + 1, j) <==> Doomed(c, s, i, j)
    {
      DoomedNext(c, s, i, j);
      if Collides(c, s, j) && HeadsFor(c, s, i, Destination(c, s, j)) {
        StrayDoesNotJoin(c, s, i, j);
      }
    }
    var bots' := bots[i := bots[i].(pos := Destination(c, s, i))];
    forall p
      ensures Living(bots', p) == Living(bots, p)
    {
      CountUnmoved(bots, bots', p);
    }
    assert Recount(s.players, bots') == Recount(s.players, bots);
  }

  lemma StrayDoesNotJoin(c: Config, s: State, i: int, j: int)
    requires c.rows > 0 && c.cols > 0 && Collides(c, s, j) && HeadsFor(c, s, i, Destination(c, s, j))
    ensures Collides(c, s, i)
  {
    if i != j {
      assert HeadsFor(c, s, j, Destination(c, s, i));
    }
  }

  lemma MoveEnds(c: Config, s: State, died: seq<nat>,
                 bots: seq<Bot>, players: seq<Player>, deadBots: seq<nat>, events: seq<Event>)
    requires Midway(c, s, |s.bots|, died, bots, players, deadBots, events)
    ensures MoveStep(c, s, s.(bots := bots, players := players, deadBots := deadBots, events := events))
  {
    forall j | Collides(c, s, j)
      ensures Doomed(c, s, |s.bots|, j)
    {
      assert HeadsFor(c, s, j, Destination(c, s, j));
    }
    assert bots == MovedBots(c, s);
    assert deadBots[|s.deadBots|..] == died;
  }
}

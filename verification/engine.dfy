/** The match state with the methods that change it, each proved to take the step
    rules.dfy describes. */
module Engine {
  import opened Wrappers

  import opened Torus
  import opened Tally
  import opened GameTypes
  import opened GridModel
  import opened Rules
  import opened MoveLoop
  import opened CombatLoop
  import opened ZoneLoop
  import opened CaptureLoop
  import opened CollectLoop
  import opened SpawnLoop
  import opened EndLoop
  import opened WellFormedSteps

  class GameState {
    const cfg: Config
    const grid: Grid

    var turn: int
    var bots: seq<Bot>
    var nextBotId: nat
    var cores: seq<Core>
    var nextCoreId: nat
    var nodes: seq<EnergyNode>
    var players: seq<Player>

    var moves: map<nat, Direction>    // bot ID -> ordered direction
    var deadBots: seq<nat>            // IDs of the bots that died this turn
    var events: seq<Event>            // what happened this turn
    var dominance: map<nat, nat>      // player -> consecutive turns with 80% of the bots

    var stalemateTurns: nat
    var lastTotalEnergy: int
    var lastTotalBots: int

    var zoneCenter: Position
    var zoneRadius: int
    var zoneActive: bool
    var combatDeaths: seq<nat>

    ghost function S(): State
      reads this, grid
    {
      State(grid.walls, turn, bots, nextBotId, cores, nextCoreId, nodes, players, moves, deadBots, events,
            dominance, stalemateTurns, lastTotalEnergy, lastTotalBots, zoneCenter, zoneRadius, zoneActive, combatDeaths)
    }

    ghost predicate Valid()
      reads this, grid, grid.tiles
    {
      && grid.Valid() && grid.rows == cfg.rows && grid.cols == cfg.cols
      && (cfg.zoneEnabled ==> cfg.zoneShrinkInterval != 0)
      && WellFormed(cfg, S())
    }

    /** An empty match on an open board, the zone centred on the map. */
    constructor (config: Config)
      requires config.rows > 0 && config.cols > 0 && (config.zoneEnabled ==> config.zoneShrinkInterval != 0)
      ensures Valid() && fresh(grid) && fresh(grid.tiles) && cfg == config
      ensures S() == State({}, 0, [], 0, [], 0, [], [], map[], [], [], map[], 0, 0, 0,
                           Position(config.rows / 2, config.cols / 2), Min(config.rows, config.cols) / 2, false, [])
    {
      cfg := config;
      grid := new Grid(config.rows, config.cols);
      turn, bots, nextBotId, cores, nextCoreId, nodes, players := 0, [], 0, [], 0, [], [];
      moves, deadBots, events, dominance := map[], [], [], map[];
      stalemateTurns, lastTotalEnergy, lastTotalBots := 0, 0, 0;
      zoneCenter := Position(config.rows / 2, config.cols / 2);
      zoneRadius, zoneActive := Min(config.rows, config.cols) / 2, false;
      combatDeaths := [];
    }

    lemma BoardIsSized()
      requires Valid()
      ensures cfg.rows > 0 && cfg.cols > 0 && (cfg.zoneEnabled ==> cfg.zoneShrinkInterval != 0)
    {
    }

    lemma BotIdIsIndex(i: nat)
      requires Valid() && i < |bots|
      ensures bots[i].id == i
    {
    }

    /** Marks a bot dead and records it; a dead bot is left alone. */
    method KillBot(i: nat)
      requires i < |bots| && bots[i].id == i && Counted(players, bots)
      modifies this`bots, this`deadBots, this`players, this`events
      ensures !old(bots)[i].alive ==> S() == old(S())
      ensures old(bots)[i].alive ==>
                && bots == old(bots)[i := old(bots)[i].(alive := false)]
                && deadBots == old(deadBots) + [i] && events == old(events) + [BotDied(i)]
                && players == Recount(old(players), bots)
    {
      if !bots[i].alive {
        return;
      }
      var owner := bots[i].owner;
      if owner < |players| {
        CountOneDeath(players, bots, i);
      } else {
        CountForeignDeath(players, bots, i);
      }
      bots := bots[i := bots[i].(alive := false)];
      deadBots := deadBots + [bots[i].id];
      if owner < |players| {
        players := players[owner := players[owner].(botCount := players[owner].botCount - 1)];
      }
      events := events + [BotDied(bots[i].id)];
    }

    // ----- Move -------------------------------------------------------------------

    /** Where bot i means to go. */
    method IntendedDestination(i: nat) returns (dest: Position)
      requires Valid() && i < |bots|
      ensures dest == Destination(cfg, S(), i)
    {
      hide Wrap, WellFormed;
      var b := bots[i];
      dest := b.pos;
      if b.id in moves && moves[b.id] != DirNone {
        dest := Move(b.pos, moves[b.id], cfg.rows, cfg.cols);
        var passable := grid.IsPassable(dest);
        if !passable {
          dest := b.pos;
        }
      }
    }

    /** First pass of the move phase: destinations by bot and bots by destination. */
    method PlanMoves() returns (intended: map<nat, Position>, botsAtPos: map<Position, seq<nat>>)
      requires Valid()
      ensures forall j :: 0 <= j < |bots| && bots[j].alive ==> j in intended && intended[j] == Destination(cfg, S(), j)
      ensures forall p :: Bucket(botsAtPos, p) == Heading(cfg, S(), |bots|, p)
    {
      hide Destination, Heading, Valid, HeadsFor, Bucket;
      ghost var s := S();
      intended, botsAtPos := map[], map[];
      BoardIsSized();
      NothingFiled(cfg, s);
      for i := 0 to |bots|
        invariant forall j :: 0 <= j < i && bots[j].alive ==> j in intended && intended[j] == Destination(cfg, s, j)
        invariant forall p :: Bucket(botsAtPos, p) == Heading(cfg, s, i, p)
      {
        BotIdIsIndex(i);
        ghost var before := botsAtPos;
        if !bots[i].alive {
          FileBot(cfg, s, i, before, botsAtPos);
          continue;
        }
        var dest := IntendedDestination(i);
        intended := intended[bots[i].id := dest];
        botsAtPos := botsAtPos[dest := Bucket(botsAtPos, dest) + [bots[i].id]];
        FileBot(cfg, s, i, before, botsAtPos);
      }
    }

    /** Kills every bot of a group heading for one tile. */
    method KillGroup(group: seq<nat>)
      requires Distinct(group) && forall k :: 0 <= k < |group| ==> group[k] < |bots| && bots[group[k]].alive
      requires BotsOk(cfg, bots, |players|) && Counted(players, bots)
      modifies this`bots, this`deadBots, this`players, this`events
      ensures bots == Slain(old(bots), group)
      ensures deadBots == old(deadBots) + group && events == old(events) + DeathNotices(group)
      ensures players == Recount(old(players), bots)
    {
      RecountStable(players, bots);
      for k := 0 to |group|
        invariant bots == Slain(old(bots), group[..k])
        invariant BotsOk(cfg, bots, |players|) && Counted(players, bots)
        invariant deadBots == old(deadBots) + group[..k] && events == old(events) + DeathNotices(group[..k])
        invariant players == Recount(old(players), bots)
      {
        SlainOneMore(bots, old(bots), group, k);
        KillBot(group[k]);
      }
      assert group[..|group|] == group;
    }

    method AllOwnedBy(group: seq<nat>, owner: nat) returns (same: bool)
      requires forall k :: 0 <= k < |group| ==> group[k] < |bots|
      ensures same <==> forall k :: 0 <= k < |group| ==> bots[group[k]].owner == owner
    {
      for k := 0 to |group|
        invariant forall j :: 0 <= j < k ==> bots[group[j]].owner == owner
      {
        if bots[group[k]].owner != owner {
          return false;
        }
      }
      return true;
    }

    /** Second pass of the move phase: collide or move, bot by bot. */
    method ResolveMoves(intended: map<nat, Position>, botsAtPos: map<Position, seq<nat>>)
      requires Valid()
      requires forall j :: 0 <= j < |bots| && bots[j].alive ==> j in intended && intended[j] == Destination(cfg, S(), j)
      requires forall p :: Bucket(botsAtPos, p) == Heading(cfg, S(), |bots|, p)
      modifies this`bots, this`deadBots, this`players, this`events
      ensures MoveStep(cfg, old(S()), S())
    {
      hide Destination, Heading, Collides, HeadsFor, Midway, WellFormed, MoveStep, Recount;
      ghost var s := S();
      ghost var died: seq<nat> := [];
      MoveBegins(cfg, s);
      for i := 0 to |bots|
        invariant |bots| == |s.bots| && |players| == |s.players|
        invariant Midway(cfg, s, i, died, bots, players, deadBots, events)
      {
        MidwayBot(cfg, s, i, died, bots, players, deadBots, events);
        if !bots[i].alive {
          MidwaySkip(cfg, s, i, died, bots, players, deadBots, events);
          continue;
        }
        var dest := intended[bots[i].id];
        var group := Bucket(botsAtPos, dest);
        MidwayGroup(cfg, s, i, died, bots, players, deadBots, events);
        if |group| > 1 {
          var sameOwner := AllOwnedBy(group, bots[i].owner);
          if sameOwner {
            MidwayKill(cfg, s, i, died, bots, players, deadBots, events);
            KillGroup(group);
            died := died + group;
            continue;
          }
        }
        MidwayMove(cfg, s, i, died, bots, players, deadBots, events);
        bots := bots[i := bots[i].(pos := dest)];
      }
      MoveEnds(cfg, s, died, bots, players, deadBots, events);
    }

    method ExecuteMoves()
      requires Valid()
      modifies this`bots, this`deadBots, this`players, this`events
      ensures MoveStep(cfg, old(S()), S()) && Valid()
    {
      hide WellFormed, MoveStep;
      var intended, botsAtPos := PlanMoves();
      ResolveMoves(intended, botsAtPos);
      MoveStaysWellFormed(cfg, old(S()), S());
    }

    // ----- Combat -----------------------------------------------------------------

    method EnemiesInRange(i: nat) returns (foes: seq<nat>)
      requires Valid() && i < |bots| && bots[i].alive
      ensures foes == Enemies(cfg, bots, i)
    {
      hide Distance2, Enemies, WellFormed;
      BoardIsSized();
      foes := [];
      EnemiesStep(cfg, bots, i, 0);
      for j := 0 to |bots|
        invariant foes == Select(j, EnemyTest(cfg, bots, i))
      {
        EnemiesStep(cfg, bots, i, j);
        var b, e := bots[i], bots[j];
        if !e.alive || e.id == b.id || e.owner == b.owner {
          continue;
        }
        if InRadius(b.pos, e.pos, cfg.attackRadius2, cfg.rows, cfg.cols) {
          foes := foes + [j];
        }
      }
      EnemiesListed(cfg, bots, i);
    }

    method CountEnemies() returns (enemyCounts: map<nat, nat>, botsInRadius: map<nat, seq<nat>>)
      requires Valid()
      ensures forall i :: 0 <= i < |bots| && bots[i].alive ==>
                i in botsInRadius && botsInRadius[i] == Enemies(cfg, bots, i)
                && i in enemyCounts && enemyCounts[i] == |Enemies(cfg, bots, i)|
    {
      hide Enemies, WellFormed;
      enemyCounts, botsInRadius := map[], map[];
      for i := 0 to |bots|
        invariant forall j :: 0 <= j < i && bots[j].alive ==>
                    j in botsInRadius && botsInRadius[j] == Enemies(cfg, bots, j)
                    && j in enemyCounts && enemyCounts[j] == |Enemies(cfg, bots, j)|
      {
        BotIdIsIndex(i);
        if !bots[i].alive {
          continue;
        }
        var foes := EnemiesInRange(i);
        enemyCounts := enemyCounts[bots[i].id := |foes|];
        botsInRadius := botsInRadius[bots[i].id := foes];
      }
    }

    /** Everyone strictly more exposed than all enemies in range, on the counts taken beforehand. */
    method ChooseVictims(enemyCounts: map<nat, nat>, botsInRadius: map<nat, seq<nat>>) returns (dead: set<nat>)
      requires Valid()
      requires forall i :: 0 <= i < |bots| && bots[i].alive ==>
                 i in botsInRadius && botsInRadius[i] == Enemies(cfg, bots, i)
                 && i in enemyCounts && enemyCounts[i] == |Enemies(cfg, bots, i)|
      ensures forall i: nat :: i in dead <==> Focused(cfg, bots, i)
    {
      hide Enemies, WellFormed, Enemy;
      dead := {};
      for i := 0 to |bots|
        invariant forall j: nat :: j in dead <==> j < i && Focused(cfg, bots, j)
      {
        BotIdIsIndex(i);
        if !bots[i].alive {
          continue;
        }
        var myEnemyCount := enemyCounts[bots[i].id];
        if myEnemyCount == 0 {
          continue;
        }
        var foes := botsInRadius[bots[i].id];
        EnemiesAreLiving(cfg, bots, i);
        var mostVulnerable := true;
        for k := 0 to |foes|
          invariant mostVulnerable
          invariant forall m :: 0 <= m < k ==> |Enemies(cfg, bots, foes[m])| < |foes|
        {
          BotIdIsIndex(foes[k]);
          if enemyCounts[bots[foes[k]].id] >= myEnemyCount {
            mostVulnerable := false;
            break;
          }
        }
        assert mostVulnerable ==> forall m :: 0 <= m < |foes| ==> |Enemies(cfg, bots, foes[m])| < |foes|;
        if mostVulnerable {
          dead := dead + {bots[i].id};
        }
      }
    }

    /** Names a victim's killers, crediting and rewarding each killer's player. */
    method AwardKillers(foes: seq<nat>) returns (killers: seq<Killer>)
      requires |combatDeaths| == |players| && BotsOk(cfg, bots, |players|)
      requires forall k :: 0 <= k < |foes| ==> foes[k] < |bots|
      modifies this`combatDeaths, this`players
      ensures |killers| == |foes|
      ensures forall k :: 0 <= k < |foes| ==> killers[k] == Killer(bots[foes[k]].id, bots[foes[k]].owner)
      ensures players == Awarded(cfg, old(players), killers)
      ensures OwnedCredits(old(combatDeaths), combatDeaths, killers)
    {
      hide Awarded, OwnedCredits;
      killers := [];
      AwardNone(cfg, players, combatDeaths);
      for k := 0 to |foes|
        invariant |killers| == k && |combatDeaths| == |players| == |old(players)|
        invariant forall m :: 0 <= m < k ==> killers[m] == Killer(bots[foes[m]].id, bots[foes[m]].owner)
        invariant players == Awarded(cfg, old(players), killers)
        invariant OwnedCredits(old(combatDeaths), combatDeaths, killers)
      {
        var e := bots[foes[k]];
        AwardOneMore(cfg, old(players), old(combatDeaths), combatDeaths, killers, Killer(e.id, e.owner));
        killers := killers + [Killer(e.id, e.owner)];
        combatDeaths := combatDeaths[e.owner := combatDeaths[e.owner] + 1];
        players := players[e.owner := players[e.owner].(score := players[e.owner].score + cfg.killScore)];
      }
    }

    /** Kills the victims and announces each death with its killers. */
    method StrikeVictims(dead: set<nat>, botsInRadius: map<nat, seq<nat>>)
      requires Valid()
      requires forall i: nat :: i in dead <==> Focused(cfg, bots, i)
      requires forall i :: 0 <= i < |bots| && bots[i].alive ==>
               i in botsInRadius && botsInRadius[i] == Enemies(cfg, bots, i)
      modifies this`bots, this`deadBots, this`players, this`events, this`combatDeaths
      ensures CombatStep(cfg, old(S()), S())
    {
      hide StruckBelow, Focused, Enemies, CombatStep, WellFormed;
      ghost var s := S();
      StrikeBegins(cfg, s);
      BoardOf(cfg, s);
      for i := 0 to |bots|
        invariant |bots| == |s.bots|
        invariant StruckBelow(cfg, s, i, bots, players, deadBots, events, combatDeaths)
      {
        StruckFacts(cfg, s, i, bots, players, deadBots, events, combatDeaths);
        if bots[i].id in dead {
          FocusedIsLiving(cfg, s.bots, i);
          StrikeDown(s, i, botsInRadius[bots[i].id]);
        } else {
          StrikeSpares(cfg, s, i, bots, players, deadBots, events, combatDeaths);
        }
      }
      StrikeEnds(cfg, s, bots, players, deadBots, events, combatDeaths);
    }

    /** One victim of the kill loop; s is the state before the loop. */
    method StrikeDown(ghost s: State, i: nat, foes: seq<nat>)
      requires WellFormed(cfg, s) && i < |s.bots| && Focused(cfg, s.bots, i) && foes == Enemies(cfg, s.bots, i)
      requires StruckBelow(cfg, s, i, bots, players, deadBots, events, combatDeaths)
      modifies this`bots, this`deadBots, this`players, this`events, this`combatDeaths
      ensures |bots| == |s.bots| && StruckBelow(cfg, s, i + 1, bots, players, deadBots, events, combatDeaths)
    {
      hide StruckBelow, Focused, Enemies, Awarded, OwnedCredits, WellFormed;
      BoardOf(cfg, s);
      StruckFacts(cfg, s, i, bots, players, deadBots, events, combatDeaths);
      FocusedIsLiving(cfg, s.bots, i);
      ghost var bots0, players0, deadBots0, events0, credits0 := bots, players, deadBots, events, combatDeaths;
      var b := bots[i];
      bots := bots[i := b.(alive := false)];
      deadBots := deadBots + [b.id];
      players := players[b.owner := players[b.owner].(botCount := players[b.owner].botCount - 1)];
      StruckStaysOk(cfg, s, bots, |players|);
      var killers := AwardKillers(foes);
      events := events + [CombatDeath(b.id, killers)];
      KillersMatch(cfg, s.bots, bots, i, killers);
      StrikeFells(cfg, s, i, bots0, players0, deadBots0, events0, credits0, combatDeaths);
    }

    method ExecuteCombat()
      requires Valid()
      modifies this`bots, this`deadBots, this`players, this`events, this`combatDeaths
      ensures CombatStep(cfg, old(S()), S()) && Valid()
    {
      hide WellFormed, CombatStep, Focused, Enemies;
      var enemyCounts, botsInRadius := CountEnemies();
      var dead := ChooseVictims(enemyCounts, botsInRadius);
      StrikeVictims(dead, botsInRadius);
      CombatStaysWellFormed(cfg, old(S()), S());
    }

    // ----- Zone -------------------------------------------------------------------

    /** Snaps the zone to its first active radius. */
    method SetInitialZoneRadius()
      requires cfg.rows > 0 && cfg.cols > 0
      modifies this`zoneRadius
      ensures zoneRadius == InitialRadius(cfg)
    {
      var halfRows, halfCols := cfg.rows / 2, cfg.cols / 2;
      var distToEdge := halfRows;
      if halfCols < distToEdge {
        distToEdge := halfCols;
      }
      zoneRadius := distToEdge * 90 / 100;
      if zoneRadius < 7 {
        zoneRadius := 7;
      }
    }

    method ExecuteZone()
      requires Valid()
      modifies this`zoneRadius, this`bots, this`deadBots, this`players, this`events
      ensures ZoneStep(cfg, old(S()), S()) && Valid()
    {
      hide WellFormed, ZoneStep;
      ShrinkAndSweep();
      ZoneStaysWellFormed(cfg, old(S()), S());
    }

    /** The storm shrinks on its schedule and kills every living bot beyond the radius. */
    method ShrinkAndSweep()
      requires Valid()
      modifies this`zoneRadius, this`bots, this`deadBots, this`players, this`events
      ensures ZoneStep(cfg, old(S()), S())
    {
      hide StormBelow, WellFormed, ZoneStep, ShrunkRadius;
      ghost var s := S();
      StormRests(cfg, s);
      if !cfg.zoneEnabled {
        return;
      }
      ShrinkRadius();
      if !zoneActive {
        return;
      }
      SweepOutside(s);
      StormEnds(cfg, s, bots, players, deadBots, events);
    }

    /** The schedule and the clamp to the least radius. */
    method ShrinkRadius()
      requires cfg.zoneShrinkInterval != 0
      modifies this`zoneRadius
      ensures zoneRadius == ShrunkRadius(cfg, old(S()))
    {
      if zoneActive && turn > cfg.zoneStartTurn && GoRem(turn - cfg.zoneStartTurn, cfg.zoneShrinkInterval) == 0 {
        if zoneRadius > cfg.zoneMinRadius {
          zoneRadius := zoneRadius - cfg.zoneShrinkStep;
          if zoneRadius < cfg.zoneMinRadius {
            zoneRadius := cfg.zoneMinRadius;
          }
        }
        if zoneRadius < cfg.zoneMinRadius {
          zoneRadius := cfg.zoneMinRadius;
        }
      }
    }

    /** The kill loop of the zone phase; s is the state before the radius changed. */
    method SweepOutside(ghost s: State)
      requires WellFormed(cfg, s) && S() == s.(zoneRadius := zoneRadius)
      modifies this`bots, this`deadBots, this`players, this`events
      ensures StormBelow(cfg, s, zoneRadius, |s.bots|, bots, players, deadBots, events)
    {
      hide StormBelow, Distance2, WellFormed;
      StormBegins(cfg, s, zoneRadius);
      BoardOf(cfg, s);
      for i := 0 to |bots|
        invariant |bots| == |s.bots|
        invariant StormBelow(cfg, s, zoneRadius, i, bots, players, deadBots, events)
      {
        StormFacts(cfg, s, zoneRadius, i, bots, players, deadBots, events);
        var b := bots[i];
        if b.alive && Distance2(b.pos, zoneCenter, cfg.rows, cfg.cols) > zoneRadius * zoneRadius {
          StormTakes(cfg, s, zoneRadius, i, bots, players, deadBots, events);
          bots := bots[i := b.(alive := false)];
          deadBots := deadBots + [b.id];
          players := players[b.owner := players[b.owner].(botCount := players[b.owner].botCount - 1)];
          events := events + [ZoneDeath(b.id)];
        } else {
          StormSpares(cfg, s, zoneRadius, i, bots, players, deadBots, events);
        }
      }
    }

    // ----- Capture ----------------------------------------------------------------

    method BotsOn(pos: Position) returns (on: seq<nat>)
      ensures on == Standing(bots, pos)
    {
      on := [];
      StandingStep(bots, pos, 0);
      for i := 0 to |bots|
        invariant on == Select(i, StandTest(bots, pos))
      {
        StandingStep(bots, pos, i);
        if bots[i].alive && bots[i].pos == pos {
          on := on + [i];
        }
      }
    }

    /** Active cores with living bots on them, by core index. */
    method FindBotsOnCores() returns (botsOnCores: map<nat, seq<nat>>)
      ensures forall k :: k in botsOnCores <==>
              0 <= k < |cores| && cores[k].active && Standing(bots, cores[k].pos) != []
      ensures forall k :: k in botsOnCores ==> botsOnCores[k] == Standing(bots, cores[k].pos)
    {
      hide Standing;
      botsOnCores := map[];
      for k := 0 to |cores|
        invariant forall j :: j in botsOnCores <==> 0 <= j < k && cores[j].active && Standing(bots, cores[j].pos) != []
        invariant forall j :: j in botsOnCores ==> botsOnCores[j] == Standing(bots, cores[j].pos)
      {
        if !cores[k].active {
          continue;
        }
        var on := BotsOn(cores[k].pos);
        if on != [] {
          botsOnCores := botsOnCores[k := on];
        }
      }
    }

    method IsDefended(on: seq<nat>, owner: nat) returns (defended: bool)
      requires forall m :: 0 <= m < |on| ==> on[m] < |bots|
      ensures defended <==> exists m :: 0 <= m < |on| && bots[on[m]].owner == owner
    {
      for m := 0 to |on|
        invariant forall j :: 0 <= j < m ==> bots[on[j]].owner != owner
      {
        if bots[on[m]].owner == owner {
          return true;
        }
      }
      return false;
    }

    /** Two points to the capturer, one off the owner, and the core is razed. */
    method CaptureCore(k: nat, capturer: nat)
      requires k < |cores| && cores[k].owner < |players| && capturer < |players|
      modifies this`players, this`cores, this`events
      ensures cores == old(cores)[k := old(cores)[k].(active := false)]
      ensures events == old(events) + [CoreCaptured(k, old(cores)[k].owner, capturer)]
      ensures var ps := old(players)[capturer := old(players)[capturer].(score := old(players)[capturer].score + 2)];
              var o := old(cores)[k].owner;
              players == ps[o := ps[o].(score := ps[o].score - 1)]
    {
      players := players[capturer := players[capturer].(score := players[capturer].score + 2)];
      var owner := cores[k].owner;
      players := players[owner := players[owner].(score := players[owner].score - 1)];
      cores := cores[k := cores[k].(active := false)];
      events := events + [CoreCaptured(k, owner, capturer)];
    }

    /** Walks the held cores in an arbitrary order, as Go walks a map, razing the undefended. */
    method ExecuteCaptures()
      requires Valid()
      modifies this`players, this`cores, this`events
      ensures CaptureStep(old(S()), S()) && Valid()
    {
      hide Standing, Razed, RazedBy, RazedSoFar, WellFormed, CaptureStep;
      ghost var s := S();
      var botsOnCores := FindBotsOnCores();
      ghost var done: set<nat> := {};
      ghost var notices: seq<Event> := [];
      RazingBegins(s);
      var left := botsOnCores.Keys;
      while left != {}
        invariant left !! done && left + done == botsOnCores.Keys
        invariant |cores| == |s.cores| && |players| == |s.players|
        invariant RazedSoFar(s, done, notices, cores, players, events)
        decreases left
      {
        var k :| k in left;
        left := left - {k};
        var on := botsOnCores[k];
        RazingFacts(s, done, notices, cores, players, events, k);
        RazedWhenUndefended(s, k);
        OwnersInRange(cfg, s, k);
        var defended := IsDefended(on, cores[k].owner);
        if cores[k].active && !defended {
          assert bots[on[0]].owner != cores[k].owner;  // the first bot on the core captures it
          RazingFells(s, done, notices, cores, players, events, k, on[0]);
          notices := notices + [CoreCaptured(k, cores[k].owner, bots[on[0]].owner)];
          CaptureCore(k, bots[on[0]].owner);
        } else {
          RazingSpares(s, done, notices, cores, players, events, k);
        }
        done := done + {k};
      }
      forall k | Razed(s, k)
        ensures k in done
      {
        RazedIsHeld(s, k);
      }
      RazingEnds(s, done, notices, cores, players, events);
      CaptureStaysWellFormed(cfg, s, S());
    }

    // ----- Collect ----------------------------------------------------------------

    method AdjacentBots(node: EnergyNode) returns (adjBots: seq<nat>)
      requires cfg.rows > 0 && cfg.cols > 0
      ensures adjBots == Adjacent(cfg, bots, node)
    {
      hide Distance2;
      adjBots := [];
      AdjacentStep(cfg, bots, node, 0);
      for i := 0 to |bots|
        invariant adjBots == Select(i, NearTest(cfg, bots, node))
      {
        AdjacentStep(cfg, bots, node, i);
        if !bots[i].alive {
          continue;
        }
        var d2 := Distance2(bots[i].pos, node.pos, cfg.rows, cfg.cols);
        if d2 <= 2 {
          adjBots := adjBots + [i];
        }
      }
    }

    method OwnersOf(adjBots: seq<nat>) returns (owners: set<nat>)
      requires forall k :: 0 <= k < |adjBots| ==> adjBots[k] < |bots|
      ensures forall k :: 0 <= k < |adjBots| ==> bots[adjBots[k]].owner in owners
      ensures forall o :: o in owners ==> exists k :: 0 <= k < |adjBots| && bots[adjBots[k]].owner == o
    {
      owners := {};
      for k := 0 to |adjBots|
        invariant forall m :: 0 <= m < k ==> bots[adjBots[m]].owner in owners
        invariant forall o :: o in owners ==> exists m :: 0 <= m < k && bots[adjBots[m]].owner == o
      {
        owners := owners + {bots[adjBots[k]].owner};
      }
    }

    /** Charged nodes with bots beside them are collected, or destroyed when contested. */
    method ExecuteCollection()
      requires Valid()
      modifies this`nodes, this`players, this`events
      ensures CollectStep(cfg, old(S()), S()) && Valid()
    {
      hide Adjacent, GatheredBelow, HarvestOf, WellFormed, CollectStep;
      ghost var s := S();
      BoardOf(cfg, s);
      GatherBegins(cfg, s);
      for n := 0 to |nodes|
        invariant |nodes| == |s.nodes| && |players| == |s.players|
        invariant GatheredBelow(cfg, s, n, nodes, players, events)
      {
        GatherFacts(cfg, s, n, nodes, players, events);
        if !nodes[n].hasEnergy {
          ChargelessIsUntouched(cfg, s, n);
          GatherSkips(cfg, s, n, nodes, players, events);
          continue;
        }
        var adjBots := AdjacentBots(nodes[n]);
        HarvestFromAdjacent(cfg, s.bots, s.nodes[n]);
        AdjacentInRange(cfg, s, n);
        if |adjBots| == 0 {
          GatherSkips(cfg, s, n, nodes, players, events);
          continue;
        }
        var owners := OwnersOf(adjBots);
        SetOfOwners(bots, adjBots, owners);
        if |owners| > 1 {
          GatherBurns(cfg, s, n, nodes, players, events);
          nodes := nodes[n := nodes[n].(hasEnergy := false, tick := 0)];
          continue;
        }
        var playerId := bots[adjBots[0]].owner;
        GatherTakes(cfg, s, n, nodes, players, events, playerId);
        players := players[playerId := players[playerId].(energy := players[playerId].energy + 1)];
        nodes := nodes[n := nodes[n].(hasEnergy := false, tick := 0)];
        events := events + [EnergyCollected(n, playerId)];
      }
      GatherEnds(cfg, s, nodes, players, events);
      CollectStaysWellFormed(cfg, s, S());
    }

    // ----- Energy tick ------------------------------------------------------------

    /** Empty nodes count one turn and recharge on the interval. */
    method ExecuteEnergyTick()
      requires Valid()
      modifies this`nodes
      ensures TickStep(cfg, old(S()), S()) && Valid()
    {
      for n := 0 to |nodes|
        invariant nodes == TickedNodes(cfg, old(nodes), n)
      {
        if nodes[n].hasEnergy {
          assert nodes == TickedNodes(cfg, old(nodes), n + 1);
          continue;
        }
        nodes := nodes[n := nodes[n].(tick := nodes[n].tick + 1)];
        if nodes[n].tick >= cfg.energyInterval {
          nodes := nodes[n := nodes[n].(hasEnergy := true, tick := 0)];
        }
        assert nodes == TickedNodes(cfg, old(nodes), n + 1);
      }
      TickStaysWellFormed(cfg, old(S()), S());
    }

    // ----- Spawn ------------------------------------------------------------------

    /** Adds a living bot for a player, announced by an event. */
    method SpawnBot(owner: nat, pos: Position)
      requires cfg.rows > 0 && cfg.cols > 0
      modifies this`bots, this`nextBotId, this`players, this`events
      ensures bots == old(bots) + [Bot(old(nextBotId), owner, Wrap(pos.row, pos.col, cfg.rows, cfg.cols), true)]
      ensures nextBotId == old(nextBotId) + 1
      ensures players == if owner >= |old(players)| then old(players)
                         else old(players)[owner := old(players)[owner].(botCount := old(players)[owner].botCount + 1)]
      ensures events == old(events) + [BotSpawned(old(nextBotId), owner)]
    {
      var b := Bot(nextBotId, owner, Wrap(pos.row, pos.col, cfg.rows, cfg.cols), true);
      nextBotId := nextBotId + 1;
      bots := bots + [b];
      if owner < |players| {
        players := players[owner := players[owner].(botCount := players[owner].botCount + 1)];
      }
      events := events + [BotSpawned(b.id, owner)];
    }

    method IsOccupied(pos: Position) returns (occupied: bool)
      ensures occupied <==> Occupied(bots, pos)
    {
      for i := 0 to |bots|
        invariant forall j :: 0 <= j < i ==> !StandsAt(bots, j, pos)
      {
        if bots[i].alive && bots[i].pos == pos {
          assert StandsAt(bots, i, pos);
          return true;
        }
      }
      return false;
    }

    /** Active cores of a player with no living bot on them, by core index. */
    method EligibleCores(p: nat) returns (eligible: seq<nat>)
      ensures eligible == Select(|cores|, EligibleTest(S(), p))
    {
      hide Occupied;
      eligible := [];
      for k := 0 to |cores|
        invariant eligible == Select(k, EligibleTest(S(), p))
      {
        if !cores[k].active || cores[k].owner != p {
          continue;
        }
        var occupied := IsOccupied(cores[k].pos);
        if !occupied {
          eligible := eligible + [k];
        }
      }
    }

    /** The given cores in spawning order; the order is total, so any correct sort agrees. */
    method SortCoresByPriority(ids: seq<nat>) returns (sorted: seq<nat>)
      requires Identified(cores) && Distinct(ids) && forall k :: 0 <= k < |ids| ==> ids[k] < |cores|
      ensures |sorted| == |ids| && forall x :: x in sorted <==> x in ids
      ensures (forall k :: 0 <= k < |sorted| ==> sorted[k] < |cores|) && Ordered(cores, sorted)
    {
      hide Ordered;
      sorted := [];
      NothingToOrder(cores);
      for i := 0 to |ids|
        invariant |sorted| == i && forall x :: x in sorted <==> x in ids[..i]
        invariant (forall k :: 0 <= k < |sorted| ==> sorted[k] < |cores|) && Ordered(cores, sorted)
      {
        var j := 0;
        while j < |sorted| && Before(cores, sorted[j], ids[i])
          invariant j <= |sorted| && forall k :: 0 <= k < j ==> Before(cores, sorted[k], ids[i])
        {
          j := j + 1;
        }
        assert ids[i] !in ids[..i];
        InsertKeepsOrder(cores, sorted, j, ids[i]);
        sorted := sorted[..j] + [ids[i]] + sorted[j..];
        assert ids[..i + 1] == ids[..i] + [ids[i]];
      }
      assert ids[..|ids|] == ids;
    }

    /** One automatic spawn at a core, paid for by its player. */
    method SpawnAt(p: nat, k: nat)
      requires Valid() && p < |players| && k < |cores|
      modifies this`bots, this`nextBotId, this`players, this`events, this`cores
      ensures S() == SpawnOne(cfg, old(S()), p, k)
    {
      hide WellFormed, SpawnOne, Wrap;
      SpawnOneIs(cfg, S(), p, k);
      SpawnBot(p, cores[k].pos);
      cores := cores[k := cores[k].(lastSpawnedTurn := turn)];
      players := players[p := players[p].(energy := players[p].energy - cfg.spawnCost)];
    }

    /** Spawns down the ranking until the energy no longer covers the cost. */
    method SpawnDown(p: nat, ranked: seq<nat>)
      requires Valid() && p < |players| && forall m :: 0 <= m < |ranked| ==> ranked[m] < |cores|
      modifies this`bots, this`nextBotId, this`players, this`events, this`cores
      ensures S() == SpawnAll(cfg, old(S()), p, ranked[..Affordable(old(players)[p].energy, cfg.spawnCost, |ranked|)])
    {
      hide WellFormed, SpawnAll, SpawnOne, Affordable;
      ghost var s := S();
      ghost var k := 0;
      SpawnAllBegins(cfg, s, p, ranked);
      for i := 0 to |ranked|
        invariant k == i && p < |players| && |cores| == |s.cores|
        invariant S() == SpawnAll(cfg, s, p, ranked[..k]) && WellFormed(cfg, S())
        invariant Affordable(s.players[p].energy, cfg.spawnCost, |ranked|)
                  == k + Affordable(players[p].energy, cfg.spawnCost, |ranked| - k)
      {
        AffordableStep(players[p].energy, cfg.spawnCost, |ranked| - k);
        if players[p].energy < cfg.spawnCost {
          break;
        }
        SpawnAllStep(cfg, s, p, ranked, k);
        SpawnOneStaysWellFormed(cfg, S(), p, ranked[k]);
        SpawnOneSizes(cfg, S(), p, ranked[k]);
        SpawnAt(p, ranked[i]);
        k := k + 1;
      }
      AffordableStep(players[p].energy, cfg.spawnCost, |ranked| - k);
    }

    /** One player's automatic spawns. */
    method SpawnForPlayer(p: nat) returns (ghost ids: seq<nat>)
      requires Valid() && p < |players|
      modifies this`bots, this`nextBotId, this`players, this`events, this`cores
      ensures PlayerSpawns(cfg, old(S()), p, ids, S())
    {
      hide WellFormed, SpawnAll, Affordable, Eligible, Ordered, Ranking;
      ids := [];
      if players[p].energy < cfg.spawnCost {
        return;
      }
      ghost var s := S();
      CoresAreIdentified(cfg, s);
      EligibleAre(s, p);
      var eligible := EligibleCores(p);
      var ranked := SortCoresByPriority(eligible);
      RankedIsRanking(s, p, ranked);
      SpawnDown(p, ranked);
      ids := ranked;
    }

    /** The spawn phase: every player in turn. */
    method ExecuteSpawns() returns (ghost stages: seq<State>, ghost rankings: seq<seq<nat>>)
      requires Valid()
      modifies this`bots, this`nextBotId, this`players, this`events, this`cores
      ensures SpawnStep(cfg, old(S()), stages, rankings, S()) && Valid()
    {
      hide WellFormed, PlayerSpawns;
      ghost var s := S();
      stages, rankings := [s], [];
      for p := 0 to |players|
        invariant |players| == |s.players| && WellFormed(cfg, S()) && grid.Valid()
        invariant |stages| == p + 1 && |rankings| == p && stages[0] == s && stages[p] == S()
        invariant forall q :: 0 <= q < p ==>
                  q < |stages[q].players| && PlayerSpawns(cfg, stages[q], q, rankings[q], stages[q + 1])
      {
        ghost var ids := SpawnForPlayer(p);
        PlayerSpawnsStaysWellFormed(cfg, stages[p], p, ids, S());
        stages, rankings := stages + [S()], rankings + [ids];
      }
    }

    // ----- Endgame ----------------------------------------------------------------

    method GetLivingBotCount() returns (count: nat)
      ensures count == LivingTotal(bots)
    {
      count := 0;
      for i := 0 to |bots|
        invariant count == Sum(bots[..i], Alive())
      {
        SumStep(bots, i, Alive());
        if bots[i].alive {
          count := count + 1;
        }
      }
      WholePrefix(bots);
    }

    method GetPlayerLivingBotCount(p: int) returns (count: nat)
      ensures count == Living(bots, p)
    {
      count := 0;
      for i := 0 to |bots|
        invariant count == Sum(bots[..i], LivingOf(p))
      {
        SumStep(bots, i, LivingOf(p));
        if bots[i].alive && bots[i].owner == p {
          count := count + 1;
        }
      }
      WholePrefix(bots);
    }

    method GetLivingPlayers() returns (alive: set<nat>)
      ensures forall p: nat :: p in alive <==> Survives(S(), p)
    {
      alive := {};
      for i := 0 to |bots|
        invariant forall p: nat :: p in alive <==> exists j :: 0 <= j < i && bots[j].alive && bots[j].owner == p
      {
        if bots[i].alive {
          alive := alive + {bots[i].owner};
        }
      }
    }

    /** Two points per surviving enemy core. */
    method EliminationBonus(winner: nat) returns (bonus: int)
      ensures bonus == 2 * Sum(cores, EnemyCoreOf(winner))
    {
      bonus := 0;
      for k := 0 to |cores|
        invariant bonus == 2 * Sum(cores[..k], EnemyCoreOf(winner))
      {
        SumStep(cores, k, EnemyCoreOf(winner));
        if cores[k].active && cores[k].owner != winner {
          bonus := bonus + 2;
        }
      }
      WholePrefix(cores);
    }

    /** Advances the dominance counters; stops at the first player to reach the limit. */
    method UpdateDominance(totalBots: nat) returns (champion: int)
      requires Valid() && totalBots == LivingTotal(bots)
      modifies this`dominance
      ensures champion == -1 ==> (forall p :: !Crowned(old(S()), p)) && dominance == DominanceAfter(old(S()), |players|)
      ensures champion != -1 ==>
              && Crowned(old(S()), champion) && (forall q :: 0 <= q < champion ==> !Crowned(old(S()), q))
              && dominance == DominanceAfter(old(S()), champion + 1)
    {
      hide WellFormed, DominanceBelow, DominanceAfter, Dominates, Crowned;
      ghost var s := S();
      DominanceBegins(s);
      for p := 0 to |players|
        invariant DominanceBelow(s, p, dominance)
        invariant forall q :: 0 <= q < p ==> !Crowned(s, q)
      {
        DominanceOneMore(cfg, s, p, dominance);
        PlayersAreIndexed(cfg, s, p);
        var botCount := GetPlayerLivingBotCount(players[p].id);
        CrownMeans(s, p, botCount, totalBots);
        if 5 * botCount >= 4 * totalBots {
          dominance := dominance[p := dominance[p] + 1];
          if dominance[p] >= DOMINANCE_TURNS {
            DominanceIs(s, p + 1, dominance);
            return p;
          }
        } else {
          dominance := dominance[p := 0];
        }
      }
      NoneCrowned(s);
      DominanceIs(s, |players|, dominance);
      return -1;
    }

    /** Counts the turns without progress. */
    method WatchStalemate()
      modifies this`stalemateTurns, this`lastTotalEnergy, this`lastTotalBots
      ensures S() == Watched(old(S()))
    {
      ghost var s := S();
      var currentEnergy := 0;
      for p := 0 to |players|
        invariant currentEnergy == Sum(players[..p], EnergyOf()) && S() == s
      {
        SumStep(players, p, EnergyOf());
        currentEnergy := currentEnergy + players[p].energy;
      }
      WholePrefix(players);
      var currentBots := GetLivingBotCount();
      if currentEnergy != lastTotalEnergy || currentBots != lastTotalBots || |deadBots| > 0 {
        stalemateTurns := 0;
        lastTotalEnergy := currentEnergy;
        lastTotalBots := currentBots;
      } else {
        stalemateTurns := stalemateTurns + 1;
      }
    }

    method FindWinnerByScore() returns (bestPlayer: nat)
      requires |players| > 0
      ensures Leads(S(), bestPlayer)
    {
      bestPlayer := 0;
      var bestScore, bestEnergy := players[0].score, players[0].energy;
      var bestBots := GetPlayerLivingBotCount(0);
      for i := 0 to |players|
        invariant bestPlayer < |players| && (bestPlayer < i || i == bestPlayer == 0)
        invariant bestScore == players[bestPlayer].score && bestEnergy == players[bestPlayer].energy
        invariant bestBots == Living(bots, bestPlayer)
        invariant forall j :: 0 <= j < i ==> !Ahead(S(), j, bestPlayer)
        invariant forall j :: 0 <= j < bestPlayer ==> Ahead(S(), bestPlayer, j)
      {
        var score, energy := players[i].score, players[i].energy;
        var count := GetPlayerLivingBotCount(i);
        if score > bestScore
           || (score == bestScore && energy > bestEnergy)
           || (score == bestScore && energy == bestEnergy && count > bestBots) {
          assert Ahead(S(), i, bestPlayer);
          NewBest(S(), i, bestPlayer);
          bestPlayer, bestScore, bestEnergy, bestBots := i, score, energy, count;
        }
      }
    }

    method CreateResult(winner: int, reason: Reason) returns (r: MatchResult)
      requires PlayersOk(players)
      ensures Reports(S(), r, winner, reason)
    {
      var scores: seq<int>, energy: seq<int>, botsAlive: seq<int> := [], [], [];
      for i := 0 to |players|
        invariant |scores| == |energy| == |botsAlive| == i
        invariant forall p :: 0 <= p < i ==>
                    scores[p] == players[p].score && energy[p] == players[p].energy && botsAlive[p] == Living(bots, p)
      {
        var count := GetPlayerLivingBotCount(players[i].id);
        scores, energy, botsAlive := scores + [players[i].score], energy + [players[i].energy], botsAlive + [count];
      }
      var crashed := seq(|players|, _ => false);
      r := MatchResult(winner, reason, turn, scores, energy, botsAlive, crashed, combatDeaths);
    }

    method CheckWinConditions() returns (v: Verdict)
      requires Valid()
      modifies this`players, this`dominance, this`stalemateTurns, this`lastTotalEnergy, this`lastTotalBots
      ensures EndgameStep(cfg, old(S()), S(), v) && Valid()
    {
      hide WellFormed, EndgameStep;
      v := JudgeTurn();
      EndgameStaysWellFormed(cfg, old(S()), S(), v);
    }

    /** The endgame check, conditions in order: elimination, draw, dominance, stalemate, turns. */
    method JudgeTurn() returns (v: Verdict)
      requires Valid()
      modifies this`players, this`dominance, this`stalemateTurns, this`lastTotalEnergy, this`lastTotalBots
      ensures EndgameStep(cfg, old(S()), S(), v)
    {
      hide WellFormed, Survives, DominanceAfter, Crowned, Reports, ClosingStep, SoleSurvivorIs;
      ghost var s := S();
      PlayersFit(cfg, s);
      var livingPlayers := GetLivingPlayers();
      var totalBots := GetLivingBotCount();
      ManySurvivors(s, livingPlayers);
      if |livingPlayers| == 1 {
        var winner :| winner in livingPlayers;
        LoneSurvivor(s, livingPlayers, winner);
        SurvivorIsPlayer(cfg, s, winner);
        var bonus := EliminationBonus(winner);
        players := players[winner := players[winner].(score := players[winner].score + bonus)];
        var r := CreateResult(winner, Elimination);
        assert EliminationStep(s, winner, S(), Ended(r));
        return Ended(r);
      }
      if |livingPlayers| == 0 {
        var r := CreateResult(-1, Draw);
        return Ended(r);
      }
      ghost var p :| p in livingPlayers;
      SurvivorIsPlayer(cfg, s, p);
      SurvivorsCount(s, p);
      if totalBots > 0 {
        var champion := UpdateDominance(totalBots);
        if champion != -1 {
          var r := CreateResult(champion, Dominance);
          assert DominanceStep(s, champion, S(), Ended(r));
          return Ended(r);
        }
      }
      v := CloseTurn(s);
    }

    /** Conditions four and five, once the dominance counters are up to date. */
    method CloseTurn(ghost s: State) returns (v: Verdict)
      requires |players| > 0 && PlayersOk(players)
      requires S() == s.(dominance := DominanceAfter(s, |s.players|))
      modifies this`stalemateTurns, this`lastTotalEnergy, this`lastTotalBots
      ensures ClosingStep(cfg, s, S(), v)
    {
      hide DominanceAfter, Reports, Leads, Watched;
      WatchStalemate();
      if stalemateTurns >= STALEMATE_TURNS {
        var winner := FindWinnerByScore();
        var r := CreateResult(winner, Stalemate);
        return Ended(r);
      }
      if turn >= cfg.maxTurns {
        var winner := FindWinnerByScore();
        var r := CreateResult(winner, Turns);
        return Ended(r);
      }
      return Ongoing;
    }

    // ----- Orders -----------------------------------------------------------------

    /** Gives the order to the first living bot on the tile; a stale position is a no-op. */
    method SubmitMove(pos: Position, dir: Direction)
      modifies this`moves
      ensures S() == Submit(old(S()), pos, dir)
    {
      StandingMembers(bots, pos);
      for i := 0 to |bots|
        invariant moves == old(moves)
        invariant forall j :: 0 <= j < i ==> !StandsAt(bots, j, pos)
      {
        if bots[i].alive && bots[i].pos == pos {
          FirstIsHead(bots, pos, i);
          moves := moves[bots[i].id := dir];
          return;
        }
      }
      NobodyStands(bots, pos);
    }

    /** The runner's ownership check: does the player have a living bot on the tile? */
    method HasBotAt(pos: Position, p: nat) returns (found: bool)
      ensures found <==> exists i :: StandsAt(bots, i, pos) && bots[i].owner == p
    {
      for i := 0 to |bots|
        invariant forall j :: 0 <= j < i ==> !(StandsAt(bots, j, pos) && bots[j].owner == p)
      {
        if bots[i].alive && bots[i].pos == pos && bots[i].owner == p {
          assert StandsAt(bots, i, pos);
          return true;
        }
      }
      return false;
    }

    method ClearTurnState()
      modifies this`moves, this`deadBots, this`events
      ensures S() == old(S()).(moves := map[], deadBots := [], events := [])
    {
      moves, deadBots, events := map[], [], [];
    }

    // ----- The turn ---------------------------------------------------------------

    method CountTurn()
      requires Valid()
      modifies this`turn
      ensures Valid() && S() == old(S()).(turn := old(S()).turn + 1)
    {
      turn := turn + 1;
    }

    /** The eight phases in order; the trace holds every state in between. */
    method ExecuteTurn() returns (verdict: Verdict, ghost t: TurnTrace)
      requires Valid()
      modifies this
      ensures Valid() && Phases(cfg, t)
      ensures t.ordered == old(S()) && t.ended == S() && t.verdict == verdict
    {
      hide Valid, S, MoveStep, CombatStep, ZoneStep, CaptureStep, CollectStep, SpawnStep, TickStep, EndgameStep;
      BoardIsSized();
      ghost var ordered := S();
      CountTurn();
      ghost var begun := S();
      ExecuteMoves();
      ghost var moved := S();
      ExecuteCombat();
      ghost var fought := S();
      ExecuteZone();
      ghost var sheltered := S();
      ExecuteCaptures();
      ghost var captured := S();
      ExecuteCollection();
      ghost var collected := S();
      ghost var stages, rankings := ExecuteSpawns();
      ghost var spawned := S();
      ExecuteEnergyTick();
      ghost var ticked := S();
      verdict := CheckWinConditions();
      t := TurnTrace([], [], ordered, ordered, begun, moved, fought, sheltered, captured, collected, spawned,
                     stages, rankings, ticked, S(), verdict);
    }

    // ----- Setting up -------------------------------------------------------------

    method AddPlayer()
      requires Valid()
      modifies this`players, this`dominance, this`combatDeaths
      ensures Valid()
      ensures S() == old(S()).(players := old(players) + [Player(|old(players)|, 0, 0, 0)],
                               dominance := old(dominance)[|old(players)| := 0],
                               combatDeaths := old(combatDeaths) + [0])
    {
      NobodyYet(cfg, S());
      dominance := dominance[|players| := 0];
      players := players + [Player(|players|, 0, 0, 0)];
      combatDeaths := combatDeaths + [0];
    }

    /** Places an active core, clearing the tile; its owner starts with a point for it. */
    method AddCore(owner: nat, pos: Position)
      requires Valid()
      modifies this`cores, this`nextCoreId, this`players, grid, grid.tiles
      ensures owner < |players| ==> Valid()
      ensures S() == WithCore(old(S()), owner, Wrap(pos.row, pos.col, cfg.rows, cfg.cols))
    {
      hide Wrap, WellFormed;
      BoardIsSized();
      WrapTwice(pos, cfg.rows, cfg.cols);
      var at := Wrap(pos.row, pos.col, cfg.rows, cfg.cols);
      var c := Core(at, owner, true, nextCoreId, 0);
      nextCoreId := nextCoreId + 1;
      cores := cores + [c];
      grid.Set(at.row, at.col, TileCore);
      if owner < |players| {
        CoreAddedStaysWellFormed(cfg, old(S()), owner, at);
        players := players[owner := players[owner].(score := players[owner].score + 1)];
        assert S() == WithCore(old(S()), owner, at);
      }
    }

    method AddEnergyNode(pos: Position)
      requires Valid()
      modifies this`nodes
      ensures Valid()
      ensures var at := Wrap(pos.row, pos.col, cfg.rows, cfg.cols);
              S() == old(S()).(nodes := old(nodes) + [EnergyNode(at, false, 0)])
    {
      hide Wrap;
      nodes := nodes + [EnergyNode(Wrap(pos.row, pos.col, cfg.rows, cfg.cols), false, 0)];
    }

    // ----- Fog of war -------------------------------------------------------------

    method PositionsOf(p: nat) returns (positions: seq<Position>)
      requires Valid()
      ensures forall k :: 0 <= k < |positions| ==> InGrid(positions[k], cfg.rows, cfg.cols)
      ensures forall q :: Sees(positions, q, cfg.visionRadius2, cfg.rows, cfg.cols) <==> InSight(cfg, S(), p, q)
    {
      hide Distance2, Sees, InSight;
      positions := [];
      NobodySees(cfg, S(), p);
      for i := 0 to |bots|
        invariant forall k :: 0 <= k < |positions| ==> InGrid(positions[k], cfg.rows, cfg.cols)
        invariant forall q ::
                  Sees(positions, q, cfg.visionRadius2, cfg.rows, cfg.cols) <==> InSightBelow(cfg, S(), p, q, i)
      {
        ghost var before := positions;
        if bots[i].alive && bots[i].owner == p {
          positions := positions + [bots[i].pos];
        }
        OneMoreEye(cfg, S(), p, i, before, positions);
      }
      AllEyes(cfg, S(), p);
    }

    method VisibleBots(p: nat, visible: set<Position>) returns (r: seq<VisibleBot>)
      requires Valid() && SightIs(cfg, S(), p, visible)
      ensures var ids := Select(|bots|, SeenBot(cfg, S(), p));
              |r| == |ids| && forall k :: 0 <= k < |ids| ==> r[k] == VisibleBot(bots[ids[k]].pos, bots[ids[k]].owner)
    {
      hide InSight;
      r := [];
      for i := 0 to |bots|
        invariant var ids := Select(i, SeenBot(cfg, S(), p));
                  |r| == |ids| && forall k :: 0 <= k < |ids| ==>
                      r[k] == VisibleBot(bots[ids[k]].pos, bots[ids[k]].owner)
      {
        if bots[i].alive && bots[i].pos in visible {
          r := r + [VisibleBot(bots[i].pos, bots[i].owner)];
        }
      }
    }

    method VisibleDead(p: nat, visible: set<Position>) returns (r: seq<VisibleBot>)
      requires Valid() && SightIs(cfg, S(), p, visible)
      ensures var ids := Select(|deadBots|, SeenDead(cfg, S(), p));
              |r| == |ids| && forall k :: 0 <= k < |ids| ==>
                  r[k] == VisibleBot(bots[deadBots[ids[k]]].pos, bots[deadBots[ids[k]]].owner)
    {
      hide InSight;
      r := [];
      for i := 0 to |deadBots|
        invariant var ids := Select(i, SeenDead(cfg, S(), p));
                  |r| == |ids| && forall k :: 0 <= k < |ids| ==>
                      r[k] == VisibleBot(bots[deadBots[ids[k]]].pos, bots[deadBots[ids[k]]].owner)
      {
        if bots[deadBots[i]].pos in visible {
          r := r + [VisibleBot(bots[deadBots[i]].pos, bots[deadBots[i]].owner)];
        }
      }
    }

    method VisibleNodes(p: nat, visible: set<Position>) returns (r: seq<Position>)
      requires Valid() && SightIs(cfg, S(), p, visible)
      ensures var ids := Select(|nodes|, SeenNode(cfg, S(), p));
              |r| == |ids| && forall k :: 0 <= k < |ids| ==> r[k] == nodes[ids[k]].pos
    {
      hide InSight;
      r := [];
      for i := 0 to |nodes|
        invariant var ids := Select(i, SeenNode(cfg, S(), p));
                  |r| == |ids| && forall k :: 0 <= k < |ids| ==> r[k] == nodes[ids[k]].pos
      {
        if nodes[i].hasEnergy && nodes[i].pos in visible {
          r := r + [nodes[i].pos];
        }
      }
    }

    method VisibleCores(p: nat, visible: set<Position>) returns (r: seq<VisibleCore>)
      requires Valid() && SightIs(cfg, S(), p, visible)
      ensures var ids := Select(|cores|, SeenCore(cfg, S(), p));
              |r| == |ids| && forall k :: 0 <= k < |ids| ==>
                  r[k] == VisibleCore(cores[ids[k]].pos, cores[ids[k]].owner, cores[ids[k]].active)
    {
      hide InSight;
      r := [];
      for i := 0 to |cores|
        invariant var ids := Select(i, SeenCore(cfg, S(), p));
                  |r| == |ids| && forall k :: 0 <= k < |ids| ==>
                      r[k] == VisibleCore(cores[ids[k]].pos, cores[ids[k]].owner, cores[ids[k]].active)
      {
        if cores[i].pos in visible {
          r := r + [VisibleCore(cores[i].pos, cores[i].owner, cores[i].active)];
        }
      }
    }

    /** Exactly what the player's living bots have in sight, in index order. */
    method GetVisibleState(p: nat) returns (v: VisibleState)
      requires Valid() && p < |players|
      ensures VisibleStep(cfg, S(), p, v)
    {
      hide Distance2, Sees, InSight, Wrap;
      var positions := PositionsOf(p);
      var visible := VisibleFrom(positions, cfg.visionRadius2, cfg.rows, cfg.cols);
      var seenBots := VisibleBots(p, visible);
      var seenDead := VisibleDead(p, visible);
      var seenNodes := VisibleNodes(p, visible);
      var seenCores := VisibleCores(p, visible);
      var zone := if cfg.zoneEnabled then Some(ZoneBounds(zoneCenter, zoneRadius, zoneActive)) else None;
      v := VisibleState(turn, p, players[p].energy, players[p].score, seenBots, seenDead, seenNodes, seenCores,
                        grid.walls * visible, zone);
    }
  }

  lemma BoardOf(c: Config, s: State)
    requires WellFormed(c, s)
    ensures c.rows > 0 && c.cols > 0
  {
  }

  lemma OwnersInRange(c: Config, s: State, k: nat)
    requires WellFormed(c, s) && k < |s.cores|
    ensures s.cores[k].owner < |s.players|
    ensures forall i :: 0 <= i < |s.bots| ==> s.bots[i].owner < |s.players|
    ensures forall m :: 0 <= m < |Standing(s.bots, s.cores[k].pos)| ==> Standing(s.bots, s.cores[k].pos)[m] < |s.bots|
  {
  }

  lemma ChargelessIsUntouched(c: Config, s: State, n: nat)
    requires c.rows > 0 && c.cols > 0 && n < |s.nodes| && !s.nodes[n].hasEnergy
    ensures HarvestOf(c, s.bots, s.nodes[n]) == Untouched
  {
  }

  lemma AdjacentInRange(c: Config, s: State, n: nat)
    requires WellFormed(c, s) && n < |s.nodes|
    ensures var adj := Adjacent(c, s.bots, s.nodes[n]);
            forall k :: 0 <= k < |adj| ==> adj[k] < |s.bots| && s.bots[adj[k]].owner < |s.players|
  {
  }

  lemma CoresAreIdentified(c: Config, s: State)
    requires WellFormed(c, s)
    ensures Identified(s.cores)
  {
  }

  lemma NothingToOrder(cores: seq<Core>)
    ensures Ordered(cores, [])
  {
  }

  lemma EligibleAre(s: State, p: nat)
    ensures var ids := Select(|s.cores|, EligibleTest(s, p));
            Distinct(ids) && (forall k :: k in ids <==> Eligible(s, p, k))
            && forall k :: 0 <= k < |ids| ==> ids[k] < |s.cores|
  {
    SelectMembers(|s.cores|, EligibleTest(s, p));
  }

  lemma RankedIsRanking(s: State, p: nat, ids: seq<nat>)
    requires forall k: nat :: k in ids <==> k in Select(|s.cores|, EligibleTest(s, p))
    requires (forall k :: 0 <= k < |ids| ==> ids[k] < |s.cores|) && Ordered(s.cores, ids)
    ensures Ranking(s, p, ids)
  {
    EligibleAre(s, p);
  }

  lemma {:induction false} SpawnAllBegins(c: Config, s: State, p: nat, ids: seq<nat>)
    requires p < |s.players| && forall m :: 0 <= m < |ids| ==> ids[m] < |s.cores|
    ensures SpawnAll(c, s, p, ids[..0]) == s
  {
  }

  lemma SpawnOneIs(c: Config, s: State, p: nat, k: nat)
    requires WellFormed(c, s) && p < |s.players| && k < |s.cores|
    ensures var pos := s.cores[k].pos;
            var ps := s.players[p := s.players[p].(botCount := s.players[p].botCount + 1)];
            SpawnOne(c, s, p, k)
            == s.(bots := s.bots + [Bot(s.nextBotId, p, Wrap(pos.row, pos.col, c.rows, c.cols), true)],
                  nextBotId := s.nextBotId + 1, events := s.events + [BotSpawned(s.nextBotId, p)],
                  cores := s.cores[k := s.cores[k].(lastSpawnedTurn := s.turn)],
                  players := ps[p := ps[p].(energy := ps[p].energy - c.spawnCost)])
  {
  }

  lemma SpawnOneSizes(c: Config, s: State, p: nat, k: nat)
    requires p < |s.players| && k < |s.cores|
    ensures |SpawnOne(c, s, p, k).players| == |s.players| && |SpawnOne(c, s, p, k).cores| == |s.cores|
    ensures SpawnOne(c, s, p, k).players[p].energy == s.players[p].energy - c.spawnCost
  {
  }

  lemma PlayersAreIndexed(c: Config, s: State, p: nat)
    requires WellFormed(c, s) && p < |s.players|
    ensures s.players[p].id == p
  {
  }

  lemma PlayersFit(c: Config, s: State)
    requires WellFormed(c, s)
    ensures PlayersOk(s.players)
  {
  }

  lemma NobodyYet(c: Config, s: State)
    requires WellFormed(c, s)
    ensures Living(s.bots, |s.players|) == 0
  {
    SumBound(s.bots, LivingOf(|s.players|), 0, 0);
  }

  lemma WrapTwice(p: Position, rows: int, cols: int)
    requires rows > 0 && cols > 0
    ensures var q := Wrap(p.row, p.col, rows, cols); Wrap(q.row, q.col, rows, cols) == q
  {
  }

  ghost predicate InSightBelow(c: Config, s: State, p: int, q: Position, n: int)
    requires c.rows > 0 && c.cols > 0
  {
    exists i :: 0 <= i < n && i < |s.bots| && s.bots[i].alive && s.bots[i].owner == p
                && Distance2(s.bots[i].pos, q, c.rows, c.cols) <= c.visionRadius2
  }

  /** The set is the tiles of the board the player sees. */
  ghost predicate SightIs(c: Config, s: State, p: int, visible: set<Position>) {
    c.rows > 0 && c.cols > 0 && forall q :: q in visible <==> InGrid(q, c.rows, c.cols) && InSight(c, s, p, q)
  }

  lemma NobodySees(c: Config, s: State, p: int)
    requires c.rows > 0 && c.cols > 0
    ensures forall q :: Sees([], q, c.visionRadius2, c.rows, c.cols) <==> InSightBelow(c, s, p, q, 0)
  {
  }

  lemma AllEyes(c: Config, s: State, p: int)
    requires c.rows > 0 && c.cols > 0
    ensures forall q :: InSightBelow(c, s, p, q, |s.bots|) <==> InSight(c, s, p, q)
  {
  }

  lemma OneMoreEye(c: Config, s: State, p: int, i: nat, before: seq<Position>, after: seq<Position>)
    requires c.rows > 0 && c.cols > 0 && i < |s.bots|
    requires after == if s.bots[i].alive && s.bots[i].owner == p then before + [s.bots[i].pos] else before
    requires forall q :: Sees(before, q, c.visionRadius2, c.rows, c.cols) <==> InSightBelow(c, s, p, q, i)
    ensures forall q :: Sees(after, q, c.visionRadius2, c.rows, c.cols) <==> InSightBelow(c, s, p, q, i + 1)
  {
    hide Distance2;
    forall q
      ensures Sees(after, q, c.visionRadius2, c.rows, c.cols) <==> InSightBelow(c, s, p, q, i + 1)
    {
      var mine := s.bots[i].alive && s.bots[i].owner == p;
      var near := Distance2(s.bots[i].pos, q, c.rows, c.cols) <= c.visionRadius2;
      assert Sees(before, q, c.visionRadius2, c.rows, c.cols) <==> InSightBelow(c, s, p, q, i);
      assert InSightBelow(c, s, p, q, i + 1) <==> InSightBelow(c, s, p, q, i) || (mine && near);
      if mine {
        assert after[..|before| + 1] == after && after[..|before|] == before;
        SeesOneMore(after, |before|, q, c.visionRadius2, c.rows, c.cols);
      }
    }
  }

  lemma FirstIsHead(bots: seq<Bot>, pos: Position, i: nat)
    requires StandsAt(bots, i, pos) && forall j :: 0 <= j < i ==> !StandsAt(bots, j, pos)
    ensures Standing(bots, pos) != [] && Standing(bots, pos)[0] == i
  {
    StandingMembers(bots, pos);
    assert i in Standing(bots, pos);
  }

  lemma NobodyStands(bots: seq<Bot>, pos: Position)
    requires forall j :: 0 <= j < |bots| ==> !StandsAt(bots, j, pos)
    ensures Standing(bots, pos) == []
  {
    StandingMembers(bots, pos);
  }
}

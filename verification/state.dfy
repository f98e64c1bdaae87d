/** The game's entities and the well-formedness every phase relies on. */
module GameTypes {
  import opened Torus
  import opened Tally

  datatype Config = Config(
    rows: int, cols: int, maxTurns: int,
    visionRadius2: int, attackRadius2: int, spawnCost: int, energyInterval: int,
    zoneEnabled: bool, zoneStartTurn: int, zoneShrinkInterval: int, zoneShrinkStep: int, zoneMinRadius: int,
    killScore: int)

  datatype Bot = Bot(id: nat, owner: nat, pos: Position, alive: bool)

  datatype Core = Core(pos: Position, owner: nat, active: bool, id: nat, lastSpawnedTurn: int)

  datatype EnergyNode = EnergyNode(pos: Position, hasEnergy: bool, tick: int)

  datatype Player = Player(id: nat, energy: int, score: int, botCount: int)

  /** The zone as bots and replays see it. */
  datatype ZoneBounds = ZoneBounds(center: Position, radius: int, active: bool)

  datatype Killer = Killer(bot: nat, owner: nat)

  /** Turn events. Bots are named by ID, cores and energy nodes by index. */
  datatype Event =
    | BotSpawned(bot: nat, owner: nat)
    | BotInactive(player: nat)
    | BotDied(bot: nat)
    | CombatDeath(bot: nat, killers: seq<Killer>)
    | ZoneDeath(bot: nat)
    | CoreCaptured(core: nat, oldOwner: nat, newOwner: nat)
    | EnergyCollected(node: nat, player: nat)

  /** The value of a GameState between two operations. */
  datatype State = State(
    walls: set<Position>, turn: int,
    bots: seq<Bot>, nextBotId: nat, cores: seq<Core>, nextCoreId: nat, nodes: seq<EnergyNode>, players: seq<Player>,
    moves: map<nat, Direction>, deadBots: seq<nat>, events: seq<Event>,
    dominance: map<nat, nat>, stalemateTurns: nat, lastTotalEnergy: int, lastTotalBots: int,
    zoneCenter: Position, zoneRadius: int, zoneActive: bool, combatDeaths: seq<nat>)

  // ----- Weights for ledgers ------------------------------------------------------

  ghost function LivingOf(p: int): Bot -> int {
    (b: Bot) => if b.alive && b.owner == p then 1 else 0
  }

  ghost function Alive(): Bot -> int {
    (b: Bot) => if b.alive then 1 else 0
  }

  ghost function Living(bots: seq<Bot>, p: int): int {
    Sum(bots, LivingOf(p))
  }

  ghost function LivingTotal(bots: seq<Bot>): int {
    Sum(bots, Alive())
  }

  // ----- Well-formed states -------------------------------------------------------

  ghost predicate BotsOk(c: Config, bots: seq<Bot>, n: nat) {
    forall i :: 0 <= i < |bots| ==>
      bots[i].id == i && bots[i].owner < n && InGrid(bots[i].pos, c.rows, c.cols)
  }

  ghost predicate CoresOk(c: Config, cores: seq<Core>, n: nat) {
    forall i :: 0 <= i < |cores| ==>
      cores[i].id == i && cores[i].owner < n && InGrid(cores[i].pos, c.rows, c.cols)
  }

  ghost predicate NodesOk(c: Config, nodes: seq<EnergyNode>) {
    forall i :: 0 <= i < |nodes| ==> InGrid(nodes[i].pos, c.rows, c.cols)
  }

  /** Each player's BotCount is the number of that player's living bots. */
  ghost predicate Counted(players: seq<Player>, bots: seq<Bot>) {
    forall p :: 0 <= p < |players| ==> players[p].botCount == Living(bots, p)
  }

  ghost predicate PlayersOk(players: seq<Player>) {
    forall p :: 0 <= p < |players| ==> players[p].id == p
  }

  ghost predicate WellFormed(c: Config, s: State) {
    && c.rows > 0 && c.cols > 0
    && BotsOk(c, s.bots, |s.players|) && s.nextBotId == |s.bots|
    && CoresOk(c, s.cores, |s.players|) && s.nextCoreId == |s.cores|
    && NodesOk(c, s.nodes)
    && PlayersOk(s.players) && Counted(s.players, s.bots)
    && (forall p :: p in s.dominance <==> 0 <= p < |s.players|)
    && |s.combatDeaths| == |s.players|
    && InGrid(s.zoneCenter, c.rows, c.cols)
    && (forall k :: 0 <= k < |s.deadBots| ==> s.deadBots[k] < |s.bots|)
  }

  /** The state with one more core; its wall is opened, and a listed owner scores a point. */
  ghost function WithCore(s: State, owner: nat, at: Position): State {
    s.(walls := s.walls - {at}, nextCoreId := s.nextCoreId + 1,
       cores := s.cores + [Core(at, owner, true, s.nextCoreId, 0)],
       players := if owner >= |s.players| then s.players
                  else s.players[owner := s.players[owner].(score := s.players[owner].score + 1)])
  }

  /** Refreshes every player's BotCount from the bots. */
  ghost function Recount(players: seq<Player>, bots: seq<Bot>): (r: seq<Player>)
    ensures |r| == |players| && Counted(r, bots)
  {
    seq(|players|, p requires 0 <= p < |players| => players[p].(botCount := Living(bots, p)))
  }

  lemma RecountStable(players: seq<Player>, bots: seq<Bot>)
    requires Counted(players, bots)
    ensures Recount(players, bots) == players
  {
  }

  /** One bot's death lowers its owner's count by one and no other. */
  lemma CountOneDeath(players: seq<Player>, bots: seq<Bot>, i: nat)
    requires Counted(players, bots) && i < |bots| && bots[i].alive && bots[i].owner < |players|
    ensures var o := bots[i].owner;
            Recount(players, bots[i := bots[i].(alive := false)])
            == players[o := players[o].(botCount := players[o].botCount - 1)]
  {
    forall p | 0 <= p < |players|
      ensures Living(bots[i := bots[i].(alive := false)], p)
              == Living(bots, p) - (if p == bots[i].owner then 1 else 0)
    {
      SumUpdate(bots, i, bots[i].(alive := false), LivingOf(p));
    }
  }

  /** The death of a bot that belongs to no listed player changes no count. */
  lemma CountForeignDeath(players: seq<Player>, bots: seq<Bot>, i: nat)
    requires Counted(players, bots) && i < |bots| && bots[i].owner >= |players|
    ensures Recount(players, bots[i := bots[i].(alive := false)]) == players
  {
    forall p | 0 <= p < |players|
      ensures Living(bots[i := bots[i].(alive := false)], p) == Living(bots, p)
    {
      SumUpdate(bots, i, bots[i].(alive := false), LivingOf(p));
    }
  }

  /** One new living bot raises its owner's count by one and no other. */
  lemma CountOneBirth(players: seq<Player>, bots: seq<Bot>, b: Bot)
    requires Counted(players, bots) && b.alive && b.owner < |players|
    ensures Recount(players, bots + [b])
            == players[b.owner := players[b.owner].(botCount := players[b.owner].botCount + 1)]
  {
    forall p | 0 <= p < |players|
      ensures Living(bots + [b], p) == Living(bots, p) + (if p == b.owner then 1 else 0)
    {
      SumAppend(bots, b, LivingOf(p));
    }
  }

  /** Moving bots, without births or deaths, changes no count. */
  lemma CountUnmoved(bots: seq<Bot>, bots': seq<Bot>, p: int)
    requires |bots| == |bots'|
    requires forall i :: 0 <= i < |bots| ==> bots'[i].alive == bots[i].alive && bots'[i].owner == bots[i].owner
    ensures Living(bots', p) == Living(bots, p)
  {
    SumShift(bots', bots, LivingOf(p), LivingOf(p));
  }
}

/** What each phase of a turn does to the state, stated without loops.
    engine.dfy proves that the phase methods do exactly this. */
module Rules {
  import opened Wrappers

  import opened Torus
  import opened Tally
  import opened GameTypes

  // ----- Orders -------------------------------------------------------------------

  datatype Order = Order(player: nat, pos: Position, dir: Direction)

  predicate StandsAt(bots: seq<Bot>, i: int, pos: Position) {
    0 <= i < |bots| && bots[i].alive && bots[i].pos == pos
  }

  function StandTest(bots: seq<Bot>, pos: Position): int -> bool {
    i => StandsAt(bots, i, pos)
  }

  /** The living bots on a tile, in index order. */
  function Standing(bots: seq<Bot>, pos: Position): seq<nat> {
    Select(|bots|, StandTest(bots, pos))
  }

  /** SubmitMove: the order goes to the first living bot on the tile, whoever owns it. */
  ghost function Submit(s: State, pos: Position, dir: Direction): State {
    var on := Standing(s.bots, pos);
    if on == [] then s else s.(moves := s.moves[s.bots[on[0]].id := dir])
  }

  /** The runner forwards an order only if the ordering player has a living bot there. */
  ghost predicate Entitled(bots: seq<Bot>, o: Order) {
    exists i :: StandsAt(bots, i, o.pos) && bots[i].owner == o.player
  }

  ghost function AfterOrders(s: State, orders: seq<Order>): (r: State)
    ensures r == s.(moves := r.moves)
  {
    if orders == [] then s
    else
      var s1, o := AfterOrders(s, orders[..|orders| - 1]), orders[|orders| - 1];
      if Entitled(s.bots, o) then Submit(s1, o.pos, o.dir) else s1
  }

  // ----- Move ---------------------------------------------------------------------

  /** Where a bot's order takes it; orders into walls are ignored. */
  function Destination(c: Config, s: State, i: int): Position
    requires c.rows > 0 && c.cols > 0 && 0 <= i < |s.bots|
  {
    var b := s.bots[i];
    if b.id in s.moves && s.moves[b.id] != DirNone then
      var dest := Move(b.pos, s.moves[b.id], c.rows, c.cols);
      if dest in s.walls then b.pos else dest
    else b.pos
  }

  predicate HeadsFor(c: Config, s: State, i: int, p: Position)
    requires c.rows > 0 && c.cols > 0
  {
    0 <= i < |s.bots| && s.bots[i].alive && Destination(c, s, i) == p
  }

  /** Two or more bots head for the tile and all of them have one owner. */
  ghost predicate Collides(c: Config, s: State, i: int)
    requires c.rows > 0 && c.cols > 0
  {
    && 0 <= i < |s.bots| && s.bots[i].alive
    && (exists j :: j != i && HeadsFor(c, s, j, Destination(c, s, i)))
    && (forall j :: HeadsFor(c, s, j, Destination(c, s, i)) ==> s.bots[j].owner == s.bots[i].owner)
  }

  /** A bot after the simultaneous move: colliding bots die where they stood. */
  ghost function MovedBot(c: Config, s: State, i: int): Bot
    requires c.rows > 0 && c.cols > 0 && 0 <= i < |s.bots|
  {
    var b := s.bots[i];
    if !b.alive then b
    else if Collides(c, s, i) then b.(alive := false)
    else b.(pos := Destination(c, s, i))
  }

  ghost function MovedBots(c: Config, s: State): (r: seq<Bot>)
    requires c.rows > 0 && c.cols > 0
    ensures |r| == |s.bots|
  {
    seq(|s.bots|, i requires 0 <= i < |s.bots| => MovedBot(c, s, i))
  }

  ghost function DeathNotices(died: seq<nat>): seq<Event> {
    seq(|died|, k requires 0 <= k < |died| => BotDied(died[k]))
  }

  /** Collision victims are listed once each, in the order the map walk kills them. */
  ghost predicate MoveStep(c: Config, s: State, s': State)
    requires c.rows > 0 && c.cols > 0
  {
    var bots' := MovedBots(c, s);
    && s' == s.(bots := bots', players := Recount(s.players, bots'), deadBots := s'.deadBots, events := s'.events)
    && |s.deadBots| <= |s'.deadBots| && s'.deadBots[..|s.deadBots|] == s.deadBots
    && var died := s'.deadBots[|s.deadBots|..];
       && Distinct(died) && (forall i: nat :: i in died <==> Collides(c, s, i))
       && s'.events == s.events + DeathNotices(died)
  }

  // ----- Combat -------------------------------------------------------------------

  predicate Enemy(c: Config, bots: seq<Bot>, i: int, j: int)
    requires c.rows > 0 && c.cols > 0
  {
    && 0 <= i < |bots| && 0 <= j < |bots| && bots[i].alive && bots[j].alive
    && bots[j].id != bots[i].id && bots[j].owner != bots[i].owner
    && InRadius(bots[i].pos, bots[j].pos, c.attackRadius2, c.rows, c.cols)
  }

  function EnemyTest(c: Config, bots: seq<Bot>, i: int): int -> bool
    requires c.rows > 0 && c.cols > 0
  {
    j => c.rows > 0 && c.cols > 0 && Enemy(c, bots, i, j)
  }

  /** The enemies in range of bot i, in index order. */
  function Enemies(c: Config, bots: seq<Bot>, i: int): seq<nat>
    requires c.rows > 0 && c.cols > 0
  {
    Select(|bots|, EnemyTest(c, bots, i))
  }

  /** Strictly more exposed than every enemy in range: the focus-fire victim. */
  predicate Focused(c: Config, bots: seq<Bot>, i: int)
    requires c.rows > 0 && c.cols > 0
  {
    && 0 <= i < |bots| && bots[i].alive && |Enemies(c, bots, i)| > 0
    && forall j :: j in Enemies(c, bots, i) ==> |Enemies(c, bots, j)| < |Enemies(c, bots, i)|
  }

  function FocusedTest(c: Config, bots: seq<Bot>): int -> bool
    requires c.rows > 0 && c.cols > 0
  {
    i => c.rows > 0 && c.cols > 0 && Focused(c, bots, i)
  }

  /** The combat dead, in index order. */
  function Fallen(c: Config, bots: seq<Bot>): seq<nat>
    requires c.rows > 0 && c.cols > 0
  {
    Select(|bots|, FocusedTest(c, bots))
  }

  function Killers(c: Config, bots: seq<Bot>, i: int): (r: seq<Killer>)
    requires c.rows > 0 && c.cols > 0
  {
    var foes := Enemies(c, bots, i);
    seq(|foes|, k requires 0 <= k < |foes| => Killer(bots[foes[k]].id, bots[foes[k]].owner))
  }

  ghost function OwnedBy(p: int): Killer -> int {
    (k: Killer) => if k.owner == p then 1 else 0
  }

  /** How many killers of player p a combat death names; each earns p a credit. */
  ghost function CreditTo(p: int): Event -> int {
    (e: Event) => if e.CombatDeath? then Sum(e.killers, OwnedBy(p)) else 0
  }

  /** The first n bots with the focus-fire victims among them dead. */
  ghost function StruckBots(c: Config, bots: seq<Bot>, n: nat): (r: seq<Bot>)
    requires c.rows > 0 && c.cols > 0
    ensures |r| == |bots|
  {
    seq(|bots|, i requires 0 <= i < |bots| => if i < n && Focused(c, bots, i) then bots[i].(alive := false)
        else bots[i])
  }

  ghost function CombatNotices(c: Config, bots: seq<Bot>, n: nat): seq<Event>
    requires c.rows > 0 && c.cols > 0
  {
    if n == 0 then []
    else CombatNotices(c, bots, n - 1)
         + (if Focused(c, bots, n - 1) then [CombatDeath(n - 1, Killers(c, bots, n - 1))] else [])
  }

  ghost function Credited(c: Config, players: seq<Player>, events: seq<Event>): seq<Player> {
    seq(|players|, p requires 0 <= p < |players| =>
      players[p].(score := players[p].score + c.killScore * Sum(events, CreditTo(p))))
  }

  ghost predicate CreditsAdded(before: seq<nat>, after: seq<nat>, events: seq<Event>) {
    |after| == |before| && forall p :: 0 <= p < |before| ==> after[p] == before[p] + Sum(events, CreditTo(p))
  }

  ghost predicate CombatStep(c: Config, s: State, s': State)
    requires c.rows > 0 && c.cols > 0
  {
    var bots' := StruckBots(c, s.bots, |s.bots|);
    var notices := CombatNotices(c, s.bots, |s.bots|);
    && s' == s.(bots := bots', players := Recount(Credited(c, s.players, notices), bots'),
                deadBots := s.deadBots + Fallen(c, s.bots), events := s.events + notices,
                combatDeaths := s'.combatDeaths)
    && CreditsAdded(s.combatDeaths, s'.combatDeaths, notices)
  }

  // ----- Zone ---------------------------------------------------------------------

  /** The radius once this turn's shrink step, if any, has been applied. */
  function ShrunkRadius(c: Config, s: State): int
    requires c.zoneShrinkInterval != 0
  {
    if s.zoneActive && s.turn > c.zoneStartTurn && GoRem(s.turn - c.zoneStartTurn, c.zoneShrinkInterval) == 0 then
      var r := if s.zoneRadius > c.zoneMinRadius then s.zoneRadius - c.zoneShrinkStep else s.zoneRadius;
      if r < c.zoneMinRadius then c.zoneMinRadius else r
    else s.zoneRadius
  }

  /** Go's remainder for a nonnegative dividend and any nonzero divisor. */
  function GoRem(a: int, b: int): int
    requires a >= 0 && b != 0
  {
    a % (if b < 0 then -b else b)
  }

  predicate Outside(c: Config, s: State, radius: int, i: int)
    requires c.rows > 0 && c.cols > 0
  {
    0 <= i < |s.bots| && s.bots[i].alive && Distance2(s.bots[i].pos, s.zoneCenter, c.rows, c.cols) > radius * radius
  }

  function OutsideTest(c: Config, s: State, radius: int): int -> bool
    requires c.rows > 0 && c.cols > 0
  {
    i => c.rows > 0 && c.cols > 0 && Outside(c, s, radius, i)
  }

  ghost function ShelteredBots(c: Config, s: State, radius: int, n: nat): (r: seq<Bot>)
    requires c.rows > 0 && c.cols > 0
    ensures |r| == |s.bots|
  {
    seq(|s.bots|, i requires 0 <= i < |s.bots| =>
      if i < n && Outside(c, s, radius, i) then s.bots[i].(alive := false) else s.bots[i])
  }

  ghost function ZoneNotices(died: seq<nat>): seq<Event> {
    seq(|died|, k requires 0 <= k < |died| => ZoneDeath(died[k]))
  }

  ghost predicate ZoneStep(c: Config, s: State, s': State)
    requires c.rows > 0 && c.cols > 0 && (c.zoneEnabled ==> c.zoneShrinkInterval != 0)
  {
    if !c.zoneEnabled then s' == s
    else if !s.zoneActive then s' == s
    else
      var radius := ShrunkRadius(c, s);
      var died := Select(|s.bots|, OutsideTest(c, s, radius));
      var bots' := ShelteredBots(c, s, radius, |s.bots|);
      s' == s.(zoneRadius := radius, bots := bots', players := Recount(s.players, bots'),
               deadBots := s.deadBots + died, events := s.events + ZoneNotices(died))
  }

  // ----- Capture ------------------------------------------------------------------

  /** Bot i is the first living bot on the core's tile, and no bot of the owner stands there. */
  ghost predicate RazedBy(s: State, k: int, i: int) {
    && 0 <= k < |s.cores| && s.cores[k].active
    && StandsAt(s.bots, i, s.cores[k].pos)
    && (forall j :: 0 <= j < i ==> !StandsAt(s.bots, j, s.cores[k].pos))
    && forall j :: StandsAt(s.bots, j, s.cores[k].pos) ==> s.bots[j].owner != s.cores[k].owner
  }

  ghost predicate Razed(s: State, k: int) {
    exists i :: RazedBy(s, k, i)
  }

  ghost function RazedCores(s: State): (r: seq<Core>)
    ensures |r| == |s.cores|
  {
    seq(|s.cores|, k requires 0 <= k < |s.cores| =>
      if Razed(s, k) then s.cores[k].(active := false) else s.cores[k])
  }

  ghost function CapturedBy(p: int): Event -> int {
    (e: Event) => if e.CoreCaptured? && e.newOwner == p then 1 else 0
  }

  ghost function LostBy(p: int): Event -> int {
    (e: Event) => if e.CoreCaptured? && e.oldOwner == p then 1 else 0
  }

  /** One notice per razed core, naming its owner and the owner of the first bot on it;
      the notices come in any order, as the captures map is walked in any order. */
  ghost predicate CaptureNotices(s: State, notices: seq<Event>) {
    && (forall n :: 0 <= n < |notices| ==>
          && notices[n].CoreCaptured? && notices[n].core < |s.cores|
          && notices[n].oldOwner == s.cores[notices[n].core].owner
          && exists i :: RazedBy(s, notices[n].core, i) && s.bots[i].owner == notices[n].newOwner)
    && (forall m, n :: 0 <= m < n < |notices| ==> notices[m].core != notices[n].core)
    && forall k :: Razed(s, k) ==> exists n :: 0 <= n < |notices| && notices[n].core == k
  }

  ghost function Settled(players: seq<Player>, notices: seq<Event>): seq<Player> {
    seq(|players|, p requires 0 <= p < |players| =>
      players[p].(score := players[p].score + 2 * Sum(notices, CapturedBy(p)) - Sum(notices, LostBy(p))))
  }

  ghost predicate CaptureStep(s: State, s': State) {
    && |s.events| <= |s'.events| && s'.events[..|s.events|] == s.events
    && var notices := s'.events[|s.events|..];
       && (forall n :: 0 <= n < |notices| ==> notices[n].CoreCaptured?)
       && CaptureNotices(s, notices)
       && s' == s.(cores := RazedCores(s), players := Settled(s.players, notices), events := s'.events)
  }

  // ----- Collect ------------------------------------------------------------------

  predicate Near(c: Config, bots: seq<Bot>, node: EnergyNode, i: int)
    requires c.rows > 0 && c.cols > 0
  {
    0 <= i < |bots| && bots[i].alive && Distance2(bots[i].pos, node.pos, c.rows, c.cols) <= 2
  }

  datatype Harvest = Untouched | Contested | Taken(player: nat)

  /** A charged node with bots of one player around it goes to that player; with bots of
      several players it is destroyed. */
  ghost predicate HarvestIs(c: Config, bots: seq<Bot>, node: EnergyNode, h: Harvest)
    requires c.rows > 0 && c.cols > 0
  {
    match h
    case Untouched => !node.hasEnergy || forall i :: !Near(c, bots, node, i)
    case Contested => node.hasEnergy && exists i, j :: Near(c, bots, node, i) && Near(c, bots, node, j)
                                                        && bots[i].owner != bots[j].owner
    case Taken(p) => && node.hasEnergy && (exists i :: Near(c, bots, node, i))
                     && forall i :: Near(c, bots, node, i) ==> bots[i].owner == p
  }

  ghost function HarvestOf(c: Config, bots: seq<Bot>, node: EnergyNode): (h: Harvest)
    requires c.rows > 0 && c.cols > 0
    ensures HarvestIs(c, bots, node, h)
    ensures forall g :: HarvestIs(c, bots, node, g) ==> g == h
  {
    if !node.hasEnergy || forall i :: !Near(c, bots, node, i) then Untouched
    else if exists i, j :: Near(c, bots, node, i) && Near(c, bots, node, j) && bots[i].owner != bots[j].owner
         then Contested
    else var i :| Near(c, bots, node, i); Taken(bots[i].owner)
  }

  ghost function HarvestedNodes(c: Config, bots: seq<Bot>, nodes: seq<EnergyNode>, n: nat): (r: seq<EnergyNode>)
    requires c.rows > 0 && c.cols > 0
    ensures |r| == |nodes|
  {
    seq(|nodes|, k requires 0 <= k < |nodes| =>
      if k < n && HarvestOf(c, bots, nodes[k]) != Untouched then nodes[k].(hasEnergy := false, tick := 0) else nodes[k])
  }

  ghost function CollectNotices(c: Config, bots: seq<Bot>, nodes: seq<EnergyNode>, n: nat): seq<Event>
    requires c.rows > 0 && c.cols > 0 && n <= |nodes|
  {
    if n == 0 then []
    else
      var h := HarvestOf(c, bots, nodes[n - 1]);
      CollectNotices(c, bots, nodes, n - 1) + (if h.Taken? then [EnergyCollected(n - 1, h.player)] else [])
  }

  ghost function CollectedBy(p: int): Event -> int {
    (e: Event) => if e.EnergyCollected? && e.player == p then 1 else 0
  }

  ghost function Enriched(players: seq<Player>, notices: seq<Event>): seq<Player> {
    seq(|players|, p requires 0 <= p < |players| =>
      players[p].(energy := players[p].energy + Sum(notices, CollectedBy(p))))
  }

  ghost predicate CollectStep(c: Config, s: State, s': State)
    requires c.rows > 0 && c.cols > 0
  {
    var notices := CollectNotices(c, s.bots, s.nodes, |s.nodes|);
    s' == s.(nodes := HarvestedNodes(c, s.bots, s.nodes, |s.nodes|),
             players := Enriched(s.players, notices), events := s.events + notices)
  }

  // ----- Spawn --------------------------------------------------------------------

  predicate Occupied(bots: seq<Bot>, pos: Position) {
    exists i :: 0 <= i < |bots| && StandsAt(bots, i, pos)
  }

  /** Active, owned by p and with no living bot on it. */
  predicate Eligible(s: State, p: int, k: int) {
    0 <= k < |s.cores| && s.cores[k].active && s.cores[k].owner == p && !Occupied(s.bots, s.cores[k].pos)
  }

  function EligibleTest(s: State, p: int): int -> bool {
    k => Eligible(s, p, k)
  }

  /** Idle longest first; equal idle time goes to the lower core ID. */
  predicate Before(cores: seq<Core>, a: nat, b: nat)
    requires a < |cores| && b < |cores|
  {
    cores[a].lastSpawnedTurn < cores[b].lastSpawnedTurn
    || (cores[a].lastSpawnedTurn == cores[b].lastSpawnedTurn && cores[a].id < cores[b].id)
  }

  /** ids is a listing of the eligible cores in spawning order. */
  ghost predicate Ranking(s: State, p: int, ids: seq<nat>) {
    && (forall k :: 0 <= k < |ids| ==> ids[k] < |s.cores|)
    && (forall k: nat :: k in ids <==> Eligible(s, p, k))
    && forall a, b :: 0 <= a < b < |ids| ==> Before(s.cores, ids[a], ids[b])
  }

  /** How many of k spawns the energy pays for, one at a time. */
  function Affordable(energy: int, cost: int, k: nat): (m: nat)
    ensures m <= k
    decreases k
  {
    if k == 0 || energy < cost then 0 else 1 + Affordable(energy - cost, cost, k - 1)
  }

  /** One automatic spawn at core k. */
  ghost function SpawnOne(c: Config, s: State, p: nat, k: nat): State
    requires p < |s.players| && k < |s.cores|
  {
    var b := Bot(s.nextBotId, p, s.cores[k].pos, true);
    s.(bots := s.bots + [b], nextBotId := s.nextBotId + 1,
       events := s.events + [BotSpawned(s.nextBotId, p)],
       cores := s.cores[k := s.cores[k].(lastSpawnedTurn := s.turn)],
       players := s.players[p := s.players[p].(energy := s.players[p].energy - c.spawnCost,
                                                botCount := s.players[p].botCount + 1)])
  }

  ghost function SpawnAll(c: Config, s: State, p: nat, ids: seq<nat>): (r: State)
    requires p < |s.players| && forall k :: 0 <= k < |ids| ==> ids[k] < |s.cores|
    ensures |r.players| == |s.players| && |r.cores| == |s.cores| && r.turn == s.turn
  {
    if ids == [] then s else SpawnOne(c, SpawnAll(c, s, p, ids[..|ids| - 1]), p, ids[|ids| - 1])
  }

  /** A player who cannot pay for a spawn is skipped; the others spawn at the front of their
      ranking for as long as the energy lasts. */
  ghost predicate PlayerSpawns(c: Config, s: State, p: nat, ids: seq<nat>, s': State)
    requires p < |s.players|
  {
    if s.players[p].energy < c.spawnCost then s' == s
    else
      && Ranking(s, p, ids)
      && s' == SpawnAll(c, s, p, ids[..Affordable(s.players[p].energy, c.spawnCost, |ids|)])
  }

  /** The players spawn in turn; stages[p] is the state before player p. */
  ghost predicate SpawnStep(c: Config, s: State, stages: seq<State>, rankings: seq<seq<nat>>, s': State) {
    && |stages| == |s.players| + 1 && |rankings| == |s.players|
    && stages[0] == s && stages[|s.players|] == s'
    && forall p :: 0 <= p < |s.players| ==>
         p < |stages[p].players| && PlayerSpawns(c, stages[p], p, rankings[p], stages[p + 1])
  }

  // ----- Energy tick --------------------------------------------------------------

  function TickedNode(c: Config, node: EnergyNode): EnergyNode {
    if node.hasEnergy then node
    else if node.tick + 1 >= c.energyInterval then node.(hasEnergy := true, tick := 0)
    else node.(tick := node.tick + 1)
  }

  ghost function TickedNodes(c: Config, nodes: seq<EnergyNode>, n: nat): (r: seq<EnergyNode>)
    ensures |r| == |nodes|
  {
    seq(|nodes|, k requires 0 <= k < |nodes| => if k < n then TickedNode(c, nodes[k]) else nodes[k])
  }

  ghost predicate TickStep(c: Config, s: State, s': State) {
    s' == s.(nodes := TickedNodes(c, s.nodes, |s.nodes|))
  }

  // ----- Endgame ------------------------------------------------------------------

  datatype Reason = Elimination | Draw | Dominance | Stalemate | Turns

  datatype MatchResult = MatchResult(winner: int, reason: Reason, turns: int, scores: seq<int>, energy: seq<int>,
                                     botsAlive: seq<int>, crashed: seq<bool>, combatDeaths: seq<nat>)

  datatype Verdict = Ongoing | Ended(result: MatchResult)

  ghost predicate Survives(s: State, p: int) {
    exists i :: 0 <= i < |s.bots| && s.bots[i].alive && s.bots[i].owner == p
  }

  /** Player p holds at least four fifths of the living bots. */
  ghost predicate Dominates(s: State, p: int) {
    5 * Living(s.bots, p) >= 4 * LivingTotal(s.bots)
  }

  const DOMINANCE_TURNS := 100
  const STALEMATE_TURNS := 50

  /** The dominance counters once players below n have been updated. */
  ghost function DominanceAfter(s: State, n: int): map<nat, nat> {
    map p | p in s.dominance :: if p < n then (if Dominates(s, p) then s.dominance[p] + 1 else 0) else s.dominance[p]
  }

  ghost predicate Crowned(s: State, p: int) {
    0 <= p < |s.players| && p in s.dominance && Dominates(s, p) && s.dominance[p] + 1 >= DOMINANCE_TURNS
  }

  ghost function EnergyOf(): Player -> int {
    (p: Player) => p.energy
  }

  ghost function EnergyTotal(players: seq<Player>): int {
    Sum(players, EnergyOf())
  }

  /** Nothing moved since the last progress: same energy, same bots, nobody died. */
  ghost predicate Quiet(s: State) {
    EnergyTotal(s.players) == s.lastTotalEnergy && LivingTotal(s.bots) == s.lastTotalBots && |s.deadBots| == 0
  }

  ghost function Watched(s: State): State {
    if Quiet(s) then s.(stalemateTurns := s.stalemateTurns + 1)
    else s.(stalemateTurns := 0, lastTotalEnergy := EnergyTotal(s.players), lastTotalBots := LivingTotal(s.bots))
  }

  /** Score first, then energy, then living bots. */
  ghost predicate Ahead(s: State, i: int, j: int)
    requires 0 <= i < |s.players| && 0 <= j < |s.players|
  {
    var a, b := s.players[i], s.players[j];
    || a.score > b.score
    || (a.score == b.score && a.energy > b.energy)
    || (a.score == b.score && a.energy == b.energy && Living(s.bots, i) > Living(s.bots, j))
  }

  /** Nobody is ahead of w, and w is ahead of everyone listed earlier. */
  ghost predicate Leads(s: State, w: int) {
    && 0 <= w < |s.players|
    && (forall i :: 0 <= i < |s.players| ==> !Ahead(s, i, w))
    && (forall i :: 0 <= i < w ==> Ahead(s, w, i))
  }

  ghost predicate Reports(s: State, r: MatchResult, winner: int, reason: Reason) {
    && r.winner == winner && r.reason == reason && r.turns == s.turn
    && |r.scores| == |r.energy| == |r.botsAlive| == |s.players|
    && (forall p :: 0 <= p < |s.players| ==>
          r.scores[p] == s.players[p].score && r.energy[p] == s.players[p].energy
          && r.botsAlive[p] == Living(s.bots, p))
    && r.crashed == seq(|s.players|, _ => false) && r.combatDeaths == s.combatDeaths
  }

  ghost function EnemyCoreOf(winner: int): Core -> int {
    (k: Core) => if k.active && k.owner != winner then 1 else 0
  }

  ghost predicate SoleSurvivorIs(s: State, w: int) {
    Survives(s, w) && forall r :: Survives(s, r) ==> r == w
  }

  /** The last player standing wins, with two points per surviving enemy core. */
  ghost predicate EliminationStep(s: State, w: int, s': State, v: Verdict) {
    && 0 <= w < |s.players| && SoleSurvivorIs(s, w)
    && s' == s.(players := s.players[w := s.players[w].(score := s.players[w].score
                                                                 + 2 * Sum(s.cores, EnemyCoreOf(w)))])
    && v.Ended? && Reports(s', v.result, w, Elimination)
  }

  /** The first player whose dominance reaches the limit wins; later counters stay as they were. */
  ghost predicate DominanceStep(s: State, p: int, s': State, v: Verdict) {
    && Crowned(s, p) && (forall q :: 0 <= q < p ==> !Crowned(s, q))
    && s' == s.(dominance := DominanceAfter(s, p + 1))
    && v.Ended? && Reports(s', v.result, p, Dominance)
  }

  /** Otherwise all counters advance, and stalemate or the turn limit may end the match. */
  ghost predicate ClosingStep(c: Config, s: State, s': State, v: Verdict) {
    && s' == Watched(s.(dominance := DominanceAfter(s, |s.players|)))
    && (if s'.stalemateTurns >= STALEMATE_TURNS then
          v.Ended? && Leads(s', v.result.winner) && Reports(s', v.result, v.result.winner, Stalemate)
        else if s'.turn >= c.maxTurns then
          v.Ended? && Leads(s', v.result.winner) && Reports(s', v.result, v.result.winner, Turns)
        else v == Ongoing)
  }

  ghost predicate EndgameStep(c: Config, s: State, s': State, v: Verdict) {
    if exists w :: SoleSurvivorIs(s, w) then exists w :: EliminationStep(s, w, s', v)
    else if forall p :: !Survives(s, p) then s' == s && v.Ended? && Reports(s', v.result, -1, Draw)
    else if exists p :: Crowned(s, p) then exists p :: DominanceStep(s, p, s', v)
    else ClosingStep(c, s, s', v)
  }

  // ----- A whole turn -------------------------------------------------------------

  /** 90% of the way from the centre to the nearer edge, at least 7. */
  function InitialRadius(c: Config): int
    requires c.rows > 0 && c.cols > 0
  {
    var r := Min(c.rows / 2, c.cols / 2) * 90 / 100;
    if r < 7 then 7 else r
  }

  ghost function InactiveNotices(players: seq<nat>): seq<Event> {
    seq(|players|, k requires 0 <= k < |players| => BotInactive(players[k]))
  }

  /** The zone wakes on the turn before its start turn, at its first radius. */
  ghost function Awakened(c: Config, s: State): State
    requires c.rows > 0 && c.cols > 0
  {
    if !s.zoneActive && s.turn + 1 >= c.zoneStartTurn then s.(zoneActive := true, zoneRadius := InitialRadius(c)) else s
  }

  /** Before the phases: the zone may wake, the per-turn record is cleared, players that just
      went inactive are noted. */
  ghost function Cleared(c: Config, s: State, inactive: seq<nat>): State
    requires c.rows > 0 && c.cols > 0
  {
    Awakened(c, s).(moves := map[], deadBots := [], events := InactiveNotices(inactive))
  }

  /** Every intermediate state of one turn. */
  datatype TurnTrace = TurnTrace(
    inactive: seq<nat>, orders: seq<Order>, cleared: State, ordered: State, begun: State,
    moved: State, fought: State, sheltered: State, captured: State, collected: State,
    spawned: State, stages: seq<State>, rankings: seq<seq<nat>>, ticked: State, ended: State, verdict: Verdict)

  ghost predicate Phases(c: Config, t: TurnTrace)
    requires c.rows > 0 && c.cols > 0 && (c.zoneEnabled ==> c.zoneShrinkInterval != 0)
  {
    && t.begun == t.ordered.(turn := t.ordered.turn + 1)
    && MoveStep(c, t.begun, t.moved)
    && CombatStep(c, t.moved, t.fought)
    && ZoneStep(c, t.fought, t.sheltered)
    && CaptureStep(t.sheltered, t.captured)
    && CollectStep(c, t.captured, t.collected)
    && SpawnStep(c, t.collected, t.stages, t.rankings, t.spawned)
    && TickStep(c, t.spawned, t.ticked)
    && EndgameStep(c, t.ticked, t.ended, t.verdict)
  }

  /** One iteration of the match loop from state s. */
  ghost predicate TurnStep(c: Config, s: State, t: TurnTrace)
    requires c.rows > 0 && c.cols > 0 && (c.zoneEnabled ==> c.zoneShrinkInterval != 0)
  {
    && t.cleared == Cleared(c, s, t.inactive)
    && t.ordered == AfterOrders(t.cleared, t.orders)
    && Phases(c, t)
  }

  // ----- Fog of war ---------------------------------------------------------------

  datatype VisibleBot = VisibleBot(pos: Position, owner: nat)

  datatype VisibleCore = VisibleCore(pos: Position, owner: nat, active: bool)

  datatype VisibleState = VisibleState(
    turn: int, id: nat, energy: int, score: int, bots: seq<VisibleBot>, dead: seq<VisibleBot>,
    nodes: seq<Position>, cores: seq<VisibleCore>, walls: set<Position>, zone: Option<ZoneBounds>)

  /** Some living bot of the player is within the vision radius of the tile. */
  predicate InSight(c: Config, s: State, p: int, pos: Position)
    requires c.rows > 0 && c.cols > 0
  {
    exists i :: 0 <= i < |s.bots| && s.bots[i].alive && s.bots[i].owner == p
                && Distance2(s.bots[i].pos, pos, c.rows, c.cols) <= c.visionRadius2
  }

  ghost function SeenBot(c: Config, s: State, p: int): int -> bool {
    i => c.rows > 0 && c.cols > 0 && 0 <= i < |s.bots| && s.bots[i].alive && InSight(c, s, p, s.bots[i].pos)
  }

  ghost function SeenDead(c: Config, s: State, p: int): int -> bool {
    i => c.rows > 0 && c.cols > 0 && 0 <= i < |s.deadBots| && s.deadBots[i] < |s.bots|
         && InSight(c, s, p, s.bots[s.deadBots[i]].pos)
  }

  ghost function SeenNode(c: Config, s: State, p: int): int -> bool {
    i => c.rows > 0 && c.cols > 0 && 0 <= i < |s.nodes| && s.nodes[i].hasEnergy && InSight(c, s, p, s.nodes[i].pos)
  }

  ghost function SeenCore(c: Config, s: State, p: int): int -> bool {
    i => c.rows > 0 && c.cols > 0 && 0 <= i < |s.cores| && InSight(c, s, p, s.cores[i].pos)
  }

  ghost predicate VisibleStep(c: Config, s: State, p: nat, v: VisibleState)
    requires WellFormed(c, s) && p < |s.players|
  {
    && v.turn == s.turn && v.id == p && v.energy == s.players[p].energy && v.score == s.players[p].score
    && (var ids := Select(|s.bots|, SeenBot(c, s, p));
        |v.bots| == |ids| && forall k :: 0 <= k < |ids| ==>
            v.bots[k] == VisibleBot(s.bots[ids[k]].pos, s.bots[ids[k]].owner))
    && (var ids := Select(|s.deadBots|, SeenDead(c, s, p));
        |v.dead| == |ids| && forall k :: 0 <= k < |ids| ==>
          v.dead[k] == VisibleBot(s.bots[s.deadBots[ids[k]]].pos, s.bots[s.deadBots[ids[k]]].owner))
    && (var ids := Select(|s.nodes|, SeenNode(c, s, p));
        |v.nodes| == |ids| && forall k :: 0 <= k < |ids| ==> v.nodes[k] == s.nodes[ids[k]].pos)
    && (var ids := Select(|s.cores|, SeenCore(c, s, p));
        |v.cores| == |ids| && forall k :: 0 <= k < |ids| ==>
          v.cores[k] == VisibleCore(s.cores[ids[k]].pos, s.cores[ids[k]].owner, s.cores[ids[k]].active))
    && (forall q :: q in v.walls <==> q in s.walls && InSight(c, s, p, q))
    && v.zone == (if c.zoneEnabled then Some(ZoneBounds(s.zoneCenter, s.zoneRadius, s.zoneActive)) else None)
  }
}

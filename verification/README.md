# AI Code Battle: a verified model

AI Code Battle runs turn-based matches between bots on a toroidal grid. The engine keeps one
mutable game state; each turn it collects orders over HTTP, then runs eight phases: move, combat,
zone, capture, collect, spawn, energy tick, endgame. This project models that engine and four
pieces around it (the failure policy between match runner and HTTP bots, a bot's pathfinding and
tile reservations, the replay's delta encoding, the rate limiter) and proves what they promise.

`dafny verify dfyconfig.toml` checks everything.

## How the project is laid out

The engine is modelled in layers, from code to theorem.

- `engine.dfy` has the class `GameState` with the source's fields and one method per function of
  `engine/turn.go` and `engine/game.go`, loops included. Every phase method is proved to take
  exactly the step `rules.dfy` describes. The `*loop.dfy` files hold the facts those loops need.
- `rules.dfy` describes each phase without loops, on immutable `State` values: who collides, who is
  focused, which cores fall, which nodes are taken, who spawns where, which verdict is due. A
  `TurnTrace` holds all states of one turn.
- `match.dfy` plays whole matches and proves that what it plays is a `Run` (`runs.dfy`): a sequence
  of turn traces, each starting where the last one ended, with a verdict only at the end. Every
  turn is recorded in a replay, and the viewer shows what was recorded.

What a phase comes to is also stated a third way, without the predicates of `rules.dfy`: in tiles,
owners, distances, literal limits and sizes of sets. `combatlaw`, `capturelaw`, `collectlaw`,
`spawnlaw` and `verdictlaw` have these outcome laws, `movement`, `zone`, `production`, `fog`,
`failure`, `botmoves`, `kamikaze`, `bfs` and `ratelimit` their own. A rule and its method that were
wrong in the same way would break them.

The theorems are about all steps and all runs: `movement`, `focusfire`, `population`, `ledgers`,
`conservation`, `production`, `zone`, `verdicts`, `stalemate`, `scheduling`, `stacking`. Around the
engine: `torus`, `grid`, `fog` (geometry and sight), `bfs`, `escape` (bot helpers), `botmoves`,
`kamikaze`, `delivery`, `reservations` (from a bot's decision to the engine's move phase),
`failure`, `runner`, `retirement` (the failure policy, its methods, and its trace in a run's record),
`ratelimit`, `replay`. `state`, `tally` and `wrappers` have the entities, sums and `Option`.

Induction is written out: every lemma on which Dafny would try induction by itself carries
`{:induction false}`, so each proof rests on the calls in its body.

## Where the code and its descriptions disagree

The model follows the code.

- The repository's `README.md:48-49` speaks of damage and of units in the same tile. In the code
  nobody has health: combat looks at every enemy within the attack radius, a bot dies if it is
  strictly more exposed than each of them, and a bot outside the zone dies at once.
- The same file says that the last player with a core wins (`README.md:41`) and that units collect
  the energy they stand on (`README.md:51`). In the code the last player with a living bot wins,
  cores or not (`Verdicts.EliminationIsByBots`, `Verdicts.CorelessSurvivorWins`), and a bot collects
  at squared distance 2 or less.
- `engine/game.go:297` calls dead bots visible for one turn. The match loop clears the list before
  it builds any view (`engine/match.go:175-179`), so in a match the list is always empty
  (`FogOfWar.DeadAreNeverShown`).
- `engine/game.go:241-246` describes `SubmitMove` as moving the bot at a position. It takes the first
  living bot there, whoever owns it, and after the move phase a tile can hold bots of two players
  (`Movement.RivalsArriveTogether`).
  `Delivery.FairExactlyWhenUnshared` says exactly when every order reaches its own player's bot, and
  `Delivery.SharedTileMisdelivers` gives a stray order.
- `README.md:52` has each unoccupied core spawn. Occupancy is looked up once per player, so spawns
  pile up when two cores of a player share a tile: `Stacking.TwinCoresStack` is such a turn,
  `Stacking.PhaseStacksExactlyWhenCoresDo` says exactly when it happens, and
  `Stacking.PlayersNeverStack` that it never does across players.
- The limiter's `Cleanup` is described as deleting buckets that have not been used. It can also
  resurrect tokens; `RateLimit.InvisibleExactlyWhenSafe` says for which ages it never does.
- `CombatDeaths` (`engine/turn.go:288-291`) counts killers, not deaths: a player gets one credit for
  every one of its bots in range of a victim. The ledgers count it that way.

## Model

| member | source | states |
|---|---|---|
| `Torus.WrapAxisIsModulo` | engine/grid.go:30-34 | Go's double-remainder idiom is the mathematical remainder, for negative inputs too |
| `Torus.Wrap` | engine/grid.go:30-39 | every position wraps onto the board, and positions on the board stay where they are |
| `Torus.BotStep` | bots/farmer/grid.go:24-40 | a bot that adds the board size and takes the remainder computes the engine's step |
| `Torus.DistanceIsLeastLift` | engine/grid.go:79-96 | the folded distance is a lower bound of the distances to all copies of the target in the plane, and one copy attains it |
| `Torus.DistanceIsSymmetric` | engine/grid.go:79-96 | distance does not depend on direction, odd board sizes and truncating division included |
| `Torus.DistanceIsZeroOnlyAtHome` | engine/grid.go:79-96 | only a tile itself is at distance zero |
| `Torus.BotsMeasureLikeTheEngine` | engine/bot_strategies.go:1268-1281 | three differently written bot formulas equal the engine's distance on every board (also bots/farmer/grid.go:11-17 and bots/siege/strategy.go:456-473) |
| `GridModel.Grid.constructor` | engine/grid.go:16-27 | a new board is open everywhere and its wall cache is empty |
| `GridModel.Grid.Get` | engine/grid.go:42-50 | reads the wrapped tile, and it is a wall exactly when the cache lists it |
| `GridModel.Grid.Set` | engine/grid.go:53-66 | writes one wrapped tile and keeps the wall cache exact, whatever was there |
| `GridModel.Grid.IsPassable` | engine/grid.go:69-76 | the cache lookup answers for the tiles, and a position off the board counts as passable |
| `GridModel.SqrtApprox` | engine/grid.go:186-197 | the "approximation" is exactly the floor of the square root, and 0 for negative inputs |
| `GridModel.LookAround` | engine/grid.go:142-151 | one viewer's offset loops add exactly the tiles within the radius, none missed by the wrap |
| `GridModel.VisibleFrom` | engine/grid.go:138-153 | the visible set is exactly the board tiles within the radius of some viewer |
| `ZoneEscape.GetZoneEscapeDirection` | engine/bot_strategies.go:12-90 | a returned direction is open, strictly lowers the engine's distance to the centre by as much as any open step, first in compass order; safe bots get none; a threatened bot off the centre gets one when walls are unknown |
| `ZoneEscape.SomeStepApproaches` | engine/bot_strategies.go:48-84 | from any tile but the centre one of the four steps strictly approaches it |
| `Pathfinding.BFS` | bots/farmer/grid.go:45-85 | no direction exactly when start is goal or no passable route exists; otherwise the first step of a shortest route |
| `Pathfinding.AnswersAreOpen` | bots/farmer/grid.go:45-85 | a returned step and its goal are passable, and a passable goal next door is entered at once |
| `Pathfinding.Drain` | bots/farmer/grid.go:68-84 | the queue loop finds a shortest route or shows there is none, and terminates |
| `Pathfinding.Expand` | bots/farmer/grid.go:76-81 | expanding a cell keeps the search layered by route length |
| `Pathfinding.FrontierBlocks` | bots/farmer/grid.go:55-84 | every route crosses the recorded cells no faster than the record, or some queued cell is closer |
| `Engine.GameState.constructor` | engine/game.go:61-85 | an empty match with the zone centred on the map |
| `Engine.GameState.AddPlayer` | engine/game.go:98-108 | the new player is last, with its own counters at zero |
| `Engine.GameState.AddCore` | engine/game.go:111-128 | a numbered active core on the wrapped tile, the wall under it removed, one point for its owner; an unknown owner scores nothing |
| `Engine.GameState.AddEnergyNode` | engine/game.go:131-139 | an empty node on the wrapped tile |
| `Engine.GameState.SpawnBot` | engine/game.go:142-167 | one numbered living bot on the wrapped tile, its owner's count raised if it is listed, one event |
| `Engine.GameState.KillBot` | engine/game.go:218-239 | a living bot, whoever owns it, dies with every counter, list and event brought up to date; a dead bot changes nothing |
| `Engine.GameState.SubmitMove` | engine/game.go:247-255 | the order goes to the first living bot on the tile, to nobody if there is none |
| `Engine.GameState.HasBotAt` | engine/match.go:384-391 | tells whether the player has a living bot on the tile |
| `Engine.GameState.ClearTurnState` | engine/game.go:258-262 | orders, deaths and events are forgotten, nothing else |
| `Engine.GameState.IntendedDestination` | engine/turn.go:62-74 | the bot's ordered tile, or its own if there is no order or a wall in the way |
| `Engine.GameState.PlanMoves` | engine/turn.go:53-78 | every living bot filed under its destination, every bucket exactly the bots heading there in order |
| `Engine.GameState.AllOwnedBy` | engine/turn.go:93-99 | all bots of the group have the given owner |
| `Engine.GameState.KillGroup` | engine/turn.go:103-105 | exactly the group dies, each listed and announced once |
| `Engine.GameState.ResolveMoves` | engine/turn.go:81-112 | the bot-by-bot loop, kills in the middle included, amounts to one simultaneous move |
| `Engine.GameState.ExecuteMoves` | engine/turn.go:52-113 | the move phase takes the simultaneous step of the rules and keeps the state well formed |
| `Engine.GameState.EnemiesInRange` | engine/turn.go:224-232 | exactly the living enemies within the attack radius, in order |
| `Engine.GameState.CountEnemies` | engine/turn.go:215-235 | both tables agree with that list for every living bot |
| `Engine.GameState.ChooseVictims` | engine/turn.go:238-268 | exactly the bots strictly more exposed than every enemy in range, as `CombatOutcome` fixes it in distances |
| `Engine.GameState.AwardKillers` | engine/turn.go:281-296 | killers named in order, each earning its player a credit and KillScore |
| `Engine.GameState.StrikeVictims` | engine/turn.go:271-309 | deaths, credits, scores and notices of all victims, on the counts taken beforehand |
| `Engine.GameState.StrikeDown` | engine/turn.go:274-308 | one victim dies, its killers named and paid, on the counts taken before the first death |
| `Engine.GameState.ExecuteCombat` | engine/turn.go:214-310 | the combat phase takes the step of the rules and keeps the state well formed |
| `Engine.GameState.SetInitialZoneRadius` | engine/turn.go:192-211 | the first active radius: nine tenths of the nearer half side, at least 7 |
| `Engine.GameState.ShrinkAndSweep` | engine/turn.go:128-187 | shrink schedule, clamping and kills together are the rules' zone step |
| `Engine.GameState.ShrinkRadius` | engine/turn.go:141-152 | the radius steps down on its schedule and never goes below the least |
| `Engine.GameState.SweepOutside` | engine/turn.go:159-186 | exactly the living bots beyond the radius die, in order, each announced once |
| `Engine.GameState.ExecuteZone` | engine/turn.go:128-187 | the zone phase takes the step of the rules and keeps the state well formed |
| `Engine.GameState.BotsOn` | engine/turn.go:321-325 | the living bots on a tile, in order |
| `Engine.GameState.FindBotsOnCores` | engine/turn.go:315-326 | exactly the active cores with bots on them, with those bots |
| `Engine.GameState.IsDefended` | engine/turn.go:336-342 | some bot of the owner stands on the core |
| `Engine.GameState.CaptureCore` | engine/turn.go:358-377 | two points to the capturer, one off the owner (also when they are one player), the core razed, one event |
| `Engine.GameState.ExecuteCaptures` | engine/turn.go:313-355 | in whatever order the map is walked, the capture phase takes the step of the rules |
| `Engine.GameState.AdjacentBots` | engine/turn.go:388-399 | the living bots within squared distance 2 of the node, in order |
| `Engine.GameState.OwnersOf` | engine/turn.go:406-409 | exactly the owners of those bots |
| `Engine.GameState.ExecuteCollection` | engine/turn.go:380-435 | every charged node is collected, destroyed or left as the rules say |
| `Engine.GameState.IsOccupied` | engine/turn.go:453-459 | some living bot stands on the tile |
| `Engine.GameState.EligibleCores` | engine/turn.go:448-463 | exactly the player's active unoccupied cores, in order; `SpawnOutcome` fixes what comes of them |
| `Engine.GameState.SortCoresByPriority` | engine/turn.go:616-623 | a permutation in spawning order: idle longest first, then lower ID |
| `Engine.GameState.SpawnAt` | engine/turn.go:472-474 | one paid spawn at one core |
| `Engine.GameState.SpawnDown` | engine/turn.go:468-475 | spawns down the ranking for exactly as long as the energy lasts |
| `Engine.GameState.SpawnForPlayer` | engine/turn.go:442-476 | one player's spawns follow the ranking of its eligible cores |
| `Engine.GameState.ExecuteSpawns` | engine/turn.go:440-477 | the players spawn in turn, each seeing the bots of those before |
| `Engine.GameState.ExecuteEnergyTick` | engine/turn.go:480-492 | every empty node counts one turn and recharges on the interval, on time by `Production.RechargesOnTime` |
| `Engine.GameState.GetLivingBotCount` | engine/game.go:181-189 | the number of living bots |
| `Engine.GameState.GetPlayerLivingBotCount` | engine/game.go:192-200 | the number of a player's living bots |
| `Engine.GameState.GetLivingPlayers` | engine/game.go:203-215 | exactly the owners of living bots |
| `Engine.GameState.EliminationBonus` | engine/turn.go:503-509 | two points per active core of another player |
| `Engine.GameState.UpdateDominance` | engine/turn.go:521-531 | counters advance or reset up to the first player who reaches the limit, whose later rivals keep theirs |
| `Engine.GameState.WatchStalemate` | engine/turn.go:535-546 | the counter advances exactly when energy, bots and deaths show no change |
| `Engine.GameState.FindWinnerByScore` | engine/turn.go:588-611 | nobody is ahead of the winner by score, energy, bots, and the winner is ahead of everyone listed before; in numbers by `VerdictTable.VerdictIsDue` |
| `Engine.GameState.CreateResult` | engine/turn.go:563-585 | the result reports turn, scores, energy, living bots and credits of every player, and nobody as crashed yet |
| `Engine.GameState.JudgeTurn` | engine/turn.go:495-560 | the five conditions are judged in their order |
| `Engine.GameState.CloseTurn` | engine/turn.go:534-559 | stalemate before turn limit, each with the score leader as winner |
| `Engine.GameState.CheckWinConditions` | engine/turn.go:495-560 | the endgame check takes the step of the rules and keeps the state well formed |
| `Engine.GameState.CountTurn` | engine/turn.go:21-22 | the turn number goes up by one, nothing else changes |
| `Engine.GameState.ExecuteTurn` | engine/turn.go:21-49 | the eight phases happen in order, and all states in between are on record |
| `Engine.GameState.PositionsOf` | engine/game.go:276-281 | seeing from the listed positions is what the player sees |
| `Engine.GameState.VisibleBots` | engine/game.go:287-295 | exactly the living bots in sight, in order |
| `Engine.GameState.VisibleDead` | engine/game.go:298-306 | exactly this turn's dead in sight |
| `Engine.GameState.VisibleNodes` | engine/game.go:309-314 | exactly the charged nodes in sight |
| `Engine.GameState.VisibleCores` | engine/game.go:317-326 | exactly the cores in sight, active or not |
| `Engine.GameState.GetVisibleState` | engine/game.go:265-346 | a player's view is exactly what its living bots have in sight, with the zone's bounds if the match has one |
| `MoveLoop.GroupCollides` | engine/turn.go:88-101 | the bucket test in the loop is the collision of the simultaneous rules |
| `CaptureLoop.RazedWhenUndefended` | engine/turn.go:335-353 | a core falls exactly when somebody stands on it and nobody of its owner does |
| `CaptureOutcome.CaptureFells` | engine/turn.go:313-355 | an active core falls exactly when a living bot stands on it and none of its owner's does |
| `CaptureOutcome.CapturePays` | engine/turn.go:345-377 | whatever the walk order, a player's score changes by two for each fallen core whose first bot is its own, less one for each of its fallen cores |
| `Rules.HarvestOf` | engine/turn.go:387-434 | a node has exactly one fate: untouched, contested, or taken by the only player around it |
| `CollectOutcome.NearIsNeighbourhood` | engine/turn.go:388-399 | squared distance two or less is the tile itself and its eight neighbours, across the edges |
| `CollectOutcome.CollectEmpties` | engine/turn.go:385-425 | a charged node is emptied exactly when some living bot is that near |
| `CollectOutcome.CollectPays` | engine/turn.go:405-434 | a player gains one unit for each charged node that only its bots are near, and nothing for contested ones |
| `WellFormedSteps.TurnStaysWellFormed` | engine/turn.go:21-49 | after every phase: Bots[i].ID = i, NextBotID = number of bots, BotCount[p] = living bots of p, owners and positions in range |
| `Movement.MoveOutcome` | engine/turn.go:86-111 | a bot dies exactly when another living bot has its destination and all that have it share its owner; every other living bot arrives |
| `Movement.OrdersAreFollowed` | engine/turn.go:62-74 | a bot heads one step where it was ordered unless a wall is there, and otherwise nowhere |
| `Movement.RivalsArriveTogether` | engine/turn.go:88-111 | bots of two owners heading for one tile both arrive on it |
| `Movement.SharedTilesAreContested` | engine/turn.go:88-111 | after the move phase any tile with two living bots has bots of two owners |
| `Movement.MoveIgnoresListing` | engine/turn.go:52-113 | listing the bots in another order changes no bot's fate |
| `Movement.TurnKeepsOffWalls` | engine/turn.go:65-70 | no living bot and no core ever stands on a wall |
| `FocusFire.EnmityIsMutual` | engine/turn.go:224-232 | being in range of an enemy is mutual |
| `FocusFire.KillersSurvive` | engine/turn.go:254-267 | no two bots in range of each other both die: every enemy of a victim lives |
| `FocusFire.VictimsAreOutnumbered` | engine/turn.go:245-267 | a victim has at least two enemies in range, so one on one nobody dies |
| `FocusFire.FewerDeadThanKillers` | engine/turn.go:237-268 | if anyone dies, the dead are strictly fewer than the distinct killers (weighted double counting) |
| `FocusFire.DeadAreAMinority` | engine/turn.go:237-268 | twice the dead are fewer than the bots that fought |
| `CombatOutcome.CombatKillsTheMostExposed` | engine/turn.go:214-273 | a living bot dies exactly when the number of living rivals within the radius is positive and exceeds that number for each of them; no other field of any bot changes |
| `CombatOutcome.TwoKillOne` | engine/turn.go:246-267 | two bots of one player kill a lone enemy in range of both |
| `CombatOutcome.CombatPaysPerStrike` | engine/turn.go:280-296 | credits grow by the number of pairs of a victim and a bot of the player in range of it, the score by KillScore for each |
| `CombatOutcome.NoticesNameTheRivals` | engine/turn.go:280-306 | each death notice names every rival in range of its victim, once |
| `Population.MoveCulls` | engine/turn.go:101-107 | the move phase kills exactly its listed dead, each announced once |
| `Population.CombatCulls` | engine/turn.go:270-309 | so does combat |
| `Population.ZoneCulls` | engine/turn.go:159-186 | so does the zone |
| `Population.PopulationLedger` | engine/turn.go:21-49 | living after a turn = living before - deaths + births; every death is listed and announced exactly once, births are the appended bots, nobody revives |
| `Population.CombatLosesAMinority` | engine/turn.go:270-309 | the phase as recorded: fewer than half of the fighters die, each notice names at least two killers and all of them are alive afterwards |
| `Ledgers.CombatKeepsScoreBooks` | engine/turn.go:281-296 | score and credits grow together, by the killers named |
| `Ledgers.LossesAreCores` | engine/turn.go:345-366 | each capture notice takes one standing core off its owner |
| `Ledgers.CaptureKeepsScoreBooks` | engine/turn.go:328-377 | in any order of captures, score stays standing cores + 2 captures + KillScore credits |
| `Ledgers.TurnKeepsBooks` | engine/turn.go:21-46 | both ledgers survive all phases of a turn: the score ledger, and energy = collected - SpawnCost x spawns with energy never negative |
| `Conservation.CombatKeepsStakes` | engine/turn.go:281-296 | score less combat pay is untouched by combat |
| `Conservation.CaptureKeepsStakes` | engine/turn.go:328-377 | captures move score and standing cores between players without loss or gain |
| `Conservation.RunConserves` | engine/match.go:164-217 | that sum is the opening's, in every turn of every run |
| `Conservation.TotalScoreIsAccounted` | engine/turn.go:281-377 | total score = cores + razed cores + KillScore x all credits, after every turn before an elimination bonus |
| `Runs.OpeningWithPlayer` | engine/game.go:98-108 | adding a player keeps a position an opening |
| `Runs.OpeningWithCore` | engine/game.go:111-128 | so does adding a core, and cores stay off walls |
| `Runs.OpeningWithBot` | engine/game.go:142-167 | so does a first bot |
| `Runs.RunStaysWellFormed` | engine/match.go:164-217 | every state of every run is well formed and counts its turns |
| `Runs.RunKeepsOffWalls` | engine/match.go:164-217 | in every run nobody ever stands on a wall |
| `Runs.RunKeepsBooks` | engine/match.go:164-217 | after any number of turns both ledgers balance against everything recorded so far |
| `Runs.FinalScores` | engine/turn.go:500-512 | a result's scores are the ledger, plus two per standing enemy core for a sole survivor |
| `Match.OpenTurn` | engine/match.go:165-179 | zone activation on its turn, a cleared record, inactive players noted |
| `Match.ActivateZone` | engine/match.go:165-173 | the zone wakes one turn before its start turn, with its first radius |
| `Match.ForwardOrders` | engine/match.go:181-190 | orders are forwarded only for tiles where the player has a living bot |
| `Match.PlayTurn` | engine/match.go:164-193 | one iteration of the loop is one turn step |
| `Match.StartReplay` | engine/match.go:159-160 | the replay begins with the row of the opening |
| `Match.PlayAndRecord` | engine/match.go:164-216 | the run and its rows grow by the turn just played |
| `Match.PlayMatch` | engine/match.go:159-220 | a match played to its end is a run, with a positive turn limit it ends with a verdict, and its replay has the scores and energy of the opening and of every turn |
| `Match.ViewerShowsTheRun` | web/src/lib/replay-data.ts:56-103 | for every recorded match and turn the viewer shows the scores and energy the engine held |
| `Zone.ShrinkFollowsSchedule` | engine/turn.go:141-152 | the incremental shrink equals the closed form one turn later |
| `Zone.StormInClosedForm` | engine/turn.go:115-187 | on turn T >= S the radius is max(min, R0 - step x floor((T - S) / interval)), and the bots alive after the phase are exactly those alive before within it; before S nobody is touched |
| `Zone.FirstStrike` | engine/turn.go:192-211 | on its start turn the storm has nine tenths of the nearer half side, rounded down, or 7 if that is less |
| `Verdicts.OneDominates` | engine/turn.go:519-532 | two players cannot both hold four fifths |
| `Verdicts.CountersThroughout` | engine/turn.go:519-532 | in every run each counter is the player's current streak of four-fifths turns, and at most one is running |
| `Verdicts.NotCrownedBefore` | engine/turn.go:524-527 | while a match goes on no streak has reached 100 |
| `Verdicts.DominanceIsEarned` | engine/turn.go:519-532 | a dominance winner held four fifths of the living bots in each of the last 100 turns, and no longer |
| `Verdicts.EliminationIsByBots` | engine/turn.go:499-512 | a match ends by elimination of all but one exactly when one player alone has living bots, cores or not |
| `Verdicts.CorelessSurvivorWins` | engine/turn.go:499-512 | a lone bot without a core wins over a standing enemy core |
| `VerdictTable.VerdictIsDue` | engine/turn.go:495-611 | in every turn of every run the verdict is the first due of: elimination (one player has all living bots), draw (none), dominance (streak of 100 at four fifths), stalemate (50 uneventful turns), turn limit, none; score winners have the best score, then energy, then bots, then the lowest number, on the result's own figures |
| `VerdictTable.TurnLimitIsExact` | engine/turn.go:552-557 | a match ended by its turn limit took exactly MaxTurns turns, and none takes more |
| `VerdictTable.EliminationPays` | engine/turn.go:500-512 | the lone survivor alone gains, two points for each standing core of others |
| `StalemateVerdicts.QuietIsUneventful` | engine/turn.go:535-546 | comparing totals detects exactly the turns with no death, spawn or collection |
| `StalemateVerdicts.WatchThroughout` | engine/turn.go:534-546 | in every run the counter is the streak of uneventful turns, the first turn aside |
| `StalemateVerdicts.StalemateIsEarned` | engine/turn.go:547-550 | a stalemate follows exactly 50 turns in which nobody died, nobody was spawned and nothing was collected |
| `Production.EmptyingsAreApart` | engine/turn.go:423-424 | two emptyings of one node are at least EnergyInterval (and at least one) turns apart, in every run |
| `Production.RechargesOnTime` | engine/turn.go:480-492 | k - a turns after its last emptying a node is charged if and only if a period has passed, and until then its tick is k - a, in every run |
| `Production.FirstChargeOnTime` | engine/turn.go:480-492 | a node never emptied goes on from its opening tick and charges on the turn that completes the interval |
| `Production.EmptyingsAreBounded` | engine/turn.go:480-492 | in k turns a node is emptied at most 1 + floor((k - 1) / EnergyInterval) times |
| `Production.ProductionIsBounded` | engine/turn.go:380-492 | energy held plus energy spent on spawns is at most nodes x (1 + floor((k - 1) / EnergyInterval)) |
| `Scheduling.BypassMeansPriority` | engine/turn.go:465-475 | a core is passed over only for one that has been idle at least as long |
| `Scheduling.NoSecondBypass` | engine/turn.go:440-477 | while a core waits, no core is preferred to it twice |
| `Scheduling.BypassIsBounded` | engine/turn.go:437-477 | between its spawns a core is passed over at most once per other core of its owner, in every run |
| `Stacking.SpawnsStackExactlyWhenCoresDo` | engine/turn.go:447-475 | a player's new bots stand alone exactly when the cores they came from are on different tiles |
| `Stacking.NewcomersFindRoom` | engine/turn.go:447-463 | a newcomer never lands on a bot that lived before its player's stage |
| `Stacking.PhaseStacksExactlyWhenCoresDo` | engine/turn.go:440-477 | after the whole phase all newcomers stand alone exactly when every player's chosen cores are on different tiles |
| `Stacking.PlayersNeverStack` | engine/turn.go:440-477 | newcomers of two players never share a tile, and none lands on an older bot |
| `Stacking.TwinCoresStack` | engine/turn.go:447-475 | two cores on one tile and energy for two spawns put two bots on it |
| `SpawnOutcome.StageSpawnsTheFront` | engine/turn.go:442-476 | the bots of a stage come, by idle time and ID, from the front of the player's active, unoccupied cores, each is paid, and there are as many as are both backed and payable |
| `SpawnOutcome.NewcomersHaveCores` | engine/turn.go:440-477 | every bot of the phase stands on the tile of an active core of its owner that was free when the owner's stage began |
| `SpawnOutcome.RazedCoreIsIdle` | engine/turn.go:450-452 | when every core is razed nobody spawns |
| `FogOfWar.ListsExactlyWhatIsSeen` | engine/game.go:286-295 | a view lists a bot exactly when it is alive and in sight |
| `FogOfWar.ListsChargedNodes` | engine/game.go:308-314 | a view lists the tiles of the charged nodes in sight, one entry each |
| `FogOfWar.ListsCoresInReach` | engine/game.go:316-326 | and the cores in sight, razed or not, one entry each |
| `FogOfWar.ListsTheDead` | engine/game.go:297-306 | and those of this turn's dead that lie in sight |
| `FogOfWar.TellsTheRest` | engine/game.go:265-346 | the walls in sight, the player's own energy and score, and the zone if there is one |
| `FogOfWar.ListsEachOnce` | engine/game.go:286-295 | two entries of a view are two bots |
| `FogOfWar.DeadAreNeverShown` | engine/match.go:175-179 | in the match loop the list of the dead is always empty |
| `FailurePolicy.StepKeeps` | engine/match.go:243-371 | the invariant of the two counters survives every step of the protocol |
| `FailurePolicy.InterleavingKeeps` | engine/match.go:243-371 | and so every interleaving of call starts, replies, timeouts and turns |
| `FailurePolicy.PolicyHolds` | engine/match.go:290-371 | between turns: failCount <= streak = trailing failures; crashed iff retired iff the last outcome completed the first run of 10; exactly one notice, on that turn |
| `FailurePolicy.RetiredForGood` | engine/match.go:258-261 | a retired player is never queried again and gets no second notice, whatever its late calls do |
| `FailurePolicy.GuardMeansRetirement` | engine/bot_http.go:333-346 | the transport guard fires only inside the turn in which the runner retires the player anyway |
| `FailurePolicy.CountersAgreeWhenPrompt` | engine/bot_http.go:336-359 | while no call is late the bot's count equals the runner's streak, and the tenth failure crashes the transport before the runner hears of it |
| `Retirement.OneNoticePerPlayer` | engine/match.go:243-371 | in the log of every run a player has one inactivity notice once the policy has retired it, and none before |
| `Retirement.NoticeMarksTenthFailure` | engine/match.go:331-371 | the turn that records the notice completed the player's first ten failures in a row, every turn until then having queried it |
| `MatchRunners.HTTPBot.constructor` | engine/bot_http.go:47-62 | a fresh bot: no generation, no failures, not crashed |
| `MatchRunners.HTTPBot.SetMatchID` | engine/bot_http.go:65-75 | a new match resets the counters and makes calls in flight stale |
| `MatchRunners.HTTPBot.BeginCall` | engine/bot_http.go:185-197 | a crashed bot is not asked; any other call opens a new generation |
| `MatchRunners.HTTPBot.RecordFailure` | engine/bot_http.go:336-346 | counts a failure of the current generation and crashes at ten; stale ones change nothing |
| `MatchRunners.HTTPBot.RecordSuccess` | engine/bot_http.go:348-359 | a success of the current generation clears the count; stale ones change nothing |
| `MatchRunners.HTTPBot.MarkInactive` | engine/bot_http.go:87-91 | the bot is crashed, its counters stay |
| `MatchRunners.MatchRunner.constructor` | engine/match.go:126-129 | every player starts active with no failures |
| `MatchRunners.MatchRunner.ActivePlayers` | engine/match.go:254-257 | exactly the players not retired are queried |
| `MatchRunners.MatchRunner.MarkInactive` | engine/match.go:342-371 | retires one player once, with one notice, and its bot; nobody else changes |
| `MatchRunners.MatchRunner.RecordFailedTurn` | engine/match.go:331-337 | one more failure, retirement at ten, nobody else changes |
| `MatchRunners.MatchRunner.DigestOutcome` | engine/match.go:291-312 | one outcome moves one player's two counters as the policy says |
| `MatchRunners.MatchRunner.DigestOutcomes` | engine/match.go:290-312 | in whatever order outcomes arrive, each player heard from is digested once on its own state and the others are untouched |
| `MatchRunners.MatchRunner.CrashFlags` | engine/match.go:226-232 | in the result a player is crashed exactly when the runner retired it or its transport crashed |
| `BotMoves.ValidateMoves` | engine/bot_http.go:297-331 | the loop keeps exactly the moves with a real direction, an own tile and no earlier kept move for it |
| `BotMoves.AtMostOnePerTile` | engine/bot_http.go:310-328 | whatever a bot sends, at most one real move per own tile gets through |
| `BotMoves.FirstMoveWins` | engine/bot_http.go:310-328 | a move gets through exactly when it is the first real one for an own tile |
| `BotMoves.DisciplinePasses` | engine/bot_http.go:310-328 | moves that are real, own and one per tile all get through |
| `Delivery.FairExactlyWhenUnshared` | engine/game.go:247-255 | every entitled player's order reaches one of its own bots exactly when the tile has a single owner |
| `Delivery.SharedTileMisdelivers` | engine/match.go:184-188 | in a well-formed state with two players' bots on one tile, one player's order moves the other's bot |
| `Delivery.AloneObeysItsPlayer` | engine/match.go:181-190 | a bot alone on its tile carries its own player's last order for it and nobody else's |
| `Kamikaze.PickStep` | bots/kamikaze/strategy.js:45-113 | a unit holds only if all four tiles are blocked or reserved, else takes the first best free step |
| `Kamikaze.PicksTheBest` | bots/kamikaze/strategy.js:45-113 | a unit holds exactly when all four tiles are walls or reserved, and otherwise no free step scores higher than its own |
| `Kamikaze.ComputeMoves` | bots/kamikaze/strategy.js:25-127 | every unit decides against the tiles reserved at its turn, and the moves are those of the units that go |
| `Kamikaze.ReserveOne` | bots/kamikaze/strategy.js:115-124 | one decision keeps the units apart and the reserved set exact |
| `Kamikaze.ReservationsHold` | bots/kamikaze/strategy.js:25-127 | units that start apart end apart, movers and holders alike, and no mover enters a visible wall |
| `Reservations.FindUnits` | bots/kamikaze/strategy.js:9-14 | the view is split, in order, into own units and the tiles of all others |
| `Reservations.EveryBotIsListed` | bots/kamikaze/strategy.js:9-14 | no bot of the view is lost, and the enemies are exactly those of other owners |
| `Reservations.VisionShowsWalls` | engine/grid.go:138-153 | with a squared vision radius of at least 1 the view has every wall beside every own bot |
| `Reservations.ViewMusters` | bots/kamikaze/strategy.js:9-37 | however it is sorted, the list of units is the player's living bots, each once |
| `Reservations.PlanPasses` | engine/bot_http.go:297-331 | validation lets the whole plan through |
| `Reservations.OrdersAreChoices` | engine/match.go:181-190 | every living bot of the player carries its unit's choice, whatever the other players order |
| `Reservations.LandsAsPlanned` | engine/turn.go:62-77 | the engine's destination of each bot is the tile its unit reserved |
| `Reservations.NoSelfCollision` | engine/turn.go:86-107 | if the player's bots start apart, share no tile with an enemy and see the walls beside them, none collides and all destinations differ, for any sort, scores and other orders |
| `Reservations.SurvivesTheMove` | engine/match.go:164-193 | over the whole turn: after the move phase all of them are alive and still apart |
| `RateLimit.Bucket.constructor` | ratelimit/ratelimit.go:22-29 | a bucket starts full |
| `RateLimit.Bucket.AllowN` | ratelimit/ratelimit.go:37-53 | grants n exactly when n <= max and n <= tokens + elapsed x refill, and takes the tokens only then |
| `RateLimit.Limiter.constructor` | ratelimit/ratelimit.go:82-88 | a limiter starts without buckets |
| `RateLimit.Limiter.AllowN` | ratelimit/ratelimit.go:96-106 | only the key's bucket changes, a missing one counts as full |
| `RateLimit.Limiter.Cleanup` | ratelimit/ratelimit.go:110-122 | exactly the buckets idle for longer than the age go, in any map order |
| `RateLimit.EvictionIsInvisible` | ratelimit/ratelimit.go:96-122 | under safe ages every answer of any run equals that of a limiter never cleaned |
| `RateLimit.EarlySweepCanShow` | ratelimit/ratelimit.go:110-122 | for every shorter age a run with a different answer is constructed |
| `RateLimit.SweepResurrects` | ratelimit/ratelimit.go:110-122 | without refill, for every age |
| `RateLimit.InvisibleExactlyWhenSafe` | ratelimit/ratelimit.go:108-122 | cleaning goes unnoticed in all runs if and only if maxAge x refill >= max or max < 1 |
| `RateLimit.WindowIsBounded` | ratelimit/ratelimit.go:37-53 | in any window of length d of any safely swept run one key gets at most max + d x refill tokens |
| `RateLimit.LevelIsExact` | ratelimit/ratelimit.go:37-53 | x tokens are there exactly when, counted from every earlier call for the key, what was handed out and x come to at most max plus the refill since |
| `RateLimit.GrantedExactlyWithinLimit` | ratelimit/ratelimit.go:96-106 | in any safely swept run a request is granted if and only if it fits the bucket and all those windows |
| `RateLimit.ApiLimitersAreUnaffected` | cmd/acb-api/main.go:97-127 | the API server's limiters and cleanup ages are unobservable |
| `Replays.ReplayWriter.constructor` | engine/replay.go:95-106 | an empty replay |
| `Replays.ReplayWriter.CompareWithLast` | engine/replay.go:160-177 | the element-wise flags say exactly whether the row differs from the last written one |
| `Replays.ReplayWriter.RecordTurn` | engine/replay.go:146-190 | the written columns stay the delta encoding of all scores and energies recorded |
| `Replays.ReconstructReplay` | web/src/lib/replay-data.ts:63-105 | in place, every omitted array becomes the last one present, or zeros; replays older than the delta format stay as they are |
| `Replays.ShownIsRecorded` | web/src/lib/replay-data.ts:56-103 | decoding an encoded column gives back every row |
| `Replays.FillingTwice` | web/src/lib/replay-data.ts:56-103 | filling an already filled replay changes nothing, so pages that fill again show the same values |
| `Replays.ReplayRoundTrips` | engine/replay.go:47-57 | the viewer shows the recorded scores and energy of every turn, and an array is present exactly on the first turn or when a value changed |

## Left out

- Integers are unbounded; Go's `int` and the limiter's `uint64` and float widths are not modelled. Truncating division and remainder are, where operands can be negative.
- `Bot`, `Core`, `EnergyNode` and `Player` are pointers in the source and values in sequences of the class here; `DeadBots` and the bucket tables hold bot IDs. Since Bots[i].ID = i the loops read the same; aliasing through a pointer kept outside the state is not captured.
- The sorting algorithm behind `sort.Slice`: an insertion sort stands in, and the order is total, so any correct sort gives the same list.
- The floating-point test `float64(n) >= 0.8*float64(total)` is the exact `5n >= 4 total`.
- Event positions, owners, reasons and timestamps; an event names its bot by ID and its core or node by index.
- GetVisibleState: leaves out the match ID, the configuration and the order of the walls.
- `Clone`, `GetPlayerBots`, `String`, `ToJSON`; a clone drops the stalemate counters and combat credits, so run properties are not claimed for clones.
- The search for the first enemy on an undefended core (`engine/turn.go:346-352`) is a look at the first bot there, which is always an enemy.
- Map generation, energy placement, random numbers and win probabilities: a run starts from any well-formed opening.
- `Grid.Distance`, `Grid.Neighbors`, `RandomPassable`: loops of the same kind as `VisibleFrom`.
- HTTP, JSON, signatures, timers and goroutines: a call is a start, a reply that succeeds or fails, and a turn that receives it, times out, or hears an error. The failure protocol covers one player at a time with a fresh bot and calls that enter `GetMoves` in turn order.
- The event fields `consecutive_failures` and `reason` of a bot_inactive event.
- CreateResult: the flags are all down, as in the source; that the runner replaces them by those of `CrashFlags` when the match is over is not joined to `PlayMatch`.
- RecordTurn: the score and energy columns only; bots, cores, nodes, events and debug data of a replay turn are copies and not delta encoded.
- ReconstructReplay: whether the format version is 2.1 or later is a parameter; parsing the version string is not modelled.
- Scores, targets and the sort of the kamikaze bot: arbitrary here (any finite scores, any order), since reservations do not depend on them; `distance2` in bots/kamikaze/grid.js and bots/pacifist/grid.js is not among the agreeing formulas.
- `RetryAfter`, the HTTP middleware, and the moment between the limiter's lock and the bucket's: each call is one atomic step, and floating-point tokens are real numbers.
- A replay with a changing number of players (the writer would fail on it).
- Strategy bots other than the functions above, map engagement, thumbnails, the browser engine, services, databases and web pages other than the replay loader.

/** The match loop: zone activation, orders, one ExecuteTurn per iteration. */
module Match {
  import opened GameTypes
  import opened Rules
  import opened Engine
  import opened WellFormedSteps
  import opened Runs
  import opened Replays

  /** Everything the loop takes from outside in one turn: the players that just went
      inactive and the orders received, in the order the moves map yields them. */
  datatype TurnInput = TurnInput(inactive: seq<nat>, orders: seq<Order>)

  method PlayTurn(gs: GameState, input: TurnInput) returns (verdict: Verdict, ghost t: TurnTrace)
    requires gs.Valid()
    modifies gs
    ensures gs.Valid() && TurnStep(gs.cfg, old(gs.S()), t)
    ensures t.inactive == input.inactive && t.orders == input.orders
    ensures t.ended == gs.S() && t.verdict == verdict
  {
    hide WellFormed, Phases;
    ghost var s := gs.S();
    OpenTurn(gs, input.inactive);
    ghost var cleared := gs.S();
    ForwardOrders(gs, input.orders);
    verdict, t := gs.ExecuteTurn();
    t := Labelled(gs.cfg, t, input, cleared);
  }

  /** The phases do not depend on how the orders came about. */
  ghost function Labelled(c: Config, t: TurnTrace, input: TurnInput, cleared: State): (r: TurnTrace)
    requires Playable(c)
    ensures Phases(c, t) ==> Phases(c, r)
    ensures r.inactive == input.inactive && r.orders == input.orders && r.cleared == cleared
    ensures r.ordered == t.ordered && r.ended == t.ended && r.verdict == t.verdict
  {
    t.(inactive := input.inactive, orders := input.orders, cleared := cleared)
  }

  method OpenTurn(gs: GameState, inactive: seq<nat>)
    requires gs.Valid()
    modifies gs`zoneActive, gs`zoneRadius, gs`moves, gs`deadBots, gs`events
    ensures gs.Valid() && gs.S() == Cleared(gs.cfg, old(gs.S()), inactive)
  {
    ActivateZone(gs);
    gs.ClearTurnState();
    gs.events := gs.events + seq(|inactive|, k requires 0 <= k < |inactive| => BotInactive(inactive[k]));
  }

  method ActivateZone(gs: GameState)
    requires gs.cfg.rows > 0 && gs.cfg.cols > 0
    modifies gs`zoneActive, gs`zoneRadius
    ensures gs.S() == Awakened(gs.cfg, old(gs.S()))
  {
    if !gs.zoneActive && gs.turn + 1 >= gs.cfg.zoneStartTurn {
      gs.zoneActive := true;
      gs.SetInitialZoneRadius();
    }
  }

  method ForwardOrders(gs: GameState, orders: seq<Order>)
    requires gs.Valid()
    modifies gs`moves
    ensures gs.Valid() && gs.S() == AfterOrders(old(gs.S()), orders)
  {
    hide Submit, Entitled;
    for k := 0 to |orders|
      invariant gs.Valid() && gs.S() == AfterOrders(old(gs.S()), orders[..k])
    {
      assert orders[..k + 1][..k] == orders[..k];
      var o := orders[k];
      var found := gs.HasBotAt(o.pos, o.player);
      EntitledMeans(gs.bots, o);
      if found {
        gs.SubmitMove(o.pos, o.dir);
      }
    }
    assert orders[..|orders|] == orders;
  }

  lemma EntitledMeans(bots: seq<Bot>, o: Order)
    ensures Entitled(bots, o) <==> exists i :: StandsAt(bots, i, o.pos) && bots[i].owner == o.player
  {
  }

  /** The rows are the scores and the energy held at the opening and after every turn. */
  ghost predicate RowsOfRun(s: State, ts: seq<TurnTrace>, scoreRows: seq<seq<int>>, energyRows: seq<seq<int>>) {
    && |scoreRows| == |energyRows| == |ts| + 1
    && forall k :: 0 <= k <= |ts| ==>
         scoreRows[k] == ScoresOf(At(s, ts, k).players) && energyRows[k] == EnergyHeldOf(At(s, ts, k).players)
  }

  lemma RowsGrow(s: State, ts: seq<TurnTrace>, t: TurnTrace, scoreRows: seq<seq<int>>, energyRows: seq<seq<int>>)
    requires RowsOfRun(s, ts, scoreRows, energyRows)
    ensures RowsOfRun(s, ts + [t], scoreRows + [ScoresOf(t.ended.players)],
                      energyRows + [EnergyHeldOf(t.ended.players)])
  {
    hide ScoresOf, EnergyHeldOf;
    forall k | 0 <= k <= |ts|
      ensures At(s, ts + [t], k) == At(s, ts, k)
    {
    }
  }

  /** The loop so far: a run that goes on, and a replay with all its rows. */
  ghost predicate Playing(gs: GameState, replay: ReplayWriter, s: State, ts: seq<TurnTrace>)
    reads gs, gs.grid, gs.grid.tiles, replay
  {
    && gs.Valid() && Run(gs.cfg, s, ts) && gs.S() == At(s, ts, |ts|) && |gs.players| == |s.players|
    && replay.Valid() && replay.For(|s.players|) && RowsOfRun(s, ts, replay.scoreRows, replay.energyRows)
  }

  ghost predicate GoingOn(ts: seq<TurnTrace>) {
    forall j :: 0 <= j < |ts| ==> ts[j].verdict == Ongoing
  }

  /** One iteration of the loop: a turn is played and recorded. */
  method PlayAndRecord(gs: GameState, input: TurnInput, replay: ReplayWriter, ghost s: State, ghost ts: seq<TurnTrace>)
    returns (verdict: Verdict, ghost t: TurnTrace)
    requires Playing(gs, replay, s, ts) && GoingOn(ts)
    modifies gs, replay
    ensures Playing(gs, replay, s, ts + [t]) && t.verdict == verdict
    ensures gs.turn == old(gs.turn) + 1 && (verdict == Ongoing ==> gs.turn < gs.cfg.maxTurns)
  {
    hide WellFormed, TurnStep, Run, RowsOfRun, GoingOn;
    ghost var before := gs.S();
    verdict, t := PlayTurn(gs, input);
    TurnAdvances(gs.cfg, before, t);
    TurnSizes(gs.cfg, before, t);
    RunGrows(gs.cfg, s, ts, t);
    RowsGrow(s, ts, t, replay.scoreRows, replay.energyRows);
    replay.RecordTurn(gs);
  }

  method StartReplay(gs: GameState) returns (replay: ReplayWriter)
    requires gs.Valid()
    ensures fresh(replay) && Playing(gs, replay, gs.S(), [])
  {
    hide WellFormed, TurnStep;
    replay := new ReplayWriter();
    replay.RecordTurn(gs);
  }

  /** Plays turns until a verdict; with a positive turn limit there always is one. The script is
      arbitrary, so it covers whatever the bots would answer. The replay has the scores and the
      energy of the opening and of every turn. */
  method PlayMatch(gs: GameState, script: nat -> TurnInput)
    returns (verdict: Verdict, replay: ReplayWriter, ghost ts: seq<TurnTrace>)
    requires gs.Valid() && 0 <= gs.turn < gs.cfg.maxTurns
    modifies gs
    ensures gs.Valid() && Run(gs.cfg, old(gs.S()), ts)
    ensures ts != [] && gs.S() == ts[|ts| - 1].ended && verdict == ts[|ts| - 1].verdict
    ensures verdict.Ended?
    ensures fresh(replay) && replay.Valid() && replay.For(|old(gs.players)|)
    ensures RowsOfRun(old(gs.S()), ts, replay.scoreRows, replay.energyRows)
  {
    hide WellFormed, TurnStep, Run, RowsOfRun;
    ghost var s := gs.S();
    ts := [];
    replay := StartReplay(gs);
    verdict := Ongoing;
    var k := 0;
    while gs.turn < gs.cfg.maxTurns
      invariant fresh(replay) && Playing(gs, replay, s, ts)
      invariant verdict == Ongoing && GoingOn(ts)
      invariant gs.turn < gs.cfg.maxTurns
      decreases gs.cfg.maxTurns - gs.turn
    {
      ghost var t;
      verdict, t := PlayAndRecord(gs, script(k), replay, s, ts);
      ts := ts + [t];
      k := k + 1;
      if verdict.Ended? {
        return;
      }
    }
  }

  /** Whatever a recorded match did, the viewer shows it: after every turn the scores and the
      energy the engine held. */
  lemma ViewerShowsTheRun(s: State, ts: seq<TurnTrace>, w: ReplayWriter, n: nat, k: nat)
    requires w.Valid() && w.For(n) && RowsOfRun(s, ts, w.scoreRows, w.energyRows) && k <= |ts|
    ensures |w.turns| == |ts| + 1
    ensures Shown(ScoreColumn(w.turns), n, k) == ScoresOf(At(s, ts, k).players)
    ensures Shown(EnergyColumn(w.turns), n, k) == EnergyHeldOf(At(s, ts, k).players)
  {
    hide ScoresOf, EnergyHeldOf, Shown, At;
    ReplayRoundTrips(w, n, k);
  }

  lemma RunGrows(c: Config, s: State, ts: seq<TurnTrace>, t: TurnTrace)
    requires Playable(c)
    requires Run(c, s, ts) && GoingOn(ts)
    requires TurnStep(c, At(s, ts, |ts|), t)
    ensures Run(c, s, ts + [t])
  {
    hide TurnStep;
    forall k | 0 <= k < |ts + [t]|
      ensures TurnStep(c, At(s, ts + [t], k), (ts + [t])[k])
    {
      if k < |ts| {
        assert TurnStep(c, At(s, ts, k), ts[k]);
      }
    }
  }
}

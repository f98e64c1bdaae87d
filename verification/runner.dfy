/** The match runner and its HTTP bots as objects: each call changes one player's two counters
    as the failure policy says and leaves every other player's alone. */
module MatchRunners {
  import opened FailurePolicy

  /** One bot_inactive event. */
  datatype Notice = Notice(player: nat, turn: nat)

  function TurnsOf(notices: seq<Notice>, p: nat): seq<nat> {
    if notices == [] then []
    else
      var n := notices[|notices| - 1];
      TurnsOf(notices[..|notices| - 1], p) + if n.player == p then [n.turn] else []
  }

  lemma {:induction false} TurnsOfAppend(notices: seq<Notice>, n: Notice, p: nat)
    ensures TurnsOf(notices + [n], p) == TurnsOf(notices, p) + if n.player == p then [n.turn] else []
  {
    assert (notices + [n])[..|notices|] == notices;
  }

  /** One player's outcome as the runner receives it. */
  datatype Arrival = Arrival(player: nat, outcome: Outcome)

  ghost predicate Arrived(arrivals: seq<Arrival>, p: nat) {
    exists k :: 0 <= k < |arrivals| && arrivals[k].player == p
  }

  ghost predicate OnePerPlayer(arrivals: seq<Arrival>) {
    forall j, k :: 0 <= j < k < |arrivals| ==> arrivals[j].player != arrivals[k].player
  }

  function DigestedBoth(counters: (RunnerSide, BotSide), o: Outcome, turn: nat): (RunnerSide, BotSide) {
    Digested(counters.0, counters.1, o, turn)
  }

  predicate Heard(a: Arrival, counters: (RunnerSide, BotSide)) {
    a.outcome == Moved && !counters.1.crashed
  }

  lemma {:induction false} ArrivedGrows(arrivals: seq<Arrival>, i: nat)
    requires OnePerPlayer(arrivals) && i < |arrivals|
    ensures forall q :: Arrived(arrivals[..i + 1], q) <==> Arrived(arrivals[..i], q) || q == arrivals[i].player
    ensures !Arrived(arrivals[..i], arrivals[i].player)
    ensures forall k :: 0 <= k < i ==> arrivals[k].player != arrivals[i].player
  {
    forall q
      ensures Arrived(arrivals[..i + 1], q) <==> Arrived(arrivals[..i], q) || q == arrivals[i].player
    {
      if Arrived(arrivals[..i], q) {
        var k :| 0 <= k < i && arrivals[..i][k].player == q;
        assert arrivals[..i + 1][k].player == q;
      }
      if q == arrivals[i].player {
        assert arrivals[..i + 1][i].player == q;
      }
      if Arrived(arrivals[..i + 1], q) {
        var k :| 0 <= k <= i && arrivals[..i + 1][k].player == q;
        assert k < i ==> arrivals[..i][k].player == q;
      }
    }
  }

  class HTTPBot {
    var generation: nat
    var failCount: nat
    var crashed: bool

    function Side(): BotSide
      reads this
    {
      BotSide(generation, failCount, crashed)
    }

    constructor ()
      ensures Side() == Fresh().bot
    {
      generation, failCount, crashed := 0, 0, false;
    }

    method SetMatchID()
      modifies this
      ensures Side() == BotSide(old(generation) + 1, 0, false)
    {
      crashed := false;
      failCount := 0;
      generation := generation + 1;
    }

    method IsCrashed() returns (r: bool)
      ensures r == Side().crashed
    {
      r := crashed;
    }

    /** The opening of GetMoves; asked tells whether a request goes out. */
    method BeginCall() returns (asked: bool, g: nat)
      modifies this
      ensures Side() == Begun(old(Side()))
      ensures asked == !old(crashed) && (asked ==> g == generation)
    {
      if crashed {
        asked, g := false, 0;
        return;
      }
      generation := generation + 1;
      asked, g := true, generation;
    }

    method RecordFailure(g: nat)
      modifies this
      ensures Side() == Recorded(old(Side()), g, false)
    {
      if g != generation || crashed {
        return;
      }
      failCount := failCount + 1;
      if failCount >= LIMIT {
        crashed := true;
      }
    }

    method RecordSuccess(g: nat)
      modifies this
      ensures Side() == Recorded(old(Side()), g, true)
    {
      if g != generation || crashed {
        return;
      }
      failCount := 0;
    }

    method MarkInactive()
      modifies this
      ensures Side() == old(Side()).(crashed := true)
    {
      crashed := true;
    }
  }

  class MatchRunner {
    const bots: seq<HTTPBot>
    var failureStreak: map<nat, nat>
    var inactive: set<nat>
    var notices: seq<Notice>

    ghost predicate Valid() {
      forall i, j :: 0 <= i < j < |bots| ==> bots[i] != bots[j]
    }

    function Streak(p: nat): nat
      reads this
    {
      if p in failureStreak then failureStreak[p] else 0
    }

    function Player(p: nat): RunnerSide
      reads this
    {
      RunnerSide(Streak(p), p in inactive, TurnsOf(notices, p))
    }

    constructor (bots: seq<HTTPBot>)
      requires forall i, j :: 0 <= i < j < |bots| ==> bots[i] != bots[j]
      ensures Valid() && this.bots == bots
      ensures forall p :: Player(p) == Fresh().runner
    {
      this.bots := bots;
      failureStreak, inactive, notices := map[], {}, [];
    }

    /** Whom this turn queries. */
    method ActivePlayers() returns (asked: set<nat>)
      ensures asked == set p | 0 <= p < |bots| && !Player(p).inactive
    {
      asked := {};
      for p := 0 to |bots|
        invariant asked == set q | 0 <= q < p && q !in inactive
      {
        if p !in inactive {
          asked := asked + {p};
        }
      }
    }

    /** At the end of the match: who counts as crashed in the result. */
    method CrashFlags() returns (crashed: seq<bool>)
      ensures |crashed| == |bots|
      ensures forall p :: 0 <= p < |bots| ==> (crashed[p] <==> Player(p).inactive || bots[p].Side().crashed)
    {
      crashed := [];
      for p := 0 to |bots|
        invariant |crashed| == p
        invariant forall q :: 0 <= q < p ==> (crashed[q] <==> q in inactive || bots[q].crashed)
      {
        crashed := crashed + [p in inactive || bots[p].crashed];
      }
    }

    method MarkInactive(p: nat, turn: nat)
      requires Valid() && p < |bots|
      modifies this, bots[p]
      ensures Player(p) == Retired(old(Player(p)), turn)
      ensures bots[p].Side() == if old(p in inactive) then old(bots[p].Side())
              else old(bots[p].Side()).(crashed := true)
      ensures forall q :: q != p ==> Player(q) == old(Player(q))
    {
      if p in inactive {
        return;
      }
      if Streak(p) < LIMIT {
        failureStreak := failureStreak[p := LIMIT];
      }
      inactive := inactive + {p};
      bots[p].MarkInactive();
      forall q {
        TurnsOfAppend(notices, Notice(p, turn), q);
      }
      notices := notices + [Notice(p, turn)];
    }

    method RecordFailedTurn(p: nat, turn: nat)
      requires Valid() && p < |bots|
      modifies this, bots[p]
      ensures (Player(p), bots[p].Side()) == Digested(old(Player(p)), old(bots[p].Side()), Failed, turn)
      ensures forall q :: q != p ==> Player(q) == old(Player(q))
    {
      failureStreak := failureStreak[p := Streak(p) + 1];
      if failureStreak[p] < LIMIT {
        return;
      }
      MarkInactive(p, turn);
    }

    method DigestOutcome(p: nat, o: Outcome, turn: nat) returns (moved: bool)
      requires Valid() && p < |bots|
      modifies this, bots[p]
      ensures (Player(p), bots[p].Side()) == Digested(old(Player(p)), old(bots[p].Side()), o, turn)
      ensures moved == (o == Moved && !old(bots[p].crashed))
      ensures forall q :: q != p ==> Player(q) == old(Player(q))
    {
      moved := false;
      if o != Moved {
        RecordFailedTurn(p, turn);
        return;
      }
      var crashed := bots[p].IsCrashed();
      if crashed {
        MarkInactive(p, turn);
        return;
      }
      failureStreak := failureStreak[p := 0];
      moved := true;
    }

    /** A player's two counters together. */
    ghost function Counters(p: nat): (RunnerSide, BotSide)
      requires p < |bots|
      reads this, bots[p]
    {
      (Player(p), bots[p].Side())
    }

    /** One arrival: the player's own counters move as the policy says, nobody else's do. */
    method DigestArrival(a: Arrival, turn: nat) returns (moved: bool)
      requires Valid() && a.player < |bots|
      modifies this, bots[a.player]
      ensures Counters(a.player) == DigestedBoth(old(Counters(a.player)), a.outcome, turn)
      ensures forall q: nat :: q < |bots| && q != a.player ==> Counters(q) == old(Counters(q))
      ensures moved == Heard(a, old(Counters(a.player)))
    {
      hide Digested, TurnsOf;
      moved := DigestOutcome(a.player, a.outcome, turn);
    }

    /** The outcomes of a turn, in the order they arrived: every player heard from is digested
        once, on its own state, and nobody else is touched, so the order cannot matter. */
    method DigestOutcomes(arrivals: seq<Arrival>, turn: nat) returns (moved: set<nat>)
      requires Valid() && OnePerPlayer(arrivals)
      requires forall a :: a in arrivals ==> a.player < |bots|
      modifies this, bots
      ensures forall k :: 0 <= k < |arrivals| ==>
        Counters(arrivals[k].player) == DigestedBoth(old(Counters(arrivals[k].player)), arrivals[k].outcome, turn)
      ensures forall q: nat :: q < |bots| && !Arrived(arrivals, q) ==> Counters(q) == old(Counters(q))
      ensures forall k :: 0 <= k < |arrivals| ==>
              (arrivals[k].player in moved <==> Heard(arrivals[k], old(Counters(arrivals[k].player))))
      ensures forall q :: q in moved ==> Arrived(arrivals, q)
    {
      moved := {};
      for i := 0 to |arrivals|
        invariant forall k :: 0 <= k < i ==>
          Counters(arrivals[k].player) == DigestedBoth(old(Counters(arrivals[k].player)), arrivals[k].outcome, turn)
        invariant forall q: nat :: q < |bots| && !Arrived(arrivals[..i], q) ==> Counters(q) == old(Counters(q))
        invariant forall k :: 0 <= k < i ==>
                  (arrivals[k].player in moved <==> Heard(arrivals[k], old(Counters(arrivals[k].player))))
        invariant forall q :: q in moved ==> Arrived(arrivals[..i], q)
      {
        hide DigestedBoth, Heard, Arrived, Counters;
        ArrivedGrows(arrivals, i);
        var m := DigestArrival(arrivals[i], turn);
        if m {
          moved := moved + {arrivals[i].player};
        }
      }
      assert arrivals[..|arrivals|] == arrivals;
    }
  }
}

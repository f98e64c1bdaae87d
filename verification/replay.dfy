/** The replay's delta encoding of scores and energy: the writer omits an array that has not
    changed, the viewer fills omitted arrays forward. */
module Replays {
  import opened Wrappers

  import opened GameTypes
  import opened Engine

  /** The delta-encoded part of a recorded turn; None is an omitted array. */
  datatype ReplayTurn = ReplayTurn(turn: int, scores: Option<seq<int>>, energyHeld: Option<seq<int>>)

  // ----- One column of values -----------------------------------------------------

  /** What the writer puts down for turn k: the row, if it is the first or differs from the last. */
  function Written(rows: seq<seq<int>>, k: nat): Option<seq<int>>
    requires k < |rows|
  {
    if rows[k] != [] && (k == 0 || rows[k] != rows[k - 1]) then Some(rows[k]) else None
  }

  /** The row to compare the next turn with. */
  function Latest(rows: seq<seq<int>>): Option<seq<int>> {
    if rows == [] || rows[|rows| - 1] == [] then None else Some(rows[|rows| - 1])
  }

  /** Every row has one value per player. */
  predicate Rectangular(rows: seq<seq<int>>, n: nat) {
    forall k :: 0 <= k < |rows| ==> |rows[k]| == n
  }

  predicate Present(written: Option<seq<int>>) {
    written.Some? && written.value != []
  }

  function Zeros(n: nat): (r: seq<int>)
    ensures |r| == n && forall k :: 0 <= k < n ==> r[k] == 0
  {
    seq(n, _ => 0)
  }

  /** The last array present before turn k. */
  function LastSeen(column: seq<Option<seq<int>>>, k: nat): (r: Option<seq<int>>)
    requires k <= |column|
    ensures r.Some? ==> Present(r)
  {
    if k == 0 then None else if Present(column[k - 1]) then column[k - 1] else LastSeen(column, k - 1)
  }

  /** What the viewer shows for turn k: an omitted array repeats the last one, or is all zeros. */
  function Shown(column: seq<Option<seq<int>>>, n: nat, k: nat): seq<int>
    requires k < |column|
  {
    if Present(column[k]) then column[k].value
    else if LastSeen(column, k).Some? then LastSeen(column, k).value
    else Zeros(n)
  }

  ghost predicate Encodes(column: seq<Option<seq<int>>>, rows: seq<seq<int>>) {
    |column| == |rows| && forall k :: 0 <= k < |rows| ==> column[k] == Written(rows, k)
  }

  lemma {:induction false} LastSeenIsLatest(column: seq<Option<seq<int>>>, rows: seq<seq<int>>, n: nat, k: nat)
    requires Encodes(column, rows) && Rectangular(rows, n) && k <= |rows|
    ensures LastSeen(column, k) == Latest(rows[..k])
  {
    if k == 0 {
    } else {
      LastSeenIsLatest(column, rows, n, k - 1);
    }
  }

  /** Round trip: the viewer shows every recorded row. */
  lemma {:induction false} ShownIsRecorded(column: seq<Option<seq<int>>>, rows: seq<seq<int>>, n: nat, k: nat)
    requires Encodes(column, rows) && Rectangular(rows, n) && k < |rows|
    ensures Shown(column, n, k) == rows[k]
  {
    LastSeenIsLatest(column, rows, n, k);
  }

  /** Filling an already filled column changes nothing: pages may reconstruct twice. */
  lemma {:induction false} FillingTwice(column: seq<Option<seq<int>>>, filled: seq<Option<seq<int>>>, n: nat, k: nat)
    requires |filled| == |column| && k < |column|
    requires forall j :: 0 <= j < |column| ==> filled[j] == Some(Shown(column, n, j))
    ensures Shown(filled, n, k) == Shown(column, n, k)
  {
    if !Present(filled[k]) {
      NothingToSee(column, n, k);
      NothingBefore(filled, column, n, k);
    }
  }

  lemma {:induction false} NothingToSee(column: seq<Option<seq<int>>>, n: nat, k: nat)
    requires k < |column| && Shown(column, n, k) == []
    ensures n == 0 && LastSeen(column, k) == None
  {
    assert |Zeros(n)| == n;
  }

  lemma {:induction false} NothingBefore(filled: seq<Option<seq<int>>>, column: seq<Option<seq<int>>>, n: nat, k: nat)
    requires |filled| == |column| && k <= |column| && LastSeen(column, k) == None && n == 0
    requires forall j :: 0 <= j < |column| ==> filled[j] == Some(Shown(column, n, j))
    ensures LastSeen(filled, k) == None
  {
    if k == 0 {
    } else {
      assert Shown(column, n, k - 1) == [];
      NothingBefore(filled, column, n, k - 1);
    }
  }

  // ----- The writer ---------------------------------------------------------------

  function ScoresOf(players: seq<Player>): seq<int> {
    seq(|players|, i requires 0 <= i < |players| => players[i].score)
  }

  function EnergyHeldOf(players: seq<Player>): seq<int> {
    seq(|players|, i requires 0 <= i < |players| => players[i].energy)
  }

  function ScoreColumn(turns: seq<ReplayTurn>): seq<Option<seq<int>>> {
    seq(|turns|, k requires 0 <= k < |turns| => turns[k].scores)
  }

  function EnergyColumn(turns: seq<ReplayTurn>): seq<Option<seq<int>>> {
    seq(|turns|, k requires 0 <= k < |turns| => turns[k].energyHeld)
  }

  lemma WritingOneMore(column: seq<Option<seq<int>>>, rows: seq<seq<int>>, row: seq<int>, written: Option<seq<int>>)
    requires Encodes(column, rows) && Rectangular(rows, |row|)
    requires written == if row != [] && Latest(rows) != Some(row) then Some(row) else None
    ensures Encodes(column + [written], rows + [row])
    ensures Latest(rows + [row]) == if written.Some? then written else Latest(rows)
  {
    forall k | 0 <= k < |rows + [row]|
      ensures (column + [written])[k] == Written(rows + [row], k)
    {
      if k < |rows| {
        assert Written(rows + [row], k) == Written(rows, k);
      }
    }
  }

  class ReplayWriter {
    var turns: seq<ReplayTurn>
    var lastScores: Option<seq<int>>
    var lastEnergy: Option<seq<int>>
    ghost var scoreRows: seq<seq<int>>   // the scores at every recorded turn
    ghost var energyRows: seq<seq<int>>  // and the energy held

    ghost predicate Valid()
      reads this
    {
      && Encodes(ScoreColumn(turns), scoreRows) && Encodes(EnergyColumn(turns), energyRows)
      && lastScores == Latest(scoreRows) && lastEnergy == Latest(energyRows)
    }

    /** The replay so far is of a match with n players. */
    ghost predicate For(n: nat)
      reads this
    {
      Rectangular(scoreRows, n) && Rectangular(energyRows, n)
    }

    constructor ()
      ensures Valid() && turns == [] && scoreRows == [] && energyRows == []
    {
      turns, lastScores, lastEnergy, scoreRows, energyRows := [], None, None, [], [];
    }

    /** The current values, and whether any differs from the last written ones. */
    method CompareWithLast(players: seq<Player>)
      returns (scores: seq<int>, energy: seq<int>, scoresChanged: bool, energyChanged: bool)
      requires Valid() && For(|players|)
      ensures scores == ScoresOf(players) && energy == EnergyHeldOf(players)
      ensures scoresChanged <==> players != [] && lastScores != Some(scores)
      ensures energyChanged <==> players != [] && lastEnergy != Some(energy)
    {
      scores, energy := [], [];
      scoresChanged, energyChanged := false, false;
      for i := 0 to |players|
        invariant scores == ScoresOf(players[..i]) && energy == EnergyHeldOf(players[..i])
        invariant scoresChanged <==> i > 0 && (lastScores == None || lastScores.value[..i] != scores)
        invariant energyChanged <==> i > 0 && (lastEnergy == None || lastEnergy.value[..i] != energy)
      {
        var p := players[i];
        scores, energy := scores + [p.score], energy + [p.energy];
        OneMoreValue(lastScores, scores, i);
        OneMoreValue(lastEnergy, energy, i);
        if lastScores == None || p.score != lastScores.value[i] {
          scoresChanged := true;
        }
        if lastEnergy == None || p.energy != lastEnergy.value[i] {
          energyChanged := true;
        }
      }
      assert players[..|players|] == players;
      WholeRow(lastScores, scores);
      WholeRow(lastEnergy, energy);
    }

    /** Records the turn; each array goes in only if it is the first or a value has changed. */
    method RecordTurn(gs: GameState)
      requires Valid() && For(|gs.players|)
      modifies this
      ensures Valid() && For(|gs.players|)
      ensures scoreRows == old(scoreRows) + [ScoresOf(gs.players)]
      ensures energyRows == old(energyRows) + [EnergyHeldOf(gs.players)]
      ensures |turns| == |old(turns)| + 1 && turns[..|old(turns)|] == old(turns) && turns[|old(turns)|].turn == gs.turn
    {
      var scores, energy, scoresChanged, energyChanged := CompareWithLast(gs.players);
      var turn := ReplayTurn(gs.turn, if scoresChanged then Some(scores) else None,
                             if energyChanged then Some(energy) else None);
      WritingOneMore(ScoreColumn(turns), scoreRows, scores, turn.scores);
      WritingOneMore(EnergyColumn(turns), energyRows, energy, turn.energyHeld);
      if scoresChanged {
        lastScores := Some(scores);
      }
      if energyChanged {
        lastEnergy := Some(energy);
      }
      assert ScoreColumn(turns + [turn]) == ScoreColumn(turns) + [turn.scores];
      assert EnergyColumn(turns + [turn]) == EnergyColumn(turns) + [turn.energyHeld];
      turns := turns + [turn];
      scoreRows, energyRows := scoreRows + [scores], energyRows + [energy];
      hide Encodes, Latest;
    }
  }

  lemma OneMoreValue(last: Option<seq<int>>, current: seq<int>, i: nat)
    requires |current| == i + 1 && (last.Some? ==> |last.value| > i)
    ensures last.Some? ==>
            (last.value[..i + 1] == current <==> last.value[..i] == current[..i] && last.value[i] == current[i])
  {
    if last.Some? {
      assert last.value[..i + 1] == last.value[..i] + [last.value[i]];
      assert current == current[..i] + [current[i]];
    }
  }

  lemma WholeRow(last: Option<seq<int>>, current: seq<int>)
    requires last.Some? ==> |last.value| == |current|
    ensures last.Some? ==> last.value[..|current|] == last.value
  {
  }

  // ----- The viewer ---------------------------------------------------------------

  /** Turn k with both arrays present. */
  function Filled(turns: seq<ReplayTurn>, n: nat, k: nat): ReplayTurn
    requires k < |turns|
  {
    ReplayTurn(turns[k].turn, Some(Shown(ScoreColumn(turns), n, k)), Some(Shown(EnergyColumn(turns), n, k)))
  }

  /** Fills omitted arrays forward, in place; replays older than format 2.1 are already full. */
  method ReconstructReplay(turns: array<ReplayTurn>, numPlayers: nat, deltaEncoded: bool)
    modifies turns
    ensures !deltaEncoded ==> turns[..] == old(turns[..])
    ensures deltaEncoded ==> forall k :: 0 <= k < turns.Length ==> turns[k] == Filled(old(turns[..]), numPlayers, k)
  {
    if !deltaEncoded {
      return;
    }
    ghost var was := turns[..];
    ghost var scores, energy := ScoreColumn(was), EnergyColumn(was);
    var lastScores: Option<seq<int>>, lastEnergy: Option<seq<int>> := None, None;
    for k := 0 to turns.Length
      invariant lastScores == LastSeen(scores, k) && lastEnergy == LastSeen(energy, k)
      invariant forall j :: k <= j < turns.Length ==> turns[j] == was[j]
      invariant forall j :: 0 <= j < k ==> turns[j] == Filled(was, numPlayers, j)
    {
      hide LastSeen, Shown, Present;
      var turn := turns[k];
      ShownNext(scores, numPlayers, k);
      ShownNext(energy, numPlayers, k);
      if !Present(turn.scores) {
        turns[k] := turns[k].(scores := if lastScores.Some? then lastScores else Some(Zeros(numPlayers)));
      } else {
        lastScores := turn.scores;
      }
      if !Present(turn.energyHeld) {
        turns[k] := turns[k].(energyHeld := if lastEnergy.Some? then lastEnergy else Some(Zeros(numPlayers)));
      } else {
        lastEnergy := turn.energyHeld;
      }
    }
  }

  lemma ShownNext(column: seq<Option<seq<int>>>, n: nat, k: nat)
    requires k < |column|
    ensures Shown(column, n, k) == if Present(column[k]) then column[k].value
                                   else if LastSeen(column, k).Some? then LastSeen(column, k).value else Zeros(n)
    ensures LastSeen(column, k + 1) == if Present(column[k]) then column[k] else LastSeen(column, k)
  {
  }

  /** What a writer recorded for a fixed set of players, the viewer shows, turn by turn. */
  lemma ReplayRoundTrips(w: ReplayWriter, n: nat, k: nat)
    requires w.Valid() && w.For(n) && k < |w.turns|
    ensures Shown(ScoreColumn(w.turns), n, k) == w.scoreRows[k]
    ensures Shown(EnergyColumn(w.turns), n, k) == w.energyRows[k]
    ensures n > 0 ==> (w.turns[k].scores.Some? <==> k == 0 || w.scoreRows[k] != w.scoreRows[k - 1])
    ensures n > 0 ==> (w.turns[k].energyHeld.Some? <==> k == 0 || w.energyRows[k] != w.energyRows[k - 1])
  {
    ShownIsRecorded(ScoreColumn(w.turns), w.scoreRows, n, k);
    ShownIsRecorded(EnergyColumn(w.turns), w.energyRows, n, k);
  }
}

/** The loops of the spawn phase, step by step: facts engine.dfy uses. */
module SpawnLoop {
  import opened GameTypes
  import opened Rules

  // ----- Ordering cores by priority -----------------------------------------------

  ghost predicate Ordered(cores: seq<Core>, ids: seq<nat>)
    requires forall k :: 0 <= k < |ids| ==> ids[k] < |cores|
  {
    forall a, b :: 0 <= a < b < |ids| ==> Before(cores, ids[a], ids[b])
  }

  ghost predicate Identified(cores: seq<Core>) {
    forall k :: 0 <= k < |cores| ==> cores[k].id == k
  }

  lemma InsertKeepsOrder(cores: seq<Core>, ids: seq<nat>, j: nat, x: nat)
    requires Identified(cores) && x < |cores| && j <= |ids| && x !in ids
    requires (forall k :: 0 <= k < |ids| ==> ids[k] < |cores|) && Ordered(cores, ids)
    requires forall k :: 0 <= k < j ==> Before(cores, ids[k], x)
    requires j < |ids| ==> !Before(cores, ids[j], x)
    ensures var ids' := ids[..j] + [x] + ids[j..];
            && (forall k :: 0 <= k < |ids'| ==> ids'[k] < |cores|) && Ordered(cores, ids')
            && |ids'| == |ids| + 1 && forall y :: y in ids' <==> y in ids || y == x
  {
    var ids' := ids[..j] + [x] + ids[j..];
    assert ids == ids[..j] + ids[j..];
    forall a, b | 0 <= a < b < |ids'|
      ensures Before(cores, ids'[a], ids'[b])
    {
      if b == j {
      } else if a == j {
        assert ids'[b] == ids[b - 1];
        assert b - 1 > j ==> Before(cores, ids[j], ids[b - 1]);
      } else {
        var a0, b0 := if a < j then a else a - 1, if b < j then b else b - 1;
        assert ids'[a] == ids[a0] && ids'[b] == ids[b0];
      }
    }
  }

  // ----- Paying for spawns --------------------------------------------------------

  lemma AffordableStep(energy: int, cost: int, k: nat)
    ensures energy < cost ==> Affordable(energy, cost, k) == 0
    ensures energy >= cost && k > 0 ==> Affordable(energy, cost, k) == 1 + Affordable(energy - cost, cost, k - 1)
    ensures Affordable(energy, cost, 0) == 0
  {
  }

  lemma {:induction false} SpawnAllStep(c: Config, s: State, p: nat, ids: seq<nat>, k: nat)
    requires p < |s.players| && k < |ids| && forall m :: 0 <= m < |ids| ==> ids[m] < |s.cores|
    ensures SpawnAll(c, s, p, ids[..0]) == s
    ensures SpawnAll(c, s, p, ids[..k + 1]) == SpawnOne(c, SpawnAll(c, s, p, ids[..k]), p, ids[k])
  {
    assert ids[..k + 1][..k] == ids[..k];
  }

  lemma SpawnOneStaysWellFormed(c: Config, s: State, p: nat, k: nat)
    requires WellFormed(c, s) && p < |s.players| && k < |s.cores|
    ensures WellFormed(c, SpawnOne(c, s, p, k))
  {
    var b := Bot(s.nextBotId, p, s.cores[k].pos, true);
    var s' := SpawnOne(c, s, p, k);
    CountOneBirth(s.players, s.bots, b);
    forall q | 0 <= q < |s'.players|
      ensures s'.players[q].botCount == Living(s'.bots, q)
    {
      assert s'.players[q].botCount == Recount(s.players, s.bots + [b])[q].botCount;
    }
  }

  lemma {:induction false} SpawnAllStaysWellFormed(c: Config, s: State, p: nat, ids: seq<nat>)
    requires WellFormed(c, s) && p < |s.players| && forall m :: 0 <= m < |ids| ==> ids[m] < |s.cores|
    ensures WellFormed(c, SpawnAll(c, s, p, ids))
  {
    hide WellFormed;
    if ids == [] {
    } else {
      SpawnAllStaysWellFormed(c, s, p, ids[..|ids| - 1]);
      SpawnOneStaysWellFormed(c, SpawnAll(c, s, p, ids[..|ids| - 1]), p, ids[|ids| - 1]);
    }
  }

  lemma PlayerSpawnsStaysWellFormed(c: Config, s: State, p: nat, ids: seq<nat>, s': State)
    requires WellFormed(c, s) && p < |s.players| && PlayerSpawns(c, s, p, ids, s')
    ensures WellFormed(c, s') && |s'.players| == |s.players| && |s'.cores| == |s.cores| && s'.turn == s.turn
  {
    hide WellFormed;
    if s.players[p].energy >= c.spawnCost {
      SpawnAllStaysWellFormed(c, s, p, ids[..Affordable(s.players[p].energy, c.spawnCost, |ids|)]);
    }
  }
}

/** Spawn scheduling is fair: a core that could spawn is passed over at most once in favour
    of each other core of its owner before it spawns itself. */
module Scheduling {
  import opened Tally
  import opened GameTypes
  import opened Rules
  import opened WellFormedSteps
  import opened Harvesting
  import opened Runs

  /** Core k spawned in turn t. */
  ghost predicate Spawned(t: TurnTrace, k: nat) {
    k < |t.spawned.cores| && t.spawned.cores[k].lastSpawnedTurn == t.collected.turn
  }

  /** When its owner's turn to spawn came, core k could have spawned. */
  ghost predicate Waiting(t: TurnTrace, k: nat) {
    k < |t.collected.cores| && t.collected.cores[k].owner < |t.stages|
    && Eligible(t.stages[t.collected.cores[k].owner], t.collected.cores[k].owner, k)
  }

  /** Core k could have spawned but did not, while core d of the same owner did. */
  ghost predicate BypassedBy(t: TurnTrace, k: nat, d: nat) {
    && k < |t.collected.cores| && d < |t.collected.cores| && t.collected.cores[d].owner == t.collected.cores[k].owner
    && Waiting(t, k) && !Spawned(t, k) && Spawned(t, d)
  }

  ghost predicate Bypassed(t: TurnTrace, k: nat) {
    exists d: nat :: BypassedBy(t, k, d)
  }

  // ----- One spawn phase ----------------------------------------------------------

  lemma {:induction false} SpawnAllCores(c: Config, s: State, p: nat, ids: seq<nat>, k: nat)
    requires p < |s.players| && (forall m :: 0 <= m < |ids| ==> ids[m] < |s.cores|) && k < |s.cores|
    ensures SpawnAll(c, s, p, ids).cores[k] == if k in ids then s.cores[k].(lastSpawnedTurn := s.turn) else s.cores[k]
  {
    if ids == [] {
    } else {
      var n := |ids| - 1;
      SpawnAllCores(c, s, p, ids[..n], k);
      assert ids == ids[..n] + [ids[n]];
    }
  }

  /** The cores player p spawned at: the affordable front of the ranking. */
  ghost function Chosen(c: Config, s: State, p: nat, ids: seq<nat>): seq<nat>
    requires p < |s.players|
  {
    if s.players[p].energy < c.spawnCost then [] else ids[..Affordable(s.players[p].energy, c.spawnCost, |ids|)]
  }

  lemma {:induction false} PlayerCores(c: Config, s: State, p: nat, ids: seq<nat>, s': State, k: nat)
    requires p < |s.players| && PlayerSpawns(c, s, p, ids, s') && k < |s.cores|
    ensures k < |s'.cores|
    ensures s'.cores[k] == if k in Chosen(c, s, p, ids) then s.cores[k].(lastSpawnedTurn := s.turn) else s.cores[k]
    ensures k in Chosen(c, s, p, ids) ==> s.cores[k].owner == p
  {
    hide Before, Occupied, SpawnAll;
    if s.players[p].energy >= c.spawnCost {
      var chosen := Chosen(c, s, p, ids);
      SpawnAllCores(c, s, p, chosen, k);
      if k in chosen {
        assert k in ids;
      }
    }
  }

  /** Whoever is chosen goes before whoever is eligible and not chosen. */
  lemma {:induction false} ChosenGoFirst(c: Config, s: State, p: nat, ids: seq<nat>, s': State, d: nat, k: nat)
    requires p < |s.players| && PlayerSpawns(c, s, p, ids, s')
    requires d in Chosen(c, s, p, ids) && k !in Chosen(c, s, p, ids) && Eligible(s, p, k)
    ensures d < |s.cores| && k < |s.cores| && Before(s.cores, d, k)
  {
    hide Before, Occupied, SpawnAll;
    var m := Affordable(s.players[p].energy, c.spawnCost, |ids|);
    var a :| 0 <= a < m && ids[a] == d;
    assert k in ids;
    var b :| 0 <= b < |ids| && ids[b] == k;
    assert b >= m;
  }

  /** A core keeps its record until its owner's stage, and again after it. */
  lemma {:induction false} StageCores(c: Config, s: State, stages: seq<State>, rankings: seq<seq<nat>>, s': State,
                                      p: nat, k: nat)
    requires WellFormed(c, s) && SpawnStep(c, s, stages, rankings, s') && p < |stages| && k < |s.cores|
    ensures |stages[p].cores| == |s.cores| && s.cores[k].owner + 1 < |stages|
            && k < |stages[s.cores[k].owner + 1].cores|
    ensures stages[p].cores[k].owner == s.cores[k].owner
    ensures s.cores[k].owner >= p ==> stages[p].cores[k] == s.cores[k]
    ensures s.cores[k].owner < p ==> stages[p].cores[k] == stages[s.cores[k].owner + 1].cores[k]
  {
    OwnerExists(c, s, k);
    StagesStayWellFormed(c, s, stages, rankings, s', p);
    StagesStayWellFormed(c, s, stages, rankings, s', s.cores[k].owner + 1);
    hide WellFormed, PlayerSpawns, Chosen;
    if p == 0 {
    } else {
      StageCores(c, s, stages, rankings, s', p - 1, k);
      PlayerCores(c, stages[p - 1], p - 1, rankings[p - 1], stages[p], k);
    }
  }

  lemma {:induction false} OwnerExists(c: Config, s: State, k: nat)
    requires WellFormed(c, s) && k < |s.cores|
    ensures s.cores[k].owner < |s.players|
  {
  }

  /** A core's record after the phase: this turn if its owner chose it, else as before. */
  lemma {:induction false} CoreAfterSpawns(c: Config, s: State, stages: seq<State>, rankings: seq<seq<nat>>, s': State,
                                           k: nat)
    requires WellFormed(c, s) && SpawnStep(c, s, stages, rankings, s') && k < |s.cores|
    ensures |s'.cores| == |s.cores| && |stages| == |s.players| + 1 && |rankings| == |s.players|
    ensures var o := s.cores[k].owner;
            o < |s.players| && o < |stages[o].players| && |stages[o].cores| == |s.cores|
                && stages[o].cores[k] == s.cores[k]
            && s'.cores[k] == if k in Chosen(c, stages[o], o, rankings[o]) then s.cores[k].(lastSpawnedTurn := s.turn)
               else s.cores[k]
  {
    OwnerExists(c, s, k);
    var o := s.cores[k].owner;
    hide WellFormed, PlayerSpawns, Chosen;
    StagesStayWellFormed(c, s, stages, rankings, s', o);
    StageCores(c, s, stages, rankings, s', o, k);
    StageCores(c, s, stages, rankings, s', |s.players|, k);
    PlayerCores(c, stages[o], o, rankings[o], stages[o + 1], k);
  }

  /** No core claims a spawn later than the given turn. */
  ghost predicate RecordedBy(s: State, turn: int) {
    forall k :: 0 <= k < |s.cores| ==> s.cores[k].lastSpawnedTurn <= turn
  }

  /** A core passed over for another had spawned no earlier than that other core. */
  lemma {:induction false} BypassMeansPriority(c: Config, t: TurnTrace, k: nat, d: nat)
    requires WellFormed(c, t.collected) && SpawnStep(c, t.collected, t.stages, t.rankings, t.spawned)
    requires RecordedBy(t.collected, t.collected.turn - 1) && BypassedBy(t, k, d)
    ensures Before(t.collected.cores, d, k)
  {
    hide WellFormed, Eligible, Before, Chosen;
    CoreAfterSpawns(c, t.collected, t.stages, t.rankings, t.spawned, k);
    CoreAfterSpawns(c, t.collected, t.stages, t.rankings, t.spawned, d);
    var o := t.collected.cores[k].owner;
    assert PlayerSpawns(c, t.stages[o], o, t.rankings[o], t.stages[o + 1]);
    hide SpawnStep, PlayerSpawns;
    ChosenGoFirst(c, t.stages[o], o, t.rankings[o], t.stages[o + 1], d, k);
    BeforeIsByRecord(t.stages[o].cores, t.collected.cores, d, k);
  }

  lemma {:induction false} BeforeIsByRecord(a: seq<Core>, b: seq<Core>, d: nat, k: nat)
    requires d < |a| == |b| && k < |a| && a[d] == b[d] && a[k] == b[k] && Before(a, d, k)
    ensures Before(b, d, k) && b[d].lastSpawnedTurn <= b[k].lastSpawnedTurn
  {
  }

  // ----- Runs ---------------------------------------------------------------------

  /** One turn of a core's record. */
  lemma {:induction false} CoreTurn(c: Config, s: State, t: TurnTrace, k: nat)
    requires Playable(c) && WellFormed(c, s) && TurnStep(c, s, t) && k < |s.cores|
    ensures |t.ended.cores| == |s.cores| == |t.collected.cores| && t.collected.turn == s.turn + 1
    ensures t.collected.cores[k].lastSpawnedTurn == s.cores[k].lastSpawnedTurn
    ensures t.collected.cores[k].owner == s.cores[k].owner == t.ended.cores[k].owner
    ensures t.ended.cores[k].lastSpawnedTurn == if Spawned(t, k) then s.turn + 1 else s.cores[k].lastSpawnedTurn
    ensures WellFormed(c, t.collected) && SpawnStep(c, t.collected, t.stages, t.rankings, t.spawned)
  {
    TurnStaysWellFormed(c, s, t);
    TurnFrame(c, s, t);
    PhasesOf(c, s, t);
    CapturesKeepRecords(t.sheltered, t.captured, k);
    CoreAfterSpawns(c, t.collected, t.stages, t.rankings, t.spawned, k);
    hide TurnStep, WellFormed, MoveStep, CombatStep, ZoneStep, CaptureStep, CollectStep, SpawnStep, EndgameStep, Chosen;
  }

  lemma {:induction false} CapturesKeepRecords(s: State, s': State, k: nat)
    requires CaptureStep(s, s') && k < |s.cores|
    ensures |s'.cores| == |s.cores| && s'.cores[k].lastSpawnedTurn == s.cores[k].lastSpawnedTurn
    ensures s'.cores[k].owner == s.cores[k].owner
  {
    hide Razed, CaptureNotices, Settled;
  }

  /** The turn in which core k last spawned, as of turn j. */
  ghost function LastSpawn(s: State, ts: seq<TurnTrace>, j: nat, k: nat): int
    requires j <= |ts|
  {
    if k < |At(s, ts, j).cores| then At(s, ts, j).cores[k].lastSpawnedTurn else 0
  }

  lemma {:induction false} CoreInRun(c: Config, s: State, ts: seq<TurnTrace>, j: nat, k: nat)
    requires Playable(c) && Opening(c, s) && Run(c, s, ts) && j < |ts| && k < |s.cores|
    ensures LastSpawn(s, ts, j + 1, k) == if Spawned(ts[j], k) then j + 1 else LastSpawn(s, ts, j, k)
    ensures k < |ts[j].collected.cores| && ts[j].collected.cores[k].lastSpawnedTurn == LastSpawn(s, ts, j, k)
    ensures |ts[j].collected.cores| == |s.cores| && ts[j].collected.turn == j + 1
    ensures WellFormed(c, ts[j].collected) && SpawnStep(c, ts[j].collected, ts[j].stages, ts[j].rankings, ts[j].spawned)
  {
    OpeningIsWellFormed(c, s);
    OpeningTurn(c, s);
    RunStaysWellFormed(c, s, ts, j);
    RunSizes(c, s, ts, j);
    RunTurn(c, s, ts, j);
    hide Opening, Run, WellFormed, TurnStep, SpawnStep, Spawned;
    CoreTurn(c, At(s, ts, j), ts[j], k);
    AtNext(s, ts, j);
  }

  lemma {:induction false} OpeningTurn(c: Config, s: State)
    requires Opening(c, s)
    ensures s.turn == 0 && forall k :: 0 <= k < |s.cores| ==> s.cores[k].lastSpawnedTurn == 0
  {
  }

  lemma {:induction false} RunTurn(c: Config, s: State, ts: seq<TurnTrace>, j: nat)
    requires Playable(c) && Run(c, s, ts) && j < |ts|
    ensures TurnStep(c, At(s, ts, j), ts[j])
  {
  }

  /** Records never lie in the future and never go back. */
  lemma {:induction false} RecordsAreHistory(c: Config, s: State, ts: seq<TurnTrace>, i: nat, j: nat, k: nat)
    requires Playable(c) && Opening(c, s) && Run(c, s, ts) && i <= j <= |ts| && k < |s.cores|
    ensures LastSpawn(s, ts, i, k) <= LastSpawn(s, ts, j, k) <= j
    decreases j
  {
    hide *;
    OpeningRecord(c, s, ts, k);
    if j == 0 {
    } else {
      RecordsAreHistory(c, s, ts, if i < j then i else j - 1, j - 1, k);
      CoreInRun(c, s, ts, j - 1, k);
    }
  }

  lemma {:induction false} OpeningRecord(c: Config, s: State, ts: seq<TurnTrace>, k: nat)
    requires Opening(c, s)
    ensures LastSpawn(s, ts, 0, k) == 0
  {
  }

  lemma {:induction false} IdleRecord(c: Config, s: State, ts: seq<TurnTrace>, i: nat, j: nat, k: nat)
    requires Playable(c) && Opening(c, s) && Run(c, s, ts) && i <= j <= |ts| && k < |s.cores|
    requires forall m :: i <= m < j ==> !Spawned(ts[m], k)
    ensures LastSpawn(s, ts, j, k) == LastSpawn(s, ts, i, k)
    decreases j
  {
    hide *;
    if i < j {
      IdleRecord(c, s, ts, i, j - 1, k);
      CoreInRun(c, s, ts, j - 1, k);
    }
  }

  lemma {:induction false} RecordsBeforeTurn(c: Config, s: State, ts: seq<TurnTrace>, j: nat)
    requires Playable(c) && Opening(c, s) && Run(c, s, ts) && j < |ts| && |s.cores| > 0
    ensures RecordedBy(ts[j].collected, ts[j].collected.turn - 1)
  {
    hide Opening, Run, LastSpawn;
    CoreInRun(c, s, ts, j, 0);
    forall k | 0 <= k < |ts[j].collected.cores|
      ensures ts[j].collected.cores[k].lastSpawnedTurn <= ts[j].collected.turn - 1
    {
      CoreInRun(c, s, ts, j, k);
      RecordsAreHistory(c, s, ts, j, j, k);
    }
  }

  /** While core k does not spawn, no core is preferred to it twice. */
  lemma {:induction false} NoSecondBypass(c: Config, s: State, ts: seq<TurnTrace>, a: nat, b: nat, k: nat, d: nat)
    requires Playable(c) && Opening(c, s) && Run(c, s, ts) && a < b < |ts| && k < |s.cores|
    requires forall m :: a <= m < b ==> !Spawned(ts[m], k)
    requires BypassedBy(ts[a], k, d)
    ensures !BypassedBy(ts[b], k, d)
  {
    hide *;
    SpawnedIsBypasser(c, s, ts, a, k, d);
    CoreInRun(c, s, ts, a, d);
    RecordsAreHistory(c, s, ts, a + 1, b, d);
    RecordsAreHistory(c, s, ts, a, a, k);
    IdleRecord(c, s, ts, a, b, k);
    FresherIsNotPreferred(c, s, ts, b, k, d);
  }

  lemma {:induction false} FresherIsNotPreferred(c: Config, s: State, ts: seq<TurnTrace>, b: nat, k: nat, d: nat)
    requires Playable(c) && Opening(c, s) && Run(c, s, ts) && b < |ts| && k < |s.cores| && d < |s.cores|
    requires LastSpawn(s, ts, b, d) > LastSpawn(s, ts, b, k)
    ensures !BypassedBy(ts[b], k, d)
  {
    hide *;
    if BypassedBy(ts[b], k, d) {
      CoreInRun(c, s, ts, b, d);
      CoreInRun(c, s, ts, b, k);
      RecordsBeforeTurn(c, s, ts, b);
      BypassMeansPriority(c, ts[b], k, d);
      BeforeIsByRecord(ts[b].collected.cores, ts[b].collected.cores, d, k);
    }
  }

  lemma {:induction false} SpawnedIsBypasser(c: Config, s: State, ts: seq<TurnTrace>, a: nat, k: nat, d: nat)
    requires Playable(c) && Opening(c, s) && Run(c, s, ts) && a < |ts| && k < |s.cores| && BypassedBy(ts[a], k, d)
    ensures Spawned(ts[a], d) && d < |s.cores| && d != k && s.cores[d].owner == s.cores[k].owner
  {
    OwnersStay(c, s, ts, a, k);
    if d < |s.cores| {
      OwnersStay(c, s, ts, a, d);
    }
    hide Opening, Run;
  }

  lemma {:induction false} OwnersStay(c: Config, s: State, ts: seq<TurnTrace>, j: nat, k: nat)
    requires Playable(c) && Opening(c, s) && Run(c, s, ts) && j < |ts| && k < |s.cores|
    ensures |ts[j].collected.cores| == |s.cores| && ts[j].collected.cores[k].owner == s.cores[k].owner
  {
    hide *;
    OpeningIsWellFormed(c, s);
    OwnersAt(c, s, ts, j, k);
    OwnersOneTurn(c, s, ts, j, k);
  }

  lemma {:induction false} OwnersAt(c: Config, s: State, ts: seq<TurnTrace>, j: nat, k: nat)
    requires Playable(c) && WellFormed(c, s) && Run(c, s, ts) && j <= |ts| && k < |s.cores|
    ensures k < |At(s, ts, j).cores| && At(s, ts, j).cores[k].owner == s.cores[k].owner
  {
    hide *;
    AtStart(s, ts);
    if j == 0 {
    } else {
      OwnersAt(c, s, ts, j - 1, k);
      OwnersOneTurn(c, s, ts, j - 1, k);
    }
  }

  lemma {:induction false} AtStart(s: State, ts: seq<TurnTrace>)
    ensures At(s, ts, 0) == s
  {
  }

  lemma {:induction false} OwnersOneTurn(c: Config, s: State, ts: seq<TurnTrace>, j: nat, k: nat)
    requires Playable(c) && WellFormed(c, s) && Run(c, s, ts) && j < |ts| && k < |At(s, ts, j).cores|
    ensures |ts[j].collected.cores| == |At(s, ts, j).cores| == |At(s, ts, j + 1).cores| == |s.cores|
    ensures ts[j].collected.cores[k].owner == At(s, ts, j).cores[k].owner == At(s, ts, j + 1).cores[k].owner
  {
    hide *;
    RunStaysWellFormed(c, s, ts, j);
    RunSizes(c, s, ts, j);
    RunTurn(c, s, ts, j);
    CoreTurn(c, At(s, ts, j), ts[j], k);
    AtNext(s, ts, j);
  }

  // ----- Bounded bypass -----------------------------------------------------------

  /** The turns of a window in which core k was passed over. */
  ghost function Bypasses(ts: seq<TurnTrace>, lo: nat, hi: nat, k: nat): nat
    requires lo <= hi <= |ts|
    decreases hi
  {
    if hi == lo then 0 else Bypasses(ts, lo, hi - 1, k) + (if Bypassed(ts[hi - 1], k) then 1 else 0)
  }

  ghost predicate PreferredIn(ts: seq<TurnTrace>, lo: nat, hi: nat, k: nat, d: nat)
    requires lo <= hi <= |ts|
  {
    exists j :: lo <= j < hi && BypassedBy(ts[j], k, d)
  }

  /** The cores preferred to core k in a window. */
  ghost function Preferred(ts: seq<TurnTrace>, lo: nat, hi: nat, k: nat, n: nat): set<int>
    requires lo <= hi <= |ts|
  {
    set d | 0 <= d < n && PreferredIn(ts, lo, hi, k, d)
  }

  /** The other cores of core k's owner. */
  ghost function Siblings(s: State, k: nat): set<int>
    requires k < |s.cores|
  {
    set d | 0 <= d < |s.cores| && d != k && s.cores[d].owner == s.cores[k].owner
  }

  lemma {:induction false} SetGrows(small: set<int>, d: int, big: set<int>)
    requires d !in small && small + {d} <= big
    ensures |small| + 1 <= |big|
  {
    assert |small + {d}| == |small| + 1;
    SubsetSize(small + {d}, big);
  }

  lemma {:induction false} BypassesByPreferred(c: Config, s: State, ts: seq<TurnTrace>, lo: nat, hi: nat, k: nat)
    requires Playable(c) && Opening(c, s) && Run(c, s, ts) && lo <= hi <= |ts| && k < |s.cores|
    requires forall m :: lo <= m < hi ==> !Spawned(ts[m], k)
    ensures Bypasses(ts, lo, hi, k) <= |Preferred(ts, lo, hi, k, |s.cores|)|
    decreases hi
  {
    hide Opening, Run, Spawned, BypassedBy;
    if lo < hi {
      BypassesByPreferred(c, s, ts, lo, hi - 1, k);
      var n := |s.cores|;
      var before, after := Preferred(ts, lo, hi - 1, k, n), Preferred(ts, lo, hi, k, n);
      assert before <= after;
      if Bypassed(ts[hi - 1], k) {
        var d: nat :| BypassedBy(ts[hi - 1], k, d);
        SpawnedIsBypasser(c, s, ts, hi - 1, k, d);
        forall j | lo <= j < hi - 1
          ensures !BypassedBy(ts[j], k, d)
        {
          if BypassedBy(ts[j], k, d) {
            NoSecondBypass(c, s, ts, j, hi - 1, k, d);
          }
        }
        SetGrows(before, d, after);
      } else {
        SubsetSize(before, after);
      }
    }
  }

  lemma {:induction false} PreferredAreSiblings(c: Config, s: State, ts: seq<TurnTrace>, lo: nat, hi: nat, k: nat)
    requires Playable(c) && Opening(c, s) && Run(c, s, ts) && lo <= hi <= |ts| && k < |s.cores|
    ensures Preferred(ts, lo, hi, k, |s.cores|) <= Siblings(s, k)
  {
    hide Opening, Run, BypassedBy;
    forall d | d in Preferred(ts, lo, hi, k, |s.cores|)
      ensures d in Siblings(s, k)
    {
      var j :| lo <= j < hi && BypassedBy(ts[j], k, d);
      SpawnedIsBypasser(c, s, ts, j, k, d);
    }
  }

  /** Bounded bypass: over any stretch of turns in which core k does not spawn, it is passed
      over at most once for each other core of its owner. */
  lemma {:induction false} BypassIsBounded(c: Config, s: State, ts: seq<TurnTrace>, lo: nat, hi: nat, k: nat)
    requires Playable(c) && Opening(c, s) && Run(c, s, ts) && lo <= hi <= |ts| && k < |s.cores|
    requires forall m :: lo <= m < hi ==> !Spawned(ts[m], k)
    ensures Bypasses(ts, lo, hi, k) <= |Siblings(s, k)|
  {
    hide Opening, Run, Spawned, Bypasses, Preferred, Siblings;
    BypassesByPreferred(c, s, ts, lo, hi, k);
    PreferredAreSiblings(c, s, ts, lo, hi, k);
    SubsetSize(Preferred(ts, lo, hi, k, |s.cores|), Siblings(s, k));
  }
}

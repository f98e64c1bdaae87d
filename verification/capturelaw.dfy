/** What the capture phase comes to, in tiles and owners alone: which cores fall and what that
    does to the scores, in whatever order the captures are walked. */
module CaptureOutcome {
  import opened Tally
  import opened GameTypes
  import opened Rules

  /** Living bot i stands on core k. */
  ghost predicate StandsOn(s: State, i: int, k: nat) {
    0 <= i < |s.bots| && k < |s.cores| && s.bots[i].alive && s.bots[i].pos == s.cores[k].pos
  }

  /** Core k is active, somebody stands on it and nobody of its owner does. */
  ghost predicate Falls(s: State, k: nat) {
    && k < |s.cores| && s.cores[k].active && (exists i :: StandsOn(s, i, k))
    && forall i :: StandsOn(s, i, k) ==> s.bots[i].owner != s.cores[k].owner
  }

  /** The first bot on core k is one of player p. */
  ghost predicate FirstIsOf(s: State, k: nat, p: nat) {
    exists i :: StandsOn(s, i, k) && s.bots[i].owner == p && forall j :: j < i ==> !StandsOn(s, j, k)
  }

  ghost function Captures(s: State, p: nat): set<nat> {
    set k: nat | k < |s.cores| && Falls(s, k) && FirstIsOf(s, k, p)
  }

  ghost function Losses(s: State, p: nat): set<nat> {
    set k: nat | k < |s.cores| && Falls(s, k) && s.cores[k].owner == p
  }

  lemma {:induction false} FirstOn(s: State, k: nat, i: int) returns (f: int)
    requires StandsOn(s, i, k)
    ensures StandsOn(s, f, k) && forall j :: j < f ==> !StandsOn(s, j, k)
    decreases i
  {
    if j :| j < i && StandsOn(s, j, k) {
      f := FirstOn(s, k, j);
    } else {
      f := i;
    }
  }

  lemma StandingIsOn(s: State, k: nat)
    requires k < |s.cores|
    ensures forall i :: StandsAt(s.bots, i, s.cores[k].pos) <==> StandsOn(s, i, k)
  {
  }

  lemma RazedMeansFalls(s: State, k: nat)
    ensures Razed(s, k) <==> Falls(s, k)
  {
    if k < |s.cores| {
      StandingIsOn(s, k);
      hide StandsAt, StandsOn;
      if Falls(s, k) {
        var i :| StandsOn(s, i, k);
        var f := FirstOn(s, k, i);
        assert RazedBy(s, k, f) by {
          RazedByFirst(s, k, f);
        }
      }
      if i :| RazedBy(s, k, i) {
        RazedByStands(s, k, i);
      }
    }
  }

  lemma RazedByFirst(s: State, k: nat, f: int)
    requires Falls(s, k) && StandsOn(s, f, k) && forall j :: j < f ==> !StandsOn(s, j, k)
    ensures RazedBy(s, k, f)
  {
    StandingIsOn(s, k);
    hide StandsAt, StandsOn;
  }

  lemma RazedByStands(s: State, k: nat, i: int)
    requires RazedBy(s, k, i)
    ensures i >= 0 && StandsOn(s, i, k) && (forall j :: j < i ==> !StandsOn(s, j, k))
    ensures Falls(s, k)
  {
    StandingIsOn(s, k);
    assert StandsOn(s, i, k);
    hide StandsAt, StandsOn;
  }

  /** A core falls exactly when it is held and nobody of its owner is there. */
  lemma CaptureFells(s: State, s': State, k: nat)
    requires CaptureStep(s, s') && k < |s.cores|
    ensures |s'.cores| == |s.cores| && s'.cores[k] == s.cores[k].(active := s.cores[k].active && !Falls(s, k))
  {
    RazedMeansFalls(s, k);
    hide Falls, CaptureNotices, Settled;
  }

  // ----- Scores -------------------------------------------------------------------

  ghost function CoresOf(notices: seq<Event>, at: set<nat>): set<nat>
    requires forall n :: n in at ==> n < |notices| && notices[n].CoreCaptured?
  {
    set n | n in at :: notices[n].core
  }

  lemma {:induction false} CoresCount(notices: seq<Event>, at: set<nat>)
    requires forall n :: n in at ==> n < |notices| && notices[n].CoreCaptured?
    requires forall m, n :: m in at && n in at && m != n ==> notices[m].core != notices[n].core
    ensures |CoresOf(notices, at)| == |at|
  {
    if at == {} {
      assert CoresOf(notices, at) == {};
    } else {
      var n :| n in at;
      CoresCount(notices, at - {n});
      assert CoresOf(notices, at) == CoresOf(notices, at - {n}) + {notices[n].core};
    }
  }

  /** A weight of the notices that depends on the core counts the cores with that weight. */
  lemma {:induction false} NoticesCountCores(s: State, notices: seq<Event>, w: Event -> int, cores: set<nat>)
    requires CaptureNotices(s, notices) && forall n :: 0 <= n < |notices| ==> notices[n].CoreCaptured?
    requires forall n :: 0 <= n < |notices| ==> w(notices[n]) == if notices[n].core in cores then 1 else 0
    requires forall k :: k in cores ==> Razed(s, k)
    ensures Sum(notices, w) == |cores|
  {
    hide Razed, RazedBy;
    SumIsCount(notices, w);
    var at := Marked(notices, w);
    CoresCount(notices, at);
    assert CoresOf(notices, at) == cores;
  }

  lemma NoticeIsFirst(s: State, notices: seq<Event>, n: nat)
    requires CaptureNotices(s, notices) && n < |notices|
    ensures var e := notices[n];
            && e.CoreCaptured? && Falls(s, e.core) && e.core < |s.cores| && s.cores[e.core].owner == e.oldOwner
            && forall p: nat :: FirstIsOf(s, e.core, p) <==> p == e.newOwner
  {
    var e := notices[n];
    var i :| RazedBy(s, e.core, i) && s.bots[i].owner == e.newOwner;
    RazedByStands(s, e.core, i);
    hide StandsOn, Falls, RazedBy;
    forall p: nat | FirstIsOf(s, e.core, p)
      ensures p == e.newOwner
    {
      var f :| StandsOn(s, f, e.core) && s.bots[f].owner == p && forall j :: j < f ==> !StandsOn(s, j, e.core);
      assert f == i;
    }
    assert FirstIsOf(s, e.core, e.newOwner);
  }

  /** Two points for each core whose first bot is the player's, one off for each core lost. */
  lemma CapturePays(s: State, s': State, p: nat)
    requires CaptureStep(s, s') && p < |s.players|
    ensures |s'.players| == |s.players|
    ensures s'.players[p] == s.players[p].(score := s.players[p].score + 2 * |Captures(s, p)| - |Losses(s, p)|)
  {
    hide CaptureNotices, Falls, FirstIsOf, RazedCores, Razed;
    var notices := s'.events[|s.events|..];
    forall n | 0 <= n < |notices|
      ensures CapturedBy(p)(notices[n]) == if notices[n].core in Captures(s, p) then 1 else 0
      ensures LostBy(p)(notices[n]) == if notices[n].core in Losses(s, p) then 1 else 0
    {
      NoticeIsFirst(s, notices, n);
    }
    forall k: nat
      ensures Razed(s, k) <==> Falls(s, k)
    {
      RazedMeansFalls(s, k);
    }
    NoticesCountCores(s, notices, CapturedBy(p), Captures(s, p));
    NoticesCountCores(s, notices, LostBy(p), Losses(s, p));
  }
}

/** The loops of the capture phase, step by step: facts engine.dfy uses. */
module CaptureLoop {
  import opened Torus
  import opened Tally
  import opened GameTypes
  import opened Rules

  lemma StandingStep(bots: seq<Bot>, pos: Position, n: nat)
    ensures Select(0, StandTest(bots, pos)) == []
    ensures Select(n + 1, StandTest(bots, pos))
            == Select(n, StandTest(bots, pos)) + (if StandsAt(bots, n, pos) then [n] else [])
  {
  }

  lemma StandingMembers(bots: seq<Bot>, pos: Position)
    ensures forall i :: i in Standing(bots, pos) <==> StandsAt(bots, i, pos)
    ensures var on := Standing(bots, pos);
            on != [] ==> StandsAt(bots, on[0], pos) && forall j :: 0 <= j < on[0] ==> !StandsAt(bots, j, pos)
  {
    SelectMembers(|bots|, StandTest(bots, pos));
    var on := Standing(bots, pos);
    if on != [] {
      assert on[0] in on;
      assert forall j :: 0 <= j < on[0] ==> j !in on;
    }
  }

  /** A core falls exactly when someone stands on it and none of them defends it. */
  lemma RazedWhenUndefended(s: State, k: nat)
    requires k < |s.cores| && s.cores[k].active
    ensures var on := Standing(s.bots, s.cores[k].pos);
            Razed(s, k) <==> on != [] && forall m :: 0 <= m < |on| ==> s.bots[on[m]].owner != s.cores[k].owner
    ensures var on := Standing(s.bots, s.cores[k].pos);
            Razed(s, k) ==> on != [] && RazedBy(s, k, on[0])
  {
    var on := Standing(s.bots, s.cores[k].pos);
    StandingMembers(s.bots, s.cores[k].pos);
    assert forall m :: 0 <= m < |on| ==> on[m] in on;
    if on != [] && forall m :: 0 <= m < |on| ==> s.bots[on[m]].owner != s.cores[k].owner {
      assert RazedBy(s, k, on[0]);
    }
    if Razed(s, k) {
      var i :| RazedBy(s, k, i);
      assert i in on;
    }
  }

  lemma RazedIsHeld(s: State, k: int)
    requires Razed(s, k)
    ensures 0 <= k < |s.cores| && s.cores[k].active && Standing(s.bots, s.cores[k].pos) != []
  {
    var i :| RazedBy(s, k, i);
    StandingMembers(s.bots, s.cores[k].pos);
    assert i in Standing(s.bots, s.cores[k].pos);
  }

  // ----- The walk over held cores, halfway ----------------------------------------

  ghost predicate NoticeFits(s: State, e: Event) {
    && e.CoreCaptured? && e.core < |s.cores| && e.oldOwner == s.cores[e.core].owner
    && exists i :: RazedBy(s, e.core, i) && s.bots[i].owner == e.newOwner
  }

  ghost predicate RazedSoFar(s: State, done: set<nat>, notices: seq<Event>,
                             cores: seq<Core>, players: seq<Player>, events: seq<Event>)
  {
    && |cores| == |s.cores|
    && (forall k :: 0 <= k < |cores| ==>
          cores[k] == if k in done && Razed(s, k) then s.cores[k].(active := false) else s.cores[k])
    && players == Settled(s.players, notices) && events == s.events + notices
    && (forall n :: 0 <= n < |notices| ==> NoticeFits(s, notices[n]) && notices[n].core in done)
    && (forall m, n :: 0 <= m < n < |notices| ==> notices[m].core != notices[n].core)
    && forall k :: k in done && Razed(s, k) ==> exists n :: 0 <= n < |notices| && notices[n].core == k
  }

  lemma RazingBegins(s: State)
    ensures RazedSoFar(s, {}, [], s.cores, s.players, s.events)
  {
  }

  lemma RazingFacts(s: State, done: set<nat>, notices: seq<Event>,
                    cores: seq<Core>, players: seq<Player>, events: seq<Event>, k: nat)
    requires RazedSoFar(s, done, notices, cores, players, events) && k < |s.cores| && k !in done
    ensures |cores| == |s.cores| && |players| == |s.players| && cores[k] == s.cores[k]
  {
  }

  lemma RazingSpares(s: State, done: set<nat>, notices: seq<Event>,
                     cores: seq<Core>, players: seq<Player>, events: seq<Event>, k: nat)
    requires RazedSoFar(s, done, notices, cores, players, events) && !Razed(s, k)
    ensures RazedSoFar(s, done + {k}, notices, cores, players, events)
  {
  }

  lemma RazingFells(s: State, done: set<nat>, notices: seq<Event>,
                    cores: seq<Core>, players: seq<Player>, events: seq<Event>, k: nat, i: nat)
    requires RazedSoFar(s, done, notices, cores, players, events)
    requires k < |s.cores| && k !in done && RazedBy(s, k, i)
    requires s.bots[i].owner < |s.players| && s.cores[k].owner < |s.players|
    ensures var q, o := s.bots[i].owner, s.cores[k].owner;
            var notice := CoreCaptured(k, o, q);
            q < |players| && o < |players| && k < |cores| &&
            var ps := players[q := players[q].(score := players[q].score + 2)];
            RazedSoFar(s, done + {k}, notices + [notice], cores[k := cores[k].(active := false)],
                       ps[o := ps[o].(score := ps[o].score - 1)], events + [notice])
  {
    var notice := CoreCaptured(k, s.cores[k].owner, s.bots[i].owner);
    var notices' := notices + [notice];
    assert NoticeFits(s, notice) && Razed(s, k);
    assert notices'[|notices|] == notice;
    assert forall n :: 0 <= n < |notices| ==> notices'[n] == notices[n];
    SettleOneMore(s.players, notices, notice);
    assert events + [notice] == s.events + notices';
    forall j | j in done + {k} && Razed(s, j)
      ensures exists n :: 0 <= n < |notices'| && notices'[n].core == j
    {
      if j in done {
        var n :| 0 <= n < |notices| && notices[n].core == j;
        assert notices'[n].core == j;
      } else {
        assert notices'[|notices|].core == j;
      }
    }
  }

  lemma SettleOneMore(players: seq<Player>, notices: seq<Event>, e: Event)
    requires e.CoreCaptured? && e.newOwner < |players| && e.oldOwner < |players|
    ensures var ps := Settled(players, notices);
            var qs := ps[e.newOwner := ps[e.newOwner].(score := ps[e.newOwner].score + 2)];
            Settled(players, notices + [e]) == qs[e.oldOwner := qs[e.oldOwner].(score := qs[e.oldOwner].score - 1)]
  {
    forall p
      ensures Sum(notices + [e], CapturedBy(p)) == Sum(notices, CapturedBy(p)) + (if p == e.newOwner then 1 else 0)
      ensures Sum(notices + [e], LostBy(p)) == Sum(notices, LostBy(p)) + (if p == e.oldOwner then 1 else 0)
    {
      SumAppend(notices, e, CapturedBy(p));
      SumAppend(notices, e, LostBy(p));
    }
  }

  lemma RazingEnds(s: State, done: set<nat>, notices: seq<Event>,
                   cores: seq<Core>, players: seq<Player>, events: seq<Event>)
    requires RazedSoFar(s, done, notices, cores, players, events)
    requires forall k :: Razed(s, k) ==> k in done
    ensures CaptureStep(s, s.(cores := cores, players := players, events := events))
  {
    assert cores == RazedCores(s);
    assert events[|s.events|..] == notices;
    assert forall n :: 0 <= n < |notices| ==> NoticeFits(s, notices[n]);
  }
}

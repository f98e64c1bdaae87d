/** The failure policy inside a match: with every player's protocol advancing one turn at a time
    beside the engine, the record of a run shows each retirement once, on the turn it happened. */
module Retirement {
  import opened Tally
  import opened GameTypes
  import opened Rules
  import opened WellFormedSteps
  import opened CollectLoop
  import opened Ledgers
  import opened Harvesting
  import opened Runs
  import FailurePolicy

  type Protocol = FailurePolicy.Protocol

  /** One turn of a player's protocol: an active player is queried once, a retired one never;
      late calls may start, finish and be ignored in between. */
  ghost predicate Advances(before: Protocol, after: Protocol) {
    && before.phase == FailurePolicy.Idle && after.phase == FailurePolicy.Idle
    && after.issued == before.issued + (if before.runner.inactive then 0 else 1)
    && exists es :: FailurePolicy.Interleaving(before, es) && FailurePolicy.After(before, es) == after
  }

  /** The players whose retirement a turn announces are those whose runner side retired in it. */
  ghost predicate Announces(inactive: seq<nat>, before: seq<Protocol>, after: seq<Protocol>)
    requires |before| == |after|
  {
    && Distinct(inactive)
    && forall p: nat :: p in inactive <==> p < |before| && !before[p].runner.inactive && after[p].runner.inactive
  }

  /** One turn of the whole match: every protocol advances, and the runner announces who retired. */
  ghost predicate TurnGoverned(t: TurnTrace, before: seq<Protocol>, after: seq<Protocol>) {
    && |before| == |after| && (forall p :: 0 <= p < |before| ==> Advances(before[p], after[p]))
    && Announces(t.inactive, before, after)
  }

  /** protocols[k] is every player's protocol after k turns of the run. */
  ghost predicate Governed(n: nat, ts: seq<TurnTrace>, protocols: seq<seq<Protocol>>) {
    && |protocols| == |ts| + 1 && (forall k :: 0 <= k <= |ts| ==> |protocols[k]| == n)
    && (forall p :: 0 <= p < n ==> protocols[0][p] == FailurePolicy.Fresh())
    && forall k :: 0 <= k < |ts| ==> TurnGoverned(ts[k], protocols[k], protocols[k + 1])
  }

  /** Between turns: the policy's invariant, and one query per turn while active. */
  ghost predicate OnTrack(p: Protocol, k: nat) {
    FailurePolicy.Inv(p) && p.phase == FailurePolicy.Idle && (!p.runner.inactive ==> p.issued == k)
  }

  lemma {:induction false} FreshIsOnTrack()
    ensures OnTrack(FailurePolicy.Fresh(), 0)
  {
    FailurePolicy.FreshIsOk();
  }

  /** A turn keeps a player on track; retirement is for good, and its one notice bears the turn. */
  lemma {:induction false} TurnOnTrack(before: Protocol, after: Protocol, k: nat)
    requires OnTrack(before, k) && Advances(before, after)
    ensures OnTrack(after, k + 1)
    ensures before.runner.inactive ==> after.runner == before.runner
    ensures !before.runner.inactive && after.runner.inactive ==> after.issued == k + 1
  {
    var es :| FailurePolicy.Interleaving(before, es) && FailurePolicy.After(before, es) == after;
    hide FailurePolicy.Inv, FailurePolicy.Interleaving, FailurePolicy.After;
    FailurePolicy.InterleavingKeeps(before, es);
    if before.runner.inactive {
      FailurePolicy.RetiredForGood(before, es);
    }
  }

  lemma {:induction false} AlwaysOnTrack(n: nat, ts: seq<TurnTrace>, protocols: seq<seq<Protocol>>, k: nat, p: nat)
    requires Governed(n, ts, protocols) && k <= |ts| && p < n
    ensures OnTrack(protocols[k][p], k)
  {
    hide OnTrack, Advances;
    if k == 0 {
      FreshIsOnTrack();
    } else {
      AlwaysOnTrack(n, ts, protocols, k - 1, p);
      assert TurnGoverned(ts[k - 1], protocols[k - 1], protocols[k]);
      TurnOnTrack(protocols[k - 1][p], protocols[k][p], k - 1);
    }
  }

  ghost function InactiveOf(p: int): Event -> int {
    (e: Event) => if e.BotInactive? && e.player == p then 1 else 0
  }

  lemma {:induction false} NoticesCount(inactive: seq<nat>, p: nat)
    requires Distinct(inactive)
    ensures Sum(InactiveNotices(inactive), InactiveOf(p)) == if p in inactive then 1 else 0
  {
    if inactive == [] {
    } else {
      var init := inactive[..|inactive| - 1];
      NoticesCount(init, p);
      assert InactiveNotices(inactive)[..|inactive| - 1] == InactiveNotices(init);
      assert inactive == init + [inactive[|inactive| - 1]];
    }
  }

  /** A turn records a player's retirement as often as the runner announced it. */
  lemma {:induction false} TurnRetires(c: Config, s: State, t: TurnTrace, p: nat)
    requires Playable(c) && WellFormed(c, s) && TurnStep(c, s, t) && Distinct(t.inactive)
    ensures Sum(t.ended.events, InactiveOf(p)) == if p in t.inactive then 1 else 0
  {
    BoardIsReal(c, s);
    assert IgnoresBattle(InactiveOf(p));
    CollectionsRetireNobody(c, t, p);
    hide *;
    TurnRecords(c, s, t, InactiveOf(p));
    NoticesCount(t.inactive, p);
  }

  lemma {:induction false} CollectionsRetireNobody(c: Config, t: TurnTrace, p: nat)
    requires c.rows > 0 && c.cols > 0
    ensures Sum(TurnCollections(c, t), InactiveOf(p)) == 0
  {
    CollectNoticesAre(c, t.captured.bots, t.captured.nodes, |t.captured.nodes|);
    hide CollectNotices;
    Idle(TurnCollections(c, t), InactiveOf(p));
  }

  lemma {:induction false} AnnouncedOnTurn(n: nat, ts: seq<TurnTrace>, protocols: seq<seq<Protocol>>, k: nat, p: nat)
    requires Governed(n, ts, protocols) && k < |ts| && p < n
    ensures Distinct(ts[k].inactive)
    ensures p in ts[k].inactive <==> !protocols[k][p].runner.inactive && protocols[k + 1][p].runner.inactive
    ensures protocols[k][p].runner.inactive ==> protocols[k + 1][p].runner.inactive
    ensures p in ts[k].inactive ==> protocols[k + 1][p].issued == k + 1
  {
    hide OnTrack, Advances;
    assert TurnGoverned(ts[k], protocols[k], protocols[k + 1]);
    AlwaysOnTrack(n, ts, protocols, k, p);
    TurnOnTrack(protocols[k][p], protocols[k + 1][p], k);
  }

  /** In the record of a run every player has at most one notice of inactivity: one as soon as
      the policy has retired it, none before. */
  lemma {:induction false} OneNoticePerPlayer(c: Config, s: State, ts: seq<TurnTrace>,
                                              protocols: seq<seq<Protocol>>, k: nat, p: nat)
    requires Playable(c) && WellFormed(c, s) && Run(c, s, ts) && Governed(|s.players|, ts, protocols)
    requires k <= |ts| && p < |s.players|
    ensures Sum(Log(ts, k), InactiveOf(p)) == if protocols[k][p].runner.inactive then 1 else 0
  {
    hide WellFormed, Run, Governed, TurnStep, InactiveOf;
    GovernedSizes(|s.players|, ts, protocols, k);
    if k == 0 {
      NothingAtFirst(|s.players|, ts, protocols, p);
    } else {
      OneNoticePerPlayer(c, s, ts, protocols, k - 1, p);
      AnnouncedOnTurn(|s.players|, ts, protocols, k - 1, p);
      EndgameOf(c, s, ts, k - 1);
      TurnRetires(c, At(s, ts, k - 1), ts[k - 1], p);
      AtNext(s, ts, k - 1);
      SumConcat(Log(ts, k - 1), ts[k - 1].ended.events, InactiveOf(p));
    }
  }

  lemma GovernedSizes(n: nat, ts: seq<TurnTrace>, protocols: seq<seq<Protocol>>, k: nat)
    requires Governed(n, ts, protocols) && k <= |ts|
    ensures |protocols| == |ts| + 1 && |protocols[k]| == n && (k > 0 ==> |protocols[k - 1]| == n)
  {
  }

  lemma {:induction false} NothingAtFirst(n: nat, ts: seq<TurnTrace>, protocols: seq<seq<Protocol>>, p: nat)
    requires Governed(n, ts, protocols) && p < n
    ensures !protocols[0][p].runner.inactive && Sum(Log(ts, 0), InactiveOf(p)) == 0
  {
  }

  /** The turn that records the notice is the turn that completed the player's first ten failures
      in a row, every turn until then having queried it. */
  lemma {:induction false} NoticeMarksTenthFailure(c: Config, s: State, ts: seq<TurnTrace>,
                                                   protocols: seq<seq<Protocol>>, k: nat, p: nat)
    requires Playable(c) && WellFormed(c, s) && Run(c, s, ts) && Governed(|s.players|, ts, protocols)
    requires k < |ts| && p < |s.players| && BotInactive(p) in ts[k].ended.events
    ensures var q := protocols[k + 1][p];
            && q.runner.notices == [k + 1] && |q.outcomes| == k + 1
            && FailurePolicy.Streak(q.outcomes) == 10 && FailurePolicy.NeverBefore(q.outcomes)
  {
    RecordedOnce(ts[k].ended.events, p);
    GovernedSizes(|s.players|, ts, protocols, k + 1);
    AlwaysOnTrack(|s.players|, ts, protocols, k + 1, p);
    RetiredState(protocols[k + 1][p]);
    hide *;
    AnnouncedOnTurn(|s.players|, ts, protocols, k, p);
    EndgameOf(c, s, ts, k);
    TurnRetires(c, At(s, ts, k), ts[k], p);
  }

  lemma {:induction false} RecordedOnce(events: seq<Event>, p: nat)
    requires BotInactive(p) in events
    ensures Sum(events, InactiveOf(p)) > 0
  {
    var i :| 0 <= i < |events| && events[i] == BotInactive(p);
    SumCovers(events, InactiveOf(p), i);
  }

  lemma {:induction false} RetiredState(q: Protocol)
    requires FailurePolicy.Inv(q) && q.phase == FailurePolicy.Idle
    ensures q.runner.inactive ==>
              && q.runner.notices == [q.issued] && |q.outcomes| == q.issued
              && FailurePolicy.Streak(q.outcomes) == 10 && FailurePolicy.NeverBefore(q.outcomes)
  {
    hide FailurePolicy.Streak, FailurePolicy.NeverBefore;
  }
}

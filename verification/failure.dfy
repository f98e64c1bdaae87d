/** The failure policy shared by the match runner and its HTTP bots, as an interleaving of
    call starts, replies, timeouts and turn processing for one player. */
module FailurePolicy {

  /** Consecutive failed turns after which a bot is no longer queried. */
  const LIMIT := 10

  // ----- The two counters ---------------------------------------------------------

  /** The mutex-guarded fields of an HTTP bot. */
  datatype BotSide = BotSide(generation: nat, failCount: nat, crashed: bool)

  /** GetMoves opens a call: a crashed bot is left alone, any other starts a new generation. */
  function Begun(b: BotSide): BotSide {
    if b.crashed then b else b.(generation := b.generation + 1)
  }

  /** recordFailure and recordSuccess: stale generations and crashed bots are left alone. */
  function Recorded(b: BotSide, generation: nat, ok: bool): BotSide {
    if generation != b.generation || b.crashed then b
    else if ok then b.(failCount := 0)
    else b.(failCount := b.failCount + 1, crashed := b.failCount + 1 >= LIMIT)
  }

  /** What the runner keeps about a player; notices lists the turns of its bot_inactive events. */
  datatype RunnerSide = RunnerSide(streak: nat, inactive: bool, notices: seq<nat>)

  /** What came back for one turn. */
  datatype Outcome = TimedOut | Failed | Moved

  function Retired(r: RunnerSide, turn: nat): RunnerSide {
    if r.inactive then r
    else RunnerSide(if r.streak < LIMIT then LIMIT else r.streak, true, r.notices + [turn])
  }

  /** The runner digests an outcome; retiring a player also marks its bot. */
  function Digested(r: RunnerSide, b: BotSide, o: Outcome, turn: nat): (RunnerSide, BotSide) {
    if o != Moved then
      var r1 := r.(streak := r.streak + 1);
      if r1.streak < LIMIT then (r1, b) else (Retired(r1, turn), if r1.inactive then b else b.(crashed := true))
    else if b.crashed then (Retired(r, turn), if r.inactive then b else b.(crashed := true))
    else (r.(streak := 0), b)
  }

  // ----- The protocol of one player -----------------------------------------------

  datatype Phase = Idle | Asking | Received(outcome: Outcome)

  /** issued turns have queried the bot, the first started of those calls have begun; pending
      maps calls in flight to their generation, replied maps finished calls to success or
      failure; outcomes is the history of digested turns. */
  datatype Protocol = Protocol(
    bot: BotSide, runner: RunnerSide, phase: Phase, issued: nat, started: nat,
    pending: map<nat, nat>, replied: map<nat, bool>, outcomes: seq<Outcome>)

  function Fresh(): Protocol {
    Protocol(BotSide(0, 0, false), RunnerSide(0, false, []), Idle, 0, 0, map[], map[], [])
  }

  datatype Step =
    | Issue                        // the runner opens a turn for the player
    | Start                        // the next issued call enters GetMoves
    | Finish(call: nat, ok: bool)  // a call in flight records its result and replies
    | Deliver                      // the runner receives this turn's reply in time
    | Expire                       // the runner's timer fires first
    | Digest                       // the runner processes the outcome

  predicate Enabled(p: Protocol, e: Step) {
    match e
    case Issue => p.phase == Idle && !p.runner.inactive
    case Start => p.started < p.issued
    case Finish(k, ok) => k in p.pending
    case Deliver => p.phase == Asking && p.issued in p.replied
    case Expire => p.phase == Asking
    case Digest => p.phase.Received?
  }

  function Next(p: Protocol, e: Step): Protocol
    requires Enabled(p, e)
  {
    match e
    case Issue => p.(issued := p.issued + 1, phase := Asking)
    case Start =>
      var k := p.started + 1;
      if p.bot.crashed then p.(started := k, replied := p.replied[k := true])  // an empty answer, unrecorded
      else
        var b := Begun(p.bot);
        p.(started := k, bot := b, pending := p.pending[k := b.generation])
    case Finish(k, ok) =>
      p.(bot := Recorded(p.bot, p.pending[k], ok), pending := p.pending - {k}, replied := p.replied[k := ok])
    case Deliver => p.(phase := Received(if p.replied[p.issued] then Moved else Failed))
    case Expire => p.(phase := Received(TimedOut))
    case Digest =>
      var (r, b) := Digested(p.runner, p.bot, p.phase.outcome, p.issued);
      p.(runner := r, bot := b, phase := Idle, outcomes := p.outcomes + [p.phase.outcome])
  }

  /** An interleaving: every step is enabled where it happens. */
  predicate Interleaving(p: Protocol, es: seq<Step>)
    decreases |es|
  {
    es == [] || (Enabled(p, es[0]) && Interleaving(Next(p, es[0]), es[1..]))
  }

  function After(p: Protocol, es: seq<Step>): Protocol
    requires Interleaving(p, es)
    decreases |es|
  {
    if es == [] then p else After(Next(p, es[0]), es[1..])
  }

  // ----- The policy as a function of the outcomes ---------------------------------

  /** How many of the first n outcomes failed in a row at the end. */
  function Trailing(outcomes: seq<Outcome>, n: nat): nat
    requires n <= |outcomes|
  {
    if n == 0 || outcomes[n - 1] == Moved then 0 else Trailing(outcomes, n - 1) + 1
  }

  function Streak(outcomes: seq<Outcome>): nat {
    Trailing(outcomes, |outcomes|)
  }

  /** No earlier turn completed a run of ten failures. */
  ghost predicate NeverBefore(outcomes: seq<Outcome>) {
    forall k :: 0 <= k < |outcomes| ==> Trailing(outcomes, k) < 10
  }

  // ----- What every interleaving keeps --------------------------------------------

  function Open(p: Protocol): nat {
    if p.phase == Idle then 0 else 1
  }

  /** Failures the bot has counted or may still count. */
  function Exposure(p: Protocol): int {
    p.bot.failCount + (if p.started in p.pending then 1 else 0) + p.issued - p.started
  }

  /** The bookkeeping of calls. */
  ghost predicate CallsOk(p: Protocol) {
    && p.started <= p.issued && (p.phase != Idle ==> p.issued > 0)
    && (forall k :: k in p.pending ==> 1 <= k <= p.started && p.pending[k] == k && k !in p.replied)
    && (forall k :: k in p.replied ==> 1 <= k <= p.started)
    && p.bot.generation <= p.started && (!p.bot.crashed ==> p.bot.generation == p.started)
    && |p.outcomes| + Open(p) == p.issued
  }

  /** This turn's call has succeeded, so far as the bot knows. */
  predicate Cleared(p: Protocol) {
    p.bot.failCount == 0 && !p.bot.crashed && p.started == p.issued && p.started !in p.pending
  }

  ghost predicate CountersOk(p: Protocol) {
    && p.bot.failCount <= LIMIT
    && p.runner.streak == Streak(p.outcomes) && NeverBefore(p.outcomes)
    && (!p.runner.inactive ==>
          && p.runner.streak < LIMIT && p.runner.notices == []
          && (!p.bot.crashed ==> Exposure(p) <= p.runner.streak + Open(p)))
    && (p.runner.inactive ==>
          p.phase == Idle && p.bot.crashed && p.runner.streak == LIMIT && p.runner.notices == [p.issued])
  }

  /** The transport guard can fire only inside the turn that completes the run of failures. */
  ghost predicate GuardOk(p: Protocol) {
    p.bot.crashed && !p.runner.inactive ==>
      && p.phase != Idle && p.phase != Received(Moved) && p.started == p.issued && p.runner.streak == LIMIT - 1
      && p.issued in p.replied && !p.replied[p.issued]
  }

  ghost predicate SuccessOk(p: Protocol) {
    && (p.phase == Asking && p.issued in p.replied && p.replied[p.issued] ==> Cleared(p))
    && (p.phase == Received(Moved) ==> Cleared(p))
  }

  ghost predicate Inv(p: Protocol) {
    CallsOk(p) && CountersOk(p) && GuardOk(p) && SuccessOk(p)
  }

  lemma FreshIsOk()
    ensures Inv(Fresh())
  {
  }

  lemma {:induction false} TrailingBefore(outcomes: seq<Outcome>, o: Outcome, n: nat)
    requires n <= |outcomes|
    ensures Trailing(outcomes + [o], n) == Trailing(outcomes, n)
  {
    if n == 0 {
    } else {
      TrailingBefore(outcomes, o, n - 1);
    }
  }

  lemma {:induction false} StreakAppend(outcomes: seq<Outcome>, o: Outcome)
    ensures Streak(outcomes + [o]) == if o == Moved then 0 else Streak(outcomes) + 1
  {
    TrailingBefore(outcomes, o, |outcomes|);
  }

  lemma {:induction false} NeverBeforeAppend(outcomes: seq<Outcome>, o: Outcome)
    requires NeverBefore(outcomes) && Streak(outcomes) < 10
    ensures NeverBefore(outcomes + [o])
  {
    forall k | 0 <= k < |outcomes + [o]|
      ensures Trailing(outcomes + [o], k) < 10
    {
      TrailingBefore(outcomes, o, k);
    }
  }

  lemma {:induction false} DigestKeeps(p: Protocol)
    requires Inv(p) && p.phase.Received?
    ensures Inv(Next(p, Digest))
  {
    StreakAppend(p.outcomes, p.phase.outcome);
    NeverBeforeAppend(p.outcomes, p.phase.outcome);
    hide Streak, NeverBefore;
  }

  lemma {:induction false} FinishKeeps(p: Protocol, k: nat, ok: bool)
    requires Inv(p) && k in p.pending
    ensures Inv(Next(p, Finish(k, ok)))
  {
    hide Streak, NeverBefore;
  }

  lemma {:induction false} StartKeeps(p: Protocol)
    requires Inv(p) && p.started < p.issued
    ensures Inv(Next(p, Start))
  {
    hide Streak, NeverBefore;
  }

  lemma {:induction false} StepKeeps(p: Protocol, e: Step)
    requires Inv(p) && Enabled(p, e)
    ensures Inv(Next(p, e))
  {
    match e
    case Digest => DigestKeeps(p);
    case Finish(k, ok) => FinishKeeps(p, k, ok);
    case Start => StartKeeps(p);
    case Issue => hide Streak, NeverBefore;
    case Deliver => hide Streak, NeverBefore;
    case Expire => hide Streak, NeverBefore;
  }

  lemma {:induction false} InterleavingKeeps(p: Protocol, es: seq<Step>)
    requires Inv(p) && Interleaving(p, es)
    ensures Inv(After(p, es))
    decreases |es|
  {
    hide Inv, Next, Enabled;
    if es == [] {
    } else {
      StepKeeps(p, es[0]);
      InterleavingKeeps(Next(p, es[0]), es[1..]);
    }
  }

  /** Between turns of any interleaving: the bot's own count never exceeds the runner's streak,
      which is the run of failed outcomes; the bot is crashed exactly when the runner has
      retired it, which is exactly when the last outcome completed the first run of ten
      failures; and that turn carries its one notice. */
  lemma {:induction false} PolicyHolds(es: seq<Step>)
    requires Interleaving(Fresh(), es) && After(Fresh(), es).phase == Idle
    ensures var p := After(Fresh(), es);
            && p.bot.failCount <= p.runner.streak == Streak(p.outcomes)
            && (p.bot.crashed <==> p.runner.inactive)
            && (p.runner.inactive <==> Streak(p.outcomes) == 10) && NeverBefore(p.outcomes)
            && p.runner.notices == (if p.runner.inactive then [|p.outcomes|] else [])
            && p.issued == |p.outcomes|
  {
    FreshIsOk();
    InterleavingKeeps(Fresh(), es);
    hide After, Interleaving, Fresh, Streak, NeverBefore;
  }

  /** A retired player is never queried again, however its late calls go on. */
  lemma {:induction false} RetiredForGood(p: Protocol, es: seq<Step>)
    requires Inv(p) && p.runner.inactive && Interleaving(p, es)
    ensures After(p, es).runner == p.runner && After(p, es).issued == p.issued
    decreases |es|
  {
    if es == [] {
    } else {
      StepKeeps(p, es[0]);
      hide Streak, NeverBefore;
      RetiredForGood(Next(p, es[0]), es[1..]);
    }
  }

  /** In the turn that is open, the transport guard has fired only if this turn's call failed
      and completes the run: the runner's verdict can only be retirement. */
  lemma {:induction false} GuardMeansRetirement(es: seq<Step>)
    requires Interleaving(Fresh(), es)
    requires var p := After(Fresh(), es); p.phase.Received? && p.bot.crashed
    ensures var p := After(Fresh(), es);
            p.phase.outcome != Moved && Next(p, Digest).runner.inactive && Streak(p.outcomes) == 9
  {
    FreshIsOk();
    InterleavingKeeps(Fresh(), es);
    hide After, Interleaving, Fresh, Streak, NeverBefore;
  }

  // ----- When no call is late -----------------------------------------------------

  /** Between turns, with no call in flight and the two counters equal. */
  ghost predicate Prompt(p: Protocol) {
    && Inv(p) && p.phase == Idle && !p.runner.inactive && p.pending == map[] && p.started == p.issued
    && p.bot.failCount == p.runner.streak
  }

  /** A turn whose call is answered, well or badly, before the runner stops waiting. */
  function PromptTurn(call: nat, ok: bool): seq<Step> {
    [Issue, Start, Finish(call, ok), Deliver, Digest]
  }

  lemma {:induction false} FirstStep(p: Protocol, es: seq<Step>)
    requires es != [] && Enabled(p, es[0])
    ensures Interleaving(p, es) <==> Interleaving(Next(p, es[0]), es[1..])
    ensures Interleaving(p, es) ==> After(p, es) == After(Next(p, es[0]), es[1..])
  {
  }

  /** Then the two counters go up and down together: the transport crashes on the tenth failure
      in a row, before the runner hears of it, and the runner retires the player in that turn. */
  lemma {:induction false} CountersAgreeWhenPrompt(p: Protocol, ok: bool) returns (answered: Protocol, q: Protocol)
    requires Prompt(p)
    ensures var call := p.issued + 1;
            && Interleaving(p, PromptTurn(call, ok)) && q == After(p, PromptTurn(call, ok))
            && Interleaving(p, PromptTurn(call, ok)[..3]) && answered == After(p, PromptTurn(call, ok)[..3])
    ensures answered.bot.crashed <==> !ok && p.bot.failCount == 9
    ensures q.bot.failCount == q.runner.streak == if ok then 0 else p.runner.streak + 1
    ensures q.bot.crashed == q.runner.inactive && (q.runner.inactive <==> q.runner.streak == 10)
    ensures !q.runner.inactive ==> Prompt(q)
  {
    var call := p.issued + 1;
    var es := PromptTurn(call, ok);
    var p1 := Next(p, Issue);
    var p2 := Next(p1, Start);
    answered := Next(p2, Finish(call, ok));
    var p4 := Next(answered, Deliver);
    q := Next(p4, Digest);
    StepKeeps(p, Issue);
    StepKeeps(p1, Start);
    StepKeeps(p2, Finish(call, ok));
    StepKeeps(answered, Deliver);
    StepKeeps(p4, Digest);
    hide Streak, NeverBefore;
    UnfoldSteps(p, es, p1, p2, answered, p4, q);
    hide Interleaving, After;
  }

  lemma {:induction false} UnfoldSteps(p: Protocol, es: seq<Step>, p1: Protocol, p2: Protocol, p3: Protocol,
                                       p4: Protocol, p5: Protocol)
    requires |es| == 5 && Enabled(p, es[0]) && p1 == Next(p, es[0]) && Enabled(p1, es[1]) && p2 == Next(p1, es[1])
    requires Enabled(p2, es[2]) && p3 == Next(p2, es[2]) && Enabled(p3, es[3]) && p4 == Next(p3, es[3])
    requires Enabled(p4, es[4]) && p5 == Next(p4, es[4])
    ensures Interleaving(p, es) && After(p, es) == p5 && Interleaving(p, es[..3]) && After(p, es[..3]) == p3
  {
    hide Enabled, Next;
    assert es[4..][1..] == [] && es[3..][1..] == es[4..] && es[2..][1..] == es[3..] && es[1..][1..] == es[2..];
    FirstStep(p4, es[4..]);
    FirstStep(p3, es[3..]);
    FirstStep(p2, es[2..]);
    FirstStep(p1, es[1..]);
    FirstStep(p, es);
    var front := es[..3];
    assert front[2..][1..] == [] && front[1..][1..] == front[2..];
    FirstStep(p2, front[2..]);
    FirstStep(p1, front[1..]);
    FirstStep(p, front);
  }
}

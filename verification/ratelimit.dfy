/** Token-bucket rate limiting by key, with periodic eviction of idle buckets. Times are seconds;
    each call is one atomic step. */
module RateLimit {

  // ----- What the calls do --------------------------------------------------------

  datatype Limits = Limits(max: real, refill: real)

  /** A bucket's changing part: the tokens it held when it was last used. */
  datatype Fill = Fill(tokens: real, last: real)

  /** What is refilled in d seconds. */
  function Gain(l: Limits, d: real): real {
    d * l.refill
  }

  /** The tokens in the bucket now, refilled since its last use and capped. */
  function Topped(l: Limits, b: Fill, now: real): real {
    var t := b.tokens + Gain(l, now - b.last);
    if t > l.max then l.max else t
  }

  predicate Grants(l: Limits, b: Fill, n: int, now: real) {
    Topped(l, b, now) >= n as real
  }

  function Used(l: Limits, b: Fill, n: int, now: real): Fill {
    Fill(if Grants(l, b, n, now) then Topped(l, b, now) - n as real else Topped(l, b, now), now)
  }

  /** The key's bucket, a full new one if it has none. */
  function BucketOf(l: Limits, m: map<string, Fill>, key: string, now: real): Fill {
    if key in m then m[key] else Fill(l.max, now)
  }

  function Swept(m: map<string, Fill>, cutoff: real): map<string, Fill> {
    map k | k in m && !(m[k].last < cutoff) :: m[k]
  }

  datatype Op =
    | Ask(key: string, n: int, now: real)   // AllowN
    | Sweep(maxAge: real, now: real)        // Cleanup

  /** One call; a limiter that is never cleaned ignores sweeps. */
  function Next(l: Limits, m: map<string, Fill>, op: Op, cleaning: bool): map<string, Fill> {
    match op
    case Ask(k, n, now) => m[k := Used(l, BucketOf(l, m, k, now), n, now)]
    case Sweep(maxAge, now) => if cleaning then Swept(m, now - maxAge) else m
  }

  predicate Answer(l: Limits, m: map<string, Fill>, op: Op) {
    op.Ask? ==> Grants(l, BucketOf(l, m, op.key, op.now), op.n, op.now)
  }

  /** The answers to a sequence of calls. */
  function Answers(l: Limits, m: map<string, Fill>, ops: seq<Op>, cleaning: bool): (r: seq<bool>)
    ensures |r| == |ops|
    decreases |ops|
  {
    if ops == [] then []
    else [Answer(l, m, ops[0])] + Answers(l, Next(l, m, ops[0], cleaning), ops[1..], cleaning)
  }

  /** A request is granted when the bucket is large enough and the tokens held and refilled
      cover it; the arithmetic in full. */
  lemma GrantsMeans(max: real, refill: real, tokens: real, last: real, n: int, now: real)
    ensures var l, b := Limits(max, refill), Fill(tokens, last);
            var t := tokens + (now - last) * refill;
            var held := if t > max then max else t;
            && (Grants(l, b, n, now) <==> n as real <= max && n as real <= t)
            && Used(l, b, n, now) == Fill(if held < n as real then held else held - n as real, now)
  {
  }

  // ----- The objects --------------------------------------------------------------

  class Bucket {
    var tokens: real
    const max: real
    const refill: real
    var lastTime: real

    function Contents(): Fill
      reads this
    {
      Fill(tokens, lastTime)
    }

    constructor (max: real, refill: real, now: real)
      ensures this.max == max && this.refill == refill && Contents() == Fill(max, now)
    {
      this.tokens, this.max, this.refill, this.lastTime := max, max, refill, now;
    }

    method AllowN(n: int, now: real) returns (ok: bool)
      modifies this
      ensures Contents() == Used(Limits(max, refill), old(Contents()), n, now)
      ensures ok == Grants(Limits(max, refill), old(Contents()), n, now)
      ensures ok <==> n as real <= max && n as real <= old(tokens) + (now - old(lastTime)) * refill
    {
      GrantsMeans(max, refill, tokens, lastTime, n, now);
      hide Grants, Used, Topped, Gain;
      var elapsed := now - lastTime;
      lastTime := now;
      tokens := tokens + elapsed * refill;
      if tokens > max {
        tokens := max;
      }
      if tokens < n as real {
        return false;
      }
      tokens := tokens - n as real;
      return true;
    }
  }

  class Limiter {
    var buckets: map<string, Bucket>
    const max: real
    const refill: real

    ghost predicate Valid()
      reads this
    {
      && (forall k :: k in buckets ==> buckets[k].max == max && buckets[k].refill == refill)
      && forall j, k :: j in buckets && k in buckets && j != k ==> buckets[j] != buckets[k]
    }

    function L(): Limits {
      Limits(max, refill)
    }

    ghost function Contents(): map<string, Fill>
      reads this, buckets.Values
    {
      map k | k in buckets :: buckets[k].Contents()
    }

    constructor (max: real, refill: real)
      ensures Valid() && Contents() == map[] && L() == Limits(max, refill)
    {
      buckets, this.max, this.refill := map[], max, refill;
    }

    method AllowN(key: string, n: int, now: real) returns (ok: bool)
      requires Valid()
      modifies this, buckets.Values
      ensures Valid() && fresh(buckets.Values - old(buckets.Values))
      ensures Contents() == Next(L(), old(Contents()), Ask(key, n, now), true)
      ensures ok == Answer(L(), old(Contents()), Ask(key, n, now))
    {
      hide Used, Grants;
      var b: Bucket;
      if key in buckets {
        b := buckets[key];
      } else {
        b := new Bucket(max, refill, now);
        buckets := buckets[key := b];
      }
      assert b.Contents() == BucketOf(L(), old(Contents()), key, now);
      ok := b.AllowN(n, now);
    }

    /** Go walks the map in any order; what is deleted does not depend on it. */
    method Cleanup(maxAge: real, now: real)
      requires Valid()
      modifies this
      ensures Valid() && buckets.Values <= old(buckets.Values)
      ensures Contents() == Next(L(), old(Contents()), Sweep(maxAge, now), true)
      ensures forall k :: k in Contents() <==> k in old(Contents()) && now - old(Contents())[k].last <= maxAge
    {
      var cutoff := now - maxAge;
      var left := buckets.Keys;
      while left != {}
        invariant left <= old(buckets).Keys
        invariant forall k :: k in buckets <==> k in old(buckets) && (k in left || !(old(buckets)[k].lastTime < cutoff))
        invariant forall k :: k in buckets ==> buckets[k] == old(buckets)[k]
        decreases left
      {
        var k :| k in left;
        left := left - {k};
        if buckets[k].lastTime < cutoff {
          buckets := buckets - {k};
        }
      }
    }
  }

  // ----- Eviction is invisible ----------------------------------------------------

  /** Times never go back, starting at t. */
  ghost predicate Orderly(ops: seq<Op>, t: real) {
    && (forall i :: 0 <= i < |ops| ==> t <= ops[i].now && (ops[i].Ask? ==> ops[i].n >= 0))
    && forall i, j :: 0 <= i < j < |ops| ==> ops[i].now <= ops[j].now
  }

  /** An idle bucket of this age is full again, or no request can ever be granted anyway. */
  predicate Safe(l: Limits, maxAge: real) {
    l.max < 1.0 || maxAge * l.refill >= l.max
  }

  ghost predicate SafelySwept(l: Limits, ops: seq<Op>) {
    forall i :: 0 <= i < |ops| && ops[i].Sweep? ==> Safe(l, ops[i].maxAge)
  }

  ghost predicate Sane(l: Limits, b: Fill, t: real) {
    0.0 <= b.tokens <= l.max && b.last <= t
  }

  ghost predicate AllSane(l: Limits, m: map<string, Fill>, t: real) {
    forall k :: k in m ==> Sane(l, m[k], t)
  }

  ghost predicate Full(l: Limits, b: Fill, t: real) {
    b.tokens + Gain(l, t - b.last) >= l.max
  }

  /** m is the cleaned limiter, kept the one that is never cleaned: they agree on every bucket m
      still has, and what m has lost is full again. */
  ghost predicate Shadows(l: Limits, m: map<string, Fill>, kept: map<string, Fill>, t: real) {
    && AllSane(l, kept, t)
    && (forall k :: k in m ==> k in kept && (m[k] == kept[k] || l.max < 1.0) && Sane(l, m[k], t))
    && forall k :: k in kept && k !in m ==> l.max < 1.0 || Full(l, kept[k], t)
  }

  lemma GainIsPositive(l: Limits, d: real)
    requires l.refill >= 0.0 && d >= 0.0
    ensures Gain(l, d) >= 0.0
  {
  }

  lemma GainAdds(l: Limits, d: real, e: real)
    ensures Gain(l, d + e) == Gain(l, d) + Gain(l, e)
  {
  }

  lemma UsedStaysSane(l: Limits, b: Fill, n: int, t: real, now: real)
    requires l.max >= 0.0 && l.refill >= 0.0 && n >= 0 && Sane(l, b, t) && t <= now
    ensures Sane(l, Used(l, b, n, now), now) && 0.0 <= Topped(l, b, now) <= l.max
  {
    GainIsPositive(l, now - b.last);
    hide Gain;
    assert 0.0 <= Topped(l, b, now) <= l.max;
    assert Grants(l, b, n, now) ==> Topped(l, b, now) - n as real >= 0.0;
  }

  lemma FullStaysFull(l: Limits, b: Fill, t: real, now: real)
    requires l.refill >= 0.0 && Full(l, b, t) && t <= now
    ensures Full(l, b, now) && Topped(l, b, now) == l.max
  {
    GainIsPositive(l, now - t);
    GainAdds(l, t - b.last, now - t);
    hide Gain;
  }

  lemma IdleIsFull(l: Limits, b: Fill, maxAge: real, now: real)
    requires l.refill >= 0.0 && b.tokens >= 0.0 && b.last < now - maxAge && Gain(l, maxAge) >= l.max
    ensures Full(l, b, now)
  {
    GainIsPositive(l, now - b.last - maxAge);
    GainAdds(l, maxAge, now - b.last - maxAge);
    hide Gain;
  }

  /** When a bucket cannot hold a whole token, only requests for nothing are granted. */
  lemma TinyBucketsOnlyGrantNothing(l: Limits, b: Fill, n: int, t: real, now: real)
    requires 0.0 <= l.max < 1.0 && l.refill >= 0.0 && n >= 0 && Sane(l, b, t) && t <= now
    ensures Grants(l, b, n, now) <==> n == 0
  {
    UsedStaysSane(l, b, n, t, now);
  }

  lemma SaneBucketOf(l: Limits, m: map<string, Fill>, key: string, t: real, now: real)
    requires l.max >= 0.0 && AllSane(l, m, t) && t <= now
    ensures Sane(l, BucketOf(l, m, key, now), now)
  {
  }

  /** What a request finds in the two limiters comes to the same. */
  lemma BucketsAgree(l: Limits, m: map<string, Fill>, kept: map<string, Fill>, t: real, op: Op)
    requires l.max >= 0.0 && l.refill >= 0.0 && Shadows(l, m, kept, t)
    requires op.Ask? && op.n >= 0 && t <= op.now
    ensures var b, b' := BucketOf(l, m, op.key, op.now), BucketOf(l, kept, op.key, op.now);
            && Sane(l, b, op.now) && Sane(l, b', op.now)
            && (l.max >= 1.0 ==> Topped(l, b, op.now) == Topped(l, b', op.now))
  {
    if l.max >= 1.0 && op.key in kept && op.key !in m {
      FullStaysFull(l, kept[op.key], t, op.now);
      assert Gain(l, op.now - op.now) == 0.0;
    }
    hide Gain, Full;
  }

  lemma AnswersAgree(l: Limits, b: Fill, b': Fill, n: int, now: real)
    requires l.max >= 0.0 && l.refill >= 0.0 && n >= 0 && Sane(l, b, now) && Sane(l, b', now)
    requires l.max >= 1.0 ==> Topped(l, b, now) == Topped(l, b', now)
    ensures Grants(l, b, n, now) == Grants(l, b', n, now)
    ensures Sane(l, Used(l, b, n, now), now) && Sane(l, Used(l, b', n, now), now)
    ensures l.max >= 1.0 ==> Used(l, b, n, now) == Used(l, b', n, now)
  {
    UsedStaysSane(l, b, n, now, now);
    UsedStaysSane(l, b', n, now, now);
    if l.max < 1.0 {
      TinyBucketsOnlyGrantNothing(l, b, n, now, now);
      TinyBucketsOnlyGrantNothing(l, b', n, now, now);
    }
    hide Topped;
  }

  /** One request: same answer, and the two limiters still correspond. */
  lemma AskAgrees(l: Limits, m: map<string, Fill>, kept: map<string, Fill>, t: real, op: Op)
    requires l.max >= 0.0 && l.refill >= 0.0 && Shadows(l, m, kept, t)
    requires op.Ask? && op.n >= 0 && t <= op.now
    ensures Answer(l, m, op) == Answer(l, kept, op)
    ensures Shadows(l, Next(l, m, op, true), Next(l, kept, op, false), op.now)
  {
    hide Topped, Used, Grants, Full, Gain;
    BucketsAgree(l, m, kept, t, op);
    AnswersAgree(l, BucketOf(l, m, op.key, op.now), BucketOf(l, kept, op.key, op.now), op.n, op.now);
    if l.max >= 1.0 {
      OthersStayFull(l, m, kept, t, op.now);
    }
  }

  lemma OthersStayFull(l: Limits, m: map<string, Fill>, kept: map<string, Fill>, t: real, now: real)
    requires l.refill >= 0.0 && l.max >= 1.0 && Shadows(l, m, kept, t) && t <= now
    ensures Shadows(l, m, kept, now)
  {
    forall k | k in kept && k !in m
      ensures Full(l, kept[k], now)
    {
      FullStaysFull(l, kept[k], t, now);
    }
  }

  lemma SweepAgrees(l: Limits, m: map<string, Fill>, kept: map<string, Fill>, t: real, op: Op)
    requires l.max >= 0.0 && l.refill >= 0.0 && Shadows(l, m, kept, t)
    requires op.Sweep? && Safe(l, op.maxAge) && t <= op.now
    ensures Shadows(l, Next(l, m, op, true), Next(l, kept, op, false), op.now)
  {
    if l.max >= 1.0 {
      OthersStayFull(l, m, kept, t, op.now);
      forall k | k in m && m[k].last < op.now - op.maxAge
        ensures Full(l, kept[k], op.now)
      {
        IdleIsFull(l, kept[k], op.maxAge, op.now);
      }
    }
    hide Full;
  }

  /** As long as every sweep is safe, no caller can tell that buckets are evicted. */
  lemma {:induction false} EvictionIsInvisible(l: Limits, m: map<string, Fill>, kept: map<string, Fill>, ops: seq<Op>,
                                               t: real)
    requires l.max >= 0.0 && l.refill >= 0.0 && Shadows(l, m, kept, t)
    requires Orderly(ops, t) && SafelySwept(l, ops)
    ensures Answers(l, m, ops, true) == Answers(l, kept, ops, false)
    decreases |ops|
  {
    if ops == [] {
    } else {
      if ops[0].Ask? {
        AskAgrees(l, m, kept, t, ops[0]);
      } else {
        SweepAgrees(l, m, kept, t, ops[0]);
      }
      EvictionIsInvisible(l, Next(l, m, ops[0], true), Next(l, kept, ops[0], false), ops[1..], ops[0].now);
    }
  }

  // ----- Exactly when it is invisible ---------------------------------------------

  ghost predicate SweptAt(ops: seq<Op>, maxAge: real) {
    forall i :: 0 <= i < |ops| && ops[i].Sweep? ==> ops[i].maxAge == maxAge
  }

  /** No run that sweeps with this age gets an answer it would not get without sweeping. */
  ghost predicate Invisible(l: Limits, maxAge: real) {
    forall ops :: Orderly(ops, 0.0) && SweptAt(ops, maxAge) ==>
        Answers(l, map[], ops, true) == Answers(l, map[], ops, false)
  }

  ghost predicate Diverges(l: Limits, m: map<string, Fill>, kept: map<string, Fill>, ops: seq<Op>) {
    Answers(l, m, ops, true) != Answers(l, kept, ops, false)
  }

  lemma {:induction false} DivergesLater(l: Limits, m: map<string, Fill>, kept: map<string, Fill>, op: Op,
                                         rest: seq<Op>)
    requires Diverges(l, Next(l, m, op, true), Next(l, kept, op, false), rest)
             || Answer(l, m, op) != Answer(l, kept, op)
    ensures Diverges(l, m, kept, [op] + rest)
  {
    hide Next, Answer;
    var ops := [op] + rest;
    assert ops[1..] == rest && ops[0] == op;
    if Answer(l, m, op) != Answer(l, kept, op) {
      assert Answers(l, m, ops, true)[0] != Answers(l, kept, ops, false)[0];
    } else {
      assert Answers(l, m, ops, true)[1..] == Answers(l, Next(l, m, op, true), rest, true);
      assert Answers(l, kept, ops, false)[1..] == Answers(l, Next(l, kept, op, false), rest, false);
    }
  }

  /** Asking for every whole token of a full bucket leaves the fraction. */
  lemma AskWhole(l: Limits, m: map<string, Fill>, now: real, cleaning: bool)
    requires l.max >= 1.0 && (BucketOf(l, m, "k", now) == Fill(l.max, now))
    ensures var op := Ask("k", l.max.Floor, now);
            Answer(l, m, op) && Next(l, m, op, cleaning) == m["k" := Fill(l.max - l.max.Floor as real, now)]
  {
    assert Gain(l, now - now) == 0.0;
    hide Gain;
  }

  /** A sweep that is too early forgets how empty the bucket was: two requests later it shows. */
  lemma {:induction false} EarlySweepShows(l: Limits, w: real, s: real, maxAge: real)
    requires l.max >= 1.0 && Gain(l, w) == 1.0 - (l.max - l.max.Floor as real)
    requires w < s - maxAge && Gain(l, s - w) < l.max
    ensures Diverges(l, map["k" := Fill(0.0, w)], map["k" := Fill(0.0, w)],
                     [Sweep(maxAge, s), Ask("k", l.max.Floor, s), Ask("k", 1, s + w)])
  {
    var f := l.max - l.max.Floor as real;
    var m := map["k" := Fill(0.0, w)];
    var swept: map<string, Fill> := map[];
    var ask, last := Ask("k", l.max.Floor, s), Ask("k", 1, s + w);
    AskWhole(l, swept, s, true);
    assert s + w - s == w && Gain(l, 0.0) == 0.0;
    hide Gain;
    if Answer(l, m, ask) {
      DivergesLater(l, Next(l, swept, ask, true), Next(l, m, ask, false), last, []);
    }
    DivergesLater(l, swept, m, ask, [last]);
    assert Next(l, m, Sweep(maxAge, s), true) == swept;
    DivergesLater(l, m, m, Sweep(maxAge, s), [ask, last]);
    assert [Sweep(maxAge, s)] + [ask, last] == [Sweep(maxAge, s), ask, last] && [ask] + [last] == [ask, last];
  }

  /** Without refilling, any sweep resurrects spent tokens. */
  lemma {:induction false} SweepResurrects(l: Limits, maxAge: real) returns (ops: seq<Op>)
    requires l.max >= 1.0 && l.refill == 0.0 && maxAge >= 0.0
    ensures Orderly(ops, 0.0) && SweptAt(ops, maxAge) && Diverges(l, map[], map[], ops)
  {
    var s := maxAge + 1.0;
    var m := map["k" := Fill(l.max - l.max.Floor as real, 0.0)];
    var swept: map<string, Fill> := map[];
    var ask, sweep, last := Ask("k", l.max.Floor, 0.0), Sweep(maxAge, s), Ask("k", 1, s);
    AskWhole(l, swept, 0.0, true);
    AskWhole(l, swept, 0.0, false);
    DivergesLater(l, swept, m, last, []);
    assert Next(l, m, sweep, true) == swept;
    DivergesLater(l, m, m, sweep, [last]);
    DivergesLater(l, swept, swept, ask, [sweep] + [last]);
    ops := [ask] + ([sweep] + [last]);
  }

  /** How long a fraction takes to become a token, and how long after maxAge the bucket is
      still not full. */
  lemma Delays(l: Limits, f: real, maxAge: real) returns (w: real, gap: real)
    requires l.refill > 0.0 && 0.0 <= f < 1.0 && Gain(l, maxAge) < l.max
    ensures w > 0.0 && Gain(l, w) == 1.0 - f
    ensures gap > 0.0 && Gain(l, maxAge + gap) < l.max
  {
    w := (1.0 - f) / l.refill;
    gap := (l.max - Gain(l, maxAge)) / (2.0 * l.refill);
    assert Gain(l, gap) == (l.max - Gain(l, maxAge)) / 2.0;
    GainAdds(l, maxAge, gap);
  }

  /** The last token of a bucket, just as it completes. */
  lemma AskLast(l: Limits, f: real, w: real, cleaning: bool)
    requires l.max >= 1.0 && Gain(l, w) == 1.0 - f
    ensures Next(l, map["k" := Fill(f, 0.0)], Ask("k", 1, w), cleaning) == map["k" := Fill(0.0, w)]
  {
    assert w - 0.0 == w;
    hide Gain;
  }

  /** With refilling, a sweep of an age that does not refill a bucket can be told apart. */
  lemma {:induction false} EarlySweepCanShow(l: Limits, maxAge: real) returns (ops: seq<Op>)
    requires l.max >= 1.0 && l.refill > 0.0 && maxAge >= 0.0 && maxAge * l.refill < l.max
    ensures Orderly(ops, 0.0) && SweptAt(ops, maxAge) && Diverges(l, map[], map[], ops)
  {
    var f := l.max - l.max.Floor as real;
    var w, gap := Delays(l, f, maxAge);
    var s := w + maxAge + gap;
    assert s - w == maxAge + gap;
    var rest := [Sweep(maxAge, s), Ask("k", l.max.Floor, s), Ask("k", 1, s + w)];
    var first, second := Ask("k", l.max.Floor, 0.0), Ask("k", 1, w);
    EarlySweepShows(l, w, s, maxAge);
    AskLast(l, f, w, true);
    AskLast(l, f, w, false);
    AskWhole(l, map[], 0.0, true);
    AskWhole(l, map[], 0.0, false);
    hide Gain, Next, Answer, Diverges;
    DivergesLater(l, map["k" := Fill(f, 0.0)], map["k" := Fill(f, 0.0)], second, rest);
    DivergesLater(l, map[], map[], first, [second] + rest);
    ops := [first] + ([second] + rest);
  }

  /** Cleaning up after maxAge goes unnoticed in every run exactly when maxAge refills a bucket,
      or the bucket is too small for any token. */
  lemma {:induction false} InvisibleExactlyWhenSafe(l: Limits, maxAge: real)
    requires l.max >= 0.0 && l.refill >= 0.0 && maxAge >= 0.0
    ensures Invisible(l, maxAge) <==> l.max < 1.0 || maxAge * l.refill >= l.max
  {
    if Safe(l, maxAge) {
      forall ops | Orderly(ops, 0.0) && SweptAt(ops, maxAge)
        ensures Answers(l, map[], ops, true) == Answers(l, map[], ops, false)
      {
        EvictionIsInvisible(l, map[], map[], ops, 0.0);
      }
    } else {
      var ops := [];
      if l.refill == 0.0 {
        ops := SweepResurrects(l, maxAge);
      } else {
        ops := EarlySweepCanShow(l, maxAge);
      }
    }
  }

  // ----- The limit itself ---------------------------------------------------------

  /** Tokens handed to one key. */
  function Handed(key: string, ops: seq<Op>, answers: seq<bool>): int
    requires |ops| == |answers|
    decreases |ops|
  {
    if ops == [] then 0
    else (if ops[0].Ask? && ops[0].key == key && answers[0] then ops[0].n else 0) + Handed(key, ops[1..], answers[1..])
  }

  function Level(l: Limits, m: map<string, Fill>, key: string, t: real): real {
    Topped(l, BucketOf(l, m, key, t), t)
  }

  /** Until the next call a level rises by at most what is refilled. */
  lemma LevelRises(l: Limits, m: map<string, Fill>, key: string, t: real, now: real)
    requires l.max >= 0.0 && l.refill >= 0.0 && AllSane(l, m, t) && t <= now
    ensures Level(l, m, key, now) <= Level(l, m, key, t) + Gain(l, now - t)
    ensures 0.0 <= Level(l, m, key, t) <= l.max
  {
    GainIsPositive(l, now - t);
    SaneBucketOf(l, m, key, t, t);
    UsedStaysSane(l, BucketOf(l, m, key, t), 0, t, t);
    if key in m {
      GainAdds(l, t - m[key].last, now - t);
    }
    hide Gain;
  }

  /** A granted request takes its tokens from the level; no other call changes it. */
  lemma CallSpends(l: Limits, m: map<string, Fill>, key: string, t: real, op: Op)
    requires l.max >= 0.0 && l.refill >= 0.0 && AllSane(l, m, t) && t <= op.now && (op.Ask? ==> op.n >= 0)
    ensures AllSane(l, Next(l, m, op, false), op.now)
    ensures Level(l, Next(l, m, op, false), key, op.now)
            == Level(l, m, key, op.now) - if op.Ask? && op.key == key && Answer(l, m, op) then op.n as real else 0.0
  {
    assert op.now - op.now == 0.0 && Gain(l, 0.0) == 0.0;
    hide Gain;
    if op.Ask? {
      SaneBucketOf(l, m, op.key, t, op.now);
      UsedStaysSane(l, BucketOf(l, m, op.key, op.now), op.n, op.now, op.now);
    }
  }

  lemma {:induction false} HandedIsBounded(l: Limits, m: map<string, Fill>, key: string, ops: seq<Op>, t: real,
                                           end: real)
    requires l.max >= 0.0 && l.refill >= 0.0 && AllSane(l, m, t) && Orderly(ops, t) && t <= end
    requires forall i :: 0 <= i < |ops| ==> ops[i].now <= end
    ensures Handed(key, ops, Answers(l, m, ops, false)) as real <= Level(l, m, key, t) + Gain(l, end - t)
    decreases |ops|
  {
    LevelRises(l, m, key, t, t);
    GainIsPositive(l, end - t);
    if ops == [] {
    } else {
      var op := ops[0];
      var m' := Next(l, m, op, false);
      LevelRises(l, m, key, t, op.now);
      CallSpends(l, m, key, t, op);
      HandedIsBounded(l, m', key, ops[1..], op.now, end);
      assert Answers(l, m, ops, false)[1..] == Answers(l, m', ops[1..], false);
      GainAdds(l, end - op.now, op.now - t);
      hide Level, Next, Answer, AllSane, Gain;
    }
  }

  /** The never-cleaned limiter after some calls. */
  function After(l: Limits, m: map<string, Fill>, ops: seq<Op>): map<string, Fill>
    decreases |ops|
  {
    if ops == [] then m else After(l, Next(l, m, ops[0], false), ops[1..])
  }

  /** A run splits anywhere into two runs, the second from where the first left off. */
  lemma {:induction false} AnswersSplit(l: Limits, m: map<string, Fill>, xs: seq<Op>, ys: seq<Op>)
    ensures Answers(l, m, xs + ys, false) == Answers(l, m, xs, false) + Answers(l, After(l, m, xs), ys, false)
    decreases |xs|
  {
    hide Next, Answer;
    if xs == [] {
      assert xs + ys == ys;
    } else {
      assert (xs + ys)[1..] == xs[1..] + ys && (xs + ys)[0] == xs[0];
      AnswersSplit(l, Next(l, m, xs[0], false), xs[1..], ys);
    }
  }

  /** After the first part the limiter is as sane as at the start of the second. */
  lemma {:induction false} SaneAfter(l: Limits, m: map<string, Fill>, xs: seq<Op>, t: real) returns (t': real)
    requires l.max >= 0.0 && l.refill >= 0.0 && AllSane(l, m, t) && Orderly(xs, t)
    ensures AllSane(l, After(l, m, xs), t') && t' == if xs == [] then t else xs[|xs| - 1].now
    decreases |xs|
  {
    if xs == [] {
      t' := t;
    } else {
      CallSpends(l, m, "", t, xs[0]);
      hide Next, AllSane;
      t' := SaneAfter(l, Next(l, m, xs[0], false), xs[1..], xs[0].now);
    }
  }

  lemma {:induction false} OrderlySplits(ops: seq<Op>, i: nat, j: nat, t: real)
    requires Orderly(ops, t) && i <= j <= |ops|
    ensures Orderly(ops[..i], t) && Orderly(ops[i..j], if i == 0 then t else ops[i - 1].now)
  {
  }

  /** A run within a window of length d, from any sane state. */
  lemma {:induction false} RunIsBounded(l: Limits, m: map<string, Fill>, key: string, ops: seq<Op>, t: real,
                                        start: real, d: real)
    requires l.max >= 0.0 && l.refill >= 0.0 && AllSane(l, m, t) && Orderly(ops, t) && d >= 0.0
    requires forall k :: 0 <= k < |ops| ==> start <= ops[k].now <= start + d
    ensures Handed(key, ops, Answers(l, m, ops, false)) as real <= l.max + Gain(l, d)
  {
    GainIsPositive(l, d);
    if ops != [] {
      assert t <= ops[0].now && start <= ops[0].now <= start + d;
      var from := if t < start then start else t;
      assert Orderly(ops, from);
      GainIsPositive(l, start + d - from);
      GainIsPositive(l, from - start);
      GainAdds(l, start + d - from, from - start);
      LevelRises(l, m, key, from, from);
      HandedIsBounded(l, m, key, ops, from, start + d);
      hide Gain, Level, Answers;
    }
  }

  /** However the calls of a run are spread over keys and however often it is safely swept, in
      any window of length d one key gets at most a full bucket plus what refills in d. */
  lemma {:induction false} WindowIsBounded(l: Limits, ops: seq<Op>, key: string, i: nat, j: nat, start: real, d: real)
    requires l.max >= 0.0 && l.refill >= 0.0 && Orderly(ops, 0.0) && SafelySwept(l, ops)
    requires i <= j <= |ops| && d >= 0.0 && forall k :: i <= k < j ==> start <= ops[k].now <= start + d
    ensures Handed(key, ops[i..j], Answers(l, map[], ops, true)[i..j]) as real <= l.max + d * l.refill
  {
    EmptyShadows(l);
    GainIs(l, d);
    hide *;
    var before, window := ops[..i], ops[i..j];
    var m := After(l, map[], before);
    EvictionIsInvisible(l, map[], map[], ops, 0.0);
    assert before + ops[i..] == ops && window + ops[j..] == ops[i..];
    AnswersSplit(l, map[], before, ops[i..]);
    AnswersSplit(l, m, window, ops[j..]);
    assert Answers(l, map[], ops, true)[i..j] == Answers(l, m, window, false);
    OrderlySplits(ops, i, j, 0.0);
    var t := SaneAfter(l, map[], before, 0.0);
    RunIsBounded(l, m, key, window, t, start, d);
  }

  lemma GainIs(l: Limits, d: real)
    ensures Gain(l, d) == d * l.refill
  {
  }

  lemma EmptyShadows(l: Limits)
    ensures Shadows(l, map[], map[], 0.0) && AllSane(l, map[], 0.0)
  {
  }

  // ----- Exactly what is granted --------------------------------------------------

  lemma {:induction false} HandedOneMore(key: string, ops: seq<Op>, answers: seq<bool>, op: Op, a: bool)
    requires |ops| == |answers|
    ensures Handed(key, ops + [op], answers + [a])
            == Handed(key, ops, answers) + if op.Ask? && op.key == key && a then op.n else 0
    decreases |ops|
  {
    if ops == [] {
      assert (ops + [op])[1..] == [] && (answers + [a])[1..] == [];
    } else {
      assert (ops + [op])[1..] == ops[1..] + [op] && (answers + [a])[1..] == answers[1..] + [a];
      HandedOneMore(key, ops[1..], answers[1..], op, a);
    }
  }

  /** What the key was handed since call i and x more fit into a full bucket plus what has been
      refilled since call i. */
  predicate FitsSince(l: Limits, key: string, ops: seq<Op>, answers: seq<bool>, i: nat, now: real, x: real)
    requires i < |ops| == |answers|
  {
    ops[i].Ask? && ops[i].key == key ==>
      Handed(key, ops[i..], answers[i..]) as real + x <= l.max + (now - ops[i].now) * l.refill
  }

  /** x tokens fit, counted from every earlier call for the key. */
  ghost predicate Fits(l: Limits, key: string, ops: seq<Op>, answers: seq<bool>, now: real, x: real)
    requires |ops| == |answers|
  {
    x <= l.max && forall i: nat :: i < |ops| ==> FitsSince(l, key, ops, answers, i, now, x)
  }

  /** The key's level after one more call, seen from later. */
  lemma LevelAfterCall(l: Limits, m: map<string, Fill>, key: string, op: Op, now: real, x: real)
    ensures var own := op.Ask? && op.key == key;
            var g := if own && Answer(l, m, op) then op.n as real else 0.0;
            Level(l, Next(l, m, op, false), key, now) >= x <==>
              if own then x <= l.max && Level(l, m, key, op.now) >= x + g - (now - op.now) * l.refill
              else Level(l, m, key, now) >= x
  {
  }

  lemma FitsOneMore(l: Limits, key: string, ops: seq<Op>, answers: seq<bool>, op: Op, a: bool, now: real, x: real)
    requires |ops| == |answers|
    ensures var own := op.Ask? && op.key == key;
            var g := if own && a then op.n as real else 0.0;
            Fits(l, key, ops + [op], answers + [a], now, x) <==>
              if own then x <= l.max && Fits(l, key, ops, answers, op.now, x + g - (now - op.now) * l.refill)
              else Fits(l, key, ops, answers, now, x)
  {
    var own := op.Ask? && op.key == key;
    var g := if own && a then op.n as real else 0.0;
    var back := if own then op.now else now;
    var need := if own then x + g - (now - op.now) * l.refill else x;
    var n := |ops|;
    forall i: nat | i < n
      ensures FitsSince(l, key, ops + [op], answers + [a], i, now, x) <==>
              FitsSince(l, key, ops, answers, i, back, need)
    {
      FitsSinceOneMore(l, key, ops, answers, op, a, i, now, x);
    }
    FitsSinceLast(l, key, ops, answers, op, a, now, x);
    hide FitsSince, Handed;
    if own {
      assert need <= l.max <==> FitsSince(l, key, ops + [op], answers + [a], n, now, x);
    }
  }

  lemma FitsSinceOneMore(l: Limits, key: string, ops: seq<Op>, answers: seq<bool>, op: Op, a: bool, i: nat, now: real,
                         x: real)
    requires i < |ops| == |answers|
    ensures var own := op.Ask? && op.key == key;
            var g := if own && a then op.n as real else 0.0;
            FitsSince(l, key, ops + [op], answers + [a], i, now, x) <==>
              if own then FitsSince(l, key, ops, answers, i, op.now, x + g - (now - op.now) * l.refill)
              else FitsSince(l, key, ops, answers, i, now, x)
  {
    assert (ops + [op])[i..] == ops[i..] + [op] && (answers + [a])[i..] == answers[i..] + [a];
    HandedOneMore(key, ops[i..], answers[i..], op, a);
    hide Handed;
    RefillSplits(l, now, op.now, ops[i].now);
  }

  lemma RefillSplits(l: Limits, now: real, mid: real, first: real)
    ensures (now - first) * l.refill == (now - mid) * l.refill + (mid - first) * l.refill
  {
  }

  lemma FitsSinceLast(l: Limits, key: string, ops: seq<Op>, answers: seq<bool>, op: Op, a: bool, now: real, x: real)
    requires |ops| == |answers|
    ensures var own := op.Ask? && op.key == key;
            var g := if own && a then op.n as real else 0.0;
            FitsSince(l, key, ops + [op], answers + [a], |ops|, now, x) <==>
              (own ==> x + g - (now - op.now) * l.refill <= l.max)
  {
    assert (ops + [op])[|ops|..] == [] + [op] && (answers + [a])[|ops|..] == [] + [a];
    HandedOneMore(key, [], [], op, a);
  }

  /** The level of a key, at any time after any calls: x tokens are there exactly when they fit. */
  lemma {:induction false} LevelIsExact(l: Limits, key: string, ops: seq<Op>, now: real, x: real)
    ensures Level(l, After(l, map[], ops), key, now) >= x <==>
            Fits(l, key, ops, Answers(l, map[], ops, false), now, x)
    decreases |ops|
  {
    if ops == [] {
    } else {
      var init, op := ops[..|ops| - 1], ops[|ops| - 1];
      var m := After(l, map[], init);
      var g := if op.Ask? && op.key == key && Answer(l, m, op) then op.n as real else 0.0;
      LastCall(l, map[], init, op);
      hide *;
      assert init + [op] == ops;
      LevelAfterCall(l, m, key, op, now, x);
      FitsOneMore(l, key, init, Answers(l, map[], init, false), op, Answer(l, m, op), now, x);
      LevelIsExact(l, key, init, now, x);
      LevelIsExact(l, key, init, op.now, x + g - (now - op.now) * l.refill);
    }
  }

  lemma {:induction false} LastCall(l: Limits, m: map<string, Fill>, init: seq<Op>, op: Op)
    ensures After(l, m, init + [op]) == Next(l, After(l, m, init), op, false)
    ensures Answers(l, m, init + [op], false) == Answers(l, m, init, false) + [Answer(l, After(l, m, init), op)]
    decreases |init|
  {
    hide Next, Answer;
    if init == [] {
      assert init + [op] == [op] && [op][1..] == [];
    } else {
      assert (init + [op])[1..] == init[1..] + [op] && (init + [op])[0] == init[0];
      LastCall(l, Next(l, m, init[0], false), init[1..], op);
    }
  }

  /** In a safely swept run a request is granted exactly when it fits into a bucket and, counted
      from every earlier call for its key, what that key was handed and the request itself come
      to at most a full bucket plus the refill since that call. */
  lemma {:induction false} GrantedExactlyWithinLimit(l: Limits, ops: seq<Op>, j: nat)
    requires l.max >= 0.0 && l.refill >= 0.0 && Orderly(ops, 0.0) && SafelySwept(l, ops)
    requires j < |ops| && ops[j].Ask?
    ensures var answers := Answers(l, map[], ops, true);
            answers[j] <==>
              && ops[j].n as real <= l.max
              && forall i :: 0 <= i < j && ops[i].Ask? && ops[i].key == ops[j].key ==>
                   Handed(ops[j].key, ops[i..j], answers[i..j]) as real + ops[j].n as real
                   <= l.max + (ops[j].now - ops[i].now) * l.refill
  {
    EmptyShadows(l);
    EvictionIsInvisible(l, map[], map[], ops, 0.0);
    hide *;
    var before, op := ops[..j], ops[j];
    var answers := Answers(l, map[], ops, true);
    assert before + [op] + ops[j + 1..] == ops;
    AnswersSplit(l, map[], before + [op], ops[j + 1..]);
    LastCall(l, map[], before, op);
    assert answers[..j] == Answers(l, map[], before, false);
    LevelIsExact(l, op.key, before, op.now, op.n as real);
    AnswerIsLevel(l, After(l, map[], before), op);
    FitsMeans(l, ops, answers, j);
  }

  lemma AnswerIsLevel(l: Limits, m: map<string, Fill>, op: Op)
    requires op.Ask?
    ensures Answer(l, m, op) <==> Level(l, m, op.key, op.now) >= op.n as real
  {
  }

  lemma FitsMeans(l: Limits, ops: seq<Op>, answers: seq<bool>, j: nat)
    requires j < |ops| == |answers| && ops[j].Ask?
    ensures Fits(l, ops[j].key, ops[..j], answers[..j], ops[j].now, ops[j].n as real) <==>
            && ops[j].n as real <= l.max
            && forall i :: 0 <= i < j && ops[i].Ask? && ops[i].key == ops[j].key ==>
                 Handed(ops[j].key, ops[i..j], answers[i..j]) as real + ops[j].n as real
                 <= l.max + (ops[j].now - ops[i].now) * l.refill
  {
    forall i: nat | i < j
      ensures ops[..j][i..] == ops[i..j] && answers[..j][i..] == answers[i..j]
    {
    }
    hide Handed;
    if Fits(l, ops[j].key, ops[..j], answers[..j], ops[j].now, ops[j].n as real) {
      forall i | 0 <= i < j && ops[i].Ask? && ops[i].key == ops[j].key
        ensures Handed(ops[j].key, ops[i..j], answers[i..j]) as real + ops[j].n as real
                <= l.max + (ops[j].now - ops[i].now) * l.refill
      {
        assert FitsSince(l, ops[j].key, ops[..j], answers[..j], i, ops[j].now, ops[j].n as real);
      }
    }
  }

  /** The limiters of the API server, cleaned after an hour or a day: nobody can tell. */
  lemma ApiLimitersAreUnaffected()
    ensures Invisible(Limits(5.0, 5.0 / 3600.0), 3600.0) && Invisible(Limits(20.0, 20.0 / 3600.0), 3600.0)
    ensures Invisible(Limits(60.0, 60.0 / 3600.0), 3600.0) && Invisible(Limits(10.0, 10.0 / 3600.0), 3600.0)
    ensures Invisible(Limits(5.0, 5.0 / 86400.0), 86400.0)
  {
    hide Invisible;
    InvisibleExactlyWhenSafe(Limits(5.0, 5.0 / 3600.0), 3600.0);
    InvisibleExactlyWhenSafe(Limits(20.0, 20.0 / 3600.0), 3600.0);
    InvisibleExactlyWhenSafe(Limits(60.0, 60.0 / 3600.0), 3600.0);
    InvisibleExactlyWhenSafe(Limits(10.0, 10.0 / 3600.0), 3600.0);
    InvisibleExactlyWhenSafe(Limits(5.0, 5.0 / 86400.0), 86400.0);
  }
}

/** Focus-fire combat loses a strict minority: the dead are fewer than their killers, and
    every killer survives. */
module FocusFire {
  import opened Torus
  import opened Tally
  import opened GameTypes
  import opened Rules
  import opened CombatLoop

  /** Some victim has bot j in range. */
  ghost predicate IsKiller(c: Config, bots: seq<Bot>, j: int)
    requires c.rows > 0 && c.cols > 0
  {
    exists i :: Focused(c, bots, i) && Enemy(c, bots, i, j)
  }

  ghost function KillerTest(c: Config, bots: seq<Bot>): int -> bool
    requires c.rows > 0 && c.cols > 0
  {
    j => c.rows > 0 && c.cols > 0 && 0 <= j < |bots| && IsKiller(c, bots, j)
  }

  /** The distinct killers, in index order. */
  ghost function KillersOf(c: Config, bots: seq<Bot>): seq<nat>
    requires c.rows > 0 && c.cols > 0
  {
    Select(|bots|, KillerTest(c, bots))
  }

  ghost function LivingTest(bots: seq<Bot>): int -> bool {
    i => 0 <= i < |bots| && bots[i].alive
  }

  /** Being in range of an enemy is mutual, because distance is. */
  lemma EnmityIsMutual(c: Config, bots: seq<Bot>, i: int, j: int)
    requires c.rows > 0 && c.cols > 0 && Enemy(c, bots, i, j)
    ensures Enemy(c, bots, j, i)
  {
    DistanceIsSymmetric(bots[i].pos, bots[j].pos, c.rows, c.cols);
    hide Distance2;
  }

  /** No two bots in range of each other both die; a victim's enemies all live. */
  lemma KillersSurvive(c: Config, bots: seq<Bot>, i: int, j: int)
    requires c.rows > 0 && c.cols > 0 && Focused(c, bots, i) && Enemy(c, bots, i, j)
    ensures bots[j].alive && !Focused(c, bots, j)
    ensures |Enemies(c, bots, j)| < |Enemies(c, bots, i)|
  {
    hide Enemy;
    EnmityIsMutual(c, bots, i, j);
    EnemiesAre(c, bots, i);
    EnemiesAre(c, bots, j);
    assert j in Enemies(c, bots, i) && i in Enemies(c, bots, j);
    hide Enemies;
    EnemyLives(c, bots, i, j);
  }

  lemma EnemyLives(c: Config, bots: seq<Bot>, i: int, j: int)
    requires c.rows > 0 && c.cols > 0 && Enemy(c, bots, i, j)
    ensures 0 <= i < |bots| && 0 <= j < |bots| && bots[i].alive && bots[j].alive && i != j
  {
  }

  /** A victim faced at least two enemies: one on one, nobody dies. */
  lemma VictimsAreOutnumbered(c: Config, bots: seq<Bot>, i: int)
    requires c.rows > 0 && c.cols > 0 && Focused(c, bots, i)
    ensures |Enemies(c, bots, i)| >= 2
  {
    hide Enemy;
    EnemiesAre(c, bots, i);
    var j := Enemies(c, bots, i)[0];
    EnmityIsMutual(c, bots, i, j);
    EnemiesAre(c, bots, j);
    assert j in Enemies(c, bots, i) && i in Enemies(c, bots, j);
    hide Enemies;
  }

  // ----- Double counting ----------------------------------------------------------

  ghost function Total(n: nat, f: int -> real): real {
    if n == 0 then 0.0 else Total(n - 1, f) + f(n - 1)
  }

  // A rectangular array of weights has one sum, by rows or by columns.

  ghost function Row(w: (int, int) -> real, i: int): int -> real {
    j => w(i, j)
  }

  ghost function Column(w: (int, int) -> real, j: int): int -> real {
    i => w(i, j)
  }

  ghost function ByRows(m: nat, n: nat, w: (int, int) -> real): real {
    if m == 0 then 0.0 else ByRows(m - 1, n, w) + Total(n, Row(w, m - 1))
  }

  ghost function ByColumns(m: nat, n: nat, w: (int, int) -> real): real {
    if n == 0 then 0.0 else ByColumns(m, n - 1, w) + Total(m, Column(w, n - 1))
  }

  lemma {:induction false} SumsCommute(m: nat, n: nat, w: (int, int) -> real)
    ensures ByRows(m, n, w) == ByColumns(m, n, w)
  {
    if m == 0 {
      NoRows(n, w);
    } else {
      SumsCommute(m - 1, n, w);
      OneMoreRow(m - 1, n, w);
    }
  }

  lemma {:induction false} NoRows(n: nat, w: (int, int) -> real)
    ensures ByColumns(0, n, w) == 0.0
  {
    if n == 0 {
    } else {
      NoRows(n - 1, w);
    }
  }

  lemma {:induction false} OneMoreRow(m: nat, n: nat, w: (int, int) -> real)
    ensures ByColumns(m + 1, n, w) == ByColumns(m, n, w) + Total(n, Row(w, m))
  {
    if n == 0 {
    } else {
      OneMoreRow(m, n - 1, w);
      assert Total(m + 1, Column(w, n - 1)) == Total(m, Column(w, n - 1)) + w(m, n - 1);
    }
  }

  /** x added up n times. */
  ghost function Repeat(n: nat, x: real): real {
    if n == 0 then 0.0 else Repeat(n - 1, x) + x
  }

  /** A row or column that is constant where the test holds and zero elsewhere. */
  lemma {:induction false} SelectedTotal(n: nat, test: int -> bool, x: real, f: int -> real)
    requires forall j :: 0 <= j < n ==> f(j) == if test(j) then x else 0.0
    ensures Total(n, f) == Repeat(|Select(n, test)|, x)
  {
    if n == 0 {
    } else {
      SelectedTotal(n - 1, test, x, f);
    }
  }

  lemma {:induction false} TotalBelow(n: nat, test: int -> bool, x: real, f: int -> real)
    requires x >= 0.0 && forall j :: 0 <= j < n ==> f(j) <= if test(j) then x else 0.0
    ensures Total(n, f) <= Repeat(|Select(n, test)|, x)
  {
    if n == 0 {
    } else {
      TotalBelow(n - 1, test, x, f);
    }
  }

  /** Selected terms below one, the rest not positive: the sum is below the count. */
  lemma {:induction false} TotalStrictlyBelow(n: nat, test: int -> bool, f: int -> real)
    requires forall j :: 0 <= j < n ==> if test(j) then f(j) < 1.0 else f(j) <= 0.0
    ensures Total(n, f) <= |Select(n, test)| as real
    ensures |Select(n, test)| > 0 ==> Total(n, f) < |Select(n, test)| as real
  {
    if n == 0 {
    } else {
      TotalStrictlyBelow(n - 1, test, f);
    }
  }

  /** One unit split k ways. */
  ghost function Portion(k: nat): real {
    if k == 0 then 0.0 else 1.0 / k as real
  }

  lemma {:induction false} PortionsAddUp(k: nat)
    requires k > 0
    ensures Repeat(k, Portion(k)) == 1.0 && Portion(k) > 0.0
  {
    RepeatIsProduct(k, Portion(k));
  }

  lemma {:induction false} RepeatIsProduct(n: nat, x: real)
    ensures Repeat(n, x) == n as real * x
  {
    if n == 0 {
    } else {
      RepeatIsProduct(n - 1, x);
    }
  }

  lemma {:induction false} RepeatGrows(a: nat, x: real, b: nat, y: real)
    requires a <= b && 0.0 <= x <= y
    ensures Repeat(a, x) <= Repeat(b, y)
    ensures 0 < a && x < y ==> Repeat(a, x) < Repeat(b, y)
  {
    if a > 0 {
      RepeatGrows(a - 1, x, b - 1, y);
    } else if b > 0 {
      RepeatGrows(0, x, b - 1, y);
    }
  }

  lemma PortionsShrink(a: nat, b: nat)
    requires 0 < a <= b
    ensures Portion(b) <= Portion(a)
  {
    PortionsAddUp(a);
    PortionsAddUp(b);
    hide Portion;
    if Portion(b) > Portion(a) {
      RepeatGrows(a, Portion(a), b, Portion(b));
    }
  }

  /** A victim hands each enemy in range an equal share of one unit. */
  ghost function Share(c: Config, bots: seq<Bot>): (int, int) -> real
    requires c.rows > 0 && c.cols > 0
  {
    (i, j) => if c.rows > 0 && c.cols > 0 && Focused(c, bots, i) && Enemy(c, bots, i, j)
              then Portion(|Enemies(c, bots, i)|) else 0.0
  }

  lemma FocusedHasEnemies(c: Config, bots: seq<Bot>, i: int)
    requires c.rows > 0 && c.cols > 0 && Focused(c, bots, i)
    ensures |Enemies(c, bots, i)| > 0
  {
  }

  lemma {:induction false} VictimGivesOne(c: Config, bots: seq<Bot>, i: int)
    requires c.rows > 0 && c.cols > 0
    ensures Total(|bots|, Row(Share(c, bots), i)) == if Focused(c, bots, i) then 1.0 else 0.0
  {
    hide Enemy, Focused, Portion, Enemies, Total;
    var n := |bots|;
    if Focused(c, bots, i) {
      FocusedHasEnemies(c, bots, i);
      var e := |Enemies(c, bots, i)|;
      SelectedTotal(n, EnemyTest(c, bots, i), Portion(e), Row(Share(c, bots), i));
      EnemiesListed(c, bots, i);
      PortionsAddUp(e);
    } else {
      SelectedTotal(n, Never(), 0.0, Row(Share(c, bots), i));
      NeverSelected(n);
    }
  }

  ghost function Never(): int -> bool {
    i => false
  }

  lemma {:induction false} NeverSelected(n: nat)
    ensures Select(n, Never()) == []
  {
    if n == 0 {
    } else {
      NeverSelected(n - 1);
    }
  }

  lemma ShareIsSmall(c: Config, bots: seq<Bot>, i: int, j: int)
    requires c.rows > 0 && c.cols > 0
    ensures Share(c, bots)(i, j) <=
              if Enemy(c, bots, j, i) && IsKiller(c, bots, j) then Portion(|Enemies(c, bots, j)| + 1) else 0.0
  {
    hide Enemy, Focused, Enemies, Portion;
    PortionsAddUp(|Enemies(c, bots, j)| + 1);
    if Focused(c, bots, i) && Enemy(c, bots, i, j) {
      KillersSurvive(c, bots, i, j);
      EnmityIsMutual(c, bots, i, j);
      PortionsShrink(|Enemies(c, bots, j)| + 1, |Enemies(c, bots, i)|);
    }
  }

  lemma {:induction false} KillerReceivesLess(c: Config, bots: seq<Bot>, j: int)
    requires c.rows > 0 && c.cols > 0 && IsKiller(c, bots, j)
    ensures Total(|bots|, Column(Share(c, bots), j)) < 1.0
  {
    hide Enemy, IsKiller, Enemies, Portion, Share, Total;
    var e := |Enemies(c, bots, j)|;
    forall i
      ensures Column(Share(c, bots), j)(i) <= if EnemyTest(c, bots, j)(i) then Portion(e + 1) else 0.0
    {
      ShareIsSmall(c, bots, i, j);
    }
    PortionsAddUp(e + 1);
    TotalBelow(|bots|, EnemyTest(c, bots, j), Portion(e + 1), Column(Share(c, bots), j));
    EnemiesListed(c, bots, j);
    assert Repeat(e + 1, Portion(e + 1)) == Repeat(e, Portion(e + 1)) + Portion(e + 1);
  }

  lemma {:induction false} BystanderReceivesNothing(c: Config, bots: seq<Bot>, j: int)
    requires c.rows > 0 && c.cols > 0 && !IsKiller(c, bots, j)
    ensures Total(|bots|, Column(Share(c, bots), j)) <= 0.0
  {
    hide Enemy, IsKiller, Enemies, Portion, Share, Total;
    forall i
      ensures Column(Share(c, bots), j)(i) <= 0.0
    {
      ShareIsSmall(c, bots, i, j);
    }
    TotalBelow(|bots|, Never(), 0.0, Column(Share(c, bots), j));
    NeverSelected(|bots|);
  }

  lemma {:induction false} SharesByVictim(c: Config, bots: seq<Bot>, m: nat)
    requires c.rows > 0 && c.cols > 0
    ensures ByRows(m, |bots|, Share(c, bots)) == |Select(m, FocusedTest(c, bots))| as real
  {
    hide Share, Focused;
    if m == 0 {
    } else {
      SharesByVictim(c, bots, m - 1);
      VictimGivesOne(c, bots, m - 1);
    }
  }

  ghost function Received(c: Config, bots: seq<Bot>): int -> real
    requires c.rows > 0 && c.cols > 0
  {
    j => if c.rows > 0 && c.cols > 0 then Total(|bots|, Column(Share(c, bots), j)) else 0.0
  }

  lemma {:induction false} SharesByKiller(c: Config, bots: seq<Bot>, n: nat)
    requires c.rows > 0 && c.cols > 0
    ensures ByColumns(|bots|, n, Share(c, bots)) == Total(n, Received(c, bots))
  {
    hide Share;
    if n == 0 {
    } else {
      SharesByKiller(c, bots, n - 1);
    }
  }

  /** Whenever anyone dies, the dead are strictly fewer than the distinct killers. */
  lemma FewerDeadThanKillers(c: Config, bots: seq<Bot>)
    requires c.rows > 0 && c.cols > 0 && Fallen(c, bots) != []
    ensures |Fallen(c, bots)| < |KillersOf(c, bots)|
  {
    hide Share, Focused, IsKiller;
    var n := |bots|;
    SumsCommute(n, n, Share(c, bots));
    SharesByVictim(c, bots, n);
    SharesByKiller(c, bots, n);
    forall j | 0 <= j < n
      ensures if KillerTest(c, bots)(j) then Received(c, bots)(j) < 1.0 else Received(c, bots)(j) <= 0.0
    {
      if IsKiller(c, bots, j) {
        KillerReceivesLess(c, bots, j);
      } else {
        BystanderReceivesNothing(c, bots, j);
      }
    }
    TotalStrictlyBelow(n, KillerTest(c, bots), Received(c, bots));
  }

  lemma {:induction false} DisjointSelections(n: nat, f: int -> bool, g: int -> bool, h: int -> bool)
    requires forall x :: 0 <= x < n ==> !(f(x) && g(x)) && (f(x) || g(x) ==> h(x))
    ensures |Select(n, f)| + |Select(n, g)| <= |Select(n, h)|
  {
    if n == 0 {
    } else {
      DisjointSelections(n - 1, f, g, h);
    }
  }

  lemma {:induction false} LivingSelection(bots: seq<Bot>, n: nat)
    requires n <= |bots|
    ensures |Select(n, LivingTest(bots))| == LivingTotal(bots[..n])
  {
    if n == 0 {
    } else {
      LivingSelection(bots, n - 1);
      assert bots[..n][..n - 1] == bots[..n - 1];
    }
  }

  /** Twice the dead are fewer than the bots that went into the phase. */
  lemma DeadAreAMinority(c: Config, bots: seq<Bot>)
    requires c.rows > 0 && c.cols > 0 && Fallen(c, bots) != []
    ensures 2 * |Fallen(c, bots)| < LivingTotal(bots)
  {
    hide Focused, Enemy;
    FewerDeadThanKillers(c, bots);
    forall x | 0 <= x < |bots|
      ensures !(FocusedTest(c, bots)(x) && KillerTest(c, bots)(x))
      ensures FocusedTest(c, bots)(x) || KillerTest(c, bots)(x) ==> LivingTest(bots)(x)
    {
      if KillerTest(c, bots)(x) {
        var i :| Focused(c, bots, i) && Enemy(c, bots, i, x);
        KillersSurvive(c, bots, i, x);
      }
      if Focused(c, bots, x) {
        FocusedIsLiving(c, bots, x);
      }
    }
    DisjointSelections(|bots|, FocusedTest(c, bots), KillerTest(c, bots), LivingTest(bots));
    LivingSelection(bots, |bots|);
    assert bots[..|bots|] == bots;
  }
}

/** Toroidal geometry: positions, directions, wrapping and squared distance,
    together with the distance formulas the bots carry for themselves. */
module Torus {

  datatype Position = Position(row: int, col: int)

  datatype Direction = DirNone | DirN | DirE | DirS | DirW

  /** The four steps, in the order every bot tries them. */
  const COMPASS: seq<Direction> := [DirN, DirE, DirS, DirW]

  /** Integer division as Go performs it: the quotient is truncated toward zero. */
  function GoDiv(a: int, b: int): int
    requires b > 0
  {
    if a >= 0 then a / b else -((-a) / b)
  }

  /** Integer remainder as Go performs it: it takes the sign of the dividend. */
  function GoMod(a: int, b: int): int
    requires b > 0
  {
    if a >= 0 then a % b else -((-a) % b)
  }

  function Abs(x: int): int {
    if x < 0 then -x else x
  }

  function Min(x: int, y: int): int {
    if x < y then x else y
  }

  function Sq(x: int): int {
    x * x
  }

  predicate InGrid(p: Position, rows: int, cols: int) {
    0 <= p.row < rows && 0 <= p.col < cols
  }

  /** One coordinate of the wrapped position, with Go's operators. */
  function WrapAxis(x: int, n: int): (r: int)
    requires n > 0
    ensures 0 <= r < n
  {
    GoMod(GoMod(x, n) + n, n)
  }

  /** Go's two-remainder idiom is the Euclidean remainder, for negative inputs too. */
  lemma WrapAxisIsModulo(x: int, n: int)
    requires n > 0
    ensures WrapAxis(x, n) == x % n
  {
    var r := GoMod(x, n);
    if x < 0 {
      NegativeModulo(-x, n);
    }
    if 0 <= r {
      ModuloIsUnique(r + n, n, 1, r);
    } else {
      ModuloIsUnique(r + n, n, 0, r + n);
    }
  }

  lemma NegativeModulo(y: int, n: int)
    requires n > 0
    ensures (-y) % n == if y % n == 0 then 0 else n - y % n
  {
    var q, r := y / n, y % n;
    assert y == n * q + r;
    if r == 0 {
      assert -q * n == -(n * q);
      ModuloIsUnique(-y, n, -q, 0);
    } else {
      assert (-q - 1) * n == -(n * q) - n;
      ModuloIsUnique(-y, n, -q - 1, n - r);
    }
  }

  /** The wrapped coordinate is the one in range that differs by whole board widths. */
  lemma WrapAxisIs(x: int, n: int, q: int, r: int)
    requires n > 0 && 0 <= r < n && x == q * n + r
    ensures WrapAxis(x, n) == r
  {
    WrapAxisIsModulo(x, n);
    ModuloIsUnique(x, n, q, r);
  }

  lemma MultipleIsFar(k: int, n: int)
    requires n > 0
    ensures k >= 1 ==> k * n >= n
    ensures k <= -1 ==> k * n <= -n
  {
    if k >= 1 {
      assert (k - 1) * n >= 0;
    } else if k <= -1 {
      assert (-k - 1) * n >= 0;
    }
  }

  lemma ModuloIsUnique(x: int, n: int, q: int, r: int)
    requires n > 0 && 0 <= r < n && x == q * n + r
    ensures x / n == q && x % n == r
  {
    var d := x / n - q;
    assert d * n == r - x % n by {
      assert x == n * (x / n) + x % n;
      assert d * n == n * (x / n) - q * n;
    }
    MultipleIsFar(d, n);
  }

  function Wrap(row: int, col: int, rows: int, cols: int): (p: Position)
    requires rows > 0 && cols > 0
    ensures InGrid(p, rows, cols)
    ensures InGrid(Position(row, col), rows, cols) ==> p == Position(row, col)
  {
    var p := Position(WrapAxis(row, rows), WrapAxis(col, cols));
    assert InGrid(Position(row, col), rows, cols) ==> p == Position(row, col) by {
      if InGrid(Position(row, col), rows, cols) {
        WrapAxisIs(row, rows, 0, row);
        WrapAxisIs(col, cols, 0, col);
      }
    }
    p
  }

  function DeltaRow(d: Direction): int {
    match d
    case DirN => -1
    case DirS => 1
    case _ => 0
  }

  function DeltaCol(d: Direction): int {
    match d
    case DirE => 1
    case DirW => -1
    case _ => 0
  }

  /** The tile one step away, wrapping at the edges. */
  function Move(p: Position, d: Direction, rows: int, cols: int): (q: Position)
    requires rows > 0 && cols > 0
    ensures InGrid(q, rows, cols)
  {
    Wrap(p.row + DeltaRow(d), p.col + DeltaCol(d), rows, cols)
  }

  /** One step as the bots compute it: add the board size, then take Go's remainder
      (engine/bot_strategies.go, bots/farmer/grid.go; bots/kamikaze/grid.js in JavaScript). */
  function BotStep(p: Position, d: Direction, rows: int, cols: int): (q: Position)
    requires rows > 0 && cols > 0
    ensures InGrid(p, rows, cols) ==> q == Move(p, d, rows, cols)
  {
    var q := Position(GoMod(p.row + DeltaRow(d) + rows, rows), GoMod(p.col + DeltaCol(d) + cols, cols));
    assert InGrid(p, rows, cols) ==> q == Move(p, d, rows, cols) by {
      if InGrid(p, rows, cols) {
        StepsAgree(p.row + DeltaRow(d), rows);
        StepsAgree(p.col + DeltaCol(d), cols);
      }
    }
    q
  }

  lemma StepsAgree(x: int, n: int)
    requires n > 0 && -1 <= x <= n
    ensures GoMod(x + n, n) == WrapAxis(x, n)
  {
    var q := if x == -1 then -1 else if x == n then 1 else 0;
    WrapAxisIs(x, n, q, x - q * n);
    ModuloIsUnique(x + n, n, q + 1, x - q * n);
  }

  /** A coordinate difference folded to the shorter way round. */
  function Fold(d: int, n: int): int
    requires n > 0
  {
    if d > GoDiv(n, 2) then d - n
    else if d < GoDiv(-n, 2) then d + n
    else d
  }

  /** The engine's squared toroidal distance. */
  function Distance2(a: Position, b: Position, rows: int, cols: int): int
    requires rows > 0 && cols > 0
  {
    Sq(Fold(a.row - b.row, rows)) + Sq(Fold(a.col - b.col, cols))
  }

  predicate InRadius(a: Position, b: Position, radius2: int, rows: int, cols: int)
    requires rows > 0 && cols > 0
  {
    Distance2(a, b, rows, cols) <= radius2
  }

  // ----- Distance2 is the least lifted distance -----------------------------------

  /** Squared Euclidean distance from a to b when b is replaced by its copy
      i sheets down and j sheets to the right in the plane. */
  function LiftDistance2(a: Position, b: Position, rows: int, cols: int, i: int, j: int): int {
    Sq(a.row - b.row + i * rows) + Sq(a.col - b.col + j * cols)
  }

  lemma SquareGrows(x: int, y: int)
    requires Abs(x) <= Abs(y)
    ensures Sq(x) <= Sq(y)
    ensures Abs(x) < Abs(y) ==> Sq(x) < Sq(y)
  {
    var a, b := Abs(x), Abs(y);
    assert Sq(x) == a * a && Sq(y) == b * b;
    assert a * a <= a * b <= b * b;
    if a < b {
      assert a * b < b * b;
    }
  }

  lemma FoldIsShort(d: int, n: int)
    requires n > 0 && -n < d < n
    ensures 2 * Abs(Fold(d, n)) <= n
  {
  }

  lemma FoldIsLeast(d: int, n: int, k: int)
    requires n > 0 && -n < d < n
    ensures Sq(Fold(d, n)) <= Sq(d + k * n)
  {
    var f := Fold(d, n);
    FoldIsShort(d, n);
    var m := if f == d then k else if f == d - n then k + 1 else k - 1;
    assert d + k * n == f + m * n by {
      assert (k + 1) * n == k * n + n && (k - 1) * n == k * n - n;
    }
    MultipleIsFar(m, n);
    var lift := m * n;
    assert m == 0 || lift >= n || lift <= -n;
    SquareGrows(f, f + lift);
  }

  /** On wrapped positions the engine's distance is the minimum over all lifts:
      it is a lower bound of every lift and one lift attains it. */
  lemma DistanceIsLeastLift(a: Position, b: Position, rows: int, cols: int)
    requires InGrid(a, rows, cols) && InGrid(b, rows, cols)
    ensures forall i, j :: Distance2(a, b, rows, cols) <= LiftDistance2(a, b, rows, cols, i, j)
    ensures exists i, j :: Distance2(a, b, rows, cols) == LiftDistance2(a, b, rows, cols, i, j)
  {
    var dr, dc := a.row - b.row, a.col - b.col;
    forall i, j
      ensures Distance2(a, b, rows, cols) <= LiftDistance2(a, b, rows, cols, i, j)
    {
      FoldIsLeast(dr, rows, i);
      FoldIsLeast(dc, cols, j);
    }
    var i := FoldSheet(dr, rows);
    var j := FoldSheet(dc, cols);
    assert Distance2(a, b, rows, cols) == LiftDistance2(a, b, rows, cols, i, j);
  }

  lemma FoldSheet(d: int, n: int) returns (k: int)
    requires n > 0
    ensures Fold(d, n) == d + k * n
  {
    k := if Fold(d, n) == d then 0 else if Fold(d, n) == d - n then -1 else 1;
  }

  lemma DistanceIsSymmetric(a: Position, b: Position, rows: int, cols: int)
    requires rows > 0 && cols > 0
    ensures Distance2(a, b, rows, cols) == Distance2(b, a, rows, cols)
  {
    SquareOfNegation(Fold(a.row - b.row, rows), Fold(b.row - a.row, rows));
    SquareOfNegation(Fold(a.col - b.col, cols), Fold(b.col - a.col, cols));
  }

  lemma SquareOfNegation(x: int, y: int)
    requires x == y || x == -y
    ensures Sq(x) == Sq(y)
  {
  }

  lemma DistanceIsZeroOnlyAtHome(a: Position, b: Position, rows: int, cols: int)
    requires InGrid(a, rows, cols) && InGrid(b, rows, cols)
    ensures Distance2(a, b, rows, cols) == 0 <==> a == b
  {
    SquareIsPositive(Fold(a.row - b.row, rows));
    SquareIsPositive(Fold(a.col - b.col, cols));
  }

  lemma SquareIsPositive(x: int)
    ensures Sq(x) >= 0
    ensures Sq(x) == 0 <==> x == 0
  {
    if x > 0 {
      assert x * x > 0;
    } else if x < 0 {
      assert x * x > 0;
    }
  }

  // ----- The bots' own distance formulas ------------------------------------------

  /** engine/bot_strategies.go: fold the absolute difference when it passes half. */
  function StrategyDistance2(a: Position, b: Position, rows: int, cols: int): int
    requires rows > 0 && cols > 0
  {
    var dr, dc := Abs(a.row - b.row), Abs(a.col - b.col);
    Sq(if dr > GoDiv(rows, 2) then rows - dr else dr) + Sq(if dc > GoDiv(cols, 2) then cols - dc else dc)
  }

  /** bots/farmer/grid.go: the smaller of the two ways round. */
  function FarmerDistance2(a: Position, b: Position, rows: int, cols: int): int {
    var dr, dc := Abs(a.row - b.row), Abs(a.col - b.col);
    Sq(Min(dr, rows - dr)) + Sq(Min(dc, cols - dc))
  }

  function SiegeFold(d: int, n: int): int
    requires n > 0
  {
    if d > GoDiv(n, 2) then n - d else if d < GoDiv(-n, 2) then -(n + d) else d
  }

  /** bots/siege/strategy.go: sign-flipping folds. */
  function SiegeDistance2(a: Position, b: Position, rows: int, cols: int): int
    requires rows > 0 && cols > 0
  {
    Sq(SiegeFold(a.row - b.row, rows)) + Sq(SiegeFold(a.col - b.col, cols))
  }

  lemma FoldsAgree(d: int, n: int)
    requires n > 0 && -n < d < n
    ensures Sq(Fold(d, n)) == Sq(SiegeFold(d, n))
    ensures Sq(Fold(d, n)) == Sq(if Abs(d) > GoDiv(n, 2) then n - Abs(d) else Abs(d))
    ensures Sq(Fold(d, n)) == Sq(Min(Abs(d), n - Abs(d)))
  {
    SquareOfNegation(Fold(d, n), SiegeFold(d, n));
    SquareOfNegation(Fold(d, n), if Abs(d) > GoDiv(n, 2) then n - Abs(d) else Abs(d));
    SquareOfNegation(Fold(d, n), Min(Abs(d), n - Abs(d)));
  }

  /** Every bot that measures with one of these formulas sees the engine's distance. */
  lemma BotsMeasureLikeTheEngine(a: Position, b: Position, rows: int, cols: int)
    requires InGrid(a, rows, cols) && InGrid(b, rows, cols)
    ensures StrategyDistance2(a, b, rows, cols) == Distance2(a, b, rows, cols)
    ensures FarmerDistance2(a, b, rows, cols) == Distance2(a, b, rows, cols)
    ensures SiegeDistance2(a, b, rows, cols) == Distance2(a, b, rows, cols)
  {
    FoldsAgree(a.row - b.row, rows);
    FoldsAgree(a.col - b.col, cols);
  }
}

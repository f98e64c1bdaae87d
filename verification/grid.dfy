/** The toroidal board with its cached wall set, integer square root and lines of sight. */
module GridModel {
  import opened Torus

  datatype Tile = TileOpen | TileWall | TileEnergy | TileCore

  class Grid {
    const rows: nat
    const cols: nat
    const tiles: array2<Tile>
    var walls: set<Position>  // cached wall positions

    /** The cache lists exactly the wall tiles of the board. */
    ghost predicate Valid()
      reads this, tiles
    {
      && rows > 0 && cols > 0
      && tiles.Length0 == rows && tiles.Length1 == cols
      && forall p :: p in walls <==> InGrid(p, rows, cols) && tiles[p.row, p.col] == TileWall
    }

    constructor (rows: nat, cols: nat)
      requires rows > 0 && cols > 0
      ensures Valid() && fresh(tiles)
      ensures this.rows == rows && this.cols == cols && walls == {}
      ensures forall i, j :: 0 <= i < rows && 0 <= j < cols ==> tiles[i, j] == TileOpen
    {
      this.rows, this.cols := rows, cols;
      tiles := new Tile[rows, cols]((i, j) => TileOpen);
      walls := {};
    }

    method Get(row: int, col: int) returns (t: Tile)
      requires Valid()
      ensures t == TileWall <==> Wrap(row, col, rows, cols) in walls
      ensures var p := Wrap(row, col, rows, cols); t == tiles[p.row, p.col]
    {
      var p := Wrap(row, col, rows, cols);
      t := tiles[p.row, p.col];
    }

    /** Writes one wrapped tile; the cache follows whatever the old tile was. */
    method Set(row: int, col: int, t: Tile)
      requires Valid()
      modifies this`walls, tiles
      ensures Valid()
      ensures var p := Wrap(row, col, rows, cols);
              && walls == (if t == TileWall then old(walls) + {p} else old(walls) - {p})
              && tiles[p.row, p.col] == t
              && forall i, j :: 0 <= i < rows && 0 <= j < cols && Position(i, j) != p ==>
                   tiles[i, j] == old(tiles[i, j])
    {
      var p := Wrap(row, col, rows, cols);
      tiles[p.row, p.col] := t;
      if t == TileWall {
        walls := walls + {p};
      } else {
        walls := walls - {p};
      }
    }

    method IsPassable(p: Position) returns (ok: bool)
      requires Valid()
      ensures ok <==> !InGrid(p, rows, cols) || tiles[p.row, p.col] != TileWall
    {
      ok := p !in walls;
    }
  }

  // ----- Integer square root ------------------------------------------------------

  /** Newton's iteration; exactly the floor of the square root. */
  method SqrtApprox(n: int) returns (root: nat)
    ensures n >= 0 ==> root * root <= n < (root + 1) * (root + 1)
    ensures n < 0 ==> root == 0
  {
    if n <= 0 {
      return 0;
    }
    var x := n;
    var y := (x + 1) / 2;
    FirstGuess(n);
    while y < x
      invariant 0 < x && 0 < y
      invariant y == (x + n / x) / 2
      invariant n < (x + 1) * (x + 1)
      decreases x
    {
      NewtonStaysAbove(n, x);
      x := y;
      y := (x + n / x) / 2;
      NewtonIsPositive(n, x);
    }
    RootBelow(n, x);
    return x;
  }

  lemma FirstGuess(n: int)
    requires n > 0
    ensures n / n == 1 && n < (n + 1) * (n + 1)
  {
    ModuloIsUnique(n, n, 1, 0);
    assert (n + 1) * (n + 1) == n * n + 2 * n + 1;
  }

  lemma RootBelow(n: int, x: int)
    requires n > 0 && x > 0 && x <= (x + n / x) / 2
    ensures x * x <= n
  {
    var q := n / x;
    assert x * (q - x) >= 0;
    assert x * q == x * (q - x) + x * x;
  }

  lemma QuotientBelow(n: int, x: int)
    requires n > 0 && x > 0
    ensures x * (n / x) <= n < x * (n / x + 1)
  {
    assert x * (n / x + 1) == x * (n / x) + x;
  }

  lemma FourProducts(a: int, b: int)
    ensures 4 * (a * b) <= (a + b) * (a + b)
  {
    SquareIsPositive(a - b);
    assert (a + b) * (a + b) - 4 * (a * b) == Sq(a - b);
  }

  lemma HalfRoundsUp(s: int, y: int, n: int)
    requires 0 <= s <= 2 * (y + 1) && 4 * n < s * s
    ensures n < (y + 1) * (y + 1)
  {
    SquareGrows(s, 2 * (y + 1));
    assert Sq(2 * (y + 1)) == 4 * ((y + 1) * (y + 1));
  }

  /** One Newton step from x > 0 lands at or above the floor of the root:
      n < x * (n / x + 1), and four times a product is at most the squared sum. */
  lemma NewtonStaysAbove(n: int, x: int)
    requires n > 0 && x > 0
    ensures var y := (x + n / x) / 2; n < (y + 1) * (y + 1)
  {
    var q := n / x;
    QuotientBelow(n, x);
    FourProducts(x, q + 1);
    HalfRoundsUp(x + q + 1, (x + q) / 2, n);
  }

  lemma NewtonIsPositive(n: int, x: int)
    requires n > 0 && x > 0 && n < (x + 1) * (x + 1)
    ensures (x + n / x) / 2 > 0
  {
    if x == 1 {
      assert n / 1 == n;
    }
  }

  // ----- Lines of sight -----------------------------------------------------------

  /** The wrapped tile dr rows and dc columns from p. */
  function At(p: Position, dr: int, dc: int, rows: int, cols: int): (q: Position)
    requires rows > 0 && cols > 0
    ensures InGrid(q, rows, cols)
  {
    Wrap(p.row + dr, p.col + dc, rows, cols)
  }

  /** The tile at this offset is in the set if it is within the radius. */
  predicate Lit(p: Position, dr: int, dc: int, radius2: int, rows: int, cols: int, visible: set<Position>)
    requires rows > 0 && cols > 0
  {
    var q := At(p, dr, dc, rows, cols);
    Distance2(p, q, rows, cols) <= radius2 ==> q in visible
  }

  predicate Sees(viewers: seq<Position>, q: Position, radius2: int, rows: int, cols: int)
    requires rows > 0 && cols > 0
  {
    exists i :: 0 <= i < |viewers| && Distance2(viewers[i], q, rows, cols) <= radius2
  }

  /** The visible set is exactly the tiles within squared distance radius2 of some viewer. */
  method VisibleFrom(viewers: seq<Position>, radius2: int, rows: int, cols: int) returns (visible: set<Position>)
    requires rows > 0 && cols > 0
    requires forall i :: 0 <= i < |viewers| ==> InGrid(viewers[i], rows, cols)
    ensures forall q :: q in visible <==> InGrid(q, rows, cols) && Sees(viewers, q, radius2, rows, cols)
  {
    visible := {};
    var radius := SqrtApprox(radius2);
    for i := 0 to |viewers|
      invariant forall q :: q in visible <==> InGrid(q, rows, cols) && Sees(viewers[..i], q, radius2, rows, cols)
    {
      visible := LookAround(viewers[i], radius2, radius, rows, cols, visible);
      forall q {
        SeesOneMore(viewers, i, q, radius2, rows, cols);
      }
    }
    assert viewers[..|viewers|] == viewers;
  }

  /** The two offset loops of VisibleFrom for one viewer. */
  method LookAround(p: Position, radius2: int, radius: int, rows: int, cols: int, before: set<Position>)
    returns (visible: set<Position>)
    requires InGrid(p, rows, cols) && radius >= 0
    requires radius2 >= 0 ==> radius2 < (radius + 1) * (radius + 1)
    ensures forall q :: q in visible <==>
              q in before || (InGrid(q, rows, cols) && Distance2(p, q, rows, cols) <= radius2)
  {
    visible := before;
    for dr: int := -radius to radius + 1
      invariant OnlyNear(p, radius2, rows, cols, before, visible)
      invariant forall r, c {:trigger At(p, r, c, rows, cols)} {:trigger Lit(p, r, c, radius2, rows, cols, visible)} ::
                -radius <= r < dr && -radius <= c <= radius ==> Lit(p, r, c, radius2, rows, cols, visible)
    {
      ghost var above := visible;
      for dc: int := -radius to radius + 1
        invariant OnlyNear(p, radius2, rows, cols, before, visible)
        invariant above <= visible
        invariant forall c {:trigger At(p, dr, c, rows, cols)} {:trigger Lit(p, dr, c, radius2, rows, cols, visible)} ::
                  -radius <= c < dc ==> Lit(p, dr, c, radius2, rows, cols, visible)
      {
        var np := At(p, dr, dc, rows, cols);
        if Distance2(p, np, rows, cols) <= radius2 {
          visible := visible + {np};
        }
      }
    }
    forall q | InGrid(q, rows, cols) && Distance2(p, q, rows, cols) <= radius2
      ensures q in visible
    {
      var r, c := OffsetWithinRadius(p, q, radius2, radius, rows, cols);
      assert Lit(p, r, c, radius2, rows, cols, visible);
    }
  }

  /** The set grew from before by near tiles only. */
  ghost predicate OnlyNear(p: Position, radius2: int, rows: int, cols: int, before: set<Position>,
                           visible: set<Position>)
    requires rows > 0 && cols > 0
  {
    && before <= visible
    && forall q :: q in visible && q !in before ==> InGrid(q, rows, cols) && Distance2(p, q, rows, cols) <= radius2
  }

  lemma SeesOneMore(viewers: seq<Position>, i: nat, q: Position, radius2: int, rows: int, cols: int)
    requires rows > 0 && cols > 0 && i < |viewers|
    ensures Sees(viewers[..i + 1], q, radius2, rows, cols)
            <==> Sees(viewers[..i], q, radius2, rows, cols) || Distance2(viewers[i], q, rows, cols) <= radius2
  {
    if Sees(viewers[..i], q, radius2, rows, cols) {
      var k :| 0 <= k < i && Distance2(viewers[..i][k], q, rows, cols) <= radius2;
      assert viewers[..i + 1][k] == viewers[..i][k];
    }
    if Distance2(viewers[i], q, rows, cols) <= radius2 {
      assert viewers[..i + 1][i] == viewers[i];
    }
    if Sees(viewers[..i + 1], q, radius2, rows, cols) {
      var k :| 0 <= k < i + 1 && Distance2(viewers[..i + 1][k], q, rows, cols) <= radius2;
      assert k < i ==> viewers[..i][k] == viewers[..i + 1][k];
    }
  }

  lemma RootBounds(f: int, radius2: int, radius: int)
    requires radius >= 0
    requires Sq(f) <= radius2 < (radius + 1) * (radius + 1)
    ensures -radius <= f <= radius
  {
    if Abs(f) > radius {
      SquareGrows(radius + 1, f);
      assert false;
    }
  }

  lemma UnfoldAxis(x: int, y: int, n: int)
    requires 0 <= x < n && 0 <= y < n
    ensures WrapAxis(x - Fold(x - y, n), n) == y
  {
    var f := Fold(x - y, n);
    var k := if f == x - y then 0 else if f == x - y - n then 1 else -1;
    WrapAxisIs(x - f, n, k, y);
  }

  lemma OffsetWithinRadius(p: Position, q: Position, radius2: int, radius: int, rows: int, cols: int)
    returns (r: int, c: int)
    requires radius >= 0
    requires InGrid(p, rows, cols) && InGrid(q, rows, cols)
    requires Distance2(p, q, rows, cols) <= radius2
    requires radius2 >= 0 ==> radius2 < (radius + 1) * (radius + 1)
    ensures -radius <= r <= radius && -radius <= c <= radius && At(p, r, c, rows, cols) == q
  {
    var fr, fc := Fold(p.row - q.row, rows), Fold(p.col - q.col, cols);
    SquareIsPositive(fr);
    SquareIsPositive(fc);
    RootBounds(fr, radius2, radius);
    RootBounds(fc, radius2, radius);
    UnfoldAxis(p.row, q.row, rows);
    UnfoldAxis(p.col, q.col, cols);
    r, c := -fr, -fc;
  }
}

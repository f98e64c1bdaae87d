/** The strategy bots' flight from the storm: getZoneEscapeDirection. */
module ZoneEscape {
  import opened Wrappers

  import opened Torus
  import opened GameTypes

  /** (5 tiles)^2, taken off the squared radius. */
  const SAFETY_MARGIN2 := 25

  predicate Threatened(pos: Position, zone: ZoneBounds, rows: int, cols: int)
    requires rows > 0 && cols > 0
  {
    zone.active && Distance2(pos, zone.center, rows, cols) >= zone.radius * zone.radius - SAFETY_MARGIN2
  }

  /** No wall set means every tile counts as passable. */
  predicate Open(pos: Position, d: Direction, walls: Option<set<Position>>, rows: int, cols: int)
    requires rows > 0 && cols > 0
  {
    walls.Some? ==> Move(pos, d, rows, cols) !in walls.value
  }

  /** How much nearer to the centre a step brings the bot. */
  function Gain(pos: Position, d: Direction, center: Position, rows: int, cols: int): int
    requires rows > 0 && cols > 0
  {
    Distance2(pos, center, rows, cols) - Distance2(Move(pos, d, rows, cols), center, rows, cols)
  }

  method GetZoneEscapeDirection(pos: Position, zone: Option<ZoneBounds>, walls: Option<set<Position>>,
                                rows: int, cols: int) returns (dir: Direction)
    requires rows > 0 && cols > 0
    requires InGrid(pos, rows, cols)
    requires zone.Some? ==> InGrid(zone.value.center, rows, cols)
    // safe bots are left alone
    ensures zone.None? || !Threatened(pos, zone.value, rows, cols) ==> dir == DirNone
    ensures zone.Some? ==>
              (Threatened(pos, zone.value, rows, cols) <==>
                 zone.value.active
                 && Distance2(pos, zone.value.center, rows, cols) >= zone.value.radius * zone.value.radius - 25)
    // a returned direction is open and strictly lowers the engine's distance to the centre ...
    ensures dir != DirNone ==>
              && zone.Some? && Open(pos, dir, walls, rows, cols)
              && Distance2(Move(pos, dir, rows, cols), zone.value.center, rows, cols)
                 < Distance2(pos, zone.value.center, rows, cols)
    // ... by as much as any open step can, the first such in compass order
    ensures dir != DirNone ==>
              exists k :: 0 <= k < |COMPASS| && COMPASS[k] == dir
                && (forall j :: 0 <= j < |COMPASS| && Open(pos, COMPASS[j], walls, rows, cols) ==>
                      Gain(pos, COMPASS[j], zone.value.center, rows, cols)
                      <= Gain(pos, dir, zone.value.center, rows, cols))
                && (forall j :: 0 <= j < k && Open(pos, COMPASS[j], walls, rows, cols) ==>
                      Gain(pos, COMPASS[j], zone.value.center, rows, cols)
                      < Gain(pos, dir, zone.value.center, rows, cols))
    // a threatened bot stays put only when no open step helps
    ensures dir == DirNone && zone.Some? && Threatened(pos, zone.value, rows, cols) ==>
              forall j :: 0 <= j < |COMPASS| && Open(pos, COMPASS[j], walls, rows, cols) ==>
                Gain(pos, COMPASS[j], zone.value.center, rows, cols) <= 0
    // with no walls to avoid, a threatened bot away from the centre always gets a direction
    ensures zone.Some? && Threatened(pos, zone.value, rows, cols) && walls.None? && pos != zone.value.center ==>
              dir != DirNone
  {
    if zone.None? || !zone.value.active {
      return DirNone;
    }
    var center := zone.value.center;
    var dist2 := Distance2(pos, center, rows, cols);
    if dist2 < zone.value.radius * zone.value.radius - SAFETY_MARGIN2 {
      return DirNone;
    }
    var bestDir, bestReduction := DirNone, 0;
    ghost var best := -1;
    for i := 0 to |COMPASS|
      invariant bestDir == DirNone <==> best == -1
      invariant best == -1 ==> bestReduction == 0
      invariant best != -1 ==> 0 <= best < i && COMPASS[best] == bestDir && Open(pos, bestDir, walls, rows, cols)
      invariant best != -1 ==> 0 < bestReduction == Gain(pos, bestDir, center, rows, cols)
      invariant forall j :: 0 <= j < i && Open(pos, COMPASS[j], walls, rows, cols) ==>
                  Gain(pos, COMPASS[j], center, rows, cols) <= bestReduction
      invariant forall j :: 0 <= j < best && Open(pos, COMPASS[j], walls, rows, cols) ==>
                  Gain(pos, COMPASS[j], center, rows, cols) < bestReduction
    {
      var newPos := Move(pos, COMPASS[i], rows, cols);
      if walls.Some? && newPos in walls.value {
        continue;
      }
      var reduction := dist2 - Distance2(newPos, center, rows, cols);
      if reduction > bestReduction {
        bestReduction, bestDir, best := reduction, COMPASS[i], i;
      }
    }
    if pos != center {
      var k := SomeStepApproaches(pos, center, rows, cols);
      assert Gain(pos, COMPASS[k], center, rows, cols) > 0;
    }
    return bestDir;
  }

  /** One of the two steps along an axis shortens a nonzero folded difference. */
  lemma AxisStepApproaches(x: int, c: int, n: int, s: int)
    requires 0 <= x < n && 0 <= c < n
    requires Fold(x - c, n) != 0
    requires s == if Fold(x - c, n) > 0 then -1 else 1
    ensures Sq(Fold(WrapAxis(x + s, n) - c, n)) < Sq(Fold(x - c, n))
  {
    var f, y := Fold(x - c, n), WrapAxis(x + s, n);
    if 0 <= x + s < n {
      WrapAxisIs(x + s, n, 0, x + s);
    } else if x + s < 0 {
      WrapAxisIs(x + s, n, -1, n - 1);
    } else {
      WrapAxisIs(x + s, n, 1, 0);
    }
    var u := f + s - (y - c);
    assert u == 0 || u == n || u == -n || u == 2 * n || u == -2 * n;
    var k := if u == 0 then 0 else if u == n then 1 else if u == -n then -1 else if u == 2 * n then 2 else -2;
    FoldIsLeast(y - c, n, k);
    SquareGrows(f + s, f);
  }

  lemma SomeStepApproaches(pos: Position, center: Position, rows: int, cols: int) returns (k: int)
    requires InGrid(pos, rows, cols) && InGrid(center, rows, cols) && pos != center
    ensures 0 <= k < |COMPASS|
    ensures Distance2(Move(pos, COMPASS[k], rows, cols), center, rows, cols) < Distance2(pos, center, rows, cols)
  {
    var fr := Fold(pos.row - center.row, rows);
    if fr != 0 {
      k := if fr > 0 then 0 else 2;
      StepAlongRows(pos, COMPASS[k], center, rows, cols);
    } else {
      DistanceIsZeroOnlyAtHome(pos, center, rows, cols);
      k := if Fold(pos.col - center.col, cols) > 0 then 3 else 1;
      StepAlongCols(pos, COMPASS[k], center, rows, cols);
    }
  }

  lemma StepAlongRows(pos: Position, d: Direction, center: Position, rows: int, cols: int)
    requires InGrid(pos, rows, cols) && InGrid(center, rows, cols)
    requires var f := Fold(pos.row - center.row, rows); f != 0 && d == (if f > 0 then DirN else DirS)
    ensures Distance2(Move(pos, d, rows, cols), center, rows, cols) < Distance2(pos, center, rows, cols)
  {
    AxisStepApproaches(pos.row, center.row, rows, DeltaRow(d));
    WrapAxisIs(pos.col, cols, 0, pos.col);
  }

  lemma StepAlongCols(pos: Position, d: Direction, center: Position, rows: int, cols: int)
    requires InGrid(pos, rows, cols) && InGrid(center, rows, cols)
    requires var f := Fold(pos.col - center.col, cols); f != 0 && d == (if f > 0 then DirW else DirE)
    ensures Distance2(Move(pos, d, rows, cols), center, rows, cols) < Distance2(pos, center, rows, cols)
  {
    AxisStepApproaches(pos.col, center.col, cols, DeltaCol(d));
    WrapAxisIs(pos.row, rows, 0, pos.row);
  }
}

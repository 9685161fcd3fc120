/** The uniform-grid hash of placed footprints, and its agreement with a scan of every footprint. */
module SpatialIndex {
  import opened Seqs

  datatype Disc = Disc(x: real, y: real, r: real)

  type Cell = (int, int)

  type CellSize = c: real | c > 0.0 witness 1.0

  /** A footprint of radius r at (x, y) overlaps p: the centres are closer than the radii together. */
  predicate Touches(p: Disc, x: real, y: real, r: real) {
    var minDist := r + p.r;
    (x - p.x) * (x - p.x) + (y - p.y) * (y - p.y) < minDist * minDist
  }

  /** The plain scan of a list of footprints. */
  predicate Blocked(placed: seq<Disc>, x: real, y: real, r: real) {
    exists p | p in placed :: Touches(p, x, y, r)
  }

  function Ceil(x: real): (n: int)
    ensures x <= n as real < x + 1.0
  {
    -(-x).Floor
  }

  function KeyOf(cell: real, x: real, y: real): Cell
    requires cell > 0.0
  {
    ((x / cell).Floor, (y / cell).Floor)
  }

  function InCell(cell: real, k: Cell): Disc -> bool
    requires cell > 0.0
  {
    (p: Disc) => KeyOf(cell, p.x, p.y) == k
  }

  lemma SquareGrows(d: real, m: real)
    requires m >= 0.0
    ensures d >= m || -d >= m ==> d * d >= m * m
  {
    assert (-d) * (-d) == d * d;
  }

  lemma SquareBound(d: real, e: real, m: real)
    requires m >= 0.0
    ensures d * d + e * e < m * m ==> -m < d < m
  {
    SquareGrows(d, m);
    SquareGrows(e, 0.0);
  }

  lemma ScaleMonotone(p: real, q: real, c: real)
    requires c > 0.0
    ensures p >= q ==> p * c >= q * c
  {
  }

  lemma DivideLess(u: real, v: real, c: real)
    requires c > 0.0
    ensures u < v ==> u / c < v / c
  {
    assert (u / c) * c == u && (v / c) * c == v;
    ScaleMonotone(u / c, v / c, c);
  }

  /** Coordinates closer than reach fall at most Ceil(reach / cell) grid columns apart. */
  lemma ColumnsApart(cell: real, reach: real, a: real, b: real)
    requires cell > 0.0
    ensures -reach < a - b < reach ==>
              -Ceil(reach / cell) <= (b / cell).Floor - (a / cell).Floor <= Ceil(reach / cell)
  {
    DivideLess(a, b + reach, cell);
    DivideLess(b, a + reach, cell);
    assert (b + reach) / cell == b / cell + reach / cell;
    assert (a + reach) / cell == a / cell + reach / cell;
    assert reach / cell <= Ceil(reach / cell) as real;
  }

  /** k is one of the cells visited by a query that starts in cell base. */
  predicate Visited(base: Cell, span: int, k: Cell) {
    -span <= k.0 - base.0 <= span && -span <= k.1 - base.1 <= span
  }

  function Abs(x: real): real {
    if x < 0.0 then -x else x
  }

  /** The cells that a query of radius r visits are enough for footprints of radius q. */
  predicate Reaches(cell: real, maxR: real, r: real, q: real)
    requires cell > 0.0
  {
    r + q == 0.0 || Ceil(Abs(r + q) / cell) <= Ceil((r + maxR) / cell)
  }

  /** An overlapping footprint lies in a cell the query visits, if the query reaches its radius. */
  lemma TouchingIsVisited(cell: real, maxR: real, p: Disc, x: real, y: real, r: real)
    requires cell > 0.0 && Reaches(cell, maxR, r, p.r)
    ensures Touches(p, x, y, r) ==>
              Visited(KeyOf(cell, x, y), Ceil((r + maxR) / cell), KeyOf(cell, p.x, p.y))
  {
    TouchingIsNear(p, x, y, r);
    NearIsVisited(cell, r + p.r, Ceil((r + maxR) / cell), x, y, p.x, p.y);
  }

  lemma TouchingIsNear(p: Disc, x: real, y: real, r: real)
    ensures Touches(p, x, y, r) ==> Abs(x - p.x) < Abs(r + p.r) && Abs(y - p.y) < Abs(r + p.r)
  {
    WithinSum(x - p.x, y - p.y, r + p.r);
  }

  lemma NearIsVisited(cell: real, s: real, span: int, x: real, y: real, px: real, py: real)
    requires cell > 0.0 && (s == 0.0 || Ceil(Abs(s) / cell) <= span)
    ensures Abs(x - px) < Abs(s) && Abs(y - py) < Abs(s) ==> Visited(KeyOf(cell, x, y), span, KeyOf(cell, px, py))
  {
    ColumnsWithin(cell, s, span, x, px);
    ColumnsWithin(cell, s, span, y, py);
  }

  lemma WithinSum(dx: real, dy: real, s: real)
    ensures dx * dx + dy * dy < s * s ==> -Abs(s) < dx < Abs(s) && -Abs(s) < dy < Abs(s)
  {
    AbsSquare(s);
    SquareBound(dx, dy, Abs(s));
    SquareBound(dy, dx, Abs(s));
  }

  lemma AbsSquare(s: real)
    ensures Abs(s) * Abs(s) == s * s
  {
  }

  lemma ColumnsWithin(cell: real, s: real, span: int, a: real, b: real)
    requires cell > 0.0 && (s == 0.0 || Ceil(Abs(s) / cell) <= span)
    ensures -Abs(s) < a - b < Abs(s) ==> -span <= (b / cell).Floor - (a / cell).Floor <= span
  {
    ColumnsApart(cell, Abs(s), a, b);
  }

  lemma CeilAbove(m: real, cell: real, span: int)
    requires cell > 0.0 && Ceil(m / cell) > span
    ensures m > span as real * cell
  {
    assert m / cell > span as real;
    assert (m / cell) * cell == m;
    ScaleStrict(span as real, m / cell, cell);
  }

  lemma ScaleStrict(p: real, q: real, c: real)
    requires c > 0.0 && p < q
    ensures p * c < q * c
  {
  }

  lemma ColumnOfMultiple(cell: real, n: int, far: real)
    requires cell > 0.0 && far == n as real * cell
    ensures (far / cell).Floor == n
  {
    assert far / cell == n as real;
  }

  lemma ColumnZero(cell: real, x: real)
    requires cell > 0.0 && 0.0 <= x < cell
    ensures (x / cell).Floor == 0
  {
    DivideLess(x, cell, cell);
    assert cell / cell == 1.0;
    assert x / cell >= 0.0;
  }

  /** Where the query does not reach, some overlapping footprint lies beyond the cells it visits. */
  lemma BeyondReach(cell: real, maxR: real, r: real, q: real) returns (p: Disc, x: real)
    requires cell > 0.0 && !Reaches(cell, maxR, r, q)
    ensures p.r == q && Touches(p, x, 0.0, r)
    ensures !Visited(KeyOf(cell, x, 0.0), Ceil((r + maxR) / cell), KeyOf(cell, p.x, p.y))
  {
    var span, m := Ceil((r + maxR) / cell), Abs(r + q);
    AbsSquare(r + q);
    ColumnZero(cell, 0.0);
    var far := 0.0;
    x := 0.0;
    if span < 0 {
      SquareLess(0.0, m);
    } else {
      far, x := FarQuery(cell, span, m);
      SquareLess(far - x, m);
    }
    p := Disc(far, 0.0, q);
    assert (x - far) * (x - far) == (far - x) * (far - x);
  }

  /** Two coordinates less than m apart that lie span + 1 columns apart. */
  lemma FarQuery(cell: real, span: int, m: real) returns (far: real, x: real)
    requires cell > 0.0 && span >= 0 && m > 0.0 && Ceil(m / cell) > span
    ensures (far / cell).Floor == span + 1 && (x / cell).Floor == 0 && 0.0 <= far - x < m
  {
    far := (span + 1) as real * cell;
    CeilAbove(m, cell, span);
    assert far == span as real * cell + cell;
    ScaleMonotone((span + 1) as real, 1.0, cell);
    x := Near(far, m, cell);
    ColumnZero(cell, x);
    ColumnOfMultiple(cell, span + 1, far);
  }

  lemma Near(far: real, m: real, cell: real) returns (x: real)
    requires 0.0 < cell <= far < m + cell && m > 0.0
    ensures 0.0 <= x < cell && 0.0 <= far - x < m
  {
    x := if far < m then 0.0 else (far - m + cell) / 2.0;
  }

  lemma SquareLess(a: real, b: real)
    requires 0.0 <= a < b
    ensures a * a < b * b
  {
    PositiveProduct(b - a, b + a);
    assert (b - a) * (b + a) == b * b - a * a;
  }

  lemma PositiveProduct(u: real, v: real)
    requires u > 0.0 && v > 0.0
    ensures u * v > 0.0
  {
  }

  /** Every overlapping footprint of radius q, anywhere, is in a cell that a query of radius r visits. */
  ghost predicate FindsAll(cell: real, maxR: real, r: real, q: real)
    requires cell > 0.0
  {
    forall p: Disc, x: real, y: real | p.r == q && Touches(p, x, y, r) ::
      Visited(KeyOf(cell, x, y), Ceil((r + maxR) / cell), KeyOf(cell, p.x, p.y))
  }

  /** Visiting the cells suffices exactly where the query reaches, for any cell size and radii of any sign. */
  lemma FindsAllExactly(cell: real, maxR: real, r: real, q: real)
    requires cell > 0.0
    ensures FindsAll(cell, maxR, r, q) <==> Reaches(cell, maxR, r, q)
  {
    if Reaches(cell, maxR, r, q) {
      forall p: Disc, x: real, y: real | p.r == q && Touches(p, x, y, r)
        ensures Visited(KeyOf(cell, x, y), Ceil((r + maxR) / cell), KeyOf(cell, p.x, p.y))
      {
        TouchingIsVisited(cell, maxR, p, x, y, r);
      }
    } else {
      var p, x := BeyondReach(cell, maxR, r, q);
      assert p.r == q && Touches(p, x, 0.0, r);
    }
  }

  /** The query as the grid sees it: some footprint of a visited cell overlaps. */
  predicate GridBlocked(cell: real, maxR: real, placed: seq<Disc>, x: real, y: real, r: real)
    requires cell > 0.0
  {
    exists p | p in placed :: Touches(p, x, y, r)
                              && Visited(KeyOf(cell, x, y), Ceil((r + maxR) / cell), KeyOf(cell, p.x, p.y))
  }

  /** Looking only at the visited cells answers what scanning everything does, wherever the query reaches. */
  lemma GridIsScan(cell: real, maxR: real, placed: seq<Disc>, x: real, y: real, r: real)
    requires cell > 0.0 && forall p | p in placed :: Reaches(cell, maxR, r, p.r)
    ensures GridBlocked(cell, maxR, placed, x, y, r) <==> Blocked(placed, x, y, r)
  {
    forall p | p in placed && Touches(p, x, y, r)
      ensures Visited(KeyOf(cell, x, y), Ceil((r + maxR) / cell), KeyOf(cell, p.x, p.y))
    {
      TouchingIsVisited(cell, maxR, p, x, y, r);
    }
  }

  lemma CeilMonotone(a: real, b: real, cell: real)
    requires cell > 0.0 && a <= b
    ensures Ceil(a / cell) <= Ceil(b / cell)
  {
    if a < b {
      DivideLess(a, b, cell);
    }
  }

  /** Radii from 0 to maxR are within reach of one another, whatever the cell size. */
  lemma NonNegativeReaches(cell: real, maxR: real, r: real, q: real)
    requires cell > 0.0 && r >= 0.0 && 0.0 <= q <= maxR
    ensures Reaches(cell, maxR, r, q)
  {
    CeilMonotone(Abs(r + q), r + maxR, cell);
  }

  /** So for radii that make geometric sense the cell size never matters. */
  lemma AnyCellSizeAgrees(cell: real, maxR: real, placed: seq<Disc>, x: real, y: real, r: real)
    requires cell > 0.0 && r >= 0.0
    requires forall p | p in placed :: 0.0 <= p.r <= maxR
    ensures GridBlocked(cell, maxR, placed, x, y, r) <==> Blocked(placed, x, y, r)
  {
    forall p | p in placed ensures Reaches(cell, maxR, r, p.r) {
      NonNegativeReaches(cell, maxR, r, p.r);
    }
    GridIsScan(cell, maxR, placed, x, y, r);
  }

  /** The cell size the hash uses. */
  function CellFor(maxR: real): CellSize {
    if maxR * 2.0 <= 0.0 then 1.0 else maxR * 2.0
  }

  /** A radius that is not negative, or smaller in size than the largest. */
  predicate InReach(maxR: real, r: real) {
    r >= 0.0 || -r < maxR
  }

  lemma CeilUnit(a: real, cell: real)
    requires cell > 0.0
    ensures a <= cell ==> Ceil(a / cell) <= 1
    ensures a > 0.0 ==> Ceil(a / cell) >= 1
    ensures a <= 0.0 ==> Ceil(a / cell) <= 0
  {
    assert cell / cell == 1.0 && 0.0 / cell == 0.0;
    if a <= cell {
      CeilMonotone(a, cell, cell);
    }
    if a > 0.0 {
      DivideLess(0.0, a, cell);
    }
    if a <= 0.0 {
      CeilMonotone(a, 0.0, cell);
    }
  }

  lemma InReachReaches(maxR: real, r: real, q: real)
    requires maxR >= 0.0 && r <= maxR && q <= maxR && InReach(maxR, r) && InReach(maxR, q)
    ensures Reaches(CellFor(maxR), maxR, r, q)
  {
    if maxR > 0.0 {
      CeilUnit(Abs(r + q), CellFor(maxR));
      CeilUnit(r + maxR, CellFor(maxR));
    }
  }

  lemma OutOfReachMisses(maxR: real, r: real)
    requires maxR >= 0.0 && !InReach(maxR, r)
    ensures !Reaches(CellFor(maxR), maxR, r, r)
  {
    CeilUnit(Abs(r + r), CellFor(maxR));
    CeilUnit(r + maxR, CellFor(maxR));
  }

  /** The hash with the largest radius maxR answers as a scan does, for footprints and queries with these radii. */
  ghost predicate AgreesOn(maxR: real, radii: set<real>) {
    forall placed: seq<Disc>, x: real, y: real, r: real | r in radii && RadiiAmong(placed, radii) ::
      GridBlocked(CellFor(maxR), maxR, placed, x, y, r) <==> Blocked(placed, x, y, r)
  }

  ghost predicate RadiiAmong(placed: seq<Disc>, radii: set<real>) {
    forall p | p in placed :: p.r in radii
  }

  /** The hash agrees with the scan exactly when no radius is negative and as large in size as the largest. */
  lemma AgreesExactly(maxR: real, radii: set<real>)
    requires maxR >= 0.0 && forall r | r in radii :: r <= maxR
    ensures AgreesOn(maxR, radii) <==> forall r | r in radii :: InReach(maxR, r)
  {
    if forall r | r in radii :: InReach(maxR, r) {
      forall placed: seq<Disc>, x: real, y: real, r: real | r in radii && RadiiAmong(placed, radii)
        ensures GridBlocked(CellFor(maxR), maxR, placed, x, y, r) <==> Blocked(placed, x, y, r)
      {
        forall p | p in placed ensures Reaches(CellFor(maxR), maxR, r, p.r) {
          InReachReaches(maxR, r, p.r);
        }
        GridIsScan(CellFor(maxR), maxR, placed, x, y, r);
      }
    } else {
      var r :| r in radii && !InReach(maxR, r);
      OutOfReachMisses(maxR, r);
      var p, x := BeyondReach(CellFor(maxR), maxR, r, r);
      assert p in [p] && RadiiAmong([p], radii);
      assert Blocked([p], x, 0.0, r) && !GridBlocked(CellFor(maxR), maxR, [p], x, 0.0, r);
    }
  }

  /** For one, two equal negative radii touch by the formula, but no cell is visited. */
  lemma NegativeRadiusIsMissed()
    ensures var placed := [Disc(0.0, 0.0, -5.0)];
            Blocked(placed, 1.0, 0.0, -5.0) && !GridBlocked(1.0, 0.0, placed, 1.0, 0.0, -5.0)
  {
    var p := Disc(0.0, 0.0, -5.0);
    assert Touches(p, 1.0, 0.0, -5.0);
    assert p in [p];
    assert Ceil((-5.0 + 0.0) / 1.0) == -5;
  }

  class SpatialHash {
    const cell: real
    const maxR: real
    var cells: map<Cell, seq<Disc>>
    ghost var inserted: seq<Disc>

    function Bucket(k: Cell): seq<Disc>
      reads this
    {
      if k in cells then cells[k] else []
    }

    /** Bucket k holds exactly the inserted footprints of that cell, in insertion order. */
    ghost predicate Valid()
      reads this
    {
      && cell == CellFor(maxR)
      && (forall k: Cell :: Bucket(k) == Filter(inserted, InCell(cell, k)))
    }

    constructor (maxRadius: real)
      ensures Valid() && inserted == [] && maxR == maxRadius
      ensures cell == if maxRadius > 0.0 then 2.0 * maxRadius else 1.0
    {
      var size := maxRadius * 2.0;
      if size <= 0.0 {
        size := 1.0;
      }
      cell, maxR, cells, inserted := size, maxRadius, map[], [];
    }

    method Insert(p: Disc)
      requires Valid()
      modifies this
      ensures Valid() && inserted == old(inserted) + [p]
    {
      var k := KeyOf(cell, p.x, p.y);
      cells := cells[k := (if k in cells then cells[k] else []) + [p]];
      inserted := inserted + [p];
      forall j: Cell ensures Bucket(j) == Filter(inserted, InCell(cell, j)) {
        FilterPush(old(inserted), p, InCell(cell, j));
        assert old(Bucket(j)) == Filter(old(inserted), InCell(cell, j));
      }
    }

    /** No footprint in bucket k overlaps the query. */
    ghost predicate Clear(k: Cell, x: real, y: real, r: real)
      reads this
    {
      forall p | p in Bucket(k) :: !Touches(p, x, y, r)
    }

    /** Hits exactly the overlapping footprints of the visited cells: all there are, where the query reaches. */
    method Overlaps(x: real, y: real, r: real) returns (hit: bool)
      requires Valid()
      ensures hit <==> GridBlocked(cell, maxR, inserted, x, y, r)
      ensures (forall p | p in inserted :: Reaches(cell, maxR, r, p.r)) ==> (hit <==> Blocked(inserted, x, y, r))
    {
      if forall p | p in inserted :: Reaches(cell, maxR, r, p.r) {
        GridIsScan(cell, maxR, inserted, x, y, r);
      }
      var reach := r + maxR;
      var span := Ceil(reach / cell);
      var base := KeyOf(cell, x, y);
      var dx := -span;
      while dx <= span
        invariant forall k | Visited(base, span, k) && k.0 - base.0 < dx :: Clear(k, x, y, r)
      {
        var dy := -span;
        while dy <= span
          invariant forall k | Visited(base, span, k) && k.0 - base.0 == dx && k.1 - base.1 < dy :: Clear(k, x, y, r)
        {
          var k := (base.0 + dx, base.1 + dy);
          var bucket := if k in cells then cells[k] else [];
          for n := 0 to |bucket|
            invariant forall m | 0 <= m < n :: !Touches(bucket[m], x, y, r)
          {
            if Touches(bucket[n], x, y, r) {
              FilterMember(inserted, InCell(cell, k), bucket[n]);
              return true;
            }
          }
          dy := dy + 1;
        }
        dx := dx + 1;
      }
      hit := false;
      forall p | p in inserted && Visited(base, span, KeyOf(cell, p.x, p.y)) ensures !Touches(p, x, y, r) {
        FilterMember(inserted, InCell(cell, KeyOf(cell, p.x, p.y)), p);
      }
    }
  }
}

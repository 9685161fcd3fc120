/** Exactly which manifests keep the documented placement guarantees, and which recipes always fit. */
module PlacementLimits {
  import opened Seqs
  import opened Wire
  import opened SpatialIndex
  import opened CanonicalOrder
  import opened Placement
  import opened HashAgreement
  import opened PlacementProperties

  /** Whatever is asked for and whatever is drawn, placed footprints are disjoint. */
  ghost predicate AlwaysDisjoint(man: Manifest) {
    forall recipe: seq<CategoryRecipe>, stream: Stream, bounds: Bounds ::
      ValidCounts(recipe) && DistinctCategories(recipe) ==>
        var res := PlaceByGrid(recipe, stream, bounds, man);
        res.Placed? ==> Disjoint(Map(FootprintIn(man), res.entries))
  }

  /** Fractions of 0 everywhere, except that the second dart lands half way across. */
  function HalfAtFour(k: nat): Unit {
    if k == 4 then 0.5 else 0.0
  }

  const SKEWED := Stream(k => HalfAtFour(k), k => 0, a => 1.0, a => 0.0)
  const POINT := Bounds(Vec2(0.0, 0.0), Vec2(0.0, 0.0))

  function Pair(c: string): CategoryRecipe {
    CategoryRecipe(c, 2, 0.0, [])
  }

  lemma FirstDart(r: real)
    requires r < 0.0
    ensures FindSpot(HashProbe(0.0), SKEWED, 0.0, Inset(POINT, r), r, [], [], 0, MAX_ATTEMPTS) == (Some(Vec2(r, r)), 2)
  {
    assert UniformPoint(Inset(POINT, r), 0.0, 0.0) == Vec2(r, r);
  }

  lemma SecondDart(r: real)
    requires r < 0.0
    ensures var placed := [Disc(r, r, r)];
            FindSpot(HashProbe(0.0), SKEWED, 0.0, Inset(POINT, r), r, placed, placed, 4, MAX_ATTEMPTS)
              == (Some(Vec2(0.0, r)), 6)
  {
    var placed := [Disc(r, r, r)];
    assert UniformPoint(Inset(POINT, r), 0.5, 0.0) == Vec2(0.0, r);
    CeilUnit(r, 1.0);
    assert !Hits(HashProbe(0.0), placed, 0.0, r, r);
  }

  lemma PairMembers(me: ManifestEntry, c: string)
    requires me.footprintRadius < 0.0
    ensures var r := me.footprintRadius;
            var l := AddMember(SKEWED, Pair(c), me, Vec2(r, r), 2, EMPTY_LAYOUT);
            PlaceMembers(HashProbe(0.0), SKEWED, Pair(c), me, Inset(POINT, r), 2, 0, EMPTY_LAYOUT)
              == Done(AddMember(SKEWED, Pair(c), me, Vec2(0.0, r), 6, l))
  {
    var r := me.footprintRadius;
    var l := AddMember(SKEWED, Pair(c), me, Vec2(r, r), 2, EMPTY_LAYOUT);
    FirstDart(r);
    SecondDart(r);
    MembersStep(HashProbe(0.0), SKEWED, Pair(c), me, Inset(POINT, r), 2, 0, EMPTY_LAYOUT);
    MembersStep(HashProbe(0.0), SKEWED, Pair(c), me, Inset(POINT, r), 1, 0, l);
    assert l.discs[0..] == l.discs == [Disc(r, r, r)] && l.draws == 4;
  }

  /** A displacement along x by less than the sum of the radii is an overlap. */
  lemma TouchesAlong(p: Disc, x: real, r: real, d: real, m: real)
    requires x - p.x == d && r + p.r == m && d * d < m * m
    ensures Touches(p, x, p.y, r)
  {
    assert (p.y - p.y) * (p.y - p.y) == 0.0;
  }

  lemma DoubleSquare(d: real, m: real)
    requires d > 0.0 && m == -2.0 * d
    ensures d * d < m * m
  {
    SquareLess(d, -m);
    assert (-m) * (-m) == m * m;
  }

  lemma AcrossTouches(r: real)
    requires r < 0.0
    ensures Touches(Disc(r, r, r), 0.0, r, r)
  {
    DoubleSquare(-r, r + r);
    TouchesAlong(Disc(r, r, r), 0.0, r, -r, r + r);
  }

  lemma SingleItem(man: Manifest, it: CategoryRecipe, stream: Stream, bounds: Bounds)
    requires it.category in man && man[it.category].footprintRadius < 0.0
    ensures PlaceByGrid([it], stream, bounds, man)
         == match PlaceItem(HashProbe(0.0), stream, man, bounds, it, EMPTY_LAYOUT)
            case Done(l) => Placed(l.entries, l.draws)
            case Stuck(c, why, draws) => Failed(c, why, draws)
  {
    assert Canonical(man, [it]) == [it];
    assert [it][1..] == [];
    assert MaxRadius(man, [it]) == 0.0;
    assert FirstUnknown(man, [it]).None?;
    var out := PlaceItem(HashProbe(0.0), stream, man, bounds, it, EMPTY_LAYOUT);
    assert PlaceItems(HashProbe(0.0), stream, man, bounds, [it], EMPTY_LAYOUT) == out;
  }

  /** Two members of a category with a negative radius, on their own, can be placed on top of each other. */
  lemma PairOverlaps(man: Manifest, c: string)
    requires c in man && man[c].footprintRadius < 0.0
    ensures var res := PlaceByGrid([Pair(c)], SKEWED, POINT, man);
            res.Placed? && !Disjoint(Map(FootprintIn(man), res.entries))
  {
    var r := man[c].footprintRadius;
    PairMembers(man[c], c);
    SingleItem(man, Pair(c), SKEWED, POINT);
    var res := PlaceByGrid([Pair(c)], SKEWED, POINT, man);
    assert res.Placed? && |res.entries| == 2;
    var discs := Map(FootprintIn(man), res.entries);
    assert discs[0] == Disc(r, r, r) && discs[1] == Disc(0.0, r, r);
    AcrossTouches(r);
  }

  /** The documented disjointness holds for a manifest, whatever is placed, exactly if no radius is negative. */
  lemma DisjointExactly(man: Manifest)
    ensures AlwaysDisjoint(man) <==> NonNegativeRadii(man)
  {
    if NonNegativeRadii(man) {
      forall recipe: seq<CategoryRecipe>, stream: Stream, bounds: Bounds
        ensures var res := PlaceByGrid(recipe, stream, bounds, man);
                res.Placed? ==> Disjoint(Map(FootprintIn(man), res.entries))
      {
        NonNegativeInReach(man, recipe);
        PlacedIsSound(recipe, stream, bounds, man);
      }
    } else {
      var c :| c in man && man[c].footprintRadius < 0.0;
      PairOverlaps(man, c);
    }
  }

  /** Whatever is asked for and whatever is drawn, placed footprints are wholly in bounds, their centres included. */
  ghost predicate AlwaysInside(man: Manifest) {
    forall recipe: seq<CategoryRecipe>, stream: Stream, bounds: Bounds ::
      ValidCounts(recipe) && DistinctCategories(recipe) ==>
        var res := PlaceByGrid(recipe, stream, bounds, man);
        res.Placed? ==> forall e | e in res.entries :: Inside(bounds, Footprint(man, e))
  }

  /** The same pair is placed outside the bounds. */
  lemma PairOutside(man: Manifest, c: string)
    requires c in man && man[c].footprintRadius < 0.0
    ensures var res := PlaceByGrid([Pair(c)], SKEWED, POINT, man);
            res.Placed? && |res.entries| == 2 && !InBox(POINT, res.entries[0].location)
  {
    PairMembers(man[c], c);
    SingleItem(man, Pair(c), SKEWED, POINT);
  }

  /** The documented containment holds for a manifest, whatever is placed, exactly if no radius is negative. */
  lemma InsideExactly(man: Manifest)
    ensures AlwaysInside(man) <==> NonNegativeRadii(man)
  {
    if NonNegativeRadii(man) {
      forall recipe: seq<CategoryRecipe>, stream: Stream, bounds: Bounds
        ensures var res := PlaceByGrid(recipe, stream, bounds, man);
                res.Placed? ==> forall e | e in res.entries :: Inside(bounds, Footprint(man, e))
      {
        PlacedIsSound(recipe, stream, bounds, man);
      }
    } else {
      var c :| c in man && man[c].footprintRadius < 0.0;
      PairOutside(man, c);
      var res := PlaceByGrid([Pair(c)], SKEWED, POINT, man);
      assert res.entries[0] in res.entries;
    }
  }

  // ---- overlaps that no stream avoids ----

  /** With a radius of at most -1 on its own the hash visits no cell at all. */
  lemma NothingHit(placed: seq<Disc>, x: real, y: real, r: real)
    requires r <= -1.0
    ensures !Hits(HashProbe(0.0), placed, x, y, r)
  {
    assert CellFor(0.0) == 1.0 && (r + 0.0) / 1.0 == r;
    assert Ceil(r) < 0;
  }

  lemma FirstDartLands(stream: Stream, box: Bounds, r: real, anchors: seq<Disc>, placed: seq<Disc>, draws: nat)
    requires r <= -1.0 && Fits(box)
    ensures var (spot, next) := FindSpot(HashProbe(0.0), stream, 0.0, box, r, anchors, placed, draws, MAX_ATTEMPTS);
            spot.Some? && InBox(box, spot.value)
  {
    var (at, next) := Dart(stream, 0.0, box, r, anchors, draws);
    NothingHit(placed, at.x, at.y, r);
    DartInBox(stream, 0.0, box, r, anchors, draws);
  }

  lemma NearTouches(box: Bounds, r: real, a: Vec2, b: Vec2)
    requires r < 0.0 && InBox(box, a) && InBox(box, b)
    requires box.max.x - box.min.x <= -r && box.max.y - box.min.y <= -r
    ensures Touches(Disc(a.x, a.y, r), b.x, b.y, r)
  {
    DoubleIsMore(-r, r + r);
    TwoSquares(b.x - a.x, b.y - a.y, -r, r + r);
    TouchesBy(Disc(a.x, a.y, r), b.x, b.y, r, b.x - a.x, b.y - a.y, r + r);
  }

  lemma DoubleIsMore(m: real, s: real)
    requires m > 0.0 && s == -2.0 * m
    ensures 2.0 * (m * m) < s * s
  {
    SquareLess(0.0, m);
    assert s * s == 4.0 * (m * m);
  }

  /** A displacement of at most m along each axis is no longer than the root of 2 * m * m. */
  lemma TwoSquares(dx: real, dy: real, m: real, s: real)
    requires m > 0.0 && -m <= dx <= m && -m <= dy <= m && 2.0 * (m * m) < s * s
    ensures dx * dx + dy * dy < s * s
  {
    SquareWithin(dx, m);
    SquareWithin(dy, m);
    SumBelow(dx * dx, dy * dy, m * m, s * s);
  }

  lemma SumBelow(u: real, v: real, bound: real, total: real)
    requires u <= bound && v <= bound && 2.0 * bound < total
    ensures u + v < total
  {
  }

  lemma TouchesBy(p: Disc, x: real, y: real, r: real, dx: real, dy: real, s: real)
    requires dx == x - p.x && dy == y - p.y && s == r + p.r && dx * dx + dy * dy < s * s
    ensures Touches(p, x, y, r)
  {
  }

  lemma SquareWithin(d: real, m: real)
    requires -m <= d <= m
    ensures d * d <= m * m
  {
    AbsSquare(d);
    SquareOrder(Abs(d), m);
  }

  /** Two members of a category with a radius of at most -1 overlap for every stream, where the bounds leave little room. */
  lemma PairAlwaysOverlaps(man: Manifest, c: string, stream: Stream, bounds: Bounds)
    requires c in man && man[c].footprintRadius <= -1.0
    requires var r := man[c].footprintRadius;
             var box := Inset(bounds, r);
             Fits(box) && box.max.x - box.min.x <= -r && box.max.y - box.min.y <= -r
    ensures var res := PlaceByGrid([Pair(c)], stream, bounds, man);
            res.Placed? && !Disjoint(Map(FootprintIn(man), res.entries))
  {
    var me, it, l := man[c], Pair(c), EMPTY_LAYOUT;
    var r, box := me.footprintRadius, Inset(bounds, me.footprintRadius);
    FirstDartLands(stream, box, r, [], [], 0);
    MembersStep(HashProbe(0.0), stream, it, me, box, 2, 0, l);
    var (a, next) := NextSpot(HashProbe(0.0), stream, it, me, box, 0, l);
    var l1 := AddMember(stream, it, me, a.value, next, l);
    FirstDartLands(stream, box, r, l1.discs[0..], l1.discs, l1.draws);
    MembersStep(HashProbe(0.0), stream, it, me, box, 1, 0, l1);
    var (b, last) := NextSpot(HashProbe(0.0), stream, it, me, box, 0, l1);
    var l2 := AddMember(stream, it, me, b.value, last, l1);
    SingleItem(man, it, stream, bounds);
    var res := PlaceByGrid([it], stream, bounds, man);
    assert res == Placed(l2.entries, l2.draws);
    TwoEntries(man, c, a.value, b.value, l2.entries);
    NearTouches(box, r, a.value, b.value);
  }

  lemma TwoEntries(man: Manifest, c: string, a: Vec2, b: Vec2, entries: seq<AssetEntry>)
    requires c in man && |entries| == 2 && entries[0].category == entries[1].category == c
    requires entries[0].location == a && entries[1].location == b
    ensures var r := man[c].footprintRadius;
            Touches(Disc(a.x, a.y, r), b.x, b.y, r) ==> !Disjoint(Map(FootprintIn(man), entries))
  {
    var discs := Map(FootprintIn(man), entries);
    assert discs[0] == Footprint(man, entries[0]) && discs[1] == Footprint(man, entries[1]);
  }

  // ---- recipes that always fit ----

  lemma SquareNonNegative(d: real)
    ensures d * d >= 0.0
  {
  }

  lemma PointsNeverTouch(p: Disc, x: real, y: real)
    requires p.r == 0.0
    ensures !Touches(p, x, y, 0.0)
  {
    SquareNonNegative(x - p.x);
    SquareNonNegative(y - p.y);
    assert (0.0 + p.r) * (0.0 + p.r) == 0.0;
  }

  lemma PointsNeverHit(probe: Probe, placed: seq<Disc>, x: real, y: real)
    requires RadiiAmong(placed, {0.0})
    ensures !Hits(probe, placed, x, y, 0.0)
  {
    forall p | p in placed ensures !Touches(p, x, y, 0.0) {
      PointsNeverTouch(p, x, y);
    }
  }

  lemma {:induction false} PointMembersFit(probe: Probe, stream: Stream, it: CategoryRecipe, me: ManifestEntry,
                                           box: Bounds, n: nat, start: nat, l: Layout)
    requires me.footprintRadius == 0.0 && RadiiAmong(l.discs, {0.0}) && start <= |l.discs|
    ensures var out := PlaceMembers(probe, stream, it, me, box, n, start, l);
            out.Done? && RadiiAmong(out.layout.discs, {0.0})
    decreases n
  {
    if n > 0 {
      var (at, _) := Dart(stream, it.clustering, box, me.footprintRadius, l.discs[start..], l.draws);
      PointsNeverHit(probe, l.discs, at.x, at.y);
      MembersStep(probe, stream, it, me, box, n, start, l);
      var (spot, next) := NextSpot(probe, stream, it, me, box, start, l);
      AddMemberAmong({0.0}, stream, it, me, spot.value, next, l);
      PointMembersFit(probe, stream, it, me, box, n - 1, start, AddMember(stream, it, me, spot.value, next, l));
    }
  }

  lemma {:induction false} PointItemsFit(probe: Probe, stream: Stream, man: Manifest, bounds: Bounds,
                                         items: seq<CategoryRecipe>, l: Layout)
    requires AllKnown(man, items) && Fits(bounds) && RadiiAmong(l.discs, {0.0})
    requires forall it | it in items :: RadiusOf(man, it.category) == 0.0
    ensures PlaceItems(probe, stream, man, bounds, items, l).Done?
  {
    if items != [] {
      var it := items[0];
      assert Inset(bounds, 0.0) == bounds;
      PointMembersFit(probe, stream, it, man[it.category], bounds, Times(it.count), |l.discs|, l);
      PointItemsFit(probe, stream, man, bounds, items[1..], PlaceItem(probe, stream, man, bounds, it, l).layout);
    }
  }

  /** A recipe of known categories with radius 0 is always placed, whatever it asks for and whatever is drawn. */
  lemma PointsAlwaysFit(recipe: seq<CategoryRecipe>, stream: Stream, bounds: Bounds, man: Manifest)
    requires AllKnown(man, recipe) && Fits(bounds)
    requires forall it | it in recipe :: RadiusOf(man, it.category) == 0.0
    ensures PlaceByGrid(recipe, stream, bounds, man).Placed?
  {
    var items := Canonical(man, recipe);
    CanonicalReach(man, recipe);
    PointItemsFit(HashProbe(MaxRadius(man, items)), stream, man, bounds, items, EMPTY_LAYOUT);
  }
}

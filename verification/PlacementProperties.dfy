/** What every successful placement guarantees, and how placements of related recipes relate. */
module PlacementProperties {
  import opened Seqs
  import opened Wire
  import opened SpatialIndex
  import opened CanonicalOrder
  import opened Placement
  import opened HashAgreement

  function Footprint(man: Manifest, e: AssetEntry): Disc {
    Disc(e.location.x, e.location.y, RadiusOf(man, e.category))
  }

  /** No two footprints overlap. */
  ghost predicate Disjoint(discs: seq<Disc>) {
    forall i, j | 0 <= i < j < |discs| :: !Touches(discs[i], discs[j].x, discs[j].y, discs[j].r)
  }

  /** The centre and the whole footprint are in bounds. */
  predicate Inside(bounds: Bounds, d: Disc) {
    && InBox(bounds, Vec2(d.x, d.y))
    && bounds.min.x <= d.x - d.r && d.x + d.r <= bounds.max.x
    && bounds.min.y <= d.y - d.r && d.y + d.r <= bounds.max.y
  }

  /** The centre is where the radius leaves room: so the footprint is in bounds, unless the radius is negative. */
  predicate WellFormed(man: Manifest, bounds: Bounds, e: AssetEntry) {
    && e.category in man
    && InBox(Inset(bounds, RadiusOf(man, e.category)), e.location)
    && (RadiusOf(man, e.category) >= 0.0 ==> Inside(bounds, Footprint(man, e)))
    && 0.0 <= e.yaw < 360.0
    && SCALE_MIN <= e.scale < SCALE_MAX
    && e.groundSnap == man[e.category].groundSnap
  }

  /** What is documented of a placement: nothing overlaps, everything is in bounds. */
  ghost predicate AsDocumented(man: Manifest, bounds: Bounds, entries: seq<AssetEntry>) {
    && Disjoint(Map(FootprintIn(man), entries))
    && (forall e | e in entries :: Inside(bounds, Footprint(man, e)))
  }

  function FootprintIn(man: Manifest): AssetEntry -> Disc {
    (e: AssetEntry) => Footprint(man, e)
  }

  /** What holds of a layout at every point of a placement. */
  ghost predicate Good(probe: Probe, man: Manifest, bounds: Bounds, l: Layout) {
    && l.discs == Map(FootprintIn(man), l.entries)
    && (probe.EveryFootprint? ==> Disjoint(l.discs))
    && (forall e | e in l.entries :: WellFormed(man, bounds, e))
  }

  predicate InBox(box: Bounds, at: Vec2) {
    box.min.x <= at.x <= box.max.x && box.min.y <= at.y <= box.max.y
  }

  lemma ProductNonNegative(a: real, b: real)
    requires a >= 0.0 && b >= 0.0
    ensures a * b >= 0.0
  {
  }

  lemma BetweenEnds(lo: real, hi: real, u: Unit)
    requires lo <= hi
    ensures lo <= lo + u * (hi - lo) <= hi
  {
    ProductNonNegative(u, hi - lo);
    ProductNonNegative(1.0 - u, hi - lo);
    assert (1.0 - u) * (hi - lo) == (hi - lo) - u * (hi - lo);
  }

  lemma UniformInBox(box: Bounds, u: Unit, v: Unit)
    requires Fits(box)
    ensures InBox(box, UniformPoint(box, u, v))
  {
    BetweenEnds(box.min.x, box.max.x, u);
    BetweenEnds(box.min.y, box.max.y, v);
  }

  lemma ClampedInBox(box: Bounds, x: real, y: real)
    requires Fits(box)
    ensures InBox(box, Vec2(Clamp(x, box.min.x, box.max.x), Clamp(y, box.min.y, box.max.y)))
  {
  }

  lemma AnnulusInBox(stream: Stream, box: Bounds, r: real, a: Disc, turn: Unit, far: Unit)
    requires Fits(box)
    ensures InBox(box, AnnulusPoint(stream, box, r, a, turn, far))
  {
    var ang, dist := Direction(turn), AnnulusDistance(r, far);
    ClampedInBox(box, a.x + dist * stream.cos(ang), a.y + dist * stream.sin(ang));
  }

  /** A dart lands in the box on the annulus branch and on the uniform one. */
  lemma DartInBox(stream: Stream, clustering: real, box: Bounds, r: real, anchors: seq<Disc>, draws: nat)
    requires Fits(box)
    ensures InBox(box, Dart(stream, clustering, box, r, anchors, draws).0)
  {
    if clustering > 0.0 && anchors != [] {
      if stream.unit(draws) < clustering {
        var a := anchors[stream.choice(draws + 1) % |anchors|];
        AnnulusInBox(stream, box, r, a, stream.unit(draws + 2), stream.unit(draws + 3));
      } else {
        UniformInBox(box, stream.unit(draws + 1), stream.unit(draws + 2));
      }
    } else {
      UniformInBox(box, stream.unit(draws), stream.unit(draws + 1));
    }
  }

  lemma SquareOrder(a: real, b: real)
    requires 0.0 <= a <= b
    ensures a * a <= b * b
  {
  }

  lemma SquareScale(d: real, c: real, s: real)
    requires c * c + s * s == 1.0
    ensures (d * c) * (d * c) + (d * s) * (d * s) == d * d
  {
    assert (d * c) * (d * c) + (d * s) * (d * s) == d * d * (c * c + s * s);
  }

  /** A displacement of length d, 2.05 to 5.05 radii, clears the anchor. */
  lemma FarEnough(r: real, d: real, dx: real, dy: real)
    requires r >= 0.0 && 2.05 * r <= d <= 5.05 * r && dx * dx + dy * dy == d * d
    ensures (2.05 * r) * (2.05 * r) <= dx * dx + dy * dy <= (5.05 * r) * (5.05 * r)
    ensures (r + r) * (r + r) <= dx * dx + dy * dy
  {
    SquareOrder(2.05 * r, d);
    SquareOrder(d, 5.05 * r);
    SquareOrder(r + r, d);
  }

  lemma SameSquare(a: real, b: real)
    requires a == -b
    ensures a * a == b * b
  {
  }

  /** The same below 0, where d is negative too. */
  lemma FarEnoughBelow(r: real, d: real, dx: real, dy: real)
    requires r < 0.0 && 5.05 * r <= d <= 2.05 * r && dx * dx + dy * dy == d * d
    ensures (2.05 * r) * (2.05 * r) <= dx * dx + dy * dy <= (5.05 * r) * (5.05 * r)
    ensures (r + r) * (r + r) <= dx * dx + dy * dy
  {
    SameSquare(-d, d);
    FarEnough(-r, -d, dx, dy);
    SameSquare(2.05 * (-r), 2.05 * r);
    SameSquare(5.05 * (-r), 5.05 * r);
    SameSquare(-r + -r, r + r);
  }

  /** at lies 2.05 to 5.05 radii from the anchor a, and a footprint of its radius there does not overlap it. */
  predicate ClearsAnchor(r: real, a: Disc, at: Vec2) {
    var gap := (at.x - a.x) * (at.x - a.x) + (at.y - a.y) * (at.y - a.y);
    (2.05 * r) * (2.05 * r) <= gap <= (5.05 * r) * (5.05 * r) && !Touches(a, at.x, at.y, r)
  }

  predicate OnUnitCircle(c: real, s: real) {
    c * c + s * s == 1.0
  }

  /** The point at the given distance and direction from a. */
  function Offset(a: Disc, dist: real, c: real, s: real): Vec2 {
    Vec2(a.x + dist * c, a.y + dist * s)
  }

  /** With a true cosine and sine, an annulus dart that the box does not clip never overlaps its anchor. */
  lemma AnnulusClearsAnchor(stream: Stream, box: Bounds, r: real, a: Disc, turn: Unit, far: Unit)
    requires a.r == r
    requires var ang := Direction(turn);
             && OnUnitCircle(stream.cos(ang), stream.sin(ang))
             && InBox(box, Offset(a, AnnulusDistance(r, far), stream.cos(ang), stream.sin(ang)))
    ensures ClearsAnchor(r, a, AnnulusPoint(stream, box, r, a, turn, far))
  {
    var ang := Direction(turn);
    AnnulusWidth(r, far);
    OffsetClears(r, a, AnnulusDistance(r, far), stream.cos(ang), stream.sin(ang));
    AnnulusUnclipped(stream, box, r, a, turn, far);
  }

  lemma AnnulusUnclipped(stream: Stream, box: Bounds, r: real, a: Disc, turn: Unit, far: Unit)
    requires var ang := Direction(turn);
             InBox(box, Offset(a, AnnulusDistance(r, far), stream.cos(ang), stream.sin(ang)))
    ensures var ang := Direction(turn);
            AnnulusPoint(stream, box, r, a, turn, far)
              == Offset(a, AnnulusDistance(r, far), stream.cos(ang), stream.sin(ang))
  {
    var ang := Direction(turn);
    NotClamped(box, Offset(a, AnnulusDistance(r, far), stream.cos(ang), stream.sin(ang)));
  }

  lemma NotClamped(box: Bounds, at: Vec2)
    requires InBox(box, at)
    ensures Vec2(Clamp(at.x, box.min.x, box.max.x), Clamp(at.y, box.min.y, box.max.y)) == at
  {
  }

  lemma OffsetClears(r: real, a: Disc, dist: real, c: real, s: real)
    requires a.r == r && OnUnitCircle(c, s)
    requires AnnulusRange(r, dist)
    ensures ClearsAnchor(r, a, Offset(a, dist, c, s))
  {
    SquareScale(dist, c, s);
    Beyond(r, dist, dist * c, dist * s);
    DisplacedClears(r, a, dist * c, dist * s);
  }

  lemma Beyond(r: real, dist: real, dx: real, dy: real)
    requires AnnulusRange(r, dist) && dx * dx + dy * dy == dist * dist
    ensures (2.05 * r) * (2.05 * r) <= dx * dx + dy * dy <= (5.05 * r) * (5.05 * r)
    ensures (r + r) * (r + r) <= dx * dx + dy * dy
  {
    if r >= 0.0 {
      FarEnough(r, dist, dx, dy);
    } else {
      FarEnoughBelow(r, dist, dx, dy);
    }
  }

  lemma DisplacedClears(r: real, a: Disc, dx: real, dy: real)
    requires a.r == r && (2.05 * r) * (2.05 * r) <= dx * dx + dy * dy <= (5.05 * r) * (5.05 * r)
    requires (r + r) * (r + r) <= dx * dx + dy * dy
    ensures ClearsAnchor(r, a, Vec2(a.x + dx, a.y + dy))
  {
    Displaced(a, r, dx, dy);
  }

  lemma Displaced(a: Disc, r: real, dx: real, dy: real)
    requires a.r == r && (r + r) * (r + r) <= dx * dx + dy * dy
    ensures var x, y := a.x + dx, a.y + dy;
            (x - a.x) * (x - a.x) + (y - a.y) * (y - a.y) == dx * dx + dy * dy && !Touches(a, x, y, r)
  {
    assert a.x + dx - a.x == dx && a.y + dy - a.y == dy;
  }

  /** The signed distance of an annulus dart, which has the sign of the radius. */
  predicate AnnulusRange(r: real, dist: real) {
    if r >= 0.0 then 2.05 * r <= dist <= 5.05 * r else 5.05 * r <= dist <= 2.05 * r
  }

  lemma AnnulusWidth(r: real, far: Unit)
    ensures AnnulusRange(r, AnnulusDistance(r, far))
  {
    var size := Abs(r);
    ProductNonNegative(size, far);
    ProductNonNegative(size, 1.0 - far);
    assert size * (1.0 - far) == size - size * far;
    assert r * (2.05 + 3.0 * far) == 2.05 * r + 3.0 * (r * far);
    assert r < 0.0 ==> size * far == -(r * far);
  }

  /** A spot that was found lies in the box and is free of everything placed. */
  lemma {:induction false} SpotIsFree(probe: Probe, stream: Stream, clustering: real, box: Bounds, r: real,
                                      anchors: seq<Disc>, placed: seq<Disc>, draws: nat, n: nat)
    requires Fits(box)
    ensures var (spot, next) := FindSpot(probe, stream, clustering, box, r, anchors, placed, draws, n);
            && draws <= next <= draws + 4 * n
            && (spot.Some? ==> InBox(box, spot.value) && !Hits(probe, placed, spot.value.x, spot.value.y, r))
    decreases n
  {
    if n > 0 {
      DartInBox(stream, clustering, box, r, anchors, draws);
      var (at, next) := Dart(stream, clustering, box, r, anchors, draws);
      SpotIsFree(probe, stream, clustering, box, r, anchors, placed, next, n - 1);
    }
  }

  lemma MemberKeepsGood(probe: Probe, stream: Stream, man: Manifest, bounds: Bounds, it: CategoryRecipe, at: Vec2,
                        draws: nat, l: Layout)
    requires Good(probe, man, bounds, l) && it.category in man
    requires InBox(Inset(bounds, man[it.category].footprintRadius), at)
    requires !Hits(probe, l.discs, at.x, at.y, man[it.category].footprintRadius)
    ensures Good(probe, man, bounds, AddMember(stream, it, man[it.category], at, draws, l))
  {
    var me := man[it.category];
    var e := EntryAt(it, me.groundSnap, at, stream.unit(draws), stream.unit(draws + 1));
    assert Footprint(man, e) == Disc(at.x, at.y, me.footprintRadius);
    MapAppend(FootprintIn(man), l.entries, [e]);
    assert WellFormed(man, bounds, e);
    if probe.EveryFootprint? {
      forall i | 0 <= i < |l.discs| ensures !Touches(l.discs[i], at.x, at.y, me.footprintRadius) {
        assert l.discs[i] in l.discs;
      }
    }
  }

  function Label(e: AssetEntry): (string, seq<string>) {
    (e.category, e.tags)
  }

  /** The categories and tags a list of items asks for, one per instance. */
  function Roster(items: seq<CategoryRecipe>): seq<(string, seq<string>)> {
    if items == [] then []
    else Copies(items[0], Times(items[0].count)) + Roster(items[1..])
  }

  /** out is a good layout reached from l by adding entries with the given labels. */
  ghost predicate Extends(probe: Probe, man: Manifest, bounds: Bounds, l: Layout, out: Layout,
                          labels: seq<(string, seq<string>)>)
  {
    && Good(probe, man, bounds, out)
    && l.entries <= out.entries && l.draws <= out.draws
    && Map(Label, out.entries) == Map(Label, l.entries) + labels
  }

  lemma ExtendsTransitive(probe: Probe, man: Manifest, bounds: Bounds, l: Layout, mid: Layout, out: Layout,
                          a: seq<(string, seq<string>)>, b: seq<(string, seq<string>)>)
    requires Extends(probe, man, bounds, l, mid, a) && Extends(probe, man, bounds, mid, out, b)
    ensures Extends(probe, man, bounds, l, out, a + b)
  {
    assert Map(Label, l.entries) + a + b == Map(Label, l.entries) + (a + b);
  }

  /** The layout with one more member, wherever a spot was found. */
  lemma MemberExtends(probe: Probe, stream: Stream, man: Manifest, bounds: Bounds, it: CategoryRecipe,
                      me: ManifestEntry, box: Bounds, start: nat, l: Layout)
    requires Good(probe, man, bounds, l) && it.category in man && me == man[it.category] && start <= |l.discs|
    requires box == Inset(bounds, me.footprintRadius) && Fits(box)
    ensures var (spot, next) := NextSpot(probe, stream, it, me, box, start, l);
            spot.Some? ==>
              Extends(probe, man, bounds, l, AddMember(stream, it, me, spot.value, next, l), [(it.category, it.tags)])
  {
    SpotIsFree(probe, stream, it.clustering, box, me.footprintRadius, l.discs[start..], l.discs, l.draws, MAX_ATTEMPTS);
    var (spot, next) := NextSpot(probe, stream, it, me, box, start, l);
    if spot.Some? {
      MemberKeepsGood(probe, stream, man, bounds, it, spot.value, next, l);
      MapAppend(Label, l.entries, [EntryAt(it, me.groundSnap, spot.value, stream.unit(next), stream.unit(next + 1))]);
    }
  }

  function Copies(it: CategoryRecipe, n: nat): seq<(string, seq<string>)> {
    seq(n, i => (it.category, it.tags))
  }

  lemma {:induction false} MembersAreGood(probe: Probe, stream: Stream, man: Manifest, bounds: Bounds,
                                          it: CategoryRecipe, me: ManifestEntry, box: Bounds, n: nat, start: nat, l: Layout)
    requires Good(probe, man, bounds, l) && it.category in man && me == man[it.category] && start <= |l.discs|
    requires box == Inset(bounds, me.footprintRadius) && Fits(box)
    ensures var out := PlaceMembers(probe, stream, it, me, box, n, start, l);
            out.Done? ==> Extends(probe, man, bounds, l, out.layout, Copies(it, n))
    decreases n
  {
    if n > 0 {
      MembersStep(probe, stream, it, me, box, n, start, l);
      MemberExtends(probe, stream, man, bounds, it, me, box, start, l);
      var (spot, next) := NextSpot(probe, stream, it, me, box, start, l);
      if spot.Some? {
        var l' := AddMember(stream, it, me, spot.value, next, l);
        MembersAreGood(probe, stream, man, bounds, it, me, box, n - 1, start, l');
        OneMoreCopy(probe, man, bounds, it, n, l, l', PlaceMembers(probe, stream, it, me, box, n - 1, start, l'));
      }
    }
  }

  lemma OneMoreCopy(probe: Probe, man: Manifest, bounds: Bounds, it: CategoryRecipe, n: nat,
                    l: Layout, mid: Layout, out: Outcome)
    requires n > 0 && Extends(probe, man, bounds, l, mid, [(it.category, it.tags)])
    requires out.Done? ==> Extends(probe, man, bounds, mid, out.layout, Copies(it, n - 1))
    ensures out.Done? ==> Extends(probe, man, bounds, l, out.layout, Copies(it, n))
  {
    if out.Done? {
      ExtendsTransitive(probe, man, bounds, l, mid, out.layout, [(it.category, it.tags)], Copies(it, n - 1));
      assert [(it.category, it.tags)] + Copies(it, n - 1) == Copies(it, n);
    }
  }

  lemma {:induction false} ItemsAreGood(probe: Probe, stream: Stream, man: Manifest, bounds: Bounds,
                                        items: seq<CategoryRecipe>, l: Layout)
    requires Good(probe, man, bounds, l) && AllKnown(man, items)
    ensures var out := PlaceItems(probe, stream, man, bounds, items, l);
            out.Done? ==> Extends(probe, man, bounds, l, out.layout, Roster(items))
  {
    if items != [] {
      var it := items[0];
      var box := Inset(bounds, man[it.category].footprintRadius);
      if Fits(box) {
        MembersAreGood(probe, stream, man, bounds, it, man[it.category], box, Times(it.count), |l.discs|, l);
        var mid := PlaceItem(probe, stream, man, bounds, it, l);
        if mid.Done? {
          ItemsAreGood(probe, stream, man, bounds, items[1..], mid.layout);
          var out := PlaceItems(probe, stream, man, bounds, items[1..], mid.layout);
          if out.Done? {
            ExtendsTransitive(probe, man, bounds, l, mid.layout, out.layout, Copies(it, Times(it.count)), Roster(items[1..]));
          }
        }
      }
    }
  }

  /** The guarantees of placement with either overlap test: bounds and labels always, disjointness with the scan. */
  lemma SortedIsSound(probe: Probe, stream: Stream, man: Manifest, bounds: Bounds, items: seq<CategoryRecipe>)
    ensures var res := PlaceSorted(probe, stream, man, bounds, items);
            res.Placed? ==>
              && (probe.EveryFootprint? ==> Disjoint(Map(FootprintIn(man), res.entries)))
              && (forall e | e in res.entries :: WellFormed(man, bounds, e))
              && Map(Label, res.entries) == Roster(items)
  {
    if FirstUnknown(man, items).None? {
      ItemsAreGood(probe, stream, man, bounds, items, EMPTY_LAYOUT);
    }
  }

  /**
   The placement guarantees, for every stream: every footprint whose radius is not negative is wholly in
   bounds, transforms are well formed, entries come in canonical order with exactly the recipe's labels, and
   footprints are pairwise disjoint if the recipe's radii are in reach.
   */
  lemma PlacedIsSound(recipe: seq<CategoryRecipe>, stream: Stream, bounds: Bounds, man: Manifest)
    ensures var res := PlaceByGrid(recipe, stream, bounds, man);
            res.Placed? ==>
              && (AllInReach(man, recipe) ==> Disjoint(Map(FootprintIn(man), res.entries)))
              && (forall e | e in res.entries :: WellFormed(man, bounds, e))
              && Map(Label, res.entries) == Roster(Canonical(man, recipe))
  {
    var items := Canonical(man, recipe);
    SortedIsSound(HashProbe(MaxRadius(man, items)), stream, man, bounds, items);
    if AllInReach(man, recipe) {
      HashIsScan(recipe, stream, bounds, man);
      SortedIsSound(EveryFootprint, stream, man, bounds, items);
    }
  }

  function LabelOf(c: string): ((string, seq<string>)) -> bool {
    (l: (string, seq<string>)) => l.0 == c
  }

  lemma {:induction false} FilterLabels(entries: seq<AssetEntry>, c: string)
    ensures |Filter(Map(Label, entries), LabelOf(c))| == |Filter(entries, EntryOf(c))|
  {
    if entries != [] {
      assert Map(Label, entries)[1..] == Map(Label, entries[1..]);
      FilterLabels(entries[1..], c);
    }
  }

  ghost predicate ValidCounts(items: seq<CategoryRecipe>) {
    forall it | it in items :: it.count >= 0
  }

  lemma {:induction false} RosterCounts(items: seq<CategoryRecipe>, c: string)
    requires ValidCounts(items)
    ensures |Filter(Roster(items), LabelOf(c))| == TotalCount(Filter(items, ItemOf(c)))
    ensures |Roster(items)| == TotalCount(items)
  {
    if items != [] {
      var it := items[0];
      var mine := Copies(it, Times(it.count));
      RosterCounts(items[1..], c);
      FilterAppend(mine, Roster(items[1..]), LabelOf(c));
      if it.category == c {
        FilterAll(mine, LabelOf(c));
      } else {
        FilterNone(mine, LabelOf(c));
      }
    }
  }

  /** Each category, and the whole result, has exactly as many entries as the recipe asks for. */
  lemma PlacedCounts(recipe: seq<CategoryRecipe>, stream: Stream, bounds: Bounds, man: Manifest, c: string)
    requires ValidCounts(recipe)
    ensures var res := PlaceByGrid(recipe, stream, bounds, man);
            res.Placed? ==>
              && |Filter(res.entries, EntryOf(c))| == TotalCount(Filter(recipe, ItemOf(c)))
              && |res.entries| == TotalCount(recipe)
  {
    var items := Canonical(man, recipe);
    var res := PlaceByGrid(recipe, stream, bounds, man);
    CanonicalIsStableSort(man, recipe);
    forall it | it in items ensures it.count >= 0 {
      SameByCategoryMember(items, recipe, it);
    }
    RosterCounts(items, c);
    TotalCanonical(man, recipe);
    PlacedIsSound(recipe, stream, bounds, man);
    if res.Placed? {
      FilterLabels(res.entries, c);
    }
  }

  /** With distinct categories the count of a category is the count of its one item. */
  lemma PlacedMatchesItem(recipe: seq<CategoryRecipe>, stream: Stream, bounds: Bounds, man: Manifest, k: nat)
    requires ValidCounts(recipe) && DistinctCategories(recipe) && k < |recipe|
    ensures var res := PlaceByGrid(recipe, stream, bounds, man);
            res.Placed? ==> |Filter(res.entries, EntryOf(recipe[k].category))| == recipe[k].count
  {
    var c := recipe[k].category;
    PlacedCounts(recipe, stream, bounds, man, c);
    FilterDistinct(recipe, c);
    FilterMember(recipe, ItemOf(c), recipe[k]);
    assert Filter(recipe, ItemOf(c)) == [recipe[k]];
  }

  /** Reordering a recipe whose categories are distinct changes nothing: not the entries, the error or the draws. */
  lemma OrderOfItemsIsIrrelevant(a: seq<CategoryRecipe>, b: seq<CategoryRecipe>, stream: Stream, bounds: Bounds, man: Manifest)
    requires multiset(a) == multiset(b) && DistinctCategories(a)
    ensures PlaceByGrid(a, stream, bounds, man) == PlaceByGrid(b, stream, bounds, man)
  {
    PermutationDistinct(a, b);
    PermutationSameByCategory(a, b);
    CanonicalRespectsCategories(man, a, b);
  }

  lemma {:induction false} ItemsAppend(probe: Probe, stream: Stream, man: Manifest, bounds: Bounds,
                                       a: seq<CategoryRecipe>, b: seq<CategoryRecipe>, l: Layout)
    requires AllKnown(man, a) && AllKnown(man, b)
    ensures AllKnown(man, a + b)
    ensures PlaceItems(probe, stream, man, bounds, a + b, l) ==
              match PlaceItems(probe, stream, man, bounds, a, l)
              case Done(next) => PlaceItems(probe, stream, man, bounds, b, next)
              case Stuck(c, why, draws) => Stuck(c, why, draws)
  {
    if a == [] {
      assert a + b == b;
    } else {
      assert (a + b)[1..] == a[1..] + b;
      var out := PlaceItem(probe, stream, man, bounds, a[0], l);
      if out.Done? {
        ItemsAppend(probe, stream, man, bounds, a[1..], b, out.layout);
      }
    }
  }

  /** How placement of a longer list of items relates to placement of its front. */
  ghost predicate Continues(short: PlaceResult, long: PlaceResult, known: bool) {
    && (short.Failed? && known ==> long == short)
    && (long.Placed? ==> short.Placed? && short.entries <= long.entries && short.draws <= long.draws)
  }

  lemma SortedContinues(probe: Probe, stream: Stream, man: Manifest, bounds: Bounds, items: seq<CategoryRecipe>,
                        x: CategoryRecipe)
    ensures Continues(PlaceSorted(probe, stream, man, bounds, items),
                      PlaceSorted(probe, stream, man, bounds, items + [x]), x.category in man)
  {
    if x.category in man {
      UnknownAppend(man, items, x);
      if FirstUnknown(man, items).None? {
        ItemsAppend(probe, stream, man, bounds, items, [x], EMPTY_LAYOUT);
        ItemsAreGood(probe, stream, man, bounds, items, EMPTY_LAYOUT);
        var out := PlaceItems(probe, stream, man, bounds, items, EMPTY_LAYOUT);
        if out.Done? {
          ItemsAreGood(probe, stream, man, bounds, [x], out.layout);
        }
      }
    } else {
      assert x in items + [x];
    }
  }

  /**
   An item that sorts last cannot disturb what is placed before it: the longer recipe succeeds only if
   the shorter one does, and the shorter one's entries are then a prefix; when the shorter one fails and
   the item's category is known, the longer one fails in the same way at the same draw.
   */
  lemma LastItemOnlyAppends(recipe: seq<CategoryRecipe>, x: CategoryRecipe, stream: Stream, bounds: Bounds, man: Manifest)
    requires forall y | y in recipe :: !Before(man, x.category, y.category)
    ensures var short, long := PlaceByGrid(recipe, stream, bounds, man), PlaceByGrid(recipe + [x], stream, bounds, man);
            && (short.Failed? && x.category in man ==> long == short)
            && (long.Placed? ==> short.Placed? && short.entries <= long.entries && short.draws <= long.draws)
  {
    var items := Canonical(man, recipe);
    var probe := HashProbe(MaxRadius(man, items + [x]));
    CanonicalAppendLast(man, recipe, x);
    LastKeepsMax(man, recipe, x);
    assert PlaceByGrid(recipe, stream, bounds, man) == PlaceSorted(probe, stream, man, bounds, items);
    SortedContinues(probe, stream, man, bounds, items, x);
  }

  /** Adding the item that sorts last to a nonempty recipe leaves the largest radius alone. */
  lemma LastKeepsMax(man: Manifest, recipe: seq<CategoryRecipe>, x: CategoryRecipe)
    requires forall y | y in recipe :: !Before(man, x.category, y.category)
    ensures var items := Canonical(man, recipe);
            items != [] ==> MaxRadius(man, items + [x]) == MaxRadius(man, items)
  {
    var items := Canonical(man, recipe);
    if items != [] {
      CanonicalMembers(man, recipe, items[0]);
      MaxRadiusReached(man, items + [x]);
      SameItemsSameMax(man, items, items + [x]);
    }
  }

  lemma {:induction false} UnknownAppend(man: Manifest, items: seq<CategoryRecipe>, x: CategoryRecipe)
    requires x.category in man
    ensures FirstUnknown(man, items + [x]) == FirstUnknown(man, items)
  {
    if items == [] {
      assert items + [x] == [x];
    } else {
      assert (items + [x])[1..] == items[1..] + [x];
      UnknownAppend(man, items[1..], x);
    }
  }
}

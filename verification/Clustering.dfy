/** Members of a fully clustered category stay near one another. */
module Clustering {
  import opened Seqs
  import opened Wire
  import opened SpatialIndex
  import opened CanonicalOrder
  import opened Placement
  import opened PlacementProperties

  /** cosine and sine are true to the circle. */
  ghost predicate TrueCircle(stream: Stream) {
    forall ang: real :: OnUnitCircle(stream.cos(ang), stream.sin(ang))
  }

  /** at lies within 5.05 radii of a. */
  predicate Near(r: real, a: Disc, at: Vec2) {
    (at.x - a.x) * (at.x - a.x) + (at.y - a.y) * (at.y - a.y) <= (5.05 * r) * (5.05 * r)
  }

  /** Pulling a coordinate into an interval brings it no further from anything inside. */
  lemma PullNoFurther(v: real, lo: real, hi: real, inside: real)
    requires lo <= inside <= hi
    ensures Abs(Clamp(v, lo, hi) - inside) <= Abs(v - inside)
  {
  }

  lemma SquareOfAbs(d: real, e: real)
    requires Abs(d) <= Abs(e)
    ensures d * d <= e * e
  {
    AbsSquare(d);
    AbsSquare(e);
    SquareOrder(Abs(d), Abs(e));
  }

  lemma SumOrder(a: real, b: real, c: real, d: real, bound: real)
    requires a <= c && b <= d && c + d <= bound
    ensures a + b <= bound
  {
  }

  /** A displacement within 5.05 radii, pulled into a box around the anchor, stays within them. */
  lemma PulledNear(box: Bounds, r: real, a: Disc, dx: real, dy: real)
    requires InBox(box, Vec2(a.x, a.y)) && dx * dx + dy * dy <= (5.05 * r) * (5.05 * r)
    ensures Near(r, a, Vec2(Clamp(a.x + dx, box.min.x, box.max.x), Clamp(a.y + dy, box.min.y, box.max.y)))
  {
    var x, y := Clamp(a.x + dx, box.min.x, box.max.x), Clamp(a.y + dy, box.min.y, box.max.y);
    PullNoFurther(a.x + dx, box.min.x, box.max.x, a.x);
    PullNoFurther(a.y + dy, box.min.y, box.max.y, a.y);
    NoFurther(r, a, Vec2(x, y), dx, dy);
  }

  lemma NoFurther(r: real, a: Disc, at: Vec2, dx: real, dy: real)
    requires Abs(at.x - a.x) <= Abs(dx) && Abs(at.y - a.y) <= Abs(dy)
    requires dx * dx + dy * dy <= (5.05 * r) * (5.05 * r)
    ensures Near(r, a, at)
  {
    var ex, ey := at.x - a.x, at.y - a.y;
    SquareOfAbs(ex, dx);
    SquareOfAbs(ey, dy);
    SumOrder(ex * ex, ey * ey, dx * dx, dy * dy, (5.05 * r) * (5.05 * r));
  }

  lemma WithinFive(r: real, dist: real, c: real, s: real)
    requires AnnulusRange(r, dist) && OnUnitCircle(c, s)
    ensures (dist * c) * (dist * c) + (dist * s) * (dist * s) <= (5.05 * r) * (5.05 * r)
  {
    SquareScale(dist, c, s);
    Beyond(r, dist, dist * c, dist * s);
  }

  lemma AnnulusStaysNear(stream: Stream, box: Bounds, r: real, a: Disc, turn: Unit, far: Unit)
    requires OnUnitCircle(stream.cos(Direction(turn)), stream.sin(Direction(turn))) && InBox(box, Vec2(a.x, a.y))
    ensures Near(r, a, AnnulusPoint(stream, box, r, a, turn, far))
  {
    AnnulusWidth(r, far);
    StaysNear(box, r, a, AnnulusDistance(r, far), stream.cos(Direction(turn)), stream.sin(Direction(turn)));
    AnnulusFormula(stream, box, r, a, turn, far);
  }

  lemma AnnulusFormula(stream: Stream, box: Bounds, r: real, a: Disc, turn: Unit, far: Unit)
    ensures var c, s, dist := stream.cos(Direction(turn)), stream.sin(Direction(turn)), AnnulusDistance(r, far);
            AnnulusPoint(stream, box, r, a, turn, far)
              == Vec2(Clamp(a.x + dist * c, box.min.x, box.max.x), Clamp(a.y + dist * s, box.min.y, box.max.y))
  {
  }

  lemma StaysNear(box: Bounds, r: real, a: Disc, dist: real, c: real, s: real)
    requires AnnulusRange(r, dist) && OnUnitCircle(c, s) && InBox(box, Vec2(a.x, a.y))
    ensures Near(r, a, Vec2(Clamp(a.x + dist * c, box.min.x, box.max.x), Clamp(a.y + dist * s, box.min.y, box.max.y)))
  {
    WithinFive(r, dist, c, s);
    PulledNear(box, r, a, dist * c, dist * s);
  }

  /** The anchors of a category: its own placed members, all in the box. */
  ghost predicate Anchors(box: Bounds, anchors: seq<Disc>) {
    forall a | a in anchors :: InBox(box, Vec2(a.x, a.y))
  }

  ghost predicate NearSome(r: real, anchors: seq<Disc>, at: Vec2) {
    exists a :: a in anchors && Near(r, a, at)
  }

  /** With clustering of 1 or more and an anchor, every dart lands near an anchor. */
  lemma DartStaysNear(stream: Stream, clustering: real, box: Bounds, r: real, anchors: seq<Disc>, draws: nat)
    requires TrueCircle(stream) && clustering >= 1.0 && Anchors(box, anchors) && |anchors| > 0
    ensures NearSome(r, anchors, Dart(stream, clustering, box, r, anchors, draws).0)
  {
    assert stream.unit(draws) < clustering;
    var a := anchors[stream.choice(draws + 1) % |anchors|];
    var ang := Direction(stream.unit(draws + 2));
    assert a in anchors && OnUnitCircle(stream.cos(ang), stream.sin(ang));
    AnnulusStaysNear(stream, box, r, a, stream.unit(draws + 2), stream.unit(draws + 3));
  }

  lemma {:induction false} SpotStaysNear(probe: Probe, stream: Stream, clustering: real, box: Bounds, r: real,
                                         anchors: seq<Disc>, placed: seq<Disc>, draws: nat, n: nat)
    requires TrueCircle(stream) && clustering >= 1.0 && Anchors(box, anchors) && |anchors| > 0
    ensures var spot := FindSpot(probe, stream, clustering, box, r, anchors, placed, draws, n).0;
            spot.Some? ==> NearSome(r, anchors, spot.value)
    decreases n
  {
    if n > 0 {
      DartStaysNear(stream, clustering, box, r, anchors, draws);
      var (at, next) := Dart(stream, clustering, box, r, anchors, draws);
      SpotStaysNear(probe, stream, clustering, box, r, anchors, placed, next, n - 1);
    }
  }

  /** From index start on, all footprints lie in the box, and each after the first near an earlier one. */
  ghost predicate Clustered(box: Bounds, r: real, discs: seq<Disc>, start: nat)
    requires start <= |discs|
  {
    && Anchors(box, discs[start..])
    && forall j | start < j < |discs| :: NearSome(r, discs[start..j], Vec2(discs[j].x, discs[j].y))
  }

  lemma ClusteredPush(box: Bounds, r: real, discs: seq<Disc>, start: nat, at: Vec2)
    requires start <= |discs| && Clustered(box, r, discs, start) && InBox(box, at)
    requires start < |discs| ==> NearSome(r, discs[start..], at)
    ensures Clustered(box, r, discs + [Disc(at.x, at.y, r)], start)
  {
    var more := discs + [Disc(at.x, at.y, r)];
    assert more[start..] == discs[start..] + [Disc(at.x, at.y, r)];
    forall j | start < j < |more| ensures NearSome(r, more[start..j], Vec2(more[j].x, more[j].y)) {
      assert more[start..j] == discs[start..j];
      if j == |discs| {
        assert discs[start..j] == discs[start..];
      }
    }
  }

  lemma MemberClusters(probe: Probe, stream: Stream, it: CategoryRecipe, me: ManifestEntry, box: Bounds, start: nat, l: Layout)
    requires TrueCircle(stream) && it.clustering >= 1.0 && Fits(box)
    requires start <= |l.discs| && Clustered(box, me.footprintRadius, l.discs, start)
    ensures var (spot, next) := NextSpot(probe, stream, it, me, box, start, l);
            spot.Some? ==> Clustered(box, me.footprintRadius, AddMember(stream, it, me, spot.value, next, l).discs, start)
  {
    var r, anchors := me.footprintRadius, l.discs[start..];
    SpotIsFree(probe, stream, it.clustering, box, r, anchors, l.discs, l.draws, MAX_ATTEMPTS);
    if |anchors| > 0 {
      SpotStaysNear(probe, stream, it.clustering, box, r, anchors, l.discs, l.draws, MAX_ATTEMPTS);
    }
    var spot := NextSpot(probe, stream, it, me, box, start, l).0;
    if spot.Some? {
      ClusteredPush(box, r, l.discs, start, spot.value);
    }
  }

  /** The layout after the next member, if a spot is found for it. */
  function NextLayout(probe: Probe, stream: Stream, it: CategoryRecipe, me: ManifestEntry, box: Bounds, start: nat,
                      l: Layout): Option<Layout>
    requires start <= |l.discs|
  {
    var (spot, next) := NextSpot(probe, stream, it, me, box, start, l);
    if spot.None? then None else Some(AddMember(stream, it, me, spot.value, next, l))
  }

  /** The layouts of a run of rounds, one member each, or none if one of them finds no spot. */
  lemma MembersRounds(probe: Probe, stream: Stream, it: CategoryRecipe, me: ManifestEntry, box: Bounds,
                      n: nat, start: nat, l: Layout)
    requires start <= |l.discs| && n > 0
    ensures var next := NextLayout(probe, stream, it, me, box, start, l);
            if next.None? then PlaceMembers(probe, stream, it, me, box, n, start, l).Stuck?
            else start <= |next.value.discs|
                 && PlaceMembers(probe, stream, it, me, box, n, start, l)
                    == PlaceMembers(probe, stream, it, me, box, n - 1, start, next.value)
  {
    MembersStep(probe, stream, it, me, box, n, start, l);
  }

  /** A round that finds a spot keeps what holds. */
  ghost predicate RoundsKeep(probe: Probe, stream: Stream, it: CategoryRecipe, me: ManifestEntry, box: Bounds, start: nat,
                             holds: Layout -> bool)
  {
    forall m: Layout | start <= |m.discs| && holds(m) ::
      var next := NextLayout(probe, stream, it, me, box, start, m); next.Some? ==> holds(next.value)
  }

  /** What every round keeps holds at the end. */
  lemma {:induction false} MembersKeep(probe: Probe, stream: Stream, it: CategoryRecipe, me: ManifestEntry, box: Bounds,
                                       n: nat, start: nat, l: Layout, holds: Layout -> bool)
    requires start <= |l.discs| && holds(l)
    requires RoundsKeep(probe, stream, it, me, box, start, holds)
    ensures var out := PlaceMembers(probe, stream, it, me, box, n, start, l); out.Done? ==> holds(out.layout)
    decreases n
  {
    if n > 0 {
      MembersRounds(probe, stream, it, me, box, n, start, l);
      var next := NextLayout(probe, stream, it, me, box, start, l);
      if next.Some? {
        MembersKeep(probe, stream, it, me, box, n - 1, start, next.value, holds);
      }
    }
  }

  ghost function ClusterTest(box: Bounds, r: real, start: nat): Layout -> bool {
    (l: Layout) => start <= |l.discs| && Clustered(box, r, l.discs, start)
  }

  lemma RoundClusters(probe: Probe, stream: Stream, it: CategoryRecipe, me: ManifestEntry, box: Bounds, start: nat, l: Layout)
    requires TrueCircle(stream) && it.clustering >= 1.0 && Fits(box)
    requires start <= |l.discs| && ClusterTest(box, me.footprintRadius, start)(l)
    ensures var next := NextLayout(probe, stream, it, me, box, start, l);
            next.Some? ==> ClusterTest(box, me.footprintRadius, start)(next.value)
  {
    MemberClusters(probe, stream, it, me, box, start, l);
    var (spot, next) := NextSpot(probe, stream, it, me, box, start, l);
    if spot.Some? {
      var l' := AddMember(stream, it, me, spot.value, next, l);
      Tested(box, me.footprintRadius, start, l');
      assert NextLayout(probe, stream, it, me, box, start, l).value == l';
    }
  }

  lemma Tested(box: Bounds, r: real, start: nat, l: Layout)
    requires start <= |l.discs| && Clustered(box, r, l.discs, start)
    ensures ClusterTest(box, r, start)(l)
  {
  }

  lemma RoundsCluster(probe: Probe, stream: Stream, it: CategoryRecipe, me: ManifestEntry, box: Bounds, start: nat)
    requires TrueCircle(stream) && it.clustering >= 1.0 && Fits(box)
    ensures RoundsKeep(probe, stream, it, me, box, start, ClusterTest(box, me.footprintRadius, start))
  {
    var holds := ClusterTest(box, me.footprintRadius, start);
    forall m: Layout | start <= |m.discs| && holds(m)
      ensures var next := NextLayout(probe, stream, it, me, box, start, m); next.Some? ==> holds(next.value)
    {
      RoundClusters(probe, stream, it, me, box, start, m);
    }
  }

  lemma MembersCluster(probe: Probe, stream: Stream, it: CategoryRecipe, me: ManifestEntry, box: Bounds,
                       n: nat, start: nat, l: Layout)
    requires TrueCircle(stream) && it.clustering >= 1.0 && Fits(box)
    requires start <= |l.discs| && ClusterTest(box, me.footprintRadius, start)(l)
    ensures var out := PlaceMembers(probe, stream, it, me, box, n, start, l);
            out.Done? ==> ClusterTest(box, me.footprintRadius, start)(out.layout)
  {
    RoundsCluster(probe, stream, it, me, box, start);
    MembersKeep(probe, stream, it, me, box, n, start, l, ClusterTest(box, me.footprintRadius, start));
  }

  // ---- whole placements ----

  /** Every member of category c after its first lies near an earlier one. */
  ghost predicate StaysTogether(man: Manifest, entries: seq<AssetEntry>, c: string) {
    forall i, j | 0 <= i < j < |entries| && entries[i].category == c && entries[j].category == c ::
      exists k :: 0 <= k < j && entries[k].category == c
                  && Near(RadiusOf(man, c), Footprint(man, entries[k]), entries[j].location)
  }

  ghost predicate NoneOf(entries: seq<AssetEntry>, c: string) {
    forall e | e in entries :: e.category != c
  }

  /** What placing one item adds: members of its category alone. */
  lemma AddsOwn(probe: Probe, stream: Stream, man: Manifest, bounds: Bounds, it: CategoryRecipe, l: Layout)
    requires Good(probe, man, bounds, l) && it.category in man
    ensures var out := PlaceItem(probe, stream, man, bounds, it, l);
            out.Done? ==> && Good(probe, man, bounds, out.layout) && l.entries <= out.layout.entries
                          && forall j | |l.entries| <= j < |out.layout.entries| :: out.layout.entries[j].category == it.category
  {
    var me := man[it.category];
    var box := Inset(bounds, me.footprintRadius);
    if Fits(box) {
      MembersAreGood(probe, stream, man, bounds, it, me, box, Times(it.count), |l.discs|, l);
      var out := PlaceItem(probe, stream, man, bounds, it, l);
      if out.Done? {
        forall j | |l.entries| <= j < |out.layout.entries| ensures out.layout.entries[j].category == it.category {
          assert Map(Label, out.layout.entries)[j] == Label(out.layout.entries[j]);
        }
      }
    }
  }

  /** A clustered run of footprints is a clustered run of entries. */
  lemma TogetherFromDiscs(man: Manifest, box: Bounds, entries: seq<AssetEntry>, start: nat, c: string)
    requires start <= |entries| && NoneOf(entries[..start], c)
    requires forall j | start <= j < |entries| :: entries[j].category == c
    requires Clustered(box, RadiusOf(man, c), Map(FootprintIn(man), entries), start)
    ensures StaysTogether(man, entries, c)
  {
    var discs := Map(FootprintIn(man), entries);
    assert forall m | 0 <= m < start :: entries[m] == entries[..start][m] && entries[m].category != c;
    forall i, j | 0 <= i < j < |entries| && entries[i].category == c && entries[j].category == c
      ensures exists k :: 0 <= k < j && entries[k].category == c
                          && Near(RadiusOf(man, c), Footprint(man, entries[k]), entries[j].location)
    {
      assert Vec2(discs[j].x, discs[j].y) == entries[j].location;
      var a :| a in discs[start..j] && Near(RadiusOf(man, c), a, entries[j].location);
      var m :| 0 <= m < j - start && discs[start..j][m] == a;
      assert discs[start + m] == a == Footprint(man, entries[start + m]);
    }
  }

  /** Entries of other categories do not matter. */
  lemma TogetherExtends(man: Manifest, entries: seq<AssetEntry>, more: seq<AssetEntry>, c: string)
    requires entries <= more && StaysTogether(man, entries, c)
    requires forall j | |entries| <= j < |more| :: more[j].category != c
    ensures StaysTogether(man, more, c)
  {
    forall i, j | 0 <= i < j < |more| && more[i].category == c && more[j].category == c
      ensures exists k :: 0 <= k < j && more[k].category == c
                          && Near(RadiusOf(man, c), Footprint(man, more[k]), more[j].location)
    {
      assert entries[i] == more[i] && entries[j] == more[j];
      var k :| 0 <= k < j && entries[k].category == c
               && Near(RadiusOf(man, c), Footprint(man, entries[k]), entries[j].location);
      assert more[k] == entries[k];
    }
  }

  lemma ItemCluster(probe: Probe, stream: Stream, man: Manifest, bounds: Bounds, it: CategoryRecipe, l: Layout)
    requires TrueCircle(stream) && it.clustering >= 1.0 && it.category in man
    requires Good(probe, man, bounds, l) && NoneOf(l.entries, it.category)
    ensures var out := PlaceItem(probe, stream, man, bounds, it, l);
            out.Done? ==> StaysTogether(man, out.layout.entries, it.category)
  {
    var me := man[it.category];
    var box := Inset(bounds, me.footprintRadius);
    if Fits(box) {
      var start := |l.discs|;
      assert l.discs[start..] == [];
      MembersCluster(probe, stream, it, me, box, Times(it.count), start, l);
      AddsOwn(probe, stream, man, bounds, it, l);
      var out := PlaceItem(probe, stream, man, bounds, it, l);
      if out.Done? {
        assert out.layout.entries[..start] == l.entries;
        TogetherFromDiscs(man, box, out.layout.entries, start, it.category);
      }
    }
  }

  /** Later items of other categories add nothing to c. */
  lemma {:induction false} ItemsAddOthers(probe: Probe, stream: Stream, man: Manifest, bounds: Bounds,
                                          items: seq<CategoryRecipe>, l: Layout, c: string)
    requires AllKnown(man, items) && Good(probe, man, bounds, l)
    requires forall it | it in items :: it.category != c
    ensures var out := PlaceItems(probe, stream, man, bounds, items, l);
            out.Done? ==> && l.entries <= out.layout.entries
                          && forall j | |l.entries| <= j < |out.layout.entries| :: out.layout.entries[j].category != c
  {
    if items != [] {
      AddsOwn(probe, stream, man, bounds, items[0], l);
      var mid := PlaceItem(probe, stream, man, bounds, items[0], l);
      if mid.Done? {
        ItemsAddOthers(probe, stream, man, bounds, items[1..], mid.layout, c);
      }
    }
  }

  lemma {:induction false} ItemsCluster(probe: Probe, stream: Stream, man: Manifest, bounds: Bounds,
                                        items: seq<CategoryRecipe>, l: Layout, k: nat)
    requires TrueCircle(stream) && AllKnown(man, items) && Good(probe, man, bounds, l) && DistinctCategories(items)
    requires k < |items| && items[k].clustering >= 1.0 && NoneOf(l.entries, items[k].category)
    ensures var out := PlaceItems(probe, stream, man, bounds, items, l);
            out.Done? ==> StaysTogether(man, out.layout.entries, items[k].category)
  {
    var it, rest := items[0], items[1..];
    AddsOwn(probe, stream, man, bounds, it, l);
    var mid := PlaceItem(probe, stream, man, bounds, it, l);
    if mid.Done? {
      var out := PlaceItems(probe, stream, man, bounds, rest, mid.layout);
      if k == 0 {
        ItemCluster(probe, stream, man, bounds, it, l);
        forall other | other in rest ensures other.category != it.category {
          var j :| 0 <= j < |rest| && rest[j] == other;
          assert items[j + 1] == other;
        }
        ItemsAddOthers(probe, stream, man, bounds, rest, mid.layout, it.category);
        if out.Done? {
          TogetherExtends(man, mid.layout.entries, out.layout.entries, it.category);
        }
      } else {
        NoneOfExtends(l.entries, mid.layout.entries, it.category, items[k].category);
        ItemsCluster(probe, stream, man, bounds, rest, mid.layout, k - 1);
      }
    }
  }

  lemma NoneOfExtends(entries: seq<AssetEntry>, more: seq<AssetEntry>, own: string, c: string)
    requires NoneOf(entries, c) && entries <= more && own != c
    requires forall j | |entries| <= j < |more| :: more[j].category == own
    ensures NoneOf(more, c)
  {
    forall e | e in more ensures e.category != c {
      var j :| 0 <= j < |more| && more[j] == e;
      if j < |entries| {
        assert entries[j] == e;
      }
    }
  }

  /**
   With a true cosine and sine, a category with clustering of 1 or more stays together: every member after
   the first is placed within 5.05 radii of an earlier member of its category.
   */
  lemma FullClusteringStaysTogether(recipe: seq<CategoryRecipe>, stream: Stream, bounds: Bounds, man: Manifest, it: CategoryRecipe)
    requires TrueCircle(stream) && DistinctCategories(recipe) && it in recipe && it.clustering >= 1.0
    ensures var res := PlaceByGrid(recipe, stream, bounds, man);
            res.Placed? ==> StaysTogether(man, res.entries, it.category)
  {
    var items := Canonical(man, recipe);
    CanonicalDistinct(man, recipe);
    CanonicalIsStableSort(man, recipe);
    SameByCategoryMember(recipe, items, it);
    var k :| 0 <= k < |items| && items[k] == it;
    if FirstUnknown(man, items).None? {
      ItemsCluster(HashProbe(MaxRadius(man, items)), stream, man, bounds, items, EMPTY_LAYOUT, k);
    }
  }
}

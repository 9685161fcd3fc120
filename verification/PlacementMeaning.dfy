/** What single darts, searches and failures of a placement are, in the source's own numbers. */
module PlacementMeaning {
  import opened Seqs
  import opened Wire
  import opened SpatialIndex
  import opened CanonicalOrder
  import opened Placement
  import opened HashAgreement
  import opened PlacementProperties

  // ---- darts ----

  /** w is the value of [lo, hi] nearest to v. */
  predicate PulledTo(v: real, lo: real, hi: real, w: real) {
    if v < lo then w == lo else if hi < v then w == hi else w == v
  }

  /** The dart samples around an anchor: clustering is wanted, there is an anchor, and the coin falls for it. */
  predicate Clusters(stream: Stream, clustering: real, anchors: seq<Disc>, draws: nat) {
    clustering > 0.0 && |anchors| > 0 && stream.unit(draws) < clustering
  }

  /** at is the annulus point around a of a turn and a distance, pulled into the box. */
  predicate AroundAnchor(stream: Stream, box: Bounds, r: real, a: Disc, turn: Unit, far: Unit, at: Vec2) {
    var ang := turn * 2.0 * 3.141592653589793;
    var dist := r * (2.05 + 3.0 * far);
    && PulledTo(a.x + dist * stream.cos(ang), box.min.x, box.max.x, at.x)
    && PulledTo(a.y + dist * stream.sin(ang), box.min.y, box.max.y, at.y)
  }

  /** at lies at fractions u and v across the box. */
  predicate AcrossBox(box: Bounds, u: Unit, v: Unit, at: Vec2) {
    && at.x == box.min.x + u * (box.max.x - box.min.x)
    && at.y == box.min.y + v * (box.max.y - box.min.y)
  }

  lemma PulledByClamp(v: real, lo: real, hi: real)
    requires lo <= hi
    ensures PulledTo(v, lo, hi, Clamp(v, lo, hi))
  {
  }

  lemma AnnulusIsAround(stream: Stream, box: Bounds, r: real, a: Disc, turn: Unit, far: Unit)
    requires Fits(box)
    ensures AroundAnchor(stream, box, r, a, turn, far, AnnulusPoint(stream, box, r, a, turn, far))
  {
    var ang, dist := Direction(turn), AnnulusDistance(r, far);
    PulledByClamp(a.x + dist * stream.cos(ang), box.min.x, box.max.x);
    PulledByClamp(a.y + dist * stream.sin(ang), box.min.y, box.max.y);
  }

  lemma UniformIsAcross(box: Bounds, u: Unit, v: Unit)
    ensures AcrossBox(box, u, v, UniformPoint(box, u, v))
  {
  }

  /**
   Where a dart lands. With clustering positive, an anchor there and a coin below clustering it lands, by the
   next three draws, around the anchor chosen; otherwise across the box by the next two draws. The coin is
   drawn only where it matters.
   */
  lemma DartLands(stream: Stream, clustering: real, box: Bounds, r: real, anchors: seq<Disc>, draws: nat)
    requires Fits(box)
    ensures var (at, next) := Dart(stream, clustering, box, r, anchors, draws);
            if Clusters(stream, clustering, anchors, draws)
            then next == draws + 4
                 && AroundAnchor(stream, box, r, anchors[stream.choice(draws + 1) % |anchors|],
                                 stream.unit(draws + 2), stream.unit(draws + 3), at)
            else var first := draws + if clustering > 0.0 && |anchors| > 0 then 1 else 0;
                 next == first + 2 && AcrossBox(box, stream.unit(first), stream.unit(first + 1), at)
  {
    if Clusters(stream, clustering, anchors, draws) {
      var a := anchors[stream.choice(draws + 1) % |anchors|];
      AnnulusIsAround(stream, box, r, a, stream.unit(draws + 2), stream.unit(draws + 3));
    } else {
      UniformIsAcross(box, stream.unit(draws), stream.unit(draws + 1));
      UniformIsAcross(box, stream.unit(draws + 1), stream.unit(draws + 2));
    }
  }

  // ---- the attempts ----

  /** Dart number k of a search that starts at draws: where it lands, and the stream position after it. */
  function ThrowAt(stream: Stream, clustering: real, box: Bounds, r: real, anchors: seq<Disc>, draws: nat, k: nat): (Vec2, nat)
    decreases k
  {
    if k == 0 then Dart(stream, clustering, box, r, anchors, draws)
    else Dart(stream, clustering, box, r, anchors, ThrowAt(stream, clustering, box, r, anchors, draws, k - 1).1)
  }

  lemma {:induction false} ThrowShifts(stream: Stream, clustering: real, box: Bounds, r: real, anchors: seq<Disc>,
                                       draws: nat, k: nat)
    ensures ThrowAt(stream, clustering, box, r, anchors, draws, k + 1)
         == ThrowAt(stream, clustering, box, r, anchors, Dart(stream, clustering, box, r, anchors, draws).1, k)
    decreases k
  {
    if k > 0 {
      ThrowShifts(stream, clustering, box, r, anchors, draws, k - 1);
    }
  }

  predicate ThrowHits(probe: Probe, stream: Stream, clustering: real, box: Bounds, r: real, anchors: seq<Disc>,
                      placed: seq<Disc>, draws: nat, k: nat)
  {
    var at := ThrowAt(stream, clustering, box, r, anchors, draws, k).0;
    Hits(probe, placed, at.x, at.y, r)
  }

  /** Throw k is the first of n that hits nothing, or k is n and there is none. */
  ghost predicate FirstFree(probe: Probe, stream: Stream, clustering: real, box: Bounds, r: real, anchors: seq<Disc>,
                            placed: seq<Disc>, draws: nat, n: nat, k: nat)
  {
    && k <= n
    && (forall i: nat | i < k :: ThrowHits(probe, stream, clustering, box, r, anchors, placed, draws, i))
    && (k < n ==> !ThrowHits(probe, stream, clustering, box, r, anchors, placed, draws, k))
  }

  lemma FirstShifts(probe: Probe, stream: Stream, clustering: real, box: Bounds, r: real, anchors: seq<Disc>,
                    placed: seq<Disc>, draws: nat, n: nat, k: nat)
    requires n > 0 && ThrowHits(probe, stream, clustering, box, r, anchors, placed, draws, 0)
    requires FirstFree(probe, stream, clustering, box, r, anchors, placed,
                       Dart(stream, clustering, box, r, anchors, draws).1, n - 1, k)
    ensures FirstFree(probe, stream, clustering, box, r, anchors, placed, draws, n, k + 1)
  {
    var next := Dart(stream, clustering, box, r, anchors, draws).1;
    forall i: nat | i < k + 1 ensures ThrowHits(probe, stream, clustering, box, r, anchors, placed, draws, i) {
      if i > 0 {
        ThrowShifts(stream, clustering, box, r, anchors, draws, i - 1);
        assert ThrowHits(probe, stream, clustering, box, r, anchors, placed, next, i - 1);
      }
    }
    ThrowShifts(stream, clustering, box, r, anchors, draws, k);
  }

  /** The search result when throw k of n is the first free one, or k is n and none is. */
  predicate ResultOf(stream: Stream, clustering: real, box: Bounds, r: real, anchors: seq<Disc>, draws: nat, n: nat,
                     k: nat, spot: Option<Vec2>, next: nat)
  {
    if k < n then spot.Some? && (spot.value, next) == ThrowAt(stream, clustering, box, r, anchors, draws, k)
    else spot.None? && next == if n == 0 then draws else ThrowAt(stream, clustering, box, r, anchors, draws, n - 1).1
  }

  lemma ResultShifts(stream: Stream, clustering: real, box: Bounds, r: real, anchors: seq<Disc>, draws: nat, n: nat,
                     k: nat, spot: Option<Vec2>, next: nat)
    requires n > 0 && k <= n - 1
    requires ResultOf(stream, clustering, box, r, anchors, Dart(stream, clustering, box, r, anchors, draws).1, n - 1,
                      k, spot, next)
    ensures ResultOf(stream, clustering, box, r, anchors, draws, n, k + 1, spot, next)
  {
    ThrowShifts(stream, clustering, box, r, anchors, draws, k);
    if n > 1 {
      ThrowShifts(stream, clustering, box, r, anchors, draws, n - 2);
    }
  }

  lemma SearchStep(probe: Probe, stream: Stream, clustering: real, box: Bounds, r: real, anchors: seq<Disc>,
                   placed: seq<Disc>, draws: nat, n: nat)
    requires n > 0
    ensures FindSpot(probe, stream, clustering, box, r, anchors, placed, draws, n)
         == var (at, next) := Dart(stream, clustering, box, r, anchors, draws);
            if !ThrowHits(probe, stream, clustering, box, r, anchors, placed, draws, 0) then (Some(at), next)
            else FindSpot(probe, stream, clustering, box, r, anchors, placed, next, n - 1)
  {
  }

  /** A search returns the landing place of the first throw that hits nothing, or nothing if all n hit. */
  lemma {:induction false} SearchFindsFirst(probe: Probe, stream: Stream, clustering: real, box: Bounds, r: real,
                                            anchors: seq<Disc>, placed: seq<Disc>, draws: nat, n: nat)
    returns (k: nat)
    ensures FirstFree(probe, stream, clustering, box, r, anchors, placed, draws, n, k)
    ensures var (spot, next) := FindSpot(probe, stream, clustering, box, r, anchors, placed, draws, n);
            ResultOf(stream, clustering, box, r, anchors, draws, n, k, spot, next)
    decreases n
  {
    k := 0;
    if n > 0 {
      SearchStep(probe, stream, clustering, box, r, anchors, placed, draws, n);
      if ThrowHits(probe, stream, clustering, box, r, anchors, placed, draws, 0) {
        var next := Dart(stream, clustering, box, r, anchors, draws).1;
        var j := SearchFindsFirst(probe, stream, clustering, box, r, anchors, placed, next, n - 1);
        FirstShifts(probe, stream, clustering, box, r, anchors, placed, draws, n, j);
        var (spot, last) := FindSpot(probe, stream, clustering, box, r, anchors, placed, next, n - 1);
        ResultShifts(stream, clustering, box, r, anchors, draws, n, j, spot, last);
        k := j + 1;
      }
    }
  }

  /** The engine gives up after 512 throws, and not before. */
  lemma BudgetIs512(probe: Probe, stream: Stream, it: CategoryRecipe, me: ManifestEntry, box: Bounds, start: nat, l: Layout)
    returns (k: nat)
    requires start <= |l.discs|
    ensures var r, anchors := me.footprintRadius, l.discs[start..];
            && FirstFree(probe, stream, it.clustering, box, r, anchors, l.discs, l.draws, 512, k)
            && (NextSpot(probe, stream, it, me, box, start, l).0.None? <==> k == 512)
            && (k < 512 ==> NextSpot(probe, stream, it, me, box, start, l).0.value
                            == ThrowAt(stream, it.clustering, box, r, anchors, l.draws, k).0)
  {
    k := SearchFindsFirst(probe, stream, it.clustering, box, me.footprintRadius, l.discs[start..], l.discs, l.draws,
                          MAX_ATTEMPTS);
  }

  // ---- room ----

  /** The inset box holds exactly the centres whose footprint is wholly in bounds. */
  lemma InsetIsRoom(bounds: Bounds, r: real, at: Vec2)
    requires r >= 0.0
    ensures InBox(Inset(bounds, r), at) <==> Inside(bounds, Disc(at.x, at.y, r))
  {
  }

  /** There is room for a footprint of radius r exactly if the bounds are at least 2 * r wide and high. */
  lemma FitsIsRoom(bounds: Bounds, r: real)
    ensures Fits(Inset(bounds, r)) <==>
              bounds.max.x - bounds.min.x >= 2.0 * r && bounds.max.y - bounds.min.y >= 2.0 * r
  {
  }

  predicate HasRoom(bounds: Bounds, r: real) {
    bounds.max.x - bounds.min.x >= 2.0 * r && bounds.max.y - bounds.min.y >= 2.0 * r
  }

  // ---- failures ----

  /** What the outcome of placing items says about them. */
  ghost predicate OutcomeFits(man: Manifest, bounds: Bounds, items: seq<CategoryRecipe>, out: Outcome) {
    match out
    case Done(_) => forall it | it in items :: HasRoom(bounds, RadiusOf(man, it.category))
    case Stuck(c, why, _) =>
      exists it :: it in items && it.category == c
                   && (why == BoundsTooSmall <==> !HasRoom(bounds, RadiusOf(man, c)))
                   && (why == BoundsTooSmall || (why == Overcrowded && it.count > 0))
  }

  lemma {:induction false} MembersStuck(probe: Probe, stream: Stream, it: CategoryRecipe, me: ManifestEntry, box: Bounds,
                                        n: nat, start: nat, l: Layout)
    requires start <= |l.discs|
    ensures var out := PlaceMembers(probe, stream, it, me, box, n, start, l);
            out.Stuck? ==> out.category == it.category && out.reason == Overcrowded && n > 0
    decreases n
  {
    if n > 0 {
      MembersStep(probe, stream, it, me, box, n, start, l);
      var (spot, next) := NextSpot(probe, stream, it, me, box, start, l);
      if spot.Some? {
        MembersStuck(probe, stream, it, me, box, n - 1, start, AddMember(stream, it, me, spot.value, next, l));
      }
    }
  }

  lemma {:induction false} ItemsFail(probe: Probe, stream: Stream, man: Manifest, bounds: Bounds,
                                     items: seq<CategoryRecipe>, l: Layout)
    requires AllKnown(man, items)
    ensures OutcomeFits(man, bounds, items, PlaceItems(probe, stream, man, bounds, items, l))
  {
    if items != [] {
      var it, rest := items[0], items[1..];
      var r := man[it.category].footprintRadius;
      assert it in items && RadiusOf(man, it.category) == r;
      FitsIsRoom(bounds, r);
      if Fits(Inset(bounds, r)) {
        MembersStuck(probe, stream, it, man[it.category], Inset(bounds, r), Times(it.count), |l.discs|, l);
        var mid := PlaceItem(probe, stream, man, bounds, it, l);
        if mid.Done? {
          ItemsFail(probe, stream, man, bounds, rest, mid.layout);
          assert items == [it] + rest;
        }
      }
    }
  }

  /**
   Why a placement fails. An unknown category is reported, before anything is drawn, exactly if there is one,
   and it is the first in placement order; otherwise a category for which the bounds have no room, or one
   with room of which a member found no spot. A placement succeeds only if there is room for every category.
   */
  lemma FailureMeans(recipe: seq<CategoryRecipe>, stream: Stream, bounds: Bounds, man: Manifest)
    ensures var res := PlaceByGrid(recipe, stream, bounds, man);
            && ((res.Failed? && res.reason == NotInManifest) <==> !AllKnown(man, recipe))
            && (!AllKnown(man, recipe) ==> res.draws == 0 && FirstIsUnknown(man, Canonical(man, recipe), res.category))
            && (AllKnown(man, recipe) && res.Failed? ==>
                  && (exists it :: it in recipe && it.category == res.category)
                  && (res.reason == BoundsTooSmall <==> !HasRoom(bounds, RadiusOf(man, res.category))))
            && (res.Placed? ==> forall it | it in recipe :: HasRoom(bounds, RadiusOf(man, it.category)))
  {
    var items := Canonical(man, recipe);
    CanonicalReach(man, recipe);
    UnknownIsFirst(man, items);
    assert AllKnown(man, items) <==> AllKnown(man, recipe);
    if AllKnown(man, items) {
      ItemsFail(HashProbe(MaxRadius(man, items)), stream, man, bounds, items, EMPTY_LAYOUT);
    }
  }

  /** c is the category of the first item that the manifest does not know. */
  ghost predicate FirstIsUnknown(man: Manifest, items: seq<CategoryRecipe>, c: string) {
    exists k :: 0 <= k < |items| && items[k].category == c && c !in man && forall i | 0 <= i < k :: items[i].category in man
  }

  lemma {:induction false} UnknownIsFirst(man: Manifest, items: seq<CategoryRecipe>)
    ensures var c := FirstUnknown(man, items); c.Some? ==> FirstIsUnknown(man, items, c.value)
  {
    if items != [] && items[0].category in man && FirstUnknown(man, items).Some? {
      var c := FirstUnknown(man, items).value;
      UnknownIsFirst(man, items[1..]);
      var k :| 0 <= k < |items| - 1 && items[1..][k].category == c && c !in man
               && forall i | 0 <= i < k :: items[1..][i].category in man;
      forall i | 0 <= i < k + 1 ensures items[i].category in man {
        if i > 0 {
          assert items[i] == items[1..][i - 1];
        }
      }
      assert items[k + 1].category == c;
    }
  }

  // ---- yaw and scale ----

  /** Yaw and scale come from two draws in a row. */
  ghost predicate Drawn(stream: Stream, e: AssetEntry, d: nat) {
    e.yaw == stream.unit(d) * 360.0 && e.scale == 0.85 + stream.unit(d + 1) * 0.4
  }

  /** The entries' draws, in entry order, follow one another and lie before end. */
  ghost predicate AllDrawn(stream: Stream, entries: seq<AssetEntry>, at: seq<nat>, end: nat) {
    && |at| == |entries|
    && (forall i | 0 <= i < |entries| :: Drawn(stream, entries[i], at[i]) && at[i] + 2 <= end)
    && (forall i, j | 0 <= i < j < |entries| :: at[i] + 2 <= at[j])
  }

  lemma DrawnPush(stream: Stream, it: CategoryRecipe, me: ManifestEntry, spot: Vec2, draws: nat, l: Layout, at: seq<nat>)
    requires AllDrawn(stream, l.entries, at, l.draws) && l.draws <= draws
    ensures var l' := AddMember(stream, it, me, spot, draws, l); AllDrawn(stream, l'.entries, at + [draws], l'.draws)
  {
    assert SCALE_MAX - SCALE_MIN == 0.4;
  }

  lemma {:induction false} MembersDrawn(probe: Probe, stream: Stream, it: CategoryRecipe, me: ManifestEntry, box: Bounds,
                                        n: nat, start: nat, l: Layout, at: seq<nat>)
    returns (at': seq<nat>)
    requires Fits(box) && start <= |l.discs| && AllDrawn(stream, l.entries, at, l.draws)
    ensures var out := PlaceMembers(probe, stream, it, me, box, n, start, l);
            out.Done? ==> AllDrawn(stream, out.layout.entries, at', out.layout.draws)
    decreases n
  {
    at' := at;
    if n > 0 {
      MembersStep(probe, stream, it, me, box, n, start, l);
      SpotIsFree(probe, stream, it.clustering, box, me.footprintRadius, l.discs[start..], l.discs, l.draws, MAX_ATTEMPTS);
      var (spot, next) := NextSpot(probe, stream, it, me, box, start, l);
      if spot.Some? {
        DrawnPush(stream, it, me, spot.value, next, l, at);
        at' := MembersDrawn(probe, stream, it, me, box, n - 1, start, AddMember(stream, it, me, spot.value, next, l),
                            at + [next]);
      }
    }
  }

  lemma {:induction false} ItemsDrawn(probe: Probe, stream: Stream, man: Manifest, bounds: Bounds,
                                      items: seq<CategoryRecipe>, l: Layout, at: seq<nat>)
    returns (at': seq<nat>)
    requires AllKnown(man, items) && AllDrawn(stream, l.entries, at, l.draws)
    ensures var out := PlaceItems(probe, stream, man, bounds, items, l);
            out.Done? ==> AllDrawn(stream, out.layout.entries, at', out.layout.draws)
  {
    at' := at;
    if items != [] {
      var it := items[0];
      var box := Inset(bounds, man[it.category].footprintRadius);
      if Fits(box) {
        var mid := PlaceItem(probe, stream, man, bounds, it, l);
        at' := MembersDrawn(probe, stream, it, man[it.category], box, Times(it.count), |l.discs|, l, at);
        if mid.Done? {
          at' := ItemsDrawn(probe, stream, man, bounds, items[1..], mid.layout, at');
        }
      }
    }
  }

  /** Every entry's yaw and scale are drawn for it alone, after its spot was found and in entry order. */
  lemma TransformsAreDrawn(recipe: seq<CategoryRecipe>, stream: Stream, bounds: Bounds, man: Manifest)
    ensures var res := PlaceByGrid(recipe, stream, bounds, man);
            res.Placed? ==> exists at :: AllDrawn(stream, res.entries, at, res.draws)
  {
    var items := Canonical(man, recipe);
    if FirstUnknown(man, items).None? {
      var at := ItemsDrawn(HashProbe(MaxRadius(man, items)), stream, man, bounds, items, EMPTY_LAYOUT, []);
    }
  }
}

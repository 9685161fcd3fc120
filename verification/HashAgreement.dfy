/** Where placement with a spatial hash returns what placement with a scan of every footprint returns. */
module HashAgreement {
  import opened Wire
  import opened SpatialIndex
  import opened CanonicalOrder
  import opened Placement

  /** Queries of each of the radii reach footprints of each of them. */
  ghost predicate Mutual(cell: CellSize, maxR: real, radii: set<real>) {
    forall r, q | r in radii && q in radii :: Reaches(cell, maxR, r, q)
  }

  lemma HitsAgree(cell: CellSize, maxR: real, radii: set<real>, placed: seq<Disc>, x: real, y: real, r: real)
    requires Mutual(cell, maxR, radii) && RadiiAmong(placed, radii) && r in radii
    ensures Hits(NearbyCells(cell, maxR), placed, x, y, r) == Hits(EveryFootprint, placed, x, y, r)
  {
    GridIsScan(cell, maxR, placed, x, y, r);
  }

  lemma {:induction false} SpotsAgree(cell: CellSize, maxR: real, radii: set<real>, stream: Stream, clustering: real,
                                      box: Bounds, r: real, anchors: seq<Disc>, placed: seq<Disc>, draws: nat, n: nat)
    requires Mutual(cell, maxR, radii) && RadiiAmong(placed, radii) && r in radii
    ensures FindSpot(NearbyCells(cell, maxR), stream, clustering, box, r, anchors, placed, draws, n)
         == FindSpot(EveryFootprint, stream, clustering, box, r, anchors, placed, draws, n)
    decreases n
  {
    if n > 0 {
      var (at, next) := Dart(stream, clustering, box, r, anchors, draws);
      HitsAgree(cell, maxR, radii, placed, at.x, at.y, r);
      SpotsAgree(cell, maxR, radii, stream, clustering, box, r, anchors, placed, next, n - 1);
    }
  }

  lemma NextSpotsAgree(cell: CellSize, maxR: real, radii: set<real>, stream: Stream, it: CategoryRecipe,
                       me: ManifestEntry, box: Bounds, start: nat, l: Layout)
    requires Mutual(cell, maxR, radii) && RadiiAmong(l.discs, radii) && me.footprintRadius in radii && start <= |l.discs|
    ensures NextSpot(NearbyCells(cell, maxR), stream, it, me, box, start, l)
         == NextSpot(EveryFootprint, stream, it, me, box, start, l)
  {
    SpotsAgree(cell, maxR, radii, stream, it.clustering, box, me.footprintRadius, l.discs[start..], l.discs, l.draws,
               MAX_ATTEMPTS);
  }

  lemma AddMemberAmong(radii: set<real>, stream: Stream, it: CategoryRecipe, me: ManifestEntry, at: Vec2, draws: nat,
                       l: Layout)
    requires RadiiAmong(l.discs, radii) && me.footprintRadius in radii
    ensures RadiiAmong(AddMember(stream, it, me, at, draws, l).discs, radii)
  {
  }

  /** One round either ends the same way with both tests, or leads both to the same next layout. */
  lemma MembersRound(cell: CellSize, maxR: real, radii: set<real>, stream: Stream, it: CategoryRecipe,
                     me: ManifestEntry, box: Bounds, n: nat, start: nat, l: Layout)
    returns (stuck: bool, l': Layout)
    requires Mutual(cell, maxR, radii) && RadiiAmong(l.discs, radii) && me.footprintRadius in radii
    requires start <= |l.discs| && n > 0
    ensures RadiiAmong(l'.discs, radii) && start <= |l'.discs|
    ensures stuck ==> PlaceMembers(NearbyCells(cell, maxR), stream, it, me, box, n, start, l).Stuck?
                      && PlaceMembers(NearbyCells(cell, maxR), stream, it, me, box, n, start, l)
                         == PlaceMembers(EveryFootprint, stream, it, me, box, n, start, l)
    ensures !stuck ==> PlaceMembers(NearbyCells(cell, maxR), stream, it, me, box, n, start, l)
                       == PlaceMembers(NearbyCells(cell, maxR), stream, it, me, box, n - 1, start, l')
    ensures !stuck ==> PlaceMembers(EveryFootprint, stream, it, me, box, n, start, l)
                       == PlaceMembers(EveryFootprint, stream, it, me, box, n - 1, start, l')
  {
    NextSpotsAgree(cell, maxR, radii, stream, it, me, box, start, l);
    MembersStep(NearbyCells(cell, maxR), stream, it, me, box, n, start, l);
    MembersStep(EveryFootprint, stream, it, me, box, n, start, l);
    var (spot, next) := NextSpot(EveryFootprint, stream, it, me, box, start, l);
    stuck, l' := spot.None?, l;
    if spot.Some? {
      AddMemberAmong(radii, stream, it, me, spot.value, next, l);
      l' := AddMember(stream, it, me, spot.value, next, l);
    }
  }

  lemma {:induction false} MembersAgree(cell: CellSize, maxR: real, radii: set<real>, stream: Stream, it: CategoryRecipe,
                                        me: ManifestEntry, box: Bounds, n: nat, start: nat, l: Layout)
    requires Mutual(cell, maxR, radii) && RadiiAmong(l.discs, radii) && me.footprintRadius in radii && start <= |l.discs|
    ensures PlaceMembers(NearbyCells(cell, maxR), stream, it, me, box, n, start, l)
         == PlaceMembers(EveryFootprint, stream, it, me, box, n, start, l)
    decreases n
  {
    if n == 0 {
      MembersDone(NearbyCells(cell, maxR), stream, it, me, box, n, start, l);
      MembersDone(EveryFootprint, stream, it, me, box, n, start, l);
    } else {
      var stuck, l' := MembersRound(cell, maxR, radii, stream, it, me, box, n, start, l);
      if !stuck {
        MembersAgree(cell, maxR, radii, stream, it, me, box, n - 1, start, l');
      }
    }
  }

  lemma {:induction false} MembersAmong(radii: set<real>, stream: Stream, it: CategoryRecipe, me: ManifestEntry,
                                        box: Bounds, n: nat, start: nat, l: Layout)
    requires RadiiAmong(l.discs, radii) && me.footprintRadius in radii && start <= |l.discs|
    ensures var out := PlaceMembers(EveryFootprint, stream, it, me, box, n, start, l);
            out.Done? ==> RadiiAmong(out.layout.discs, radii)
    decreases n
  {
    if n > 0 {
      var (spot, next) := NextSpot(EveryFootprint, stream, it, me, box, start, l);
      if spot.Some? {
        AddMemberAmong(radii, stream, it, me, spot.value, next, l);
        MembersAmong(radii, stream, it, me, box, n - 1, start, AddMember(stream, it, me, spot.value, next, l));
      }
    }
  }

  lemma {:induction false} ItemsAgree(cell: CellSize, maxR: real, radii: set<real>, stream: Stream, man: Manifest,
                                      bounds: Bounds, items: seq<CategoryRecipe>, l: Layout)
    requires Mutual(cell, maxR, radii) && AllKnown(man, items) && RadiiAmong(l.discs, radii)
    requires forall it | it in items :: RadiusOf(man, it.category) in radii
    ensures PlaceItems(NearbyCells(cell, maxR), stream, man, bounds, items, l)
         == PlaceItems(EveryFootprint, stream, man, bounds, items, l)
  {
    if items != [] {
      var it := items[0];
      var me := man[it.category];
      var box := Inset(bounds, me.footprintRadius);
      assert RadiusOf(man, it.category) == me.footprintRadius;
      if Fits(box) {
        MembersAgree(cell, maxR, radii, stream, it, me, box, Times(it.count), |l.discs|, l);
        MembersAmong(radii, stream, it, me, box, Times(it.count), |l.discs|, l);
        var mid := PlaceItem(EveryFootprint, stream, man, bounds, it, l);
        if mid.Done? {
          ItemsAgree(cell, maxR, radii, stream, man, bounds, items[1..], mid.layout);
        }
      }
    }
  }

  function RadiiOf(man: Manifest, items: seq<CategoryRecipe>): set<real> {
    set it | it in items :: RadiusOf(man, it.category)
  }

  /** With mutual reach, placement by the hash's cells is placement by scan, for any cell size. */
  lemma SortedAgree(cell: CellSize, maxR: real, stream: Stream, man: Manifest, bounds: Bounds, items: seq<CategoryRecipe>)
    requires Mutual(cell, maxR, RadiiOf(man, items))
    ensures PlaceSorted(NearbyCells(cell, maxR), stream, man, bounds, items)
         == PlaceSorted(EveryFootprint, stream, man, bounds, items)
  {
    if FirstUnknown(man, items).None? {
      ItemsAgree(cell, maxR, RadiiOf(man, items), stream, man, bounds, items, EMPTY_LAYOUT);
    }
  }

  lemma MaxRadiusReached(man: Manifest, items: seq<CategoryRecipe>)
    ensures MaxRadius(man, items) == 0.0
         || exists it :: it in items && RadiusOf(man, it.category) == MaxRadius(man, items)
  {
    if items != [] && MaxRadius(man, items) != 0.0 {
      if RadiusOf(man, items[0].category) == MaxRadius(man, items) {
        assert items[0] in items;
      } else {
        MaxRadiusReached(man, items[1..]);
      }
    }
  }

  lemma SameItemsSameMax(man: Manifest, a: seq<CategoryRecipe>, b: seq<CategoryRecipe>)
    requires forall it | it in a :: it in b
    ensures MaxRadius(man, a) <= MaxRadius(man, b)
  {
    MaxRadiusReached(man, a);
  }

  lemma CanonicalMembers(man: Manifest, recipe: seq<CategoryRecipe>, it: CategoryRecipe)
    ensures it in Canonical(man, recipe) <==> it in recipe
  {
    CanonicalIsStableSort(man, recipe);
    if it in recipe {
      SameByCategoryMember(recipe, Canonical(man, recipe), it);
    }
    if it in Canonical(man, recipe) {
      SameByCategoryMember(Canonical(man, recipe), recipe, it);
    }
  }

  lemma CanonicalReach(man: Manifest, recipe: seq<CategoryRecipe>)
    ensures MaxRadius(man, Canonical(man, recipe)) == MaxRadius(man, recipe)
    ensures forall it :: it in Canonical(man, recipe) <==> it in recipe
  {
    forall it ensures it in Canonical(man, recipe) <==> it in recipe {
      CanonicalMembers(man, recipe, it);
    }
    SameItemsSameMax(man, Canonical(man, recipe), recipe);
    SameItemsSameMax(man, recipe, Canonical(man, recipe));
  }

  /** No radius of the recipe is negative and as large in size as the recipe's largest. */
  ghost predicate AllInReach(man: Manifest, items: seq<CategoryRecipe>) {
    forall it | it in items :: InReach(MaxRadius(man, items), RadiusOf(man, it.category))
  }

  lemma NonNegativeInReach(man: Manifest, recipe: seq<CategoryRecipe>)
    requires NonNegativeRadii(man)
    ensures AllInReach(man, recipe)
  {
  }

  /** With its radii in reach, the engine returns what placement against a plain list returns. */
  lemma HashIsScan(recipe: seq<CategoryRecipe>, stream: Stream, bounds: Bounds, man: Manifest)
    requires AllInReach(man, recipe)
    ensures PlaceByGrid(recipe, stream, bounds, man) == PlaceByScan(recipe, stream, bounds, man)
  {
    var items := Canonical(man, recipe);
    CanonicalReach(man, recipe);
    var maxR := MaxRadius(man, items);
    forall r, q | r in RadiiOf(man, items) && q in RadiiOf(man, items) ensures Reaches(CellFor(maxR), maxR, r, q) {
      InReachReaches(maxR, r, q);
    }
    SortedAgree(CellFor(maxR), maxR, stream, man, bounds, items);
  }

  /** With no negative radius the cell size has no effect: any other returns the same entries, error and draws. */
  lemma CellSizeIsIrrelevant(cell: CellSize, recipe: seq<CategoryRecipe>, stream: Stream, bounds: Bounds, man: Manifest)
    requires forall it | it in recipe :: RadiusOf(man, it.category) >= 0.0
    ensures var items := Canonical(man, recipe);
            PlaceSorted(NearbyCells(cell, MaxRadius(man, items)), stream, man, bounds, items)
              == PlaceByGrid(recipe, stream, bounds, man)
  {
    var items := Canonical(man, recipe);
    CanonicalReach(man, recipe);
    var maxR := MaxRadius(man, items);
    forall r, q | r in RadiiOf(man, items) && q in RadiiOf(man, items)
      ensures Reaches(cell, maxR, r, q) && Reaches(CellFor(maxR), maxR, r, q)
    {
      NonNegativeReaches(cell, maxR, r, q);
      NonNegativeReaches(CellFor(maxR), maxR, r, q);
    }
    SortedAgree(cell, maxR, stream, man, bounds, items);
    SortedAgree(CellFor(maxR), maxR, stream, man, bounds, items);
  }
}

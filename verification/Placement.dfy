/**
 The dart-throwing placement engine. The functions give its meaning over a plain list of placed
 footprints, with a choice of the overlap test; the method Place is the engine itself, loops and
 spatial hash included.
 */
module Placement {
  import opened Seqs
  import opened Wire
  import opened SpatialIndex
  import CanonicalOrder

  const MAX_ATTEMPTS: nat := 512
  const SCALE_MIN := 0.85
  const SCALE_MAX := 1.25
  const PI := 3.141592653589793

  type Unit = u: real | 0.0 <= u < 1.0 witness 0.0

  /** The random stream of one seed: draw k yields a fraction or a choice; cosine and sine are arbitrary. */
  datatype Stream = Stream(unit: nat -> Unit, choice: nat -> nat, cos: real -> real, sin: real -> real)

  class Rng {
    const stream: Stream
    var draws: nat

    constructor (stream: Stream)
      ensures this.stream == stream && draws == 0
    {
      this.stream := stream;
      draws := 0;
    }

    method Float64() returns (u: Unit)
      modifies this
      ensures u == stream.unit(old(draws)) && draws == old(draws) + 1
    {
      u := stream.unit(draws);
      draws := draws + 1;
    }

    method IntN(n: nat) returns (k: nat)
      requires n > 0
      modifies this
      ensures k == stream.choice(old(draws)) % n < n && draws == old(draws) + 1
    {
      k := stream.choice(draws) % n;
      draws := draws + 1;
    }
  }

  datatype Reason = NotInManifest | BoundsTooSmall | Overcrowded

  datatype PlaceResult =
    | Placed(entries: seq<AssetEntry>, draws: nat)
    | Failed(category: string, reason: Reason, draws: nat)

  /** What has been placed so far, and how far the random stream has been read. */
  datatype Layout = Layout(entries: seq<AssetEntry>, discs: seq<Disc>, draws: nat)

  datatype Outcome = Done(layout: Layout) | Stuck(category: string, reason: Reason, draws: nat)

  const EMPTY_LAYOUT := Layout([], [], 0)

  function Clamp(v: real, lo: real, hi: real): real {
    if v < lo then lo else if v > hi then hi else v
  }

  /** The region in which a centre keeps its whole footprint in bounds. */
  function Inset(bounds: Bounds, r: real): Bounds {
    Bounds(Vec2(bounds.min.x + r, bounds.min.y + r), Vec2(bounds.max.x - r, bounds.max.y - r))
  }

  predicate Fits(box: Bounds) {
    box.min.x <= box.max.x && box.min.y <= box.max.y
  }

  /** The point at fractions u and v across the box. */
  function UniformPoint(box: Bounds, u: Unit, v: Unit): Vec2 {
    Vec2(box.min.x + u * (box.max.x - box.min.x), box.min.y + v * (box.max.y - box.min.y))
  }

  function AnnulusDistance(r: real, far: Unit): real {
    r * (2.05 + 3.0 * far)
  }

  function Direction(turn: Unit): real {
    turn * 2.0 * PI
  }

  /** A point of the annulus around a, at fraction turn of the circle, pulled back into the box. */
  function AnnulusPoint(stream: Stream, box: Bounds, r: real, a: Disc, turn: Unit, far: Unit): Vec2 {
    var ang := Direction(turn);
    var dist := AnnulusDistance(r, far);
    Vec2(Clamp(a.x + dist * stream.cos(ang), box.min.x, box.max.x),
         Clamp(a.y + dist * stream.sin(ang), box.min.y, box.max.y))
  }

  /** One attempt: where the dart lands, and the stream position after it. */
  function Dart(stream: Stream, clustering: real, box: Bounds, r: real, anchors: seq<Disc>, draws: nat): (Vec2, nat) {
    if clustering > 0.0 && anchors != [] then
      if stream.unit(draws) < clustering then
        var a := anchors[stream.choice(draws + 1) % |anchors|];
        (AnnulusPoint(stream, box, r, a, stream.unit(draws + 2), stream.unit(draws + 3)), draws + 4)
      else (UniformPoint(box, stream.unit(draws + 1), stream.unit(draws + 2)), draws + 3)
    else (UniformPoint(box, stream.unit(draws), stream.unit(draws + 1)), draws + 2)
  }

  /** How a dart is tested: against every placed footprint, or against those in the cells a hash visits. */
  datatype Probe = EveryFootprint | NearbyCells(cell: CellSize, maxR: real)

  predicate Hits(probe: Probe, placed: seq<Disc>, x: real, y: real, r: real) {
    match probe
    case EveryFootprint => Blocked(placed, x, y, r)
    case NearbyCells(cell, maxR) => GridBlocked(cell, maxR, placed, x, y, r)
  }

  /** The test of a hash for radii up to maxR. */
  function HashProbe(maxR: real): Probe {
    NearbyCells(CellFor(maxR), maxR)
  }

  /** The first of at most n darts that hits nothing placed. */
  function FindSpot(probe: Probe, stream: Stream, clustering: real, box: Bounds, r: real, anchors: seq<Disc>,
                    placed: seq<Disc>, draws: nat, n: nat): (Option<Vec2>, nat)
    decreases n, |placed|  // naming the list keeps the verifier from unrolling all 512 attempts
  {
    if n == 0 then (None, draws)
    else
      var (at, next) := Dart(stream, clustering, box, r, anchors, draws);
      if !Hits(probe, placed, at.x, at.y, r) then (Some(at), next)
      else FindSpot(probe, stream, clustering, box, r, anchors, placed, next, n - 1)
  }

  /** The wire entry of one placed member, its yaw and scale drawn as fractions u and v. */
  function EntryAt(it: CategoryRecipe, groundSnap: bool, at: Vec2, u: Unit, v: Unit): AssetEntry {
    AssetEntry(it.category, at, u * 360.0, SCALE_MIN + v * (SCALE_MAX - SCALE_MIN), groundSnap, it.tags)
  }

  /** The search for the next member of a category whose own footprints start at index start. */
  function NextSpot(probe: Probe, stream: Stream, it: CategoryRecipe, me: ManifestEntry, box: Bounds, start: nat, l: Layout):
    (Option<Vec2>, nat)
    requires start <= |l.discs|
  {
    FindSpot(probe, stream, it.clustering, box, me.footprintRadius, l.discs[start..], l.discs, l.draws, MAX_ATTEMPTS)
  }

  /** Places n more members of one category; the category's own footprints start at index start. */
  function PlaceMembers(probe: Probe, stream: Stream, it: CategoryRecipe, me: ManifestEntry, box: Bounds,
                        n: nat, start: nat, l: Layout): Outcome
    requires start <= |l.discs|
    decreases n
  {
    if n == 0 then Done(l)
    else
      var (spot, next) := NextSpot(probe, stream, it, me, box, start, l);
      match spot
      case None => Stuck(it.category, Overcrowded, next)
      case Some(at) =>
        PlaceMembers(probe, stream, it, me, box, n - 1, start, AddMember(stream, it, me, at, next, l))
  }

  function AddMember(stream: Stream, it: CategoryRecipe, me: ManifestEntry, at: Vec2, draws: nat, l: Layout): Layout {
    Layout(l.entries + [EntryAt(it, me.groundSnap, at, stream.unit(draws), stream.unit(draws + 1))],
           l.discs + [Disc(at.x, at.y, me.footprintRadius)], draws + 2)
  }

  function Times(count: int): nat {
    if count < 0 then 0 else count
  }

  function PlaceItem(probe: Probe, stream: Stream, man: Manifest, bounds: Bounds, it: CategoryRecipe, l: Layout): Outcome
    requires it.category in man
  {
    var me := man[it.category];
    var box := Inset(bounds, me.footprintRadius);
    if !Fits(box) then Stuck(it.category, BoundsTooSmall, l.draws)
    else PlaceMembers(probe, stream, it, me, box, Times(it.count), |l.discs|, l)
  }

  predicate AllKnown(man: Manifest, items: seq<CategoryRecipe>) {
    forall it | it in items :: it.category in man
  }

  function PlaceItems(probe: Probe, stream: Stream, man: Manifest, bounds: Bounds, items: seq<CategoryRecipe>,
                      l: Layout): Outcome
    requires AllKnown(man, items)
  {
    if items == [] then Done(l)
    else
      match PlaceItem(probe, stream, man, bounds, items[0], l)
      case Done(next) => PlaceItems(probe, stream, man, bounds, items[1..], next)
      case Stuck(c, why, draws) => Stuck(c, why, draws)
  }

  function FirstUnknown(man: Manifest, items: seq<CategoryRecipe>): (c: Option<string>)
    ensures c.None? <==> AllKnown(man, items)
  {
    if items == [] then None
    else if items[0].category !in man then Some(items[0].category)
    else
      var rest := FirstUnknown(man, items[1..]);
      assert items == [items[0]] + items[1..];
      rest
  }

  /** Placement of items already in placement order. */
  function PlaceSorted(probe: Probe, stream: Stream, man: Manifest, bounds: Bounds, items: seq<CategoryRecipe>): PlaceResult {
    match FirstUnknown(man, items)
    case Some(c) => Failed(c, NotInManifest, 0)
    case None =>
      match PlaceItems(probe, stream, man, bounds, items, EMPTY_LAYOUT)
      case Done(l) => Placed(l.entries, l.draws)
      case Stuck(c, why, draws) => Failed(c, why, draws)
  }

  function Max(a: real, b: real): real {
    if a < b then b else a
  }

  /** The largest footprint radius of the items, and at least 0. */
  function MaxRadius(man: Manifest, items: seq<CategoryRecipe>): (r: real)
    ensures r >= 0.0
    ensures forall it | it in items :: RadiusOf(man, it.category) <= r
  {
    if items == [] then 0.0 else Max(RadiusOf(man, items[0].category), MaxRadius(man, items[1..]))
  }

  /** The meaning of Place: canonical order, with darts tested against the cells the hash visits. */
  function PlaceByGrid(recipe: seq<CategoryRecipe>, stream: Stream, bounds: Bounds, man: Manifest): PlaceResult {
    var items := CanonicalOrder.Canonical(man, recipe);
    PlaceSorted(HashProbe(MaxRadius(man, items)), stream, man, bounds, items)
  }

  /** The plain form: canonical order, with darts tested against every placed footprint. */
  function PlaceByScan(recipe: seq<CategoryRecipe>, stream: Stream, bounds: Bounds, man: Manifest): PlaceResult {
    PlaceSorted(EveryFootprint, stream, man, bounds, CanonicalOrder.Canonical(man, recipe))
  }

  /** One dart, drawn from the generator. */
  method ThrowDart(rng: Rng, clustering: real, box: Bounds, r: real, anchors: seq<Disc>) returns (at: Vec2)
    modifies rng
    ensures (at, rng.draws) == Dart(rng.stream, clustering, box, r, anchors, old(rng.draws))
  {
    var near := false;
    if clustering > 0.0 && anchors != [] {
      var u := rng.Float64();
      near := u < clustering;
    }
    if near {
      var i := rng.IntN(|anchors|);
      var turn := rng.Float64();
      var far := rng.Float64();
      at := AnnulusPoint(rng.stream, box, r, anchors[i], turn, far);
    } else {
      var u := rng.Float64();
      var v := rng.Float64();
      at := UniformPoint(box, u, v);
    }
  }

  /** The attempt loop: throws darts until one is free of the hash or the budget is spent. */
  method Search(rng: Rng, hash: SpatialHash, clustering: real, box: Bounds, r: real, anchors: seq<Disc>)
    returns (spot: Option<Vec2>)
    requires hash.Valid()
    modifies rng
    ensures (spot, rng.draws) == FindSpot(HashProbe(hash.maxR), rng.stream, clustering, box, r, anchors,
                                          hash.inserted, old(rng.draws), MAX_ATTEMPTS)
  {
    var attempt: nat := 0;
    while attempt < MAX_ATTEMPTS
      invariant attempt <= MAX_ATTEMPTS
      invariant FindSpot(HashProbe(hash.maxR), rng.stream, clustering, box, r, anchors, hash.inserted,
                         old(rng.draws), MAX_ATTEMPTS)
             == FindSpot(HashProbe(hash.maxR), rng.stream, clustering, box, r, anchors, hash.inserted,
                         rng.draws, MAX_ATTEMPTS - attempt)
    {
      var at := ThrowDart(rng, clustering, box, r, anchors);
      var hit := hash.Overlaps(at.x, at.y, r);
      if !hit {
        return Some(at);
      }
      attempt := attempt + 1;
    }
    return None;
  }

  /** The largest footprint radius and the total count of the items; fails on the first unknown category. */
  method Survey(man: Manifest, items: seq<CategoryRecipe>) returns (unknown: Option<string>, maxR: real, total: int)
    ensures unknown == FirstUnknown(man, items)
    ensures unknown.None? ==> maxR == MaxRadius(man, items) && total == TotalCount(items)
  {
    maxR, total := 0.0, 0;
    for i := 0 to |items|
      invariant maxR >= 0.0 && Max(maxR, MaxRadius(man, items[i..])) == MaxRadius(man, items)
      invariant total + TotalCount(items[i..]) == TotalCount(items)
      invariant FirstUnknown(man, items) == FirstUnknown(man, items[i..])
    {
      if items[i].category !in man {
        return Some(items[i].category), maxR, total;
      }
      assert items[i..][1..] == items[i + 1..];
      if man[items[i].category].footprintRadius > maxR {
        maxR := man[items[i].category].footprintRadius;
      }
      total := total + items[i].count;
    }
    unknown := None;
  }

  /** The layout that the engine's state stands for. */
  ghost function LayoutOf(entries: seq<AssetEntry>, hash: SpatialHash, rng: Rng): Layout
    reads hash, rng
  {
    Layout(entries, hash.inserted, rng.draws)
  }

  lemma MembersStep(probe: Probe, stream: Stream, it: CategoryRecipe, me: ManifestEntry, box: Bounds,
                    n: nat, start: nat, l: Layout)
    requires start <= |l.discs| && n > 0
    ensures var (spot, next) := NextSpot(probe, stream, it, me, box, start, l);
            PlaceMembers(probe, stream, it, me, box, n, start, l)
              == if spot.None? then Stuck(it.category, Overcrowded, next)
                 else PlaceMembers(probe, stream, it, me, box, n - 1, start, AddMember(stream, it, me, spot.value, next, l))
  {
  }

  /** Records a member at a spot that was found, drawing its yaw and scale. */
  method Record(rng: Rng, hash: SpatialHash, it: CategoryRecipe, me: ManifestEntry, at: Vec2, before: seq<AssetEntry>)
    returns (entries: seq<AssetEntry>)
    requires hash.Valid()
    modifies rng, hash
    ensures hash.Valid()
    ensures LayoutOf(entries, hash, rng) == AddMember(rng.stream, it, me, at, old(rng.draws), old(LayoutOf(before, hash, rng)))
  {
    hash.Insert(Disc(at.x, at.y, me.footprintRadius));
    var u := rng.Float64();
    var v := rng.Float64();
    entries := before + [EntryAt(it, me.groundSnap, at, u, v)];
  }

  lemma MembersDone(probe: Probe, stream: Stream, it: CategoryRecipe, me: ManifestEntry, box: Bounds, n: nat, start: nat,
                    l: Layout)
    requires start <= |l.discs|
    ensures n == 0 ==> PlaceMembers(probe, stream, it, me, box, n, start, l) == Done(l)
  {
  }

  /** One round of the member loop: places the next of n members, or reports that it did not fit. */
  method PlaceMember(rng: Rng, hash: SpatialHash, it: CategoryRecipe, me: ManifestEntry, box: Bounds,
                     anchors: seq<Disc>, before: seq<AssetEntry>, ghost probe: Probe, ghost start: nat, ghost n: nat)
    returns (fitted: bool, anchors': seq<Disc>, entries: seq<AssetEntry>)
    requires hash.Valid()
    requires probe == HashProbe(hash.maxR)
    requires n > 0 && start <= |hash.inserted| && anchors == hash.inserted[start..]
    modifies rng, hash
    ensures hash.Valid() && start <= |hash.inserted| && anchors' == hash.inserted[start..]
    ensures old(PlaceMembers(probe, rng.stream, it, me, box, n, start, LayoutOf(before, hash, rng)))
         == if fitted
            then PlaceMembers(probe, rng.stream, it, me, box, n - 1, start, LayoutOf(entries, hash, rng))
            else Stuck(it.category, Overcrowded, rng.draws)
  {
    MembersStep(probe, rng.stream, it, me, box, n, start, LayoutOf(before, hash, rng));
    anchors', entries := anchors, before;
    var spot := Search(rng, hash, it.clustering, box, me.footprintRadius, anchors);
    if spot.None? {
      return false, anchors', entries;
    }
    entries := Record(rng, hash, it, me, spot.value, before);
    anchors' := anchors + [Disc(spot.value.x, spot.value.y, me.footprintRadius)];
    fitted := true;
  }

  /** The member loop: places the instances of one category, or reports that one did not fit. */
  method PlaceCategory(rng: Rng, hash: SpatialHash, it: CategoryRecipe, me: ManifestEntry, box: Bounds,
                       before: seq<AssetEntry>)
    returns (fitted: bool, entries: seq<AssetEntry>)
    requires hash.Valid()
    modifies rng, hash
    ensures hash.Valid()
    ensures old(PlaceMembers(HashProbe(hash.maxR), rng.stream, it, me, box, Times(it.count), |hash.inserted|,
                             LayoutOf(before, hash, rng)))
         == if fitted then Done(LayoutOf(entries, hash, rng)) else Stuck(it.category, Overcrowded, rng.draws)
  {
    var anchors: seq<Disc> := [];
    entries := before;
    ghost var probe := HashProbe(hash.maxR);
    ghost var start := |hash.inserted|;
    ghost var whole := PlaceMembers(probe, rng.stream, it, me, box, Times(it.count), start,
                                    LayoutOf(before, hash, rng));
    var i: nat := 0;
    while i < it.count
      invariant i <= Times(it.count)
      invariant hash.Valid()
      invariant start <= |hash.inserted| && anchors == hash.inserted[start..]
      invariant whole == PlaceMembers(probe, rng.stream, it, me, box, Times(it.count) - i, start,
                                      LayoutOf(entries, hash, rng))
    {
      fitted, anchors, entries := PlaceMember(rng, hash, it, me, box, anchors, entries, probe, start,
                                                Times(it.count) - i);
      if !fitted {
        return;
      }
      i := i + 1;
    }
    MembersDone(probe, rng.stream, it, me, box, Times(it.count) - i, start, LayoutOf(entries, hash, rng));
    fitted := true;
  }

  /** The placement engine. Go allocates room for the total count, and panics if that is negative. */
  method Place(recipe: seq<CategoryRecipe>, stream: Stream, bounds: Bounds, man: Manifest) returns (res: PlaceResult)
    requires AllKnown(man, recipe) ==> TotalCount(recipe) >= 0
    ensures res == PlaceByGrid(recipe, stream, bounds, man)
  {
    var rng := new Rng(stream);
    var items := CanonicalOrder.Canonical(man, recipe);
    var unknown, maxR, total := Survey(man, items);
    if unknown.Some? {
      return Failed(unknown.value, NotInManifest, rng.draws);
    }
    ItemsKeepTotal(man, recipe);
    var room: nat := total;
    var hash := new SpatialHash(maxR);
    var entries: seq<AssetEntry> := [];
    ghost var whole := PlaceItems(HashProbe(maxR), stream, man, bounds, items, EMPTY_LAYOUT);
    for k := 0 to |items|
      invariant fresh(rng) && fresh(hash)
      invariant hash.Valid()
      invariant whole == PlaceItems(HashProbe(maxR), stream, man, bounds, items[k..], LayoutOf(entries, hash, rng))
    {
      var it := items[k];
      var me := man[it.category];
      var box := Inset(bounds, me.footprintRadius);
      assert items[k..][1..] == items[k + 1..];
      if !Fits(box) {
        return Failed(it.category, BoundsTooSmall, rng.draws);
      }
      var fitted;
      fitted, entries := PlaceCategory(rng, hash, it, me, box, entries);
      if !fitted {
        return Failed(it.category, Overcrowded, rng.draws);
      }
    }
    return Placed(entries, rng.draws);
  }

  lemma ItemsKeepTotal(man: Manifest, recipe: seq<CategoryRecipe>)
    ensures var items := CanonicalOrder.Canonical(man, recipe);
            TotalCount(items) == TotalCount(recipe) && (AllKnown(man, items) ==> AllKnown(man, recipe))
  {
    var items := CanonicalOrder.Canonical(man, recipe);
    CanonicalOrder.TotalCanonical(man, recipe);
    CanonicalOrder.CanonicalIsStableSort(man, recipe);
    if AllKnown(man, items) {
      forall it | it in recipe ensures it.category in man {
        CanonicalOrder.SameByCategoryMember(recipe, items, it);
      }
    }
  }
}

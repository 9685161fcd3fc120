/** A concrete run that plans more assets than the documented total cap. */
module CapsWindow {
  import opened Seqs
  import opened Wire
  import opened Placement
  import opened PlacementProperties
  import opened PlacementLimits
  import opened Recipes
  import opened RecipeProperties
  import opened Lifecycle
  import opened LifecycleFrames
  import opened ReachableRuns

  const DOT := ManifestEntry(0.0, false, false, "Dot")
  const NAMES := set k: nat | k < 23 :: Name(k)
  const MAN: Manifest := map c | c in NAMES :: DOT

  lemma NamesKnown()
    ensures Names23(MAN) && MAN != map[]
  {
    forall k: nat | k < 23 ensures Name(k) in MAN {
    }
    assert Name(0) in MAN;
  }

  lemma CrowdPlaces(stream: Stream) returns (entries: seq<AssetEntry>, draws: nat)
    ensures PlaceByGrid(Clamped(Crowd()), stream, AREA, MAN) == Placed(entries, draws) && |entries| == 5003
  {
    NamesKnown();
    TotalCapExceeded(MAN);
    ClampKeepsValid(Crowd(), MAN);
    PointsAlwaysFit(Clamped(Crowd()), stream, AREA, MAN);
    PlacedCounts(Clamped(Crowd()), stream, AREA, MAN, "");
    var res := PlaceByGrid(Clamped(Crowd()), stream, AREA, MAN);
    entries, draws := res.entries, res.draws;
  }

  /** A plan on the wire that announces the given number of assets. */
  predicate Announces(s: State, total: nat) {
    exists i | 0 <= i < |s.wire| :: s.wire[i].msg.Plan? && s.wire[i].msg.totalAssets == total
  }

  /** Whatever the random stream, a run plans 5003 assets. */
  lemma PlanCanExceedCap(c: Config)
    ensures exists acts :: Announces(After(c, acts), 5003)
  {
    var entries, draws := CrowdPlaces(c.streamOf(0));
    NamesKnown();
    TotalCapExceeded(MAN);
    PlanSent(c, MAN, Crowd(), entries, draws);
    var plan := PlanFor(Crowd(), entries);
    var s := Alone(MAN, Reading, Running(Crowd(), entries, Checking(1), [plan]), [Sent(Some(0), plan)]);
    var acts :| After(c, acts) == s;
    assert s.wire[0].msg == plan;
    assert Announces(After(c, acts), 5003);
  }
}

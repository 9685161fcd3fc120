/** The values that cross the wire, and the recipe handed from the model to the placement engine. */
module Wire {

  datatype Vec2 = Vec2(x: real, y: real)

  datatype Bounds = Bounds(min: Vec2, max: Vec2)

  datatype AssetEntry = AssetEntry(category: string, location: Vec2, yaw: real, scale: real,
                                   groundSnap: bool, tags: seq<string>)

  datatype ManifestEntry = ManifestEntry(footprintRadius: real, groundSnap: bool,
                                         instanceable: bool, displayName: string)

  type Manifest = map<string, ManifestEntry>

  datatype CategoryRecipe = CategoryRecipe(category: string, count: int, clustering: real, tags: seq<string>)

  datatype ErrorCode = Internal | LlmTimeout | LlmInvalidOutput | ExpectedHello | VersionMismatch

  /** Server to client messages. Wall-clock statistics are not modelled. */
  datatype Message =
    | Plan(id: string, seed: int, totalAssets: nat, categories: map<string, int>)
    | Chunk(id: string, assets: seq<AssetEntry>)
    | Complete(id: string, assetCount: int)
    | Error(id: string, code: ErrorCode)

  /** A missing key reads as the zero entry, whose radius is 0. */
  function RadiusOf(man: Manifest, category: string): real {
    if category in man then man[category].footprintRadius else 0.0
  }

  ghost predicate NonNegativeRadii(man: Manifest) {
    forall c | c in man :: man[c].footprintRadius >= 0.0
  }

  predicate DistinctCategories(items: seq<CategoryRecipe>) {
    forall i, j | 0 <= i < j < |items| :: items[i].category != items[j].category
  }

  function EntryOf(c: string): AssetEntry -> bool {
    (e: AssetEntry) => e.category == c
  }

  function ItemOf(c: string): CategoryRecipe -> bool {
    (it: CategoryRecipe) => it.category == c
  }

  /** The counts a recipe asks for in total. */
  function TotalCount(items: seq<CategoryRecipe>): int {
    if items == [] then 0 else items[0].count + TotalCount(items[1..])
  }

  lemma {:induction false} TotalPush(s: seq<CategoryRecipe>, x: CategoryRecipe)
    ensures TotalCount(s + [x]) == TotalCount(s) + x.count
  {
    if s == [] {
      assert s + [x] == [x];
    } else {
      assert (s + [x])[1..] == s[1..] + [x];
      TotalPush(s[1..], x);
    }
  }
}

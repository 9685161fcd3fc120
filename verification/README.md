# AetherForge generation pipeline: model and proofs

A prompt typed in the Unreal editor becomes a recipe (categories and counts from a language model), the
recipe becomes placed assets, the assets stream over one WebSocket as `plan`, `chunk`\*, `complete`, and the
editor plugin spawns them under a time budget. This project models the four components that carry such a
generation, and their composition, and proves what each promises for every input, every random stream and
every interleaving.

| files | component |
|---|---|
| `CanonicalOrder`, `SpatialIndex`, `Overlap`, `Placement`, `HashAgreement`, `PlacementProperties`, `PlacementMeaning`, `PlacementLimits`, `Clustering` | the dart-throwing placement engine and its spatial hash |
| `Recipes`, `RecipeProperties`, `Streaming` | recipe validation, the one retry, the hard caps, the message script of a generation |
| `Lifecycle` and the files that start with `Lifecycle` | the server's read loop and one goroutine per generation, as an interleaved step system |
| `ReachableRuns`, `CancellationWindow`, `CapsWindow` | concrete runs of it that break a documented rule |
| `ParsePipeline` | the client's hand-off between socket callbacks, parse workers and the dispatch tick |
| `Spawner`, `SpawnerMeaning`, `SpawnerProperties`, `AssetSpawner` | the time-budgeted spawner: its state machine, the invariants, and the object that implements it |
| `EditorModule`, `Loads`, `Provenance`, `Draining` | the module that couples the wire to the spawner: state machine, object, what loads decide, where spawned entries come from, how draining ends |
| `EndToEnd`, `Joint` | one generation from the server's run to the spawner's final statistics, and the whole system as one step system |
| `Seqs`, `Wire` | shared helpers and the values that cross the wire |

How it is built:

- Code that changes state in place is a method with loops, or a class, whose `ensures` equates the new state
  with a function of the old one (`Placement.Place` with `PlaceByGrid`, the hash with a list of footprints,
  the spawner's array and head index with a first-in first-out queue). What is promised is then proved about
  those functions and about whole runs of them.
- What a specification function computes is stated apart from it, in the source's own numbers: where a dart lands
  (`DartLands`), what a clamped count is (`ClampMeans`), what a reply means (`JudgeMeans`), what a load does
  (`LoadedMeans`), and so on.
- Code that runs concurrently is a step system with one step for each lock acquisition, critical section,
  cancel, context check, model call, send and channel close (`Lifecycle`) and for each queue or flag
  operation (`ParsePipeline`). Theorems quantify over every finite sequence of steps.
- Numbers are exact: coordinates and fractions are `real`, counts are `int`.
- Randomness is an arbitrary stream with a cursor; the language model, the world, the clock's budget, the
  loads' outcomes and the success of each send are arbitrary answers.

Six documented rules are stronger than the code. The model follows the code, shows a failing input for each,
and proves exactly when the rule holds:

- "The total never exceeds 5000" fails because a count that scales to 0 is put back to 1. `TotalCapExceeded`
  gives a valid recipe that comes out at 5003, `PlanCanExceedCap` is a run that plans it, `TotalCapExactly` says
  exactly when the cap holds, and `ScaledTotalBounds` bounds the total on both sides.
- "No two footprints overlap" (backend/internal/placement/placement.go:99) fails for a manifest with a negative
  radius, which nothing rejects: the hash then looks at too few cells. `PairOverlaps` is such a placement for every
  negative radius, `PairAlwaysOverlaps` one that no random stream avoids, and `DisjointExactly` says that the rule
  holds for a manifest exactly if no radius is negative. For single queries and single recipes `FindsAllExactly`,
  `AgreesExactly` and `PlacedIsSound` are finer.
- "Every footprint lies entirely within bounds" (backend/internal/placement/placement.go:100) fails for the same
  manifests, because a negative radius widens the area for centres. `PairOutside` is such a placement, and
  `InsideExactly` says that the rule holds for a manifest exactly if no radius is negative.
- "No complete follows a cancellation" (contract/README.md:58-59) has a window of one message between the context
  check and the send. `CompleteCanFollowCancel` is such a run, `CompleteAfterCancelExactly` says exactly when it can
  happen, and `AtMostOneMore` bounds what a cancelled generation may still send.
- "Cancellation produces no message at all" (backend/internal/orchestrator/orchestrator.go:326-327) fails for a
  model call that times out after the cancellation, which is reported. `ErrorCanFollowCancel` is such a run, and
  `SendsAfterCancelExactly` says exactly where a cancelled generation can still send anything.
- "A cancellation stops the placement loop" (contract/README.md:56-57) fails because `Place` never sees the context.
  `PlacementCanOutliveCancel` is such a run; by `RecipeIsAlwaysPlaced` a generation, cancelled or not, goes without
  its placement exactly if the model's answers gave no recipe. What a cancellation does achieve is
  `SilentUnlessSending`: nothing of such a placement is ever sent.

## Model

| member | source | states |
|---|---|---|
| CanonicalOrder.CanonicalIsStableSort | backend/internal/placement/placement.go:106-117 | the placement order is a stable sort by radius descending, then name ascending: sorted, and items of one category keep their order |
| CanonicalOrder.CanonicalOrders | backend/internal/placement/placement.go:110-117 | along the placement order radii never grow, and of two categories with one radius the smaller name comes first |
| CanonicalOrder.LexIsDictionary | backend/internal/placement/placement.go:116 | names compare as in a dictionary: at the first difference, a prefix before what it begins |
| CanonicalOrder.StableSortUnique | backend/internal/placement/placement.go:106-117 | any two stable sorts of the same items agree, so the order does not depend on the sorting algorithm |
| CanonicalOrder.CanonicalRespectsCategories | backend/internal/placement/placement.go:106-117 | recipes that agree category by category sort to the same sequence |
| SpatialIndex.SpatialHash.constructor | backend/internal/placement/placement.go:57-63 | a new hash is empty, its cells twice the maximal radius wide, or 1 wide if that is not positive |
| SpatialIndex.SpatialHash.Insert | backend/internal/placement/placement.go:65-72 | an insertion adds one footprint to the history and keeps every bucket the inserted footprints of its cell |
| SpatialIndex.SpatialHash.Overlaps | backend/internal/placement/placement.go:74-92 | for radii of any sign a query hits if and only if a footprint of the visited cells overlaps; and, where the query reaches every inserted radius, if and only if any inserted footprint does |
| Overlap.TouchingIsSharing | backend/internal/placement/placement.go:74-92 | for positive radii the overlap formula holds if and only if some point lies inside both circles |
| SpatialIndex.TouchingIsVisited | backend/internal/placement/placement.go:74-92 | ceil((r + maxR) / cell) cells to each side hold every overlapping footprint whose radius the query reaches, for any cell size |
| SpatialIndex.FindsAllExactly | backend/internal/placement/placement.go:74-92 | for any cell size, largest radius and signs, the visited cells hold every overlapping footprint of radius q if and only if r + q is 0 or ceil(abs(r + q) / cell) is at most ceil((r + maxR) / cell) |
| SpatialIndex.AgreesExactly | backend/internal/placement/placement.go:57-92 | with the cell size the hash uses, hash and scan agree for footprints and queries with given radii if and only if each radius is nonnegative or smaller in size than the largest |
| SpatialIndex.AnyCellSizeAgrees | backend/internal/placement/placement.go:57-92 | for any positive cell size and radii from 0 to the largest the grid's answer is the answer of scanning every footprint |
| Placement.ThrowDart | backend/internal/placement/placement.go:153-164 | one attempt draws from the generator exactly what the reference dart draws, and lands where it lands; what that is, `DartLands` states |
| PlacementMeaning.DartLands | backend/internal/placement/placement.go:153-164 | with clustering positive, an anchor and a coin below clustering a dart takes 4 draws and lands on the annulus point of the drawn anchor, turn and distance, pulled into the box; otherwise it lands at the fractions of the next 2 draws across the box |
| Placement.Search | backend/internal/placement/placement.go:150-169 | at most 512 attempts against the hash find the first dart free of the visited cells in a plain list, at the same cursor |
| PlacementMeaning.SearchFindsFirst | backend/internal/placement/placement.go:150-169 | a search of n throws returns the landing place and cursor of the first throw that hits nothing, and nothing if all n hit |
| PlacementMeaning.BudgetIs512 | backend/internal/placement/placement.go:150-172 | a member is given up exactly after 512 throws that all hit |
| Placement.Survey | backend/internal/placement/placement.go:119-130 | reports the first unknown category in placement order, else the largest radius, at least 0, and the total count |
| Placement.Record | backend/internal/placement/placement.go:173-190 | a placed member enters the hash and the entries, with yaw and scale from the next two draws |
| Placement.PlaceMember | backend/internal/placement/placement.go:149-190 | one round of the member loop takes the reference placement one member further, anchors included, or is stuck where it is stuck |
| Placement.PlaceCategory | backend/internal/placement/placement.go:145-191 | the member loop of a category ends in the layout, or the failure and cursor, of the reference placement |
| Placement.Place | backend/internal/placement/placement.go:103-194 | for radii of any sign the engine returns the entries, the error and the draw count of the reference placement over a plain list |
| HashAgreement.HashIsScan | backend/internal/placement/placement.go:103-194 | if each radius is nonnegative or smaller in size than the recipe's largest, the reference placement, entries, error and draws, is that of testing every footprint |
| HashAgreement.CellSizeIsIrrelevant | backend/internal/placement/placement.go:57-63 | with no negative radius, placement with cells of any other size returns the same entries, error and draws |
| PlacementProperties.PlacedIsSound | backend/internal/placement/placement.go:98-102 | on success each centre keeps its radius from the bounds and each footprint of nonnegative radius is wholly inside, yaw and scale are in range, categories and tags come in canonical order in the recipe's numbers, and footprints are pairwise disjoint if the recipe's radii are in reach of the hash |
| PlacementLimits.DisjointExactly | backend/internal/placement/placement.go:99 | every placement from a manifest is disjoint, whatever the recipe, stream and bounds, if and only if the manifest has no negative radius |
| PlacementLimits.PairOverlaps | backend/internal/placement/placement.go:74-92 | two members of a category with a negative radius, placed on their own, can overlap |
| PlacementLimits.PairAlwaysOverlaps | backend/internal/placement/placement.go:74-92 | two members of a category with a radius of at most -1 overlap for every random stream, where the bounds leave little room |
| PlacementLimits.InsideExactly | backend/internal/placement/placement.go:100 | every placement from a manifest is wholly in bounds, centres included, whatever the recipe, stream and bounds, if and only if the manifest has no negative radius |
| PlacementLimits.PairOutside | backend/internal/placement/placement.go:137-143 | two members of a category with a negative radius, placed on their own, can lie outside the bounds |
| PlacementLimits.PointsAlwaysFit | backend/internal/placement/placement.go:135-193 | known categories with radius 0 are always placed, whatever the counts and the random stream |
| PlacementProperties.PlacedCounts | backend/internal/placement/placement.go:98-102 | on success each category, and the whole result, has exactly as many entries as the recipe asks for |
| PlacementProperties.PlacedMatchesItem | backend/internal/placement/placement.go:149-191 | with distinct categories each item gets exactly its count of entries |
| PlacementMeaning.FailureMeans | backend/internal/placement/placement.go:119-143 | an unknown category is reported exactly if there is one, the first in placement order and before any draw; otherwise no room is reported exactly for a category whose bounds are narrower than twice its radius; success needs room for all |
| PlacementMeaning.InsetIsRoom | backend/internal/placement/placement.go:138-140 | the area for centres is exactly where the whole footprint is in bounds |
| PlacementMeaning.TransformsAreDrawn | backend/internal/placement/placement.go:177-190 | each entry's yaw is 360 times one draw and its scale 0.85 plus 0.4 times the next, drawn for it alone and in entry order |
| Clustering.FullClusteringStaysTogether | backend/internal/placement/placement.go:145-160 | with a true sine and cosine and clustering of 1 or more, every member after the first lies within 5.05 radii of an earlier member of its category |
| PlacementProperties.OrderOfItemsIsIrrelevant | backend/internal/placement/placement.go:106-130 | permuting a recipe of distinct categories changes neither entries, nor error, nor draws |
| PlacementProperties.LastItemOnlyAppends | backend/internal/placement/placement.go:135-193 | an item that sorts last leaves earlier entries a prefix and earlier failures as they were |
| PlacementProperties.DartInBox | backend/internal/placement/placement.go:137-164 | a dart lands where its whole footprint is in bounds, on the clamped annulus and on the uniform branch |
| PlacementProperties.AnnulusClearsAnchor | backend/internal/placement/placement.go:153-160 | with a true sine and cosine an unclipped annulus dart lies 2.05 to 5.05 radii from its anchor and never overlaps it, for radii of any sign |
| Recipes.ValidateRecipe | backend/internal/orchestrator/orchestrator.go:280-301 | returns the first defect in item order, and none if and only if the recipe is nonempty, known, without repeats and nonnegative |
| Recipes.PassesIffValid | backend/internal/orchestrator/orchestrator.go:280-301 | the item-by-item verdict is empty exactly for valid recipes |
| Recipes.VerdictNamesDefect | backend/internal/orchestrator/orchestrator.go:281-299 | the defect reported is the first wrong item's, unknown before repeated before negative, with its category and count |
| Recipes.JudgeMeans | backend/internal/orchestrator/orchestrator.go:261-273 | a reply is retried exactly if it is invalid output or an invalid recipe, with its detail or defect as feedback; a valid recipe, a deadline, a cancellation or a fault ends the loop with itself |
| Recipes.RecipeWithRetry | backend/internal/orchestrator/orchestrator.go:250-276 | two calls exactly if the first reply is schema-invalid, the second one told why; two such replies fail as invalid, any other last reply ends the loop with itself; a recipe returned is valid |
| Recipes.CapEach | backend/internal/orchestrator/orchestrator.go:305-312 | the first loop caps every count in place and returns the capped total |
| Recipes.ScaleEach | backend/internal/orchestrator/orchestrator.go:316-323 | the second loop scales every count in place, a positive one never to 0 |
| Recipes.ClampCounts | backend/internal/orchestrator/orchestrator.go:305-324 | the array ends as the clamped recipe that the lemmas below are about |
| RecipeProperties.ClampMeans | backend/internal/orchestrator/orchestrator.go:305-324 | counts, each cut to 2000, that add up to at most 5000 come out cut to 2000 and no more; otherwise each comes out less than one asset below 5000 * count / total, or as 1 where that share is below 1 |
| RecipeProperties.WithinCapsUntouched | backend/internal/orchestrator/orchestrator.go:313-315 | a recipe within both caps is left as it is |
| RecipeProperties.ClampKeepsCounts | backend/internal/orchestrator/orchestrator.go:303-324 | no count grows or passes 2000, positive counts stay positive, zeros stay zero, order between counts is kept |
| RecipeProperties.ScaledTotalBounds | backend/internal/orchestrator/orchestrator.go:313-323 | when n items are scaled, 5000 - n < total <= 5000 + the number put back to 1 |
| RecipeProperties.TotalCapExactly | backend/internal/orchestrator/orchestrator.go:303-324 | the total is at most 5000 if and only if no scaling happens or flooring saves at least what putting back costs |
| RecipeProperties.NoRoundUpNoExcess | backend/internal/orchestrator/orchestrator.go:316-323 | the cap holds whenever no count is put back to 1 |
| RecipeProperties.TotalCapExceeded | backend/internal/orchestrator/orchestrator.go:305-324 | a recipe that validation accepts, three categories of 2000 and twenty of 1, comes out at 5003 |
| CapsWindow.PlanCanExceedCap | backend/internal/orchestrator/orchestrator.go:159-201 | for every random stream a run from the handshake on puts a plan of 5003 assets on the wire |
| RecipeProperties.ClampMeetsCaps | backend/internal/orchestrator/orchestrator.go:27-32 | what clamping leaves: at most 2000 a category and at most 5000 plus the number of items in all |
| RecipeProperties.ClampKeepsValid | backend/internal/orchestrator/orchestrator.go:303-324 | clamping a valid recipe leaves a valid one |
| RecipeProperties.CategoryCountsSum | backend/internal/orchestrator/orchestrator.go:187-190 | with distinct categories the plan's map holds each item's count and adds up to the recipe's total |
| Streaming.ChunksCarryEntries | backend/internal/orchestrator/orchestrator.go:203-214 | ceil(n / size) chunks, none empty or oversized, all full but the last, the first k carrying the first k * size entries |
| Streaming.ScriptShape | backend/internal/orchestrator/orchestrator.go:186-226 | a script is one plan first, one complete last, chunks between, all with the generation's id |
| Streaming.ScriptCarriesAll | backend/internal/orchestrator/orchestrator.go:203-226 | a whole script carries every placed entry in placement order |
| Streaming.ScriptCounts | backend/internal/orchestrator/orchestrator.go:191-226 | plan and complete both report how many entries the chunks between them carry |
| Streaming.ScriptPrefixCarriesPrefix | backend/internal/orchestrator/orchestrator.go:203-214 | a script cut anywhere carries a prefix of the placed entries |
| Streaming.StreamJob | backend/internal/orchestrator/orchestrator.go:186-232 | the streaming loop emits the script up to the first message that is cancelled or fails, and finishes exactly with all of it, the last message reporting the number of entries |
| LifecycleInvariants.RunInv | backend/internal/orchestrator/orchestrator.go:84-133 | the mutex, holder, wire and trace invariants survive every run of handler and goroutines |
| LifecycleProperties.OnlyHolderCanSend | backend/internal/orchestrator/orchestrator.go:84-133 | a goroutine that may still send is cur or the one the handler waits for, and there is never a second |
| LifecycleProperties.NoInterleaving | backend/internal/orchestrator/orchestrator.go:81-92 | between two messages of a generation no other generation's message is on the wire |
| LifecycleProperties.WireHoldsTraces | backend/internal/orchestrator/orchestrator.go:346-366 | the wire, restricted to a generation, is what that generation sent, in order |
| LifecycleProperties.TraceShape | backend/internal/orchestrator/orchestrator.go:139-232 | a trace is empty, one error, or a prefix of plan, chunk\*, complete whose chunks carry a prefix of the placed entries, all of them with complete |
| LifecycleProperties.EndsExactlyOnce | backend/internal/orchestrator/orchestrator.go:135-232 | a run that is over sent the whole script, or one error alone, or was cut short by a cancellation or a failed send with neither complete nor error |
| LifecycleProperties.PlanIsTruthful | backend/internal/orchestrator/orchestrator.go:186-198 | in every emitted plan the category counts add up to total_assets, which is the number of placed entries; each count is its category's entries; the caps and the seed rule hold, and nothing overlaps or leaves the bounds if the manifest has no negative radius |
| LifecycleProperties.CompleteIsTruthful | backend/internal/orchestrator/orchestrator.go:216-226 | in every run a complete ends its trace and reports the number of entries its chunks carried, the plan's total and the number placed |
| LifecycleAnswers.AnswersDecide | backend/internal/orchestrator/orchestrator.go:247-344 | in every run there are two model calls exactly if the first reply was schema-invalid; what is placed is the last reply's valid recipe, clamped; an error's code says whether the last call timed out, output was schema-invalid twice, or anything else went wrong; a silent end was a cancellation without a timeout, or a failed send |
| LifecycleAnswers.RecipeIsAlwaysPlaced | backend/internal/orchestrator/orchestrator.go:152-182 | in every run a generation, cancelled or not, is placing, has placed, or failed to place if and only if the model's answers gave a recipe |
| LifecycleProperties.ManifestIsThere | backend/internal/server/server.go:129-165 | after the handshake a started generation never reports a missing manifest |
| LifecycleConnection.HandshakeDecides | backend/internal/server/server.go:129-165 | the first frame opens the connection with its manifest, or is answered with its error and ends it, or ends it silently |
| LifecycleConnection.ManifestFromHello | backend/internal/server/server.go:129-165 | generations run only with a manifest that a hello of the connection brought, and it is not empty |
| LifecycleConnection.ReadsDecide | backend/internal/server/server.go:100-126 | a frame that is no request is answered and reading goes on; another version is answered and a failed read is not, and both shut the connection down |
| LifecycleConnection.EndsForGood | backend/internal/server/server.go:97-112 | after a failed read or another version the handler reads and starts nothing more, and once it has returned every generation is over |
| LifecycleProperties.SameSeedSameAssets | contract/README.md:51-52 | the same items, seed, bounds and manifest give the same entries in any two runs, and streams that agree as far as the shorter goes |
| LifecycleProperties.RequestsInOrder | backend/internal/server/server.go:100-126 | the generate requests read are the generations launched, in reading order, and only the latest may be on its way |
| LifecycleCancellation.CancelTakesHold | backend/internal/orchestrator/orchestrator.go:112-120 | once the handler is done with a cancel for the current generation, by id or empty, that generation is cancelled or over in every continuation, and sends at most one more message |
| LifecycleConnection.CancelIsSeen | backend/internal/orchestrator/orchestrator.go:348-353 | a cancelled generation, or one whose connection's context is gone, stops at its next check and sends nothing |
| LifecycleConnection.CheckPassesOtherwise | backend/internal/orchestrator/orchestrator.go:348-354 | without a cancellation the check passes and the message is sent |
| LifecycleConnection.FailedSendEnds | backend/internal/orchestrator/orchestrator.go:199-229 | a send that fails puts nothing on the wire and ends the run |
| LifecycleCancellation.AtMostOneMore | backend/internal/orchestrator/orchestrator.go:326-355 | after cancellation a generation sends at most one more message: the one past its check, or a single error |
| LifecycleCancellation.SilentUnlessSending | backend/internal/orchestrator/orchestrator.go:173-201 | a generation cancelled anywhere but before or in a model call, before reporting its timeout, or in a send, never sends again |
| LifecycleCancellation.SendsAfterCancelExactly | backend/internal/orchestrator/orchestrator.go:326-355 | a cancelled generation can still send something if and only if it is inside a send, or its model call may yet time out or has |
| LifecycleCancellation.CompleteAfterCancelExactly | contract/README.md:56-59 | a cancelled generation can still send complete if and only if it is inside that very send |
| LifecycleCancellation.SupersededIsSilent | backend/internal/orchestrator/orchestrator.go:81-98 | once a preempting generate has passed its wait, or shutdown has returned, older generations never send again |
| CancellationWindow.CompleteCanFollowCancel | backend/internal/orchestrator/orchestrator.go:346-355 | a run from the handshake on in which complete goes out after the cancel |
| CancellationWindow.ErrorCanFollowCancel | backend/internal/orchestrator/orchestrator.go:326-343 | a run from the handshake on in which a cancelled generation reports a timeout |
| CancellationWindow.PlacementCanOutliveCancel | backend/internal/orchestrator/orchestrator.go:173-184 | a run from the handshake on in which a generation is cancelled while it places, and its placement still ends with its entries |
| LifecycleProgress.WaitedForCanMove | backend/internal/orchestrator/orchestrator.go:84-109 | while the handler waits on done it holds no lock, and the goroutine it waits for is never blocked |
| LifecycleProgress.OwnStepsCount | backend/internal/orchestrator/orchestrator.go:100-108 | every own step of a goroutine lowers its rank over attempts, messages left and exit steps |
| LifecycleProgress.OthersDoNotDisturb | backend/internal/orchestrator/orchestrator.go:122-133 | during a wait nobody else moves the awaited goroutine, and the wait ends only when it has finished |
| LifecycleProgress.GoroutineIsBounded | backend/internal/orchestrator/orchestrator.go:84-109 | however a run goes on, a goroutine takes at most a number of own steps fixed by the manifest, and has then closed done |
| ParsePipeline.FlagMeansOneOwner | unreal/AetherForge/Source/AetherForgeEditor/Private/Net/AetherForgeClient.cpp:191-232 | with any number of workers the flag is set exactly when one worker owns the drain, and never two do |
| ParsePipeline.QueuedWorkHasATaker | unreal/AetherForge/Source/AetherForgeEditor/Private/Net/AetherForgeClient.cpp:222-230 | raw frames without an owner have the game thread before its attempt, or a worker between release and recheck |
| ParsePipeline.DeliveryInOrder | unreal/AetherForge/Source/AetherForgeEditor/Private/Net/AetherForgeClient.cpp:189-263 | dispatched, parsed, the frame in hand and the raw queue are together the frames received, parsed, in arrival order |
| ParsePipeline.NothingStranded | unreal/AetherForge/Source/AetherForgeEditor/Private/Net/AetherForgeClient.cpp:207-232 | when all threads are at rest no frame is left and the flag is clear |
| ParsePipeline.ProcessingTerminates | unreal/AetherForge/Source/AetherForgeEditor/Private/Net/AetherForgeClient.cpp:207-232 | in any schedule without arrivals, with ticks, dispatches and stale frames, at most a known number of processing steps happen, and once they have, all are at rest and every frame is parsed |
| ParsePipeline.ProcessingEnabled | unreal/AetherForge/Source/AetherForgeEditor/Private/Net/AetherForgeClient.cpp:207-232 | until all are at rest some processing step is possible |
| SpawnerProperties.EnqueueInv | unreal/AetherForge/Source/AetherForgeEditor/Private/Spawn/AetherForgeSpawner.cpp:114-178 | a chunk is accepted whole while a generation is open, and conservation and order are kept |
| SpawnerMeaning.EnqueueMeans | unreal/AetherForge/Source/AetherForgeEditor/Private/Spawn/AetherForgeSpawner.cpp:125-175 | an entry is skipped if its category is unknown or failed, fails a category without a path, and else goes to the back of the queue or of its category's waiting entries as the asset is loaded or not |
| SpawnerProperties.LoadedInv | unreal/AetherForge/Source/AetherForgeEditor/Private/Spawn/AetherForgeSpawner.cpp:180-214 | a load, successful or not, loses no entry and reorders none within a category |
| SpawnerMeaning.LoadedMeans | unreal/AetherForge/Source/AetherForgeEditor/Private/Spawn/AetherForgeSpawner.cpp:180-214 | success puts the waiting entries in order at the back of the queue and marks the category loaded; failure counts them as skipped and marks it failed |
| Loads.LoadsDecide | unreal/AetherForge/Source/AetherForgeEditor/Private/Spawn/AetherForgeSpawner.cpp:63-214 | over all runs the open generation knows exactly its manifest's categories; one is loaded exactly if a load of it succeeded since the start, and failed exactly if one failed or entries came and it has no path; whatever is queued is loaded |
| SpawnerProperties.ProcessOneInv | unreal/AetherForge/Source/AetherForgeEditor/Private/Spawn/AetherForgeSpawner.cpp:249-316 | the head of the queue is spawned or skipped, exactly once, under the open generation's id |
| SpawnerMeaning.SpawnsUnlessRefused | unreal/AetherForge/Source/AetherForgeEditor/Private/Spawn/AetherForgeSpawner.cpp:280-405 | an entry is spawned exactly if no ground, mesh, container, class or actor is wanting |
| SpawnerMeaning.ProcessMeans | unreal/AetherForge/Source/AetherForgeEditor/Private/Spawn/AetherForgeSpawner.cpp:249-258 | the head is spawned, logged and counted if nothing refuses it, and else counted as skipped |
| SpawnerMeaning.DrainTakes | unreal/AetherForge/Source/AetherForgeEditor/Private/Spawn/AetherForgeSpawner.cpp:249-258 | the budgeted loop takes the first entries of the queue, as many as the budget allows |
| SpawnerMeaning.NoWorldNoSpawn | unreal/AetherForge/Source/AetherForgeEditor/Private/Spawn/AetherForgeSpawner.cpp:216-239 | a tick without the editor world, or without an open generation, leaves the queue alone |
| SpawnerProperties.TickInv | unreal/AetherForge/Source/AetherForgeEditor/Private/Spawn/AetherForgeSpawner.cpp:216-278 | a tick finalizes only a draining generation with nothing pending, its account settled |
| SpawnerProperties.EndDiscardInv | unreal/AetherForge/Source/AetherForgeEditor/Private/Spawn/AetherForgeSpawner.cpp:428-447 | ending with discard finalizes at once with what was spawned, and everything else accepted as skipped |
| SpawnerProperties.EndCompleteInv | unreal/AetherForge/Source/AetherForgeEditor/Private/Spawn/AetherForgeSpawner.cpp:448-457 | ending on complete finalizes if and only if nothing is pending, and else drains |
| SpawnerProperties.FinalizeInv | unreal/AetherForge/Source/AetherForgeEditor/Private/Spawn/AetherForgeSpawner.cpp:460-483 | finalization, only reached with nothing pending, records spawned + skipped equal to what was accepted |
| SpawnerProperties.BeginInv | unreal/AetherForge/Source/AetherForgeEditor/Private/Spawn/AetherForgeSpawner.cpp:63-112 | a new generation starts empty and settles the account of the one it replaces |
| SpawnerMeaning.BeginIsFresh | unreal/AetherForge/Source/AetherForgeEditor/Private/Spawn/AetherForgeSpawner.cpp:77-101 | a new generation knows its manifest's categories, none asked for, loaded or failed, with empty queues and zero counts |
| SpawnerProperties.PendingHasCause | unreal/AetherForge/Source/AetherForgeEditor/Private/Spawn/AetherForgeSpawner.cpp:586-594 | pending entries are ready or wait for an unanswered load |
| AssetSpawner.Queue.NumPendingEntries | unreal/AetherForge/Source/AetherForgeEditor/Private/Spawn/AetherForgeSpawner.cpp:586-594 | the sum over queue and categories is the number of pending entries |
| AssetSpawner.Queue.FinalizeGeneration | unreal/AetherForge/Source/AetherForgeEditor/Private/Spawn/AetherForgeSpawner.cpp:460-483 | records the final statistics and resets the generation's state; callable only with nothing pending |
| AssetSpawner.Queue.EndGeneration | unreal/AetherForge/Source/AetherForgeEditor/Private/Spawn/AetherForgeSpawner.cpp:419-458 | discards, finalizes or starts draining, as the state machine does |
| AssetSpawner.Queue.BeginGeneration | unreal/AetherForge/Source/AetherForgeEditor/Private/Spawn/AetherForgeSpawner.cpp:63-112 | closes an open generation with discard, and opens the new one |
| AssetSpawner.Queue.EnqueueEntries | unreal/AetherForge/Source/AetherForgeEditor/Private/Spawn/AetherForgeSpawner.cpp:114-178 | the loop over a chunk queues, parks or skips each entry in order |
| AssetSpawner.Queue.OnCategoryAssetLoaded | unreal/AetherForge/Source/AetherForgeEditor/Private/Spawn/AetherForgeSpawner.cpp:180-214 | on success the waiting entries stand at the back of the queue, nothing is skipped and the category is loaded; on failure they are skipped, the queue is untouched and the category is failed |
| AssetSpawner.Queue.SpawnEntry | unreal/AetherForge/Source/AetherForgeEditor/Private/Spawn/AetherForgeSpawner.cpp:280-417 | on every branch of it and its helpers exactly one of the two counters goes up by one, the spawned one exactly if ground, asset and world allow |
| AssetSpawner.Queue.DrainQueue | unreal/AetherForge/Source/AetherForgeEditor/Private/Spawn/AetherForgeSpawner.cpp:249-265 | the head-indexed array with its compaction is a first-in first-out queue under the budgeted loop |
| AssetSpawner.Queue.SpawnTick | unreal/AetherForge/Source/AetherForgeEditor/Private/Spawn/AetherForgeSpawner.cpp:216-278 | a tick is the state machine's tick, early returns included |
| EditorModule.SpawnedUnderItsOwnId | unreal/AetherForge/Source/AetherForgeEditor/Private/AetherForgeEditorModule.cpp:240-306 | over all runs a nonempty module id is the spawner's open, not draining generation, and entries spawn only under the id of a chunk that carried them |
| Provenance.SpawnedAtMostAsCarried | unreal/AetherForge/Source/AetherForgeEditor/Private/AetherForgeEditorModule.cpp:240-306 | over all runs the entries spawned under an id are, with multiplicity, among those that chunks with that id carried: nothing is spawned twice or under another id |
| EditorModule.AccountsBalance | unreal/AetherForge/Source/AetherForgeEditor/Private/Spawn/AetherForgeSpawner.cpp:63-278 | over all runs accepted entries are spawned, skipped or pending, and finalizations are begins minus the open one |
| EditorModule.CategoryOrder | unreal/AetherForge/Source/AetherForgeEditor/Private/Spawn/AetherForgeSpawner.cpp:114-214 | over all runs a category that has not failed is processed in arrival order, whatever the loads do |
| EditorModule.PendingIsNeverOrphaned | unreal/AetherForge/Source/AetherForgeEditor/Private/Spawn/AetherForgeSpawner.cpp:586-594 | over all runs something can always move what is pending |
| EditorModule.AbortKeepsWhatSpawned | unreal/AetherForge/Source/AetherForgeEditor/Private/AetherForgeEditorModule.cpp:258-306 | cancel, error and close keep what was spawned and finalize on the spot, the rest counted as skipped |
| Provenance.AbortedNeverSpawns | unreal/AetherForge/Source/AetherForgeEditor/Private/AetherForgeEditorModule.cpp:258-306 | after an abort, over any events that never reuse the id, what was spawned under it stays as it was, late chunks included |
| Draining.DrainingFinishes | unreal/AetherForge/Source/AetherForgeEditor/Private/Spawn/AetherForgeSpawner.cpp:249-276 | once loads are answered, n ready entries are finalized, accounted for, by n ticks that find the world and have any time, whatever events come between them |
| EditorModule.Module.StartGeneration | unreal/AetherForge/Source/AetherForgeEditor/Private/AetherForgeEditorModule.cpp:240-256 | returns no id, sends nothing and changes nothing when disconnected, else opens a generation under the minted id and sends the request for it with the area's bounds |
| EditorModule.AreaIsSquare | unreal/AetherForge/Source/AetherForgeEditor/Private/AetherForgeEditorModule.cpp:36-46 | the area is a square around the origin, 10 m to 1 km wide, its side the wish in centimetres in between |
| EditorModule.Module.CancelActiveGeneration | unreal/AetherForge/Source/AetherForgeEditor/Private/AetherForgeEditorModule.cpp:258-269 | sends a cancel with the active id if connected, finalizes that generation with what was spawned kept and the rest skipped, and forgets the id |
| EditorModule.Module.HandleChunk | unreal/AetherForge/Source/AetherForgeEditor/Private/AetherForgeEditorModule.cpp:271-277 | the spawner accepts exactly the entries of chunks with the active id, and is untouched by any other |
| EditorModule.Module.HandleComplete | unreal/AetherForge/Source/AetherForgeEditor/Private/AetherForgeEditorModule.cpp:279-286 | for the active id the generation is finalized with its accounts settled, or drains on unchanged; for any other id nothing changes |
| EditorModule.Module.HandleServerError | unreal/AetherForge/Source/AetherForgeEditor/Private/AetherForgeEditorModule.cpp:288-296 | an error for the active id finalizes with what was spawned kept and the rest skipped; any other changes nothing |
| EditorModule.Module.HandleClosed | unreal/AetherForge/Source/AetherForgeEditor/Private/AetherForgeEditorModule.cpp:298-306 | a closed socket finalizes the active generation with what was spawned kept and the rest skipped, and changes nothing if there is none |
| EditorModule.Module.DispatchTick | unreal/AetherForge/Source/AetherForgeEditor/Private/Net/AetherForgeClient.cpp:234-263 | a dispatch tick empties the parsed queue and delivers every message in order |
| EndToEnd.WireById | backend/internal/orchestrator/orchestrator.go:84-133 | with distinct ids the wire filtered by an id is one generation's trace |
| EndToEnd.DispatchedInOrder | unreal/AetherForge/Source/AetherForgeEditor/Private/Net/AetherForgeClient.cpp:183-263 | over a client's whole life it dispatches, cut off somewhere, earlier connections' frames, what this server put on the wire as parsing shows it and as far as it got, and later connections' frames |
| EndToEnd.DispatchedForId | unreal/AetherForge/Source/AetherForgeEditor/Private/Net/AetherForgeClient.cpp:183-263 | of the messages with an id only one connection carries, the client dispatches a prefix of those on the wire, as parsing shows them |
| EndToEnd.CompletedGenerationIsAccountedFor | unreal/AetherForge/Source/AetherForgeEditor/Private/AetherForgeEditorModule.cpp:271-286 | a generation whose complete is dispatched while its id is active has by then had exactly its placed entries accepted, in order, and keeps draining, or is finalized with spawned + skipped equal to plan.total_assets, even if a later generate discards the rest, and whatever other connections the client had |
| EndToEnd.WireReadable | unreal/AetherForge/Source/AetherForgeEditor/Private/Protocol/AetherForgeProtocol.cpp:228-250 | unless the manifest has an empty key, no chunk on the wire holds an entry that makes the client's parser drop it |
| Joint.RunInv | unreal/AetherForge/Source/AetherForgeEditor/Private/Net/AetherForgeClient.cpp:183-263 | in the system of editor, pipeline and any sequence of connections, what is received, dispatched and asked for stays in order, ids stay unique, and nothing with an id arrives before its request, over every run |
| Joint.CompletesAreAccountedFor | unreal/AetherForge/Source/AetherForgeEditor/Private/AetherForgeEditorModule.cpp:240-286 | over every run of that system, a complete delivered while its id is active comes from a generation with that id whose placed entries have all been accepted, and which is draining or finalized with spawned + skipped equal to plan.total_assets ever after |

## Left out

- Placement.Place: requires a total count of at least 0 when every category is known, as validation guarantees; below that Go panics when it allocates room for the entries, and the panic is not modelled.
- LifecycleProgress.GoroutineIsBounded: counts steps, and assumes that model calls, placement and sends return; how long they take is not modelled.
- EndToEnd.CompletedGenerationIsAccountedFor: is about three given runs, and assumes of them that ids are not reused, that messages arrive in order, and that none comes before its request; `Joint.CompletesAreAccountedFor` has these from the system itself.
- Joint.CompletesAreAccountedFor: assumes that minted ids do not repeat, and of the parser that it keeps a message's id and kind and a chunk's entries exactly (a plan's numbers, its seed above all, may be rounded). It leaves out manifests with an empty key: for them the client drops the chunks that hold entries of that category, and the accounts fall short.
- The attempts inside one placement are not steps of their own in the lifecycle: `Place` reads nothing that another thread changes, so a placement there is one step.
- Generate, Cancel, Shutdown, run, the read loop and the workers' hand-off are steps of a state machine on values, so that their interleavings can be quantified over; the mutex, the done channels and the contexts are explicit in the state, object identity is not.
- Rounding, NaN, infinities and the overflow of cell keys and counters: all arithmetic is exact, also in the scaling of counts.
- The PCG generator: a seed stands for an arbitrary stream, IntN takes one draw, and sine and cosine are arbitrary functions except where a lemma says otherwise.
- JSON encoding and decoding with its strictness checks, WebSocket, HTTP and the Ollama client, prompt building, logging, flags, record and replay: the model answers a recipe, invalid output, a timeout, a cancellation or a fault.
- A send that fails counts as not delivered; that a frame might have left before the error is not modelled.
- Wall-clock statistics, error texts, and the spawner's cached PendingCount field.
- The memory model below TQueue and std::atomic: their operations are atomic steps in one order.
- The parse worker's weak pointer: the client outlives its workers.
- FString comparison and TMap keys ignore letter case; ids and categories compare exactly here, which is the same on minted ids that are echoed unchanged and on categories that differ in more than case.
- World effects of spawning: ground height, transforms, components, undo transactions, outliner names and tags; only spawned or skipped is kept, and a loaded asset is taken to stay valid.
- Listeners that re-enter the spawner, its Shutdown, the sidecar process, the reconnect ticker, the panel and the menus.

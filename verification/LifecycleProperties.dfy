/** What holds of every run of the lifecycle, whatever the interleaving. */
module LifecycleProperties {
  import opened Seqs
  import opened Wire
  import opened PlacementProperties
  import opened HashAgreement
  import opened Recipes
  import opened RecipeProperties
  import opened Streaming
  import opened Lifecycle
  import opened LifecycleInvariants
  import opened LifecycleFrames

  /**
   A generation that may still send is the one the handler is waiting out, or else cur; so at any
   moment at most one generation can send, even while finished goroutines have not closed done yet.
   */
  lemma OnlyHolderCanSend(c: Config, acts: seq<Action>, g: nat)
    ensures var s := After(c, acts);
            g < |s.gens| && CanSend(s.gens[g].pc) ==>
              Holder(s) == Some(g) && forall h | 0 <= h < |s.gens| && h != g :: !CanSend(s.gens[h].pc)
  {
    Reached(c, acts);
  }

  /** Between two messages of one generation no other generation's message ever appears on the wire. */
  lemma NoInterleaving(c: Config, acts: seq<Action>, i: nat, j: nat, k: nat)
    requires i < j < k < |After(c, acts).wire|
    requires var w := After(c, acts).wire; w[i].from.Some? && w[i].from == w[k].from && w[j].from.Some?
    ensures After(c, acts).wire[j].from == After(c, acts).wire[i].from
  {
    Reached(c, acts);
  }

  /** What a generation has sent, on the wire, is its trace: nothing is lost, added or reordered. */
  lemma WireHoldsTraces(c: Config, acts: seq<Action>, g: nat)
    requires g < |After(c, acts).gens|
    ensures OnWire(After(c, acts), g) == After(c, acts).gens[g].trace
  {
    Reached(c, acts);
  }

  /**
   Every trace is empty, a single error, or a prefix of plan, chunk*, complete; and what its chunks
   carry is a prefix of the placed entries, all of them once complete is sent.
   */
  lemma TraceShape(c: Config, acts: seq<Action>, g: nat)
    requires g < |After(c, acts).gens|
    ensures var gen := After(c, acts).gens[g];
            if gen.job.None? then gen.trace == [] || IsErrorTrace(gen)
            else
              && gen.trace <= ScriptOf(c, gen)
              && Carried(gen.trace) <= gen.job.value.entries
              && (gen.trace == ScriptOf(c, gen) ==> Carried(gen.trace) == gen.job.value.entries)
  {
    Reached(c, acts);
    var s := After(c, acts);
    var gen := s.gens[g];
    assert GenInv(c, s.man, s.parentDone, gen);
    if gen.job.Some? {
      ScriptPrefixCarriesPrefix(gen.req.id, gen.job.value, c.chunkSize, gen.trace);
      ScriptCarriesAll(gen.req.id, gen.job.value, c.chunkSize);
    }
  }

  /**
   A run that is over ended in exactly one of three ways: it sent the whole script, complete included;
   it sent one error and nothing else; or it was cut short by a cancellation or by a failed send, and
   then sent neither complete nor an error.
   */
  lemma EndsExactlyOnce(c: Config, acts: seq<Action>, g: nat)
    requires g < |After(c, acts).gens|
    requires !Early(After(c, acts).gens[g].pc) && !Streams(After(c, acts).gens[g].pc)
    ensures var s := After(c, acts);
            var gen := s.gens[g];
            match gen.stop
            case Ongoing => IsErrorTrace(gen) || (gen.job.Some? && gen.trace == ScriptOf(c, gen))
            case SawCancel => (gen.cancelled || s.parentDone) && forall m | m in gen.trace :: !m.Complete? && !m.Error?
            case SendFailed => forall m | m in gen.trace :: !m.Complete? && !m.Error?
  {
    Reached(c, acts);
    var s := After(c, acts);
    var gen := s.gens[g];
    assert GenInv(c, s.man, s.parentDone, gen);
    if gen.job.Some? {
      ScriptShape(gen.req.id, gen.job.value, c.chunkSize);
      assert forall i | 0 <= i < |gen.trace| :: gen.trace[i] == ScriptOf(c, gen)[i];
    }
  }

  /**
   A plan that was sent tells the truth: its category counts add up to its total, the total is the
   number of placed entries, and each category's count is the number of its entries, at most 2000; the
   total is at most 5000, but for one extra per category at worst. The entries are well formed, wholly in
   bounds and pairwise disjoint if no radius of the manifest is negative, and the seed is the request's or
   a 53-bit non-negative one.
   */
  lemma PlanIsTruthful(c: Config, acts: seq<Action>, g: nat, m: Message, category: string)
    requires g < |After(c, acts).gens| && m in After(c, acts).gens[g].trace && m.Plan?
    ensures var s := After(c, acts);
            var gen := s.gens[g];
            && gen.job.Some?
            && MapSum(m.categories) == m.totalAssets == |gen.job.value.entries|
            && (category in m.categories ==>
                  m.categories[category] == |Filter(gen.job.value.entries, EntryOf(category))| <= MAX_ASSETS_PER_CATEGORY)
            && m.totalAssets <= MAX_ASSETS_TOTAL + |m.categories|
            && (NonNegativeRadii(s.man) ==> AsDocumented(s.man, gen.req.bounds, gen.job.value.entries))
            && (forall e | e in gen.job.value.entries :: WellFormed(s.man, gen.req.bounds, e))
            && m.seed == gen.job.value.seed
            && (if gen.req.seed.Some? then m.seed == gen.req.seed.value else 0 <= m.seed < 9007199254740992)
  {
    Reached(c, acts);
    var s := After(c, acts);
    var gen := s.gens[g];
    assert GenInv(c, s.man, s.parentDone, gen);
    var job := gen.job.value;
    ScriptShape(gen.req.id, job, c.chunkSize);
    var i :| 0 <= i < |gen.trace| && gen.trace[i] == m;
    assert gen.trace[i] == ScriptOf(c, gen)[i];
    assert m == PlanOf(gen.req.id, job);
    JobCounts(c, s.man, gen, category);
  }

  /**
   A complete that was sent tells the truth: it is the last message of its trace, and the number it reports is
   the number of entries that the trace's chunks carry, the plan's total and the number of placed entries.
   */
  lemma CompleteIsTruthful(c: Config, acts: seq<Action>, g: nat, m: Message)
    requires g < |After(c, acts).gens| && m in After(c, acts).gens[g].trace && m.Complete?
    ensures var gen := After(c, acts).gens[g];
            && gen.job.Some? && gen.trace[|gen.trace| - 1] == m && gen.trace[0].Plan?
            && m.assetCount == |Carried(gen.trace)| == gen.trace[0].totalAssets == |gen.job.value.entries|
  {
    Reached(c, acts);
    var s := After(c, acts);
    var gen := s.gens[g];
    assert GenInv(c, s.man, s.parentDone, gen);
    var all := ScriptOf(c, gen);
    ScriptShape(gen.req.id, gen.job.value, c.chunkSize);
    ScriptCounts(gen.req.id, gen.job.value, c.chunkSize);
    var i :| 0 <= i < |gen.trace| && gen.trace[i] == m;
    assert gen.trace[i] == all[i];
    assert gen.trace == all;
  }

  lemma JobCounts(c: Config, man: Manifest, gen: Gen, category: string)
    requires gen.job.Some? && JobOk(c, man, gen)
    ensures var job := gen.job.value;
            && MapSum(CategoryCounts(job.items)) == |job.entries|
            && (category in CategoryCounts(job.items) ==>
                  CategoryCounts(job.items)[category] == |Filter(job.entries, EntryOf(category))| <= MAX_ASSETS_PER_CATEGORY)
            && |job.entries| <= MAX_ASSETS_TOTAL + |CategoryCounts(job.items)|
            && (NonNegativeRadii(man) ==> AsDocumented(man, gen.req.bounds, job.entries))
            && (forall e | e in job.entries :: WellFormed(man, gen.req.bounds, e))
  {
    var job := gen.job.value;
    var stream := c.streamOf(job.seed);
    PlacedIsSound(job.items, stream, gen.req.bounds, man);
    if NonNegativeRadii(man) {
      NonNegativeInReach(man, job.items);
    }
    PlacedCounts(job.items, stream, gen.req.bounds, man, category);
    CategoryCountsSum(job.items);
    CategoryCountsSize(job.items);
    CategoryCountsKeys(job.items, category);
    if category in CategoryCounts(job.items) {
      var k :| 0 <= k < |job.items| && job.items[k].category == category;
      PlacedMatchesItem(job.items, stream, gen.req.bounds, man, k);
    }
  }

  /** The handshake rules out the error for a missing manifest: a started generation always calls the model. */
  lemma ManifestIsThere(c: Config, acts: seq<Action>, g: nat)
    requires g < |After(c, acts).gens| && After(c, acts).gens[g].pc.Start?
    ensures GenStep(After(c, acts), g).gens[g].pc == Calling(0)
  {
    Reached(c, acts);
  }

  /**
   Reproducibility, across runs, connections and machines: two generations whose approved recipes hold the
   same items, in any order, with the same seed, bounds and manifest, place the same entries; and what the
   two have streamed so far agrees as far as the shorter stream goes.
   */
  lemma SameSeedSameAssets(c: Config, acts: seq<Action>, g: nat, c': Config, acts': seq<Action>, h: nat)
    requires g < |After(c, acts).gens| && h < |After(c', acts').gens|
    requires var gen, gen' := After(c, acts).gens[g], After(c', acts').gens[h];
             && gen.job.Some? && gen'.job.Some?
             && multiset(gen.job.value.items) == multiset(gen'.job.value.items)
             && gen.job.value.seed == gen'.job.value.seed
             && gen.req.bounds == gen'.req.bounds
             && c.streamOf(gen.job.value.seed) == c'.streamOf(gen.job.value.seed)
             && After(c, acts).man == After(c', acts').man
    ensures var gen, gen' := After(c, acts).gens[g], After(c', acts').gens[h];
            && gen.job.value.entries == gen'.job.value.entries
            && (Carried(gen.trace) <= Carried(gen'.trace) || Carried(gen'.trace) <= Carried(gen.trace))
  {
    Reached(c, acts);
    Reached(c', acts');
    var s, s' := After(c, acts), After(c', acts');
    var gen, gen' := s.gens[g], s'.gens[h];
    assert GenInv(c, s.man, s.parentDone, gen) && GenInv(c', s'.man, s'.parentDone, gen');
    OrderOfItemsIsIrrelevant(gen.job.value.items, gen'.job.value.items, c.streamOf(gen.job.value.seed), gen.req.bounds, s.man);
    TraceShape(c, acts, g);
    TraceShape(c', acts', h);
    PrefixesCompare(Carried(gen.trace), Carried(gen'.trace), gen.job.value.entries);
  }

  lemma PrefixesCompare<T>(a: seq<T>, b: seq<T>, all: seq<T>)
    requires a <= all && b <= all
    ensures a <= b || b <= a
  {
  }

  // ---- requests and cancellation reach the right generation ----

  /** The generate requests the handler reads along a run. */
  function ReadRequests(c: Config, s: State, acts: seq<Action>): seq<Request>
    decreases |acts|
  {
    if acts == [] then []
    else
      (if acts[0].ReadGenerate? && s.handler.Reading? then [acts[0].req] else [])
      + ReadRequests(c, Step(c, s, acts[0]), acts[1..])
  }

  /** The request the handler has read and not yet launched. */
  function InProgress(h: Handler): seq<Request> {
    match h
    case WantTake(Launch(req)) => [req]
    case Taking(Launch(req)) => [req]
    case Took(Launch(req), _) => [req]
    case Waiting(Launch(req), _) => [req]
    case WantInstall(req) => [req]
    case Installing(req) => [req]
    case _ => []
  }

  function RequestOf(gen: Gen): Request {
    gen.req
  }

  function Requests(s: State): seq<Request> {
    Map(RequestOf, s.gens) + InProgress(s.handler)
  }

  lemma HandlerKeepsRequests(s: State)
    requires HolderInv(s)
    ensures Requests(HandlerStep(s)) == Requests(s)
  {
    var t := HandlerStep(s);
    if s.handler.Installing? {
      assert Map(RequestOf, t.gens) == Map(RequestOf, s.gens) + [s.handler.req];
    } else {
      HandlerFrame(s);
      assert Map(RequestOf, t.gens) == Map(RequestOf, s.gens);
    }
  }

  lemma IdentityKeepsRequests(s: State, t: State, g: nat)
    requires KeepsIdentity(s, t, g)
    ensures Requests(t) == Requests(s)
  {
    assert Map(RequestOf, t.gens) == Map(RequestOf, s.gens);
  }

  lemma GenKeepsRequests(c: Config, s: State, a: Action)
    requires a.GenRuns? || a.ModelAnswers? || a.PlacementEnds? || a.SendEnds?
    ensures Requests(Step(c, s, a)) == Requests(s)
  {
    if a.g < |s.gens| {
      OwnStepIdentity(c, s, a, a.g);
      IdentityKeepsRequests(s, Step(c, s, a), a.g);
    }
  }

  lemma StepKeepsRequests(c: Config, s: State, a: Action)
    requires HolderInv(s)
    ensures Requests(Step(c, s, a)) == Requests(s) + (if a.ReadGenerate? && s.handler.Reading? then [a.req] else [])
  {
    if a.HandlerRuns? {
      HandlerKeepsRequests(s);
    } else if a.GenRuns? || a.ModelAnswers? || a.PlacementEnds? || a.SendEnds? {
      GenKeepsRequests(c, s, a);
    } else if !a.ParentCancelled? {
      InputFrame(c, s, a);
    }
  }

  lemma {:induction false} RunKeepsRequests(c: Config, s: State, acts: seq<Action>)
    requires Inv(c, s)
    ensures Requests(Run(c, s, acts)) == Requests(s) + ReadRequests(c, s, acts)
    decreases |acts|
  {
    if acts != [] {
      var t := Step(c, s, acts[0]);
      StepKeepsRequests(c, s, acts[0]);
      StepInv(c, s, acts[0]);
      RunKeepsRequests(c, t, acts[1..]);
      Associate(Requests(s), if acts[0].ReadGenerate? && s.handler.Reading? then [acts[0].req] else [],
                  ReadRequests(c, t, acts[1..]));
    } else {
      assert Requests(s) + [] == Requests(s);
    }
  }

  /** Every generate request read becomes exactly one generation, in reading order; only the latest may still be on its way. */
  lemma RequestsInOrder(c: Config, acts: seq<Action>)
    ensures var s := After(c, acts);
            Map(RequestOf, s.gens) + InProgress(s.handler) == ReadRequests(c, Init(), acts)
  {
    InitInv(c);
    RunKeepsRequests(c, Init(), acts);
    NothingRequestedYet(ReadRequests(c, Init(), acts));
  }

  lemma NothingRequestedYet(rs: seq<Request>)
    ensures Requests(Init()) + rs == rs
  {
  }

  /** The handler is at the point of cancelling generation g: as named or unnamed current target, or as the one it took. */
  predicate AboutToCancel(s: State, g: nat)
    requires g < |s.gens|
  {
    || (s.handler.Cancelling? && s.cur == Some(g) && (s.handler.id == "" || s.handler.id == s.gens[g].req.id))
    || (s.handler.Took? && s.handler.prev == Some(g))
  }

  lemma HandlerTarget(s: State, g: nat)
    requires HolderInv(s) && g < |s.gens|
    ensures var t := HandlerStep(s); g < |t.gens| && (t.gens[g].cancelled <==> s.gens[g].cancelled || AboutToCancel(s, g))
  {
  }

  /** A generation is cancelled by the handler when it is the target, and by nothing else. */
  lemma CancelReachesItsTarget(c: Config, acts: seq<Action>, a: Action, g: nat)
    requires g < |After(c, acts).gens|
    ensures var s := After(c, acts);
            var t := Step(c, s, a);
            g < |t.gens| && (t.gens[g].cancelled <==> s.gens[g].cancelled || (a.HandlerRuns? && AboutToCancel(s, g)))
  {
    Reached(c, acts);
    var s := After(c, acts);
    if a.HandlerRuns? {
      HandlerTarget(s, g);
    } else if a.GenRuns? || a.ModelAnswers? || a.PlacementEnds? || a.SendEnds? {
      if a.g < |s.gens| {
        OwnStepIdentity(c, s, a, a.g);
      }
    } else if !a.ParentCancelled? {
      InputFrame(c, s, a);
    }
  }
}

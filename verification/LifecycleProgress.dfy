/** The handler's wait for an old generation cannot deadlock and cannot last for ever. */
module LifecycleProgress {
  import opened Seqs
  import opened Wire
  import opened Recipes
  import opened Streaming
  import opened Lifecycle
  import opened LifecycleInvariants
  import opened LifecycleFrames
  import opened RecipeProperties
  import opened PlacementProperties

  /** Generation g can take a step of its own, given that model calls, placement and sends return. */
  predicate CanMove(s: State, g: nat)
    requires g < |s.gens|
  {
    match s.gens[g].pc
    case Created => false
    case Finished => false
    case Returned => s.mu.None?
    case _ => true
  }

  /** While the handler waits for a generation it does not hold the lock, and that generation is never blocked. */
  lemma WaitedForCanMove(c: Config, acts: seq<Action>)
    requires After(c, acts).handler.Waiting?
    ensures var s := After(c, acts);
            var g := s.handler.who;
            g < |s.gens| && s.mu != Some(HandlerOwns) && (s.gens[g].pc.Finished? || CanMove(s, g))
  {
    Reached(c, acts);
    var s := After(c, acts);
    assert s.mu.Some? ==> s.mu.value.GenOwns? && Holder(s) == Some(s.mu.value.g);
  }

  /** How far a generation is from the end: a phase, and within streaming the messages left. */
  function Phase(pc: Pc): nat {
    match pc
    case Created => 12
    case Start => 11
    case Calling(attempt) => if attempt == 0 then 10 else 9
    case Placing(_) => 8
    case Checking(_) => 7
    case Sending(_) => 7
    case Reporting(_) => 6
    case PlaceError => 6
    case SendingError(_) => 5
    case Returned => 4
    case Locked => 3
    case Cleared => 2
    case Closing => 1
    case Finished => 0
  }

  function Remaining(c: Config, gen: Gen): int {
    if Streams(gen.pc)
    then 2 * (|ScriptIfAny(c, gen)| - gen.pc.k) + (if gen.pc.Checking? then 1 else 0)
    else 0
  }

  predicate Closer(c: Config, gen: Gen, gen': Gen) {
    || Phase(gen'.pc) < Phase(gen.pc)
    || (Phase(gen'.pc) == Phase(gen.pc) && 0 <= Remaining(c, gen') < Remaining(c, gen))
  }

  /** a is a step of generation g's own goroutine that is enabled in s. */
  predicate OwnStep(s: State, a: Action, g: nat)
    requires g < |s.gens|
  {
    match s.gens[g].pc
    case Calling(_) => a.ModelAnswers? && a.g == g
    case Placing(_) => a.PlacementEnds? && a.g == g && FreshSeed(a.pick)
    case Sending(_) => a.SendEnds? && a.g == g
    case SendingError(_) => a.SendEnds? && a.g == g
    case _ => a.GenRuns? && a.g == g && CanMove(s, g)
  }

  lemma ResumeIsCloser(c: Config, gen: Gen, ctxErr: bool, noManifest: bool)
    requires TraceInv(ScriptIfAny(c, gen), gen)
    requires !gen.pc.Created? && !gen.pc.Returned? && !gen.pc.Locked? && !gen.pc.Finished?
    requires !gen.pc.Calling? && !gen.pc.Placing? && !gen.pc.Sending? && !gen.pc.SendingError?
    ensures Closer(c, gen, Resume(gen, ctxErr, noManifest))
  {
    var gen' := Resume(gen, ctxErr, noManifest);
    if gen.pc.Checking? && gen'.pc.Sending? {
      assert ScriptIfAny(c, gen') == ScriptIfAny(c, gen);
    }
  }

  lemma GenStepIsCloser(c: Config, s: State, g: nat)
    requires g < |s.gens| && TraceInv(ScriptIfAny(c, s.gens[g]), s.gens[g]) && CanMove(s, g)
    requires var pc := s.gens[g].pc; !pc.Calling? && !pc.Placing? && !pc.Sending? && !pc.SendingError?
    ensures Closer(c, s.gens[g], GenStep(s, g).gens[g])
  {
    if !s.gens[g].pc.Returned? && !s.gens[g].pc.Locked? {
      ResumeIsCloser(c, s.gens[g], CtxErr(s, g), s.man == map[]);
    }
  }

  lemma SendIsCloser(c: Config, s: State, g: nat, ok: bool)
    requires g < |s.gens| && TraceInv(ScriptIfAny(c, s.gens[g]), s.gens[g])
    requires s.gens[g].pc.Sending? || s.gens[g].pc.SendingError?
    ensures Closer(c, s.gens[g], OnSendEnd(c, s, g, ok).gens[g])
  {
    var gen, gen' := s.gens[g], OnSendEnd(c, s, g, ok).gens[g];
    if gen.pc.Sending? && gen'.pc.Checking? {
      assert ScriptIfAny(c, gen') == ScriptIfAny(c, gen);
    }
  }

  lemma AnswerIsCloser(c: Config, s: State, g: nat, reply: LlmReply)
    requires g < |s.gens| && s.gens[g].pc.Calling?
    ensures Closer(c, s.gens[g], OnModelAnswer(s, g, reply).gens[g])
  {
  }

  lemma PlacementIsCloser(c: Config, s: State, g: nat, pick: int)
    requires g < |s.gens| && s.gens[g].pc.Placing? && FreshSeed(pick)
    ensures Closer(c, s.gens[g], OnPlacementEnd(c, s, g, pick).gens[g])
  {
  }

  lemma PutKeepsCount(c: Config, s: State, a: Action, g: nat)
    requires g < |s.gens| && About(a, g)
    ensures |Step(c, s, a).gens| == |s.gens|
  {
    OwnStepIdentity(c, s, a, g);
  }

  lemma OwnStepIsCloser(c: Config, s: State, a: Action, g: nat)
    requires g < |s.gens| && TraceInv(ScriptIfAny(c, s.gens[g]), s.gens[g]) && OwnStep(s, a, g)
    ensures var t := Step(c, s, a); g < |t.gens| && Closer(c, s.gens[g], t.gens[g])
  {
    PutKeepsCount(c, s, a, g);
    match s.gens[g].pc
    case Calling(_) => AnswerIsCloser(c, s, g, a.reply);
    case Placing(_) => PlacementIsCloser(c, s, g, a.pick);
    case Sending(_) => SendIsCloser(c, s, g, a.ok);
    case SendingError(_) => SendIsCloser(c, s, g, a.ok);
    case _ => GenStepIsCloser(c, s, g);
  }

  lemma TraceHolds(c: Config, acts: seq<Action>, g: nat)
    requires g < |After(c, acts).gens|
    ensures var gen := After(c, acts).gens[g]; TraceInv(ScriptIfAny(c, gen), gen)
  {
    Reached(c, acts);
    var s := After(c, acts);
    assert GenInv(c, s.man, s.parentDone, s.gens[g]);
  }

  /** Every step of a goroutine's own brings it strictly closer to closing done, in a well-founded order. */
  lemma OwnStepsCount(c: Config, acts: seq<Action>, a: Action, g: nat)
    requires g < |After(c, acts).gens| && OwnStep(After(c, acts), a, g)
    ensures var s := After(c, acts);
            var t := Step(c, s, a);
            g < |t.gens| && Closer(c, s.gens[g], t.gens[g])
  {
    TraceHolds(c, acts, g);
    OwnStepIsCloser(c, After(c, acts), a, g);
  }

  lemma DisabledOwnStep(c: Config, s: State, a: Action, g: nat)
    requires g < |s.gens| && About(a, g) && !OwnStep(s, a, g)
    ensures Step(c, s, a) == s
  {
    assert Put(s, g, s.gens[g]) == s;
  }

  lemma OthersKeepHandler(c: Config, s: State, a: Action)
    requires s.handler.Waiting? && !a.HandlerRuns?
    ensures Step(c, s, a).handler == s.handler
  {
    match a
    case GenRuns(g) => if g < |s.gens| { GenStepFrame(s, g); }
    case ModelAnswers(g, reply) => if g < |s.gens| { ModelAnswerFrame(s, g, reply); }
    case PlacementEnds(g, pick) => if g < |s.gens| { PlacementEndFrame(c, s, g, pick); }
    case SendEnds(g, ok) => if g < |s.gens| { SendEndFrame(c, s, g, ok); }
    case _ =>
  }

  /**
   While the handler waits, only the awaited goroutine's own steps move it, and the wait ends only when
   it has finished. With WaitedForCanMove and OwnStepsCount: the wait cannot deadlock or go on for ever.
   */
  lemma OthersDoNotDisturb(c: Config, acts: seq<Action>, a: Action)
    requires After(c, acts).handler.Waiting?
    ensures var s := After(c, acts);
            var g := s.handler.who;
            var t := Step(c, s, a);
            && g < |s.gens| && g < |t.gens|
            && (!OwnStep(s, a, g) ==> t.gens[g].pc == s.gens[g].pc && t.gens[g].trace == s.gens[g].trace)
            && (t.handler == s.handler || s.gens[g].pc.Finished?)
  {
    Reached(c, acts);
    var s := After(c, acts);
    var g := s.handler.who;
    if !About(a, g) {
      OthersStep(c, s, a, g);
    } else if !OwnStep(s, a, g) {
      DisabledOwnStep(c, s, a, g);
    } else {
      PutKeepsCount(c, s, a, g);
    }
    if !a.HandlerRuns? {
      OthersKeepHandler(c, s, a);
    }
  }

  // ---- how long a goroutine can take ----

  lemma SubsetSize<T>(a: set<T>, b: set<T>)
    requires a <= b
    ensures |a| <= |b|
  {
    assert b == a + (b - a);
  }

  /** A valid recipe has at most one item per manifest category. */
  lemma ItemsWithinManifest(items: seq<CategoryRecipe>, man: Manifest)
    requires ValidRecipe(items, man)
    ensures |items| <= |man|
  {
    var counts := CategoryCounts(items);
    CategoryCountsSize(items);
    forall category | category in counts.Keys ensures category in man.Keys {
      CategoryCountsKeys(items, category);
    }
    SubsetSize(counts.Keys, man.Keys);
    assert |counts.Keys| == |counts| && |man.Keys| == |man|;
  }

  /** The longest script any generation can have: plan, one chunk per asset at worst, complete. */
  function LongestScript(man: Manifest): nat {
    MAX_ASSETS_TOTAL + |man| + 2
  }

  lemma ScriptWithinCaps(c: Config, man: Manifest, gen: Gen)
    requires gen.job.Some? && JobOk(c, man, gen)
    ensures |ScriptOf(c, gen)| <= LongestScript(man)
  {
    var job := gen.job.value;
    ItemsWithinManifest(job.items, man);
    PlacedCounts(job.items, c.streamOf(job.seed), gen.req.bounds, man, "");
    ScriptShape(gen.req.id, job, c.chunkSize);
    ChunksWithin(job.entries, c.chunkSize);
  }

  lemma {:induction false} ChunksWithin(entries: seq<AssetEntry>, size: nat)
    requires size > 0
    ensures |Chunks(entries, size)| <= |entries|
  {
    if |entries| > size {
      ChunksWithin(entries[size..], size);
    }
  }

  /** An upper bound on the steps a goroutine has left, from the manifest alone until it starts to stream. */
  function StepsLeft(c: Config, man: Manifest, gen: Gen): int {
    if Streams(gen.pc) then 7 + Remaining(c, gen)
    else if Phase(gen.pc) >= 8 then 2 * LongestScript(man) + 1 + Phase(gen.pc)
    else Phase(gen.pc)
  }

  function MostSteps(man: Manifest): nat {
    2 * LongestScript(man) + 13
  }

  lemma StepsLeftBounded(c: Config, man: Manifest, parentDone: bool, gen: Gen)
    requires GenInv(c, man, parentDone, gen)
    ensures 0 <= StepsLeft(c, man, gen) <= MostSteps(man)
    ensures StepsLeft(c, man, gen) == 0 <==> gen.pc.Finished?
    ensures Streams(gen.pc) ==> 8 <= StepsLeft(c, man, gen) <= 2 * LongestScript(man) + 8
  {
    if Streams(gen.pc) {
      ScriptWithinCaps(c, man, gen);
    }
  }

  lemma CloserCounts(c: Config, man: Manifest, parentDone: bool, gen: Gen, gen': Gen)
    requires GenInv(c, man, parentDone, gen) && GenInv(c, man, parentDone, gen') && Closer(c, gen, gen')
    ensures StepsLeft(c, man, gen') < StepsLeft(c, man, gen)
  {
    StepsLeftBounded(c, man, parentDone, gen);
    StepsLeftBounded(c, man, parentDone, gen');
  }

  /** The steps of goroutine g's own along a run. */
  function OwnSteps(c: Config, s: State, acts: seq<Action>, g: nat): nat
    decreases |acts|
  {
    if acts == [] then 0
    else (if g < |s.gens| && OwnStep(s, acts[0], g) then 1 else 0) + OwnSteps(c, Step(c, s, acts[0]), acts[1..], g)
  }

  lemma MoveCostsNothing(c: Config, man: Manifest, gen: Gen, gen': Gen)
    requires HandlerMove(gen, gen')
    ensures StepsLeft(c, man, gen') <= StepsLeft(c, man, gen)
  {
    assert ScriptIfAny(c, gen') == ScriptIfAny(c, gen);
  }

  /** A step of the goroutine's own uses up at least one of the steps it has left, and no other step gives any back. */
  lemma StepCosts(c: Config, s: State, a: Action, g: nat)
    requires Inv(c, s) && g < |s.gens|
    ensures var t := Step(c, s, a);
            && Inv(c, t) && g < |t.gens| && t.man == s.man
            && StepsLeft(c, s.man, t.gens[g]) + (if OwnStep(s, a, g) then 1 else 0) <= StepsLeft(c, s.man, s.gens[g])
  {
    var t := Step(c, s, a);
    StepInv(c, s, a);
    ManifestKept(c, s, a);
    assert GenInv(c, s.man, s.parentDone, s.gens[g]);
    if !About(a, g) {
      OthersStep(c, s, a, g);
      MoveCostsNothing(c, s.man, s.gens[g], t.gens[g]);
    } else if !OwnStep(s, a, g) {
      DisabledOwnStep(c, s, a, g);
    } else {
      OwnStepIsCloser(c, s, a, g);
      OwnStepKeepsParent(c, s, a, g);
      assert GenInv(c, t.man, t.parentDone, t.gens[g]);
      CloserCounts(c, s.man, s.parentDone, s.gens[g], t.gens[g]);
    }
  }

  lemma OwnStepKeepsParent(c: Config, s: State, a: Action, g: nat)
    requires g < |s.gens| && About(a, g)
    ensures Step(c, s, a).parentDone == s.parentDone
  {
    match a
    case GenRuns(_) => GenStepFrame(s, g);
    case ModelAnswers(_, reply) => ModelAnswerFrame(s, g, reply);
    case PlacementEnds(_, pick) => PlacementEndFrame(c, s, g, pick);
    case SendEnds(_, ok) => SendEndFrame(c, s, g, ok);
  }

  lemma {:induction false} RunCosts(c: Config, s: State, acts: seq<Action>, g: nat)
    requires Inv(c, s) && g < |s.gens|
    ensures var t := Run(c, s, acts);
            && Inv(c, t) && g < |t.gens| && t.man == s.man
            && StepsLeft(c, s.man, t.gens[g]) + OwnSteps(c, s, acts, g) <= StepsLeft(c, s.man, s.gens[g])
    decreases |acts|
  {
    if acts != [] {
      StepCosts(c, s, acts[0], g);
      RunCosts(c, Step(c, s, acts[0]), acts[1..], g);
    }
  }

  /**
   However a run goes on, a goroutine takes at most MostSteps steps of its own, a number fixed by the
   manifest, and by then it has closed done. So the handler's wait ends after that many steps at most of
   the goroutine it waits for, which by WaitedForCanMove is never blocked.
   */
  lemma GoroutineIsBounded(c: Config, acts: seq<Action>, more: seq<Action>, g: nat)
    requires g < |After(c, acts).gens|
    ensures var s := After(c, acts);
            var t := Run(c, s, more);
            && g < |t.gens|
            && OwnSteps(c, s, more, g) <= MostSteps(s.man)
            && (OwnSteps(c, s, more, g) == MostSteps(s.man) ==> t.gens[g].pc.Finished?)
  {
    Reached(c, acts);
    var s := After(c, acts);
    RunCosts(c, s, more, g);
    var t := Run(c, s, more);
    assert GenInv(c, s.man, s.parentDone, s.gens[g]) && GenInv(c, t.man, t.parentDone, t.gens[g]);
    StepsLeftBounded(c, s.man, s.parentDone, s.gens[g]);
    StepsLeftBounded(c, t.man, t.parentDone, t.gens[g]);
  }
}

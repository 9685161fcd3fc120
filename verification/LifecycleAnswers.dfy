/** How the model's answers decide what a generation places and what it reports. */
module LifecycleAnswers {
  import opened Seqs
  import opened Wire
  import opened Placement
  import opened Recipes
  import opened Streaming
  import opened Lifecycle
  import opened LifecycleInvariants
  import opened LifecycleFrames

  /** The seed a generation may place with. */
  predicate SeedOk(req: Request, seed: int) {
    if req.seed.Some? then seed == req.seed.value else FreshSeed(seed)
  }

  /** Whether a recipe, as the model gave it, cannot be placed for a request with a seed. */
  type FailTest = (Request, seq<CategoryRecipe>, int) -> bool

  function FailsWith(c: Config, man: Manifest): FailTest {
    (req: Request, items: seq<CategoryRecipe>, seed: int) =>
      SeedOk(req, seed) && PlaceByGrid(Clamped(items), c.streamOf(seed), req.bounds, man).Failed?
  }

  /** The model's answers gave a recipe, and its placement failed with the seed it was tried with. */
  ghost predicate PlacementFailed(fails: FailTest, gen: Gen, result: RecipeResult) {
    result.Got? && gen.seed.Some? && fails(gen.req, result.items, gen.seed.value)
  }

  /** The error code is the one of the failure that happened. */
  ghost predicate CodeFits(fails: FailTest, gen: Gen, result: RecipeResult, code: ErrorCode) {
    (result.NoRecipe? && code == CodeFor(result.why)) || (code == Internal && PlacementFailed(fails, gen, result))
  }

  /** Where a run stands follows from what the attempt loop made of the answers. */
  ghost predicate Follows(fails: FailTest, gen: Gen, result: RecipeResult) {
    match gen.pc
    case Reporting(why) => result == NoRecipe(why)
    case Placing(items) => result.Got? && items == Clamped(result.items)
    case PlaceError => PlacementFailed(fails, gen, result)
    case SendingError(code) => CodeFits(fails, gen, result, code)
    case _ =>
      if gen.job.Some? then result.Got? && gen.job.value.items == Clamped(result.items)
      else EndFollows(fails, gen, result)
  }

  /** A run that ended without a job was told so, unless it was cancelled or could not send. */
  ghost predicate EndFollows(fails: FailTest, gen: Gen, result: RecipeResult) {
    && (result.Got? ==> PlacementFailed(fails, gen, result))
    && (gen.stop == Ongoing ==> IsErrorTrace(gen) && CodeFits(fails, gen, result, gen.trace[0].code))
    && (gen.stop == SawCancel ==> result != NoRecipe(TimedOut))
  }

  predicate Asking(pc: Pc) {
    pc.Created? || pc.Start? || pc.Calling?
  }

  ghost predicate Tracks(fails: FailTest, gen: Gen, outcome: Option<RecipeResult>) {
    if Asking(gen.pc) then outcome.None? && |gen.replies| == (if gen.pc.Calling? then gen.pc.attempt else 0) < 2
    else outcome.Some? && Follows(fails, gen, outcome.value)
  }

  ghost predicate AnswersInv(c: Config, man: Manifest, gen: Gen) {
    Asked(gen.replies, man) && Tracks(FailsWith(c, man), gen, LoopOutcome(gen.replies, man))
  }

  ghost predicate AllAnswers(c: Config, s: State) {
    forall g | 0 <= g < |s.gens| :: AnswersInv(c, s.man, s.gens[g])
  }

  /** The goroutine streams or is over. */
  predicate Late(pc: Pc) {
    !Early(pc)
  }

  lemma LateMove(fails: FailTest, gen: Gen, gen': Gen, outcome: Option<RecipeResult>)
    requires Tracks(fails, gen, outcome) && Late(gen.pc) && Late(gen'.pc)
    requires gen'.req == gen.req && gen'.job == gen.job && gen'.seed == gen.seed
    requires gen.job.Some? || (gen'.stop == gen.stop && gen'.trace == gen.trace)
    ensures Tracks(fails, gen', outcome)
  {
  }

  /** What a generation's record must satisfy for its own steps to keep track of the answers. */
  predicate Coherent(gen: Gen) {
    && (Early(gen.pc) ==> gen.job.None? && gen.stop == Ongoing && gen.trace == [])
    && (Streams(gen.pc) ==> gen.job.Some?)
  }

  lemma EarlyResume(fails: FailTest, gen: Gen, ctxErr: bool, outcome: Option<RecipeResult>)
    requires Tracks(fails, gen, outcome) && Early(gen.pc) && Coherent(gen)
    ensures Tracks(fails, Resume(gen, ctxErr, false), outcome)
  {
  }

  lemma ResumeTracks(fails: FailTest, gen: Gen, ctxErr: bool, outcome: Option<RecipeResult>)
    requires Tracks(fails, gen, outcome) && Coherent(gen) && !gen.pc.Returned? && !gen.pc.Locked?
    ensures Tracks(fails, Resume(gen, ctxErr, false), outcome)
  {
    if Early(gen.pc) {
      EarlyResume(fails, gen, ctxErr, outcome);
    } else {
      LateMove(fails, gen, Resume(gen, ctxErr, false), outcome);
    }
  }

  /** The state of the attempt loop after one more answer. */
  lemma OneMoreAnswer(gen: Gen, reply: LlmReply, man: Manifest)
    requires gen.pc.Calling? && |gen.replies| == gen.pc.attempt < 2 && Asked(gen.replies, man)
    requires LoopOutcome(gen.replies, man).None?
    ensures var replies := gen.replies + [reply];
            var call := Judge(reply, man);
            && Asked(replies, man)
            && LoopOutcome(replies, man) == if call.RetryOrFail? && gen.pc.attempt == 0 then None else Some(Conclude(call))
  {
  }

  /** From one record of a generation to the next, with the outcome of the answers unchanged. */
  ghost predicate Tracked(fails: FailTest, gen: Gen, gen': Gen) {
    gen'.replies == gen.replies && forall outcome | Tracks(fails, gen, outcome) :: Tracks(fails, gen', outcome)
  }

  lemma GenStepTracks(fails: FailTest, s: State, g: nat)
    requires g < |s.gens| && s.man != map[] && Coherent(s.gens[g])
    ensures Tracked(fails, s.gens[g], GenStep(s, g).gens[g])
  {
    var gen, gen' := s.gens[g], GenStep(s, g).gens[g];
    forall outcome | Tracks(fails, gen, outcome) ensures Tracks(fails, gen', outcome) {
      if gen.pc.Returned? || gen.pc.Locked? {
        LockStepFrame(s, g);
        LateMove(fails, gen, gen', outcome);
      } else {
        ResumeTracks(fails, gen, CtxErr(s, g), outcome);
      }
    }
  }

  lemma PlacedTracks(fails: FailTest, gen: Gen, job: Job)
    requires gen.pc.Placing? && job.items == gen.pc.items
    ensures Tracked(fails, gen, gen.(pc := Checking(0), seed := Some(job.seed), job := Some(job)))
  {
  }

  lemma UnplacedTracks(fails: FailTest, gen: Gen, items: seq<CategoryRecipe>, seed: int)
    requires gen.pc.Placing? && gen.job.None? && fails(gen.req, items, seed)
    ensures Tracks(fails, gen, Some(Got(items))) ==> Tracks(fails, gen.(pc := PlaceError, seed := Some(seed)), Some(Got(items)))
  {
  }

  predicate CannotPlace(c: Config, man: Manifest, gen: Gen, seed: int)
    requires gen.pc.Placing?
  {
    SeedOk(gen.req, seed) && PlaceByGrid(gen.pc.items, c.streamOf(seed), gen.req.bounds, man).Failed?
  }

  /** A placement ends with a job for the items it was given, or with a failure for a seed it may use. */
  lemma PlacementMoves(c: Config, s: State, g: nat, pick: int)
    requires g < |s.gens|
    ensures var gen, gen' := s.gens[g], OnPlacementEnd(c, s, g, pick).gens[g];
            || gen' == gen
            || (gen.pc.Placing? && gen'.job.Some? && gen'.job.value.items == gen.pc.items
                && gen' == gen.(pc := Checking(0), seed := Some(gen'.job.value.seed), job := gen'.job))
            || (gen.pc.Placing? && gen'.job == gen.job && gen'.seed.Some? && CannotPlace(c, s.man, gen, gen'.seed.value)
                && gen' == gen.(pc := PlaceError, seed := gen'.seed))
  {
  }

  lemma PlacementKeepsAnswers(c: Config, s: State, g: nat, pick: int)
    requires g < |s.gens| && Coherent(s.gens[g]) && AnswersInv(c, s.man, s.gens[g])
    ensures AnswersInv(c, s.man, OnPlacementEnd(c, s, g, pick).gens[g])
  {
    var gen, gen' := s.gens[g], OnPlacementEnd(c, s, g, pick).gens[g];
    PlacementMoves(c, s, g, pick);
    if gen' != gen {
      var fails, result := FailsWith(c, s.man), LoopOutcome(gen.replies, s.man).value;
      if gen'.job.Some? {
        PlacedTracks(fails, gen, gen'.job.value);
      } else {
        var seed := gen'.seed.value;
        assert fails(gen.req, result.items, seed);
        UnplacedTracks(fails, gen, result.items, seed);
      }
    }
  }

  lemma ErrorEnds(fails: FailTest, gen: Gen)
    requires gen.pc.SendingError? && Coherent(gen)
    ensures Tracked(fails, gen, gen.(pc := Returned, trace := gen.trace + [Error(gen.req.id, gen.pc.code)]))
    ensures Tracked(fails, gen, Quit(gen, SendFailed))
  {
  }

  lemma SendTracks(fails: FailTest, c: Config, s: State, g: nat, ok: bool)
    requires g < |s.gens| && Coherent(s.gens[g])
    ensures Tracked(fails, s.gens[g], OnSendEnd(c, s, g, ok).gens[g])
  {
    var gen, gen' := s.gens[g], OnSendEnd(c, s, g, ok).gens[g];
    if gen.pc.SendingError? {
      ErrorEnds(fails, gen);
    } else if gen' != gen {
      forall outcome | Tracks(fails, gen, outcome) ensures Tracks(fails, gen', outcome) {
        LateMove(fails, gen, gen', outcome);
      }
    }
  }

  lemma AnswerTracks(fails: FailTest, s: State, g: nat, reply: LlmReply)
    requires g < |s.gens| && Asked(s.gens[g].replies, s.man)
    requires Tracks(fails, s.gens[g], LoopOutcome(s.gens[g].replies, s.man))
    ensures var gen' := OnModelAnswer(s, g, reply).gens[g];
            Asked(gen'.replies, s.man) && Tracks(fails, gen', LoopOutcome(gen'.replies, s.man))
  {
    var gen := s.gens[g];
    if gen.pc.Calling? {
      OneMoreAnswer(gen, reply, s.man);
    }
  }

  lemma TrackedKeepsAnswers(c: Config, man: Manifest, gen: Gen, gen': Gen)
    requires AnswersInv(c, man, gen) && Tracked(FailsWith(c, man), gen, gen')
    ensures AnswersInv(c, man, gen')
  {
  }

  lemma GenStepKeepsAnswers(c: Config, s: State, g: nat)
    requires g < |s.gens| && s.man != map[] && Coherent(s.gens[g]) && AnswersInv(c, s.man, s.gens[g])
    ensures AnswersInv(c, s.man, GenStep(s, g).gens[g])
  {
    GenStepTracks(FailsWith(c, s.man), s, g);
    TrackedKeepsAnswers(c, s.man, s.gens[g], GenStep(s, g).gens[g]);
  }

  lemma SendKeepsAnswers(c: Config, s: State, g: nat, ok: bool)
    requires g < |s.gens| && Coherent(s.gens[g]) && AnswersInv(c, s.man, s.gens[g])
    ensures AnswersInv(c, s.man, OnSendEnd(c, s, g, ok).gens[g])
  {
    SendTracks(FailsWith(c, s.man), c, s, g, ok);
    TrackedKeepsAnswers(c, s.man, s.gens[g], OnSendEnd(c, s, g, ok).gens[g]);
  }

  lemma AnswerKeepsAnswers(c: Config, s: State, g: nat, reply: LlmReply)
    requires g < |s.gens| && AnswersInv(c, s.man, s.gens[g])
    ensures AnswersInv(c, s.man, OnModelAnswer(s, g, reply).gens[g])
  {
    AnswerTracks(FailsWith(c, s.man), s, g, reply);
  }

  lemma OwnStepKeepsAnswers(c: Config, s: State, a: Action, g: nat)
    requires g < |s.gens| && s.man != map[] && Coherent(s.gens[g]) && About(a, g) && AnswersInv(c, s.man, s.gens[g])
    ensures var t := Step(c, s, a); g < |t.gens| && AnswersInv(c, s.man, t.gens[g])
  {
    OwnStepIdentity(c, s, a, g);
    match a
    case GenRuns(_) => GenStepKeepsAnswers(c, s, g);
    case ModelAnswers(_, reply) => AnswerKeepsAnswers(c, s, g, reply);
    case PlacementEnds(_, pick) => PlacementKeepsAnswers(c, s, g, pick);
    case SendEnds(_, ok) => SendKeepsAnswers(c, s, g, ok);
  }

  lemma InvCoherent(c: Config, s: State, g: nat)
    requires Inv(c, s) && g < |s.gens|
    ensures s.man != map[] && Coherent(s.gens[g])
  {
    assert GenInv(c, s.man, s.parentDone, s.gens[g]);
  }

  lemma MoveTracks(fails: FailTest, gen: Gen, gen': Gen)
    requires HandlerMove(gen, gen')
    ensures Tracked(fails, gen, gen')
  {
  }

  /** A generation that a step adds has not asked the model yet. */
  lemma NewGenAsksLater(c: Config, s: State, a: Action, g: nat)
    requires Inv(c, s) && |s.gens| <= g < |Step(c, s, a).gens|
    ensures AnswersInv(c, Step(c, s, a).man, Step(c, s, a).gens[g])
  {
    if a.HandlerRuns? {
      if !s.handler.Installing? {
        HandlerFrame(s);
      }
    } else if a.GenRuns? || a.ModelAnswers? || a.PlacementEnds? || a.SendEnds? {
      if a.g < |s.gens| {
        OwnStepIdentity(c, s, a, a.g);
      }
    } else if !a.ParentCancelled? {
      InputFrame(c, s, a);
    }
  }

  lemma StepKeepsAnswers(c: Config, s: State, a: Action)
    requires Inv(c, s) && AllAnswers(c, s)
    ensures AllAnswers(c, Step(c, s, a))
  {
    var t := Step(c, s, a);
    forall g | 0 <= g < |t.gens| ensures AnswersInv(c, t.man, t.gens[g]) {
      if g >= |s.gens| {
        NewGenAsksLater(c, s, a, g);
      } else {
        ManifestKept(c, s, a);
        if About(a, g) {
          InvCoherent(c, s, g);
          OwnStepKeepsAnswers(c, s, a, g);
        } else {
          OthersStep(c, s, a, g);
          MoveTracks(FailsWith(c, s.man), s.gens[g], t.gens[g]);
          TrackedKeepsAnswers(c, s.man, s.gens[g], t.gens[g]);
        }
      }
    }
  }

  lemma {:induction false} RunKeepsAnswers(c: Config, s: State, acts: seq<Action>)
    requires Inv(c, s) && AllAnswers(c, s)
    ensures AllAnswers(c, Run(c, s, acts))
    decreases |acts|
  {
    if acts != [] {
      StepKeepsAnswers(c, s, acts[0]);
      StepInv(c, s, acts[0]);
      RunKeepsAnswers(c, Step(c, s, acts[0]), acts[1..]);
    }
  }

  lemma AnswersReached(c: Config, acts: seq<Action>)
    ensures AllAnswers(c, After(c, acts))
  {
    InitInv(c);
    RunKeepsAnswers(c, Init(), acts);
  }

  /** run is over for this generation. */
  predicate Over(pc: Pc) {
    !Early(pc) && !Streams(pc)
  }

  /** The attempt loop's outcome accounts for what is placed, reported or left silent. */
  lemma OutcomeDecides(c: Config, acts: seq<Action>, g: nat)
    requires g < |After(c, acts).gens|
    ensures var s := After(c, acts);
            var gen := s.gens[g];
            var outcome := LoopOutcome(gen.replies, s.man);
            && Asked(gen.replies, s.man)
            && (gen.job.Some? ==>
                  outcome.Some? && outcome.value.Got? && gen.job.value.items == Clamped(outcome.value.items))
            && (gen.job.None? && gen.trace != [] ==>
                  IsErrorTrace(gen) && outcome.Some?
                  && CodeFits(FailsWith(c, s.man), gen, outcome.value, gen.trace[0].code))
            && (gen.job.None? && gen.trace == [] && Over(gen.pc) ==>
                  && outcome.Some?
                  && (gen.stop == SendFailed
                      || (gen.stop == SawCancel && (gen.cancelled || s.parentDone) && outcome.value != NoRecipe(TimedOut))))
  {
    AnswersReached(c, acts);
    Reached(c, acts);
    var s := After(c, acts);
    assert AnswersInv(c, s.man, s.gens[g]) && GenInv(c, s.man, s.parentDone, s.gens[g]);
  }

  /** The replies that end the attempt loop: one that is not schema-invalid, or two of which the first one is. */
  ghost predicate Decisive(replies: seq<LlmReply>, man: Manifest) {
    && 1 <= |replies| <= 2
    && (|replies| == 2 <==> SchemaInvalid(replies[0], man))
  }

  function Last(replies: seq<LlmReply>): LlmReply
    requires replies != []
  {
    replies[|replies| - 1]
  }

  ghost predicate GaveRecipe(reply: LlmReply, man: Manifest) {
    reply.Recipe? && ValidRecipe(reply.items, man)
  }

  /** What an error code says of the replies: a timeout, twice schema-invalid output, or anything else that went wrong. */
  ghost predicate CodeMeans(code: ErrorCode, replies: seq<LlmReply>, man: Manifest)
    requires replies != []
  {
    && (code == LlmTimeout <==> Last(replies).DeadlineExceeded?)
    && (code == LlmInvalidOutput <==> SchemaInvalid(Last(replies), man))
    && (code == Internal <==> Last(replies).Cancelled? || Last(replies).Fault? || GaveRecipe(Last(replies), man))
  }

  lemma EndedByReplies(replies: seq<LlmReply>, man: Manifest)
    requires Asked(replies, man) && LoopOutcome(replies, man).Some?
    ensures Decisive(replies, man)
    ensures var result := LoopOutcome(replies, man).value;
            && (result.Got? <==> GaveRecipe(Last(replies), man))
            && (result.Got? ==> result.items == Last(replies).items)
            && (result == NoRecipe(TimedOut) <==> Last(replies).DeadlineExceeded?)
            && (result == NoRecipe(Invalid) <==> SchemaInvalid(Last(replies), man))
  {
    OutcomeMeans(replies, man);
  }

  lemma CodeMeansWhat(fails: FailTest, gen: Gen, man: Manifest, code: ErrorCode)
    requires Asked(gen.replies, man) && LoopOutcome(gen.replies, man).Some?
    requires CodeFits(fails, gen, LoopOutcome(gen.replies, man).value, code)
    ensures gen.replies != [] && CodeMeans(code, gen.replies, man)
  {
    OutcomeMeans(gen.replies, man);
    EndedByReplies(gen.replies, man);
  }

  /**
   What the model said decides what is placed and what is reported, in every run. There are two calls exactly
   if the first reply was schema-invalid. What is placed is the last reply's valid recipe, clamped. An error
   says whether the last call timed out, whether output was schema-invalid twice, or whether something else
   went wrong. A run that is over without a job and without an error was cancelled, its call not timed out, or
   could not send.
   */
  lemma AnswersDecide(c: Config, acts: seq<Action>, g: nat)
    requires g < |After(c, acts).gens|
    ensures var s := After(c, acts);
            var gen := s.gens[g];
            && (gen.job.Some? || gen.trace != [] || Over(gen.pc) ==> Decisive(gen.replies, s.man))
            && (gen.job.Some? ==>
                  GaveRecipe(Last(gen.replies), s.man) && gen.job.value.items == Clamped(Last(gen.replies).items))
            && (gen.job.None? && gen.trace != [] ==>
                  IsErrorTrace(gen) && CodeMeans(gen.trace[0].code, gen.replies, s.man))
            && (gen.job.None? && gen.trace == [] && Over(gen.pc) ==>
                  gen.stop == SendFailed
                  || (gen.stop == SawCancel && (gen.cancelled || s.parentDone) && !Last(gen.replies).DeadlineExceeded?))
  {
    OutcomeDecides(c, acts, g);
    var s := After(c, acts);
    var gen := s.gens[g];
    OverHasOutcome(c, acts, g);
    if LoopOutcome(gen.replies, s.man).Some? {
      EndedByReplies(gen.replies, s.man);
      if gen.job.None? && gen.trace != [] {
        CodeMeansWhat(FailsWith(c, s.man), gen, s.man, gen.trace[0].code);
      }
    }
  }

  lemma OverHasOutcome(c: Config, acts: seq<Action>, g: nat)
    requires g < |After(c, acts).gens|
    ensures var s := After(c, acts);
            s.gens[g].job.Some? || s.gens[g].trace != [] || Over(s.gens[g].pc) ==> LoopOutcome(s.gens[g].replies, s.man).Some?
  {
    AnswersReached(c, acts);
    Reached(c, acts);
    var s := After(c, acts);
    assert AnswersInv(c, s.man, s.gens[g]) && GenInv(c, s.man, s.parentDone, s.gens[g]);
  }

  /**
   A cancellation never stops a placement: in every run, a generation whose answers gave a recipe is placing
   it, or has its entries, or its placement failed, cancelled or not. A generation is spared the placement
   exactly if the answers gave no recipe.
   */
  lemma RecipeIsAlwaysPlaced(c: Config, acts: seq<Action>, g: nat)
    requires g < |After(c, acts).gens| && Decisive(After(c, acts).gens[g].replies, After(c, acts).man)
    ensures var s := After(c, acts);
            var gen := s.gens[g];
            && (GaveRecipe(Last(gen.replies), s.man) <==> gen.pc.Placing? || gen.job.Some? || RecipeFails(c, s.man, gen))
            && (gen.pc.Placing? ==> gen.pc.items == Clamped(Last(gen.replies).items))
  {
    AnswersReached(c, acts);
    Reached(c, acts);
    var s := After(c, acts);
    var gen := s.gens[g];
    assert AnswersInv(c, s.man, gen) && GenInv(c, s.man, s.parentDone, gen);
    OutcomeMeans(gen.replies, s.man);
    EndedByReplies(gen.replies, s.man);
  }

  /** The model gave a recipe, and its placement failed with the seed it was tried with. */
  ghost predicate RecipeFails(c: Config, man: Manifest, gen: Gen) {
    && gen.replies != [] && GaveRecipe(Last(gen.replies), man) && gen.seed.Some? && SeedOk(gen.req, gen.seed.value)
    && PlaceByGrid(Clamped(Last(gen.replies).items), c.streamOf(gen.seed.value), gen.req.bounds, man).Failed?
  }
}

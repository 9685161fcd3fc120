/** What one step of the lifecycle leaves alone. */
module LifecycleFrames {
  import opened Recipes
  import opened Lifecycle
  import opened LifecycleInvariants

  /** The state after a run from the start of the connection. */
  function After(c: Config, acts: seq<Action>): State {
    Run(c, Init(), acts)
  }

  lemma Reached(c: Config, acts: seq<Action>)
    ensures Inv(c, After(c, acts))
  {
    InitInv(c);
    RunInv(c, Init(), acts);
  }

  /** The action is a step of goroutine g's own, enabled or not. */
  predicate About(a: Action, g: nat) {
    (a.GenRuns? || a.ModelAnswers? || a.PlacementEnds? || a.SendEnds?) && a.g == g
  }

  lemma InputFrame(c: Config, s: State, a: Action)
    requires IsInput(a)
    ensures var t := Step(c, s, a); t.gens == s.gens && t.parentDone == s.parentDone
  {
  }

  lemma GenStepFrame(s: State, g: nat)
    requires g < |s.gens|
    ensures OnlyGen(s, GenStep(s, g), g) && GenStep(s, g).handler == s.handler
  {
  }

  lemma OtherGenStep(c: Config, s: State, a: Action, g: nat)
    requires g < |s.gens| && (a.GenRuns? || a.ModelAnswers? || a.PlacementEnds? || a.SendEnds?) && a.g != g
    ensures var t := Step(c, s, a); |t.gens| == |s.gens| && t.gens[g] == s.gens[g] && t.parentDone == s.parentDone
  {
    if a.g < |s.gens| {
      match a
      case GenRuns(h) => GenStepFrame(s, h);
      case ModelAnswers(h, reply) => ModelAnswerFrame(s, h, reply);
      case PlacementEnds(h, pick) => PlacementEndFrame(c, s, h, pick);
      case SendEnds(h, ok) => SendEndFrame(c, s, h, ok);
    }
  }

  lemma HandlerOnGen(s: State, g: nat)
    requires HolderInv(s) && g < |s.gens|
    ensures var t := HandlerStep(s);
            g < |t.gens| && HandlerMove(s.gens[g], t.gens[g]) && t.parentDone == s.parentDone
  {
    if !s.handler.Installing? {
      HandlerFrame(s);
    }
  }

  /** A step of somebody else's leaves generation g alone, except to cancel it or to start it. */
  lemma OthersStep(c: Config, s: State, a: Action, g: nat)
    requires HolderInv(s) && g < |s.gens| && !About(a, g)
    ensures var t := Step(c, s, a);
            g < |t.gens| && HandlerMove(s.gens[g], t.gens[g]) && (s.parentDone ==> t.parentDone)
  {
    if a.HandlerRuns? {
      HandlerOnGen(s, g);
    } else if a.GenRuns? || a.ModelAnswers? || a.PlacementEnds? || a.SendEnds? {
      OtherGenStep(c, s, a, g);
    } else if !a.ParentCancelled? {
      InputFrame(c, s, a);
    }
  }

  /** A placement that ends leaves the trace alone and has only two places to go to. */
  predicate PlacementExit(gen: Gen, gen': Gen) {
    gen' == gen || (gen.pc.Placing? && (gen'.pc == Checking(0) || gen'.pc == PlaceError) && gen'.trace == gen.trace)
  }

  lemma PlacementExits(c: Config, s: State, g: nat, pick: int)
    requires g < |s.gens|
    ensures PlacementExit(s.gens[g], OnPlacementEnd(c, s, g, pick).gens[g])
  {
  }

  /** What a goroutine's own step leaves alone. */
  ghost predicate KeepsIdentity(s: State, t: State, g: nat) {
    && g < |s.gens| == |t.gens| && t.handler == s.handler
    && t.gens[g].req == s.gens[g].req && t.gens[g].cancelled == s.gens[g].cancelled
    && forall h | 0 <= h < |s.gens| && h != g :: t.gens[h] == s.gens[h]
  }

  lemma ResumeIdentity(gen: Gen, ctxErr: bool, noManifest: bool)
    ensures var gen' := Resume(gen, ctxErr, noManifest); gen'.req == gen.req && gen'.cancelled == gen.cancelled
  {
  }

  lemma GenStepIdentity(s: State, g: nat)
    requires g < |s.gens|
    ensures KeepsIdentity(s, GenStep(s, g), g)
  {
    ResumeIdentity(s.gens[g], CtxErr(s, g), s.man == map[]);
  }

  lemma AnswerIdentity(s: State, g: nat, reply: LlmReply)
    requires g < |s.gens|
    ensures KeepsIdentity(s, OnModelAnswer(s, g, reply), g)
  {
  }

  lemma PlacementIdentity(c: Config, s: State, g: nat, pick: int)
    requires g < |s.gens|
    ensures KeepsIdentity(s, OnPlacementEnd(c, s, g, pick), g)
  {
  }

  lemma SendIdentity(c: Config, s: State, g: nat, ok: bool)
    requires g < |s.gens|
    ensures KeepsIdentity(s, OnSendEnd(c, s, g, ok), g)
  {
  }

  lemma OwnStepIdentity(c: Config, s: State, a: Action, g: nat)
    requires g < |s.gens| && About(a, g)
    ensures KeepsIdentity(s, Step(c, s, a), g)
  {
    match a
    case GenRuns(_) => GenStepIdentity(s, g);
    case ModelAnswers(_, reply) => AnswerIdentity(s, g, reply);
    case PlacementEnds(_, pick) => PlacementIdentity(c, s, g, pick);
    case SendEnds(_, ok) => SendIdentity(c, s, g, ok);
  }

  /** Once a generation exists the manifest never changes. */
  lemma ManifestKept(c: Config, s: State, a: Action)
    requires HolderInv(s) && s.gens != []
    ensures Step(c, s, a).man == s.man
  {
    match a
    case HandlerRuns => if !s.handler.Installing? { HandlerFrame(s); }
    case GenRuns(g) => if g < |s.gens| { GenStepFrame(s, g); }
    case ModelAnswers(g, reply) => if g < |s.gens| { ModelAnswerFrame(s, g, reply); }
    case PlacementEnds(g, pick) => if g < |s.gens| { PlacementEndFrame(c, s, g, pick); }
    case SendEnds(g, ok) => if g < |s.gens| { SendEndFrame(c, s, g, ok); }
    case _ =>
  }
}

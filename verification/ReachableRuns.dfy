/** Runs of the lifecycle with one generation, built step by step from the handshake on. */
module ReachableRuns {
  import opened Seqs
  import opened Wire
  import opened Placement
  import opened Recipes
  import opened Streaming
  import opened Lifecycle
  import opened LifecycleFrames

  const AREA := Bounds(Vec2(0.0, 0.0), Vec2(1.0, 1.0))
  const REQUEST := Request("g", Some(0), AREA)

  ghost predicate Reachable(c: Config, s: State) {
    exists acts :: After(c, acts) == s
  }

  lemma {:induction false} AfterPush(c: Config, s: State, acts: seq<Action>, a: Action)
    ensures Run(c, s, acts + [a]) == Step(c, Run(c, s, acts), a)
    decreases |acts|
  {
    if acts == [] {
      assert acts + [a] == [a];
      assert Run(c, s, [a]) == Run(c, Step(c, s, a), []);
    } else {
      assert (acts + [a])[1..] == acts[1..] + [a];
      AfterPush(c, Step(c, s, acts[0]), acts[1..], a);
    }
  }

  lemma Reach(c: Config, s: State, a: Action, t: State)
    requires Reachable(c, s) && Step(c, s, a) == t
    ensures Reachable(c, t)
  {
    var acts :| After(c, acts) == s;
    AfterPush(c, Init(), acts, a);
    assert After(c, acts + [a]) == t;
  }

  // ---- the states on the way ----

  function Ready(man: Manifest): State {
    State(man, None, None, [], Reading, false, [])
  }

  /** The connection with one generation, seen by a handler that is in state h. */
  function Alone(man: Manifest, h: Handler, gen: Gen, wire: seq<Sent>): State {
    State(man, None, Some(0), [gen], h, false, wire)
  }

  /** Before the model has answered. */
  function Fresh(pc: Pc): Gen {
    Gen(REQUEST, pc, false, [], None, None, [], Ongoing)
  }

  /** With the recipe the model gave, about to be placed. */
  function Answered(items: seq<CategoryRecipe>): Gen {
    Gen(REQUEST, Placing(Clamped(items)), false, [Recipe(items)], None, None, [], Ongoing)
  }

  /** Placed and streaming. */
  function Running(items: seq<CategoryRecipe>, entries: seq<AssetEntry>, pc: Pc, trace: seq<Message>): Gen {
    Gen(REQUEST, pc, false, [Recipe(items)], Some(0), Some(JobFor(items, entries)), trace, Ongoing)
  }

  function JobFor(items: seq<CategoryRecipe>, entries: seq<AssetEntry>): Job {
    Job(Clamped(items), 0, entries)
  }

  function PlanFor(items: seq<CategoryRecipe>, entries: seq<AssetEntry>): Message {
    PlanOf("g", JobFor(items, entries))
  }

  lemma Handshaken(c: Config, man: Manifest)
    requires man != map[]
    ensures Reachable(c, Ready(man))
  {
    assert After(c, []) == Init();
    Reach(c, Init(), Hello(man, true), Ready(man));
  }

  lemma Taken(c: Config, man: Manifest)
    requires man != map[]
    ensures Reachable(c, Ready(man).(handler := Took(Launch(REQUEST), None)))
  {
    var ready, next := Ready(man), Launch(REQUEST);
    Handshaken(c, man);
    Reach(c, ready, ReadGenerate(REQUEST), ready.(handler := WantTake(next)));
    Reach(c, ready.(handler := WantTake(next)), HandlerRuns, ready.(mu := Some(HandlerOwns), handler := Taking(next)));
    Reach(c, ready.(mu := Some(HandlerOwns), handler := Taking(next)), HandlerRuns, ready.(handler := Took(next, None)));
  }

  lemma Installed(c: Config, man: Manifest)
    requires man != map[]
    ensures Reachable(c, Alone(man, Launching, Fresh(Created), []))
  {
    var ready := Ready(man);
    var inside := ready.(mu := Some(HandlerOwns), handler := Installing(REQUEST));
    Taken(c, man);
    Reach(c, ready.(handler := Took(Launch(REQUEST), None)), HandlerRuns, ready.(handler := WantInstall(REQUEST)));
    Reach(c, ready.(handler := WantInstall(REQUEST)), HandlerRuns, inside);
    assert inside.gens + [Fresh(Created)] == [Fresh(Created)];
    Reach(c, inside, HandlerRuns, Alone(man, Launching, Fresh(Created), []));
  }

  /** The generation is inside its first model call. */
  lemma Called(c: Config, man: Manifest)
    requires man != map[]
    ensures Reachable(c, Alone(man, Reading, Fresh(Calling(0)), []))
  {
    Installed(c, man);
    Reach(c, Alone(man, Launching, Fresh(Created), []), HandlerRuns, Alone(man, Reading, Fresh(Start), []));
    Reach(c, Alone(man, Reading, Fresh(Start), []), GenRuns(0), Alone(man, Reading, Fresh(Calling(0)), []));
  }

  /** The model has given the recipe, and it is valid. */
  lemma Accepted(c: Config, man: Manifest, items: seq<CategoryRecipe>)
    requires man != map[] && ValidRecipe(items, man)
    ensures Reachable(c, Alone(man, Reading, Answered(items), []))
  {
    Called(c, man);
    PassesIffValid(items, man);
    assert [] + [Recipe(items)] == [Recipe(items)];
    Reach(c, Alone(man, Reading, Fresh(Calling(0)), []), ModelAnswers(0, Recipe(items)),
          Alone(man, Reading, Answered(items), []));
  }

  /** The recipe is placed. */
  lemma RecipePlaced(c: Config, man: Manifest, items: seq<CategoryRecipe>, entries: seq<AssetEntry>, draws: nat)
    requires man != map[] && ValidRecipe(items, man)
    requires PlaceByGrid(Clamped(items), c.streamOf(0), AREA, man) == Placed(entries, draws)
    ensures Reachable(c, Alone(man, Reading, Running(items, entries, Checking(0), []), []))
  {
    Accepted(c, man, items);
    PlacementSucceeds(c, man, items, entries, draws);
    Reach(c, Alone(man, Reading, Answered(items), []), PlacementEnds(0, 0),
          Alone(man, Reading, Running(items, entries, Checking(0), []), []));
  }

  /** The context is not cancelled at the check of message k. */
  lemma CheckPasses(c: Config, man: Manifest, gen: Gen, wire: seq<Sent>, k: nat)
    requires Reachable(c, Alone(man, Reading, gen, wire)) && gen.pc == Checking(k) && !gen.cancelled
    ensures Reachable(c, Alone(man, Reading, gen.(pc := Sending(k)), wire))
  {
    Reach(c, Alone(man, Reading, gen, wire), GenRuns(0), Alone(man, Reading, gen.(pc := Sending(k)), wire));
  }

  /** plan is on its way. */
  lemma PlanReady(c: Config, man: Manifest, items: seq<CategoryRecipe>, entries: seq<AssetEntry>, draws: nat)
    requires man != map[] && ValidRecipe(items, man)
    requires PlaceByGrid(Clamped(items), c.streamOf(0), AREA, man) == Placed(entries, draws)
    ensures Reachable(c, Alone(man, Reading, Running(items, entries, Sending(0), []), []))
  {
    RecipePlaced(c, man, items, entries, draws);
    CheckPasses(c, man, Running(items, entries, Checking(0), []), [], 0);
  }

  lemma PlacementSucceeds(c: Config, man: Manifest, items: seq<CategoryRecipe>, entries: seq<AssetEntry>, draws: nat)
    requires PlaceByGrid(Clamped(items), c.streamOf(0), AREA, man) == Placed(entries, draws)
    ensures OnPlacementEnd(c, Alone(man, Reading, Answered(items), []), 0, 0)
         == Alone(man, Reading, Running(items, entries, Checking(0), []), [])
  {
    assert FreshSeed(0);
  }

  lemma FirstSend(c: Config, man: Manifest, items: seq<CategoryRecipe>, entries: seq<AssetEntry>)
    ensures var plan := PlanFor(items, entries);
            OnSendEnd(c, Alone(man, Reading, Running(items, entries, Sending(0), []), []), 0, true)
              == Alone(man, Reading, Running(items, entries, Checking(1), [plan]), [Sent(Some(0), plan)])
  {
    var plan, gen := PlanFor(items, entries), Running(items, entries, Sending(0), []);
    ScriptShape("g", JobFor(items, entries), c.chunkSize);
    assert ScriptOf(c, gen)[0] == plan;
    assert OnSendEnd(c, Alone(man, Reading, gen, []), 0, true) == Emit(Alone(man, Reading, gen, []), 0, plan, Checking(1));
    assert [] + [plan] == [plan];
    assert [] + [Sent(Some(0), plan)] == [Sent(Some(0), plan)];
  }

  /** plan is sent. */
  lemma PlanSent(c: Config, man: Manifest, items: seq<CategoryRecipe>, entries: seq<AssetEntry>, draws: nat)
    requires man != map[] && ValidRecipe(items, man)
    requires PlaceByGrid(Clamped(items), c.streamOf(0), AREA, man) == Placed(entries, draws)
    ensures var plan := PlanFor(items, entries);
            Reachable(c, Alone(man, Reading, Running(items, entries, Checking(1), [plan]), [Sent(Some(0), plan)]))
  {
    var plan := PlanFor(items, entries);
    var gen := Running(items, entries, Sending(0), []);
    PlanReady(c, man, items, entries, draws);
    FirstSend(c, man, items, entries);
    Reach(c, Alone(man, Reading, gen, []), SendEnds(0, true),
          Alone(man, Reading, Running(items, entries, Checking(1), [plan]), [Sent(Some(0), plan)]));
  }

  /** A cancel comes, and the handler carries it out. */
  lemma CancelComes(c: Config, man: Manifest, gen: Gen, wire: seq<Sent>)
    requires Reachable(c, Alone(man, Reading, gen, wire)) && gen.req == REQUEST
    ensures Reachable(c, Alone(man, Reading, gen.(cancelled := true), wire))
  {
    var inside := Alone(man, Cancelling("g"), gen, wire).(mu := Some(HandlerOwns));
    Reach(c, Alone(man, Reading, gen, wire), ReadCancel("g"), Alone(man, WantCancel("g"), gen, wire));
    Reach(c, Alone(man, WantCancel("g"), gen, wire), HandlerRuns, inside);
    Reach(c, inside, HandlerRuns, Alone(man, Reading, gen.(cancelled := true), wire));
  }
}

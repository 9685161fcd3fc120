/** Concrete runs in which a cancelled generation does what the documentation says it does not. */
module CancellationWindow {
  import opened Seqs
  import opened Wire
  import opened CanonicalOrder
  import opened Placement
  import opened Recipes
  import opened Lifecycle
  import opened LifecycleFrames
  import opened LifecycleCancellation
  import opened ReachableRuns

  const MAN: Manifest := map["rock" := ManifestEntry(0.0, false, false, "Rock")]
  const ITEMS := [CategoryRecipe("rock", 0, 0.0, [])]

  lemma ItemsPass()
    ensures MAN != map[] && ValidRecipe(ITEMS, MAN) && Clamped(ITEMS) == ITEMS
  {
    assert "rock" in MAN;
    assert CappedAll(ITEMS) == ITEMS;
    assert TotalCount(ITEMS) == 0;
  }

  lemma ItemsPlace(stream: Stream)
    ensures PlaceByGrid(ITEMS, stream, AREA, MAN) == Placed([], 0)
  {
    assert Canonical(MAN, ITEMS) == ITEMS;
    var probe := HashProbe(MaxRadius(MAN, ITEMS));
    assert PlaceItem(probe, stream, MAN, AREA, ITEMS[0], EMPTY_LAYOUT) == Done(EMPTY_LAYOUT);
    assert PlaceItems(probe, stream, MAN, AREA, ITEMS, EMPTY_LAYOUT) == Done(EMPTY_LAYOUT);
  }

  /** The generation is inside the send of complete. */
  lemma CompleteReady(c: Config)
    ensures var plan := PlanFor(ITEMS, []);
            Reachable(c, Alone(MAN, Reading, Running(ITEMS, [], Sending(1), [plan]), [Sent(Some(0), plan)]))
  {
    var plan := PlanFor(ITEMS, []);
    ItemsPass();
    ItemsPlace(c.streamOf(0));
    PlanSent(c, MAN, ITEMS, [], 0);
    CheckPasses(c, MAN, Running(ITEMS, [], Checking(1), [plan]), [Sent(Some(0), plan)], 1);
  }

  lemma ShortScript(c: Config, gen: Gen)
    requires gen.job == Some(JobFor(ITEMS, [])) && gen.req == REQUEST
    ensures |ScriptOf(c, gen)| == 2
  {
  }

  /** complete can follow a cancellation: a cancel can come between the check and the send. */
  lemma CompleteCanFollowCancel(c: Config)
    ensures exists acts, more ::
              && |After(c, acts).gens| == 1 && After(c, acts).gens[0].cancelled
              && !HasComplete(After(c, acts).gens[0].trace)
              && Completes(c, After(c, acts), more, 0)
  {
    var plan := PlanFor(ITEMS, []);
    var gen := Running(ITEMS, [], Sending(1), [plan]);
    CompleteReady(c);
    CancelComes(c, MAN, gen, [Sent(Some(0), plan)]);
    var s := Alone(MAN, Reading, gen.(cancelled := true), [Sent(Some(0), plan)]);
    var acts :| After(c, acts) == s;
    ShortScript(c, s.gens[0]);
    CompleteGetsOut(c, s, 0);
    assert Completes(c, After(c, acts), [SendEnds(0, true)], 0);
  }

  /** A cancelled placement is not stopped: one that is cancelled while it places still ends with its entries. */
  lemma PlacementCanOutliveCancel(c: Config)
    ensures exists acts ::
              var s := After(c, acts);
              && |s.gens| == 1 && s.gens[0].cancelled && s.gens[0].pc.Placing?
              && Step(c, s, PlacementEnds(0, 0)).gens[0].job == Some(JobFor(ITEMS, []))
  {
    ItemsPass();
    Accepted(c, MAN, ITEMS);
    CancelComes(c, MAN, Answered(ITEMS), []);
    var s := Alone(MAN, Reading, Answered(ITEMS).(cancelled := true), []);
    var acts :| After(c, acts) == s;
    ItemsPlace(c.streamOf(0));
    assert FreshSeed(0);
    assert Step(c, s, PlacementEnds(0, 0)) == OnPlacementEnd(c, s, 0, 0);
  }

  /** The steps from a cancelled model call to the error for its timeout. */
  const TIMEOUT_REPORTED: seq<Action> := [ModelAnswers(0, DeadlineExceeded), GenRuns(0), SendEnds(0, true)]

  lemma TimeoutSpeaks(c: Config, man: Manifest)
    ensures var s := Alone(man, Reading, Fresh(Calling(0)).(cancelled := true), []);
            var t := Run(c, s, TIMEOUT_REPORTED);
            |t.gens| == 1 && t.gens[0].trace == [Error("g", LlmTimeout)]
  {
    var gen := Fresh(Calling(0)).(cancelled := true);
    var s := Alone(man, Reading, gen, []);
    var s1 := Step(c, s, TIMEOUT_REPORTED[0]);
    assert s1.gens[0] == gen.(pc := Reporting(TimedOut), replies := [DeadlineExceeded]);
    var s2 := Step(c, s1, TIMEOUT_REPORTED[1]);
    assert s2.gens[0] == s1.gens[0].(pc := SendingError(LlmTimeout));
    var s3 := Step(c, s2, TIMEOUT_REPORTED[2]);
    assert s3.gens[0].trace == [Error("g", LlmTimeout)];
    assert TIMEOUT_REPORTED[1..][1..][1..] == [];
    assert Run(c, s, TIMEOUT_REPORTED) == Run(c, s1, TIMEOUT_REPORTED[1..]);
    assert Run(c, s1, TIMEOUT_REPORTED[1..]) == Run(c, s2, TIMEOUT_REPORTED[1..][1..]);
    assert Run(c, s2, TIMEOUT_REPORTED[1..][1..]) == Run(c, s3, []);
  }

  /** After acts the one generation is cancelled and has sent nothing; after more as well it has reported a timeout. */
  ghost predicate TimesOutAfter(c: Config, acts: seq<Action>, more: seq<Action>) {
    var s := After(c, acts);
    var t := Run(c, s, more);
    && |s.gens| == 1 && s.gens[0].cancelled && s.gens[0].trace == []
    && |t.gens| == 1 && t.gens[0].trace == [Error("g", LlmTimeout)]
  }

  /** A cancellation can be followed by an error: one that meets a model call that times out. */
  lemma ErrorCanFollowCancel(c: Config)
    ensures exists acts, more :: TimesOutAfter(c, acts, more)
  {
    ItemsPass();
    Called(c, MAN);
    CancelComes(c, MAN, Fresh(Calling(0)), []);
    var s := Alone(MAN, Reading, Fresh(Calling(0)).(cancelled := true), []);
    var acts :| After(c, acts) == s;
    TimeoutSpeaks(c, MAN);
    assert TimesOutAfter(c, acts, TIMEOUT_REPORTED);
  }
}

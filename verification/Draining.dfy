/** A generation that is draining comes to its end, whatever else happens in the editor. */
module Draining {
  import opened EditorModule

  /** A tick that finds the editor world and has time for at least one entry. */
  predicate Useful(e: Event) {
    e.Tick? && e.world && e.answers != []
  }

  function UsefulTicks(events: seq<Event>): nat {
    if events == [] then 0 else (if Useful(events[0]) then 1 else 0) + UsefulTicks(events[1..])
  }

  /** The ticks the open generation still needs. */
  function TicksLeft(s: Spawner.State): nat {
    if s.ready == [] then 1 else |s.ready|
  }

  /** The generation is open and draining, its loads answered, having accepted n entries, after k others. */
  ghost predicate StillDraining(s: State, id: string, n: nat, k: nat) {
    && s.spawner.active && s.spawner.draining && s.spawner.id == id && s.activeId == ""
    && SpawnerProperties.NobodyWaits(s.spawner) && |s.spawner.accepted| == n && |s.spawner.finals| == k
  }

  /** It was finalized as number k, all n entries accounted for. */
  predicate FinalizedAs(s: State, id: string, n: nat, k: nat) {
    k < |s.spawner.finals| && s.spawner.finals[k].id == id
    && s.spawner.finals[k].spawned + s.spawner.finals[k].skipped == n
  }

  lemma DrainingTick(s: State, world: bool, answers: seq<Spawner.WorldAnswer>, id: string, n: nat, k: nat)
    requires Inv(s) && StillDraining(s, id, n, k)
    ensures var e := Tick(world, answers);
            var t := Step(s, e);
            || FinalizedAs(t, id, n, k)
            || (StillDraining(t, id, n, k)
                && TicksLeft(t.spawner) + (if Useful(e) then 1 else 0) <= TicksLeft(s.spawner))
  {
    var t := Step(s, Tick(world, answers));
    SpawnerProperties.TickInv(s.spawner, world, answers);
    if !t.spawner.active {
      assert FinalizedAs(t, id, n, k);
    } else if world && answers != [] {
      SpawnerProperties.TickShrinks(s.spawner, answers);
    } else if s.spawner.ready == [] {
      SpawnerProperties.PendingNone(s.spawner);
    } else if world {
      assert Spawner.Drain(s.spawner, answers) == s.spawner;
    }
  }

  /** Any other event leaves it draining as it is, or closes it, its account settled. */
  lemma DrainingOther(s: State, e: Event, id: string, n: nat, k: nat)
    requires Inv(s) && StillDraining(s, id, n, k) && !e.Tick?
    ensures var t := Step(s, e);
            || FinalizedAs(t, id, n, k)
            || (StillDraining(t, id, n, k) && TicksLeft(t.spawner) == TicksLeft(s.spawner))
  {
    var t := Step(s, e);
    match e
    case Start(suffix, connected, man) =>
      if connected {
        SpawnerProperties.BeginInv(s.spawner, Mint(suffix), man);
        assert FinalizedAs(t, id, n, k);
      }
    case AssetLoaded(c, ok) =>
      SpawnerProperties.LoadedInv(s.spawner, c, ok);
      if c in s.spawner.cats {
        assert s.spawner.ready + [] == s.spawner.ready;
      }
    case _ =>
  }

  lemma FinalStays(s: State, e: Event, id: string, n: nat, k: nat)
    requires Inv(s) && FinalizedAs(s, id, n, k)
    ensures FinalizedAs(Step(s, e), id, n, k)
  {
    FinalsGrow(s, e);
  }

  lemma {:induction false} DrainingRun(s: State, events: seq<Event>, id: string, n: nat, k: nat)
    requires Inv(s)
    requires FinalizedAs(s, id, n, k)
          || (StillDraining(s, id, n, k) && UsefulTicks(events) >= TicksLeft(s.spawner))
    ensures FinalizedAs(Run(s, events), id, n, k)
    decreases |events|
  {
    if events != [] {
      var e, t := events[0], Step(s, events[0]);
      StepInv(s, e);
      if FinalizedAs(s, id, n, k) {
        FinalStays(s, e, id, n, k);
      } else if e.Tick? {
        DrainingTick(s, e.world, e.answers, id, n, k);
      } else {
        DrainingOther(s, e, id, n, k);
      }
      DrainingRun(t, events[1..], id, n, k);
    }
  }

  /**
   Once every load that entries wait for is answered, a draining generation of n ready entries is finalized
   by n ticks that find the world and have any time at all, or by one if n is 0, whatever events come
   between them; its statistics then account for everything it accepted.
   */
  lemma DrainingFinishes(events: seq<Event>, more: seq<Event>)
    requires var s := Run(Init(), events).spawner;
             && s.active && s.draining && SpawnerProperties.NobodyWaits(s) && UsefulTicks(more) >= TicksLeft(s)
    ensures var s := Run(Init(), events);
            FinalizedAs(Run(s, more), s.spawner.id, |s.spawner.accepted|, |s.spawner.finals|)
  {
    Reached(events);
    var s := Run(Init(), events);
    DrainingRun(s, more, s.spawner.id, |s.spawner.accepted|, |s.spawner.finals|);
  }
}

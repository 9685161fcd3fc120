/** Every spawn can be charged to one entry of one chunk: no entry is spawned more often than chunks carried it. */
module Provenance {
  import opened Seqs
  import opened Wire
  import opened Spawner
  import SpawnerProperties
  import EditorModule

  /** How many copies of e are still to be processed. */
  function PendingOf(s: State, e: AssetEntry): nat {
    multiset(s.ready)[e] + if e.category in s.cats then multiset(s.cats[e.category].waiting)[e] else 0
  }

  /** How many copies of e were spawned under id, or may yet be. */
  function Claims(s: State, id: string, e: AssetEntry): nat {
    multiset(s.spawnLog)[(id, e)] + if s.active && s.id == id then PendingOf(s, e) else 0
  }

  lemma PushCount<T>(s: seq<T>, x: T, e: T)
    ensures multiset(s + [x])[e] == multiset(s)[e] + if x == e then 1 else 0
  {
  }

  lemma EnqueueOnePending(s: State, x: AssetEntry, e: AssetEntry)
    ensures PendingOf(EnqueueOne(s, x), e) <= PendingOf(s, e) + if x == e then 1 else 0
  {
    var t := EnqueueOne(s, x);
    PushCount(s.ready, x, e);
    if x.category in s.cats {
      PushCount(s.cats[x.category].waiting, x, e);
    }
    if e.category != x.category {
      assert t.cats.Keys == s.cats.Keys && (e.category in s.cats ==> t.cats[e.category] == s.cats[e.category]);
    }
  }

  lemma HeadCount<T>(s: seq<T>, e: T)
    requires s != []
    ensures multiset(s)[e] == multiset(s[1..])[e] + if s[0] == e then 1 else 0
  {
    assert s == [s[0]] + s[1..];
  }

  lemma {:induction false} EnqueueAllPending(s: State, entries: seq<AssetEntry>, e: AssetEntry)
    ensures PendingOf(EnqueueAll(s, entries), e) <= PendingOf(s, e) + multiset(entries)[e]
    decreases |entries|
  {
    if entries != [] {
      HeadCount(entries, e);
      EnqueueOnePending(s, entries[0], e);
      EnqueueAllPending(EnqueueOne(s, entries[0]), entries[1..], e);
    }
  }

  /** An entry of another category does not wait here. */
  lemma NotWaiting(waiting: seq<AssetEntry>, c: string, e: AssetEntry)
    requires (forall x | x in waiting :: x.category == c) && e.category != c
    ensures multiset(waiting)[e] == 0
  {
    assert e !in waiting;
  }

  lemma LoadedPending(s: State, c: string, ok: bool, e: AssetEntry)
    requires SpawnerProperties.WellPlaced(s)
    ensures PendingOf(Loaded(s, c, ok), e) <= PendingOf(s, e)
  {
    if c in s.cats {
      var w := s.cats[c].waiting;
      assert multiset(s.ready + w)[e] == multiset(s.ready)[e] + multiset(w)[e];
      if e.category != c {
        NotWaiting(w, c, e);
      }
    }
  }

  /** What was pending of the head is spent, whether it is spawned or skipped. */
  lemma ProcessOneClaims(s: State, ans: WorldAnswer, id: string, e: AssetEntry)
    requires s.active && s.ready != []
    ensures Claims(ProcessOne(s, ans), id, e) <= Claims(s, id, e)
  {
    HeadCount(s.ready, e);
    var t := ProcessOne(s, ans);
    assert t.spawnLog == s.spawnLog || t.spawnLog == s.spawnLog + [(s.id, s.ready[0])];
  }

  lemma {:induction false} DrainClaims(s: State, answers: seq<WorldAnswer>, id: string, e: AssetEntry)
    requires s.active
    ensures var t := Drain(s, answers); t.active && Claims(t, id, e) <= Claims(s, id, e)
    decreases |answers|
  {
    if s.ready != [] && answers != [] {
      ProcessOneClaims(s, answers[0], id, e);
      DrainClaims(ProcessOne(s, answers[0]), answers[1..], id, e);
    }
  }

  lemma TickClaims(s: State, world: bool, answers: seq<WorldAnswer>, id: string, e: AssetEntry)
    ensures Claims(Tick(s, world, answers), id, e) <= Claims(s, id, e)
  {
    if s.active {
      DrainClaims(s, answers, id, e);
    }
  }

  lemma EndClaims(s: State, discard: bool, id: string, e: AssetEntry)
    ensures Claims(End(s, discard), id, e) <= Claims(s, id, e)
  {
  }

  lemma BeginClaims(s: State, newId: string, man: map<string, AssetInfo>, id: string, e: AssetEntry)
    ensures Claims(Begin(s, newId, man), id, e) <= Claims(s, id, e)
  {
    EndClaims(s, true, id, e);
  }

  // ---- against what the chunks carried ----

  /** Spawns and pending entries are covered by what chunks with the id carried. */
  ghost predicate Covered(s: EditorModule.State) {
    forall id, e :: Claims(s.spawner, id, e) <= multiset(s.chunkLog)[(id, e)]
  }

  lemma {:induction false} TaggedCount(tag: string, entries: seq<AssetEntry>, id: string, e: AssetEntry)
    ensures multiset(EditorModule.Tagged(tag, entries))[(id, e)] == if tag == id then multiset(entries)[e] else 0
    decreases |entries|
  {
    if entries != [] {
      var tagged := EditorModule.Tagged(tag, entries);
      assert tagged[1..] == EditorModule.Tagged(tag, entries[1..]);
      HeadCount(tagged, (id, e));
      HeadCount(entries, e);
      TaggedCount(tag, entries[1..], id, e);
    }
  }

  lemma EnqueueClaims(s: State, entries: seq<AssetEntry>, id: string, e: AssetEntry)
    requires SpawnerProperties.Inv(s)
    ensures Claims(Enqueue(s, entries), id, e)
         <= Claims(s, id, e) + if s.active && s.id == id then multiset(entries)[e] else 0
  {
    SpawnerProperties.EnqueueInv(s, entries);
    EnqueueAllPending(s, entries, e);
  }

  lemma ChunkCovered(s: EditorModule.State, tag: string, assets: seq<AssetEntry>)
    requires EditorModule.Inv(s) && Covered(s) && tag != ""
    ensures Covered(EditorModule.OnMessage(s, Chunk(tag, assets)))
  {
    var t := EditorModule.OnMessage(s, Chunk(tag, assets));
    forall id, e ensures Claims(t.spawner, id, e) <= multiset(t.chunkLog)[(id, e)] {
      TaggedCount(tag, assets, id, e);
      EnqueueClaims(s.spawner, assets, id, e);
    }
  }

  lemma MessageCovered(s: EditorModule.State, m: Message)
    requires EditorModule.Inv(s) && Covered(s)
    ensures Covered(EditorModule.OnMessage(s, m))
  {
    if m.Chunk? {
      if m.id != "" {
        ChunkCovered(s, m.id, m.assets);
      }
    } else {
      forall id, e ensures Claims(EditorModule.OnMessage(s, m).spawner, id, e) <= Claims(s.spawner, id, e) {
        EndClaims(s.spawner, m.Error?, id, e);
      }
    }
  }

  lemma StepCovered(s: EditorModule.State, event: EditorModule.Event)
    requires EditorModule.Inv(s) && Covered(s)
    ensures Covered(EditorModule.Step(s, event))
  {
    if event.Deliver? {
      MessageCovered(s, event.msg);
    } else {
      var t := EditorModule.Step(s, event);
      forall id, e ensures Claims(t.spawner, id, e) <= Claims(s.spawner, id, e) {
        match event
        case Start(suffix, _, man) => BeginClaims(s.spawner, EditorModule.Mint(suffix), man, id, e);
        case Tick(world, answers) => TickClaims(s.spawner, world, answers, id, e);
        case AssetLoaded(c, ok) => LoadedPending(s.spawner, c, ok, e);
        case _ => EndClaims(s.spawner, true, id, e);
      }
    }
  }

  lemma {:induction false} RunCovered(s: EditorModule.State, events: seq<EditorModule.Event>)
    requires EditorModule.Inv(s) && Covered(s)
    ensures Covered(EditorModule.Run(s, events))
    decreases |events|
  {
    if events != [] {
      StepCovered(s, events[0]);
      EditorModule.StepInv(s, events[0]);
      RunCovered(EditorModule.Step(s, events[0]), events[1..]);
    }
  }

  lemma InitCovered()
    ensures Covered(EditorModule.Init())
  {
  }

  lemma ReachedCovered(events: seq<EditorModule.Event>)
    ensures Covered(EditorModule.Run(EditorModule.Init(), events))
  {
    InitCovered();
    EditorModule.InitInv();
    RunCovered(EditorModule.Init(), events);
  }

  lemma CountsBelow(a: seq<(string, AssetEntry)>, b: seq<(string, AssetEntry)>)
    requires forall id, e :: multiset(a)[(id, e)] <= multiset(b)[(id, e)]
    ensures multiset(a) <= multiset(b)
  {
    forall x ensures multiset(a)[x] <= multiset(b)[x] {
      assert x == (x.0, x.1);
    }
  }

  lemma CoveredLog(s: EditorModule.State)
    requires Covered(s)
    ensures multiset(s.spawner.spawnLog) <= multiset(s.chunkLog)
  {
    var log, carried := s.spawner.spawnLog, s.chunkLog;
    forall id, e ensures multiset(log)[(id, e)] <= multiset(carried)[(id, e)] {
      assert Claims(s.spawner, id, e) <= multiset(carried)[(id, e)];
    }
    CountsBelow(log, carried);
  }

  /**
   Over every interleaving of start, cancel, messages, close, ticks and loads, an entry is spawned under an
   id at most as often as chunks with that id carried it: nothing is spawned twice or under another id.
   */
  lemma SpawnedAtMostAsCarried(events: seq<EditorModule.Event>)
    ensures var s := EditorModule.Run(EditorModule.Init(), events);
            multiset(s.spawner.spawnLog) <= multiset(s.chunkLog)
  {
    ReachedCovered(events);
    CoveredLog(EditorModule.Run(EditorModule.Init(), events));
  }

  // ---- nothing is spawned under an id that was aborted ----

  function UnderId(id: string): ((string, AssetEntry)) -> bool {
    (x: (string, AssetEntry)) => x.0 == id
  }

  /** What was spawned under the id, in order. */
  function SpawnedUnder(s: EditorModule.State, id: string): seq<(string, AssetEntry)> {
    Filter(s.spawner.spawnLog, UnderId(id))
  }

  /** Neither the module nor the spawner has the id open. */
  predicate Retired(s: EditorModule.State, id: string) {
    s.activeId != id && !(s.spawner.active && s.spawner.id == id)
  }

  lemma OthersTail(log: seq<(string, AssetEntry)>, log': seq<(string, AssetEntry)>, id: string)
    requires log <= log' && forall i | |log| <= i < |log'| :: log'[i].0 != id
    ensures Filter(log', UnderId(id)) == Filter(log, UnderId(id))
  {
    var rest := log'[|log|..];
    assert log' == log + rest;
    FilterAppend(log, rest, UnderId(id));
    FilterNone(rest, UnderId(id));
  }

  lemma RetiredStep(s: EditorModule.State, e: EditorModule.Event, id: string)
    requires EditorModule.Inv(s) && Retired(s, id) && id != ""
    requires !(e.Start? && EditorModule.Mint(e.suffix) == id)
    ensures var t := EditorModule.Step(s, e); Retired(t, id) && SpawnedUnder(t, id) == SpawnedUnder(s, id)
  {
    var t := EditorModule.Step(s, e);
    match e
    case Start(suffix, connected, man) =>
      if connected { SpawnerProperties.BeginInv(s.spawner, EditorModule.Mint(suffix), man); }
    case Deliver(m) => if m.Chunk? { SpawnerProperties.EnqueueInv(s.spawner, m.assets); }
    case Tick(world, answers) =>
      SpawnerProperties.TickInv(s.spawner, world, answers);
      OthersTail(s.spawner.spawnLog, t.spawner.spawnLog, id);
    case AssetLoaded(c, ok) => SpawnerProperties.LoadedInv(s.spawner, c, ok);
    case _ =>
  }

  lemma {:induction false} RetiredRun(s: EditorModule.State, events: seq<EditorModule.Event>, id: string)
    requires EditorModule.Inv(s) && Retired(s, id) && id != "" && EditorModule.NeverStarted(events, id)
    ensures SpawnedUnder(EditorModule.Run(s, events), id) == SpawnedUnder(s, id)
    decreases |events|
  {
    if events != [] {
      assert events[0] in events;
      RetiredStep(s, events[0], id);
      EditorModule.StepInv(s, events[0]);
      RetiredRun(EditorModule.Step(s, events[0]), events[1..], id);
    }
  }

  /**
   After a cancel, an error for it or a closed socket, a generation never spawns again: whatever happens
   later, late chunks and later generations included, what was spawned under its id stays as it was.
   */
  lemma AbortedNeverSpawns(events: seq<EditorModule.Event>, e: EditorModule.Event, more: seq<EditorModule.Event>)
    requires EditorModule.Aborts(EditorModule.Run(EditorModule.Init(), events), e)
    requires EditorModule.NeverStarted(more, EditorModule.Run(EditorModule.Init(), events).activeId)
    ensures var s := EditorModule.Run(EditorModule.Init(), events);
            SpawnedUnder(EditorModule.Run(EditorModule.Step(s, e), more), s.activeId) == SpawnedUnder(s, s.activeId)
  {
    EditorModule.Reached(events);
    EditorModule.AbortKeepsWhatSpawned(events, e);
    var s := EditorModule.Run(EditorModule.Init(), events);
    EditorModule.StepInv(s, e);
    RetiredRun(EditorModule.Step(s, e), more, s.activeId);
  }
}

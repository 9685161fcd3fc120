/** What the spawner knows of its categories follows from the manifest and from the loads answered since. */
module Loads {
  import opened Wire
  import Spawner
  import SpawnerProperties
  import EditorModule

  type Man = map<string, Spawner.AssetInfo>

  predicate Starts(e: EditorModule.Event) {
    e.Start? && e.connected
  }

  /** The manifest of the generation that was started last. */
  function ManifestSince(events: seq<EditorModule.Event>): Man {
    if events == [] then map[]
    else
      var last := events[|events| - 1];
      if Starts(last) then last.man else ManifestSince(events[..|events| - 1])
  }

  /** The loads answered since the last start, with their results. */
  function LoadsSince(events: seq<EditorModule.Event>): seq<(string, bool)> {
    if events == [] then []
    else
      var front, last := events[..|events| - 1], events[|events| - 1];
      if Starts(last) then []
      else if last.AssetLoaded? then LoadsSince(front) + [(last.category, last.ok)]
      else LoadsSince(front)
  }

  /** The category's record agrees with the manifest and with the loads answered. */
  ghost predicate Agrees(rt: Spawner.Runtime, c: string, man: Man, loads: seq<(string, bool)>) {
    && c in man && rt.info == man[c]
    && (rt.loaded <==> (c, true) in loads)
    && (rt.failed <==> (c, false) in loads || (rt.requested && !rt.info.hasPath))
  }

  ghost predicate Tracks(s: Spawner.State, man: Man, loads: seq<(string, bool)>) {
    && (forall c | c in s.cats :: Agrees(s.cats[c], c, man, loads))
    && QueuedLoaded(s)
    && (s.active ==> s.cats.Keys == man.Keys)
    && (forall c | c in s.cats :: forall e | e in s.cats[c].waiting :: e.category == c)
  }

  lemma EnqueueAgrees(s: Spawner.State, x: AssetEntry, c: string, man: Man, loads: seq<(string, bool)>)
    requires c in s.cats && Agrees(s.cats[c], c, man, loads)
    ensures var t := Spawner.EnqueueOne(s, x); c in t.cats && Agrees(t.cats[c], c, man, loads)
  {
  }

  /** Only entries of loaded categories are queued. */
  ghost predicate QueuedLoaded(s: Spawner.State) {
    forall e | e in s.ready :: e.category in s.cats && s.cats[e.category].loaded
  }

  lemma EnqueueQueuesLoaded(s: Spawner.State, x: AssetEntry)
    requires QueuedLoaded(s)
    ensures QueuedLoaded(Spawner.EnqueueOne(s, x)) && Spawner.EnqueueOne(s, x).cats.Keys == s.cats.Keys
  {
    var t := Spawner.EnqueueOne(s, x);
    assert t.ready == s.ready || (t.ready == s.ready + [x] && x.category in t.cats && t.cats[x.category].loaded);
  }

  lemma EnqueueOneTracks(s: Spawner.State, x: AssetEntry, man: Man, loads: seq<(string, bool)>)
    requires Tracks(s, man, loads)
    ensures Tracks(Spawner.EnqueueOne(s, x), man, loads)
  {
    var t := Spawner.EnqueueOne(s, x);
    EnqueueQueuesLoaded(s, x);
    forall c | c in t.cats ensures Agrees(t.cats[c], c, man, loads) && forall e | e in t.cats[c].waiting :: e.category == c {
      EnqueueAgrees(s, x, c, man, loads);
      SpawnerProperties.EnqueueKeepsWaiting(s, x, c);
    }
    SpawnerProperties.EnqueueKeepsRest(s, x);
  }

  lemma {:induction false} EnqueueTracks(s: Spawner.State, entries: seq<AssetEntry>, man: Man, loads: seq<(string, bool)>)
    requires Tracks(s, man, loads)
    ensures Tracks(Spawner.EnqueueAll(s, entries), man, loads)
    decreases |entries|
  {
    if entries != [] {
      EnqueueOneTracks(s, entries[0], man, loads);
      EnqueueTracks(Spawner.EnqueueOne(s, entries[0]), entries[1..], man, loads);
    }
  }

  lemma MemberOfPush<T>(s: seq<T>, x: T, y: T)
    ensures y in s + [x] <==> y in s || y == x
  {
  }

  lemma AgreesPush(rt: Spawner.Runtime, c: string, man: Man, loads: seq<(string, bool)>, d: string, ok: bool)
    requires Agrees(rt, c, man, loads)
    ensures c != d ==> Agrees(rt, c, man, loads + [(d, ok)])
    ensures c == d ==> Agrees(if ok then rt.(loaded := true, waiting := []) else rt.(failed := true, waiting := []), c, man,
                              loads + [(d, ok)])
  {
    MemberOfPush(loads, (d, ok), (c, true));
    MemberOfPush(loads, (d, ok), (c, false));
  }

  lemma LoadedTracks(s: Spawner.State, d: string, ok: bool, man: Man, loads: seq<(string, bool)>)
    requires Tracks(s, man, loads)
    ensures Tracks(Spawner.Loaded(s, d, ok), man, loads + [(d, ok)])
  {
    var t := Spawner.Loaded(s, d, ok);
    forall c | c in t.cats ensures Agrees(t.cats[c], c, man, loads + [(d, ok)]) {
      AgreesPush(s.cats[c], c, man, loads, d, ok);
    }
  }

  lemma {:induction false} DrainTracks(s: Spawner.State, answers: seq<Spawner.WorldAnswer>, man: Man, loads: seq<(string, bool)>)
    requires Tracks(s, man, loads)
    ensures Tracks(Spawner.Drain(s, answers), man, loads)
    decreases |answers|
  {
    if s.ready != [] && answers != [] {
      DrainTracks(Spawner.ProcessOne(s, answers[0]), answers[1..], man, loads);
    }
  }

  lemma EndTracks(s: Spawner.State, discard: bool, man: Man, loads: seq<(string, bool)>)
    requires Tracks(s, man, loads)
    ensures Tracks(Spawner.End(s, discard), man, loads)
  {
  }

  lemma TickTracks(s: Spawner.State, world: bool, answers: seq<Spawner.WorldAnswer>, man: Man, loads: seq<(string, bool)>)
    requires Tracks(s, man, loads)
    ensures Tracks(Spawner.Tick(s, world, answers), man, loads)
  {
    DrainTracks(s, answers, man, loads);
  }

  lemma BeginTracks(s: Spawner.State, id: string, man: Man)
    ensures Tracks(Spawner.Begin(s, id, man), man, [])
  {
  }

  lemma MessageTracks(s: EditorModule.State, m: Message, man: Man, loads: seq<(string, bool)>)
    requires Tracks(s.spawner, man, loads)
    ensures Tracks(EditorModule.OnMessage(s, m).spawner, man, loads)
  {
    if m.Chunk? {
      EnqueueTracks(s.spawner, m.assets, man, loads);
    } else {
      EndTracks(s.spawner, m.Error?, man, loads);
    }
  }

  lemma StepTracks(s: EditorModule.State, e: EditorModule.Event, man: Man, loads: seq<(string, bool)>)
    requires Tracks(s.spawner, man, loads)
    ensures var t := EditorModule.Step(s, e).spawner;
            if Starts(e) then Tracks(t, e.man, [])
            else Tracks(t, man, if e.AssetLoaded? then loads + [(e.category, e.ok)] else loads)
  {
    match e
    case Start(suffix, connected, m) => if connected { BeginTracks(s.spawner, EditorModule.Mint(suffix), m); }
    case Deliver(m) => MessageTracks(s, m, man, loads);
    case Tick(world, answers) => TickTracks(s.spawner, world, answers, man, loads);
    case AssetLoaded(c, ok) => LoadedTracks(s.spawner, c, ok, man, loads);
    case _ => EndTracks(s.spawner, true, man, loads);
  }

  lemma {:induction false} RunTracks(events: seq<EditorModule.Event>)
    ensures Tracks(EditorModule.Run(EditorModule.Init(), events).spawner, ManifestSince(events), LoadsSince(events))
    decreases |events|
  {
    if events != [] {
      var front, last := events[..|events| - 1], events[|events| - 1];
      assert events == front + [last];
      RunTracks(front);
      EditorModule.RunPush(EditorModule.Init(), front, last);
      StepTracks(EditorModule.Run(EditorModule.Init(), front), last, ManifestSince(front), LoadsSince(front));
    }
  }

  /**
   Over every run: the open generation knows exactly the categories of the manifest it was started with. A
   category is loaded exactly if a load of it has succeeded since the start, and failed exactly if one has
   failed since, or entries of it came and it has no path. Whatever is queued to be spawned is loaded.
   */
  lemma LoadsDecide(events: seq<EditorModule.Event>, c: string)
    ensures var s := EditorModule.Run(EditorModule.Init(), events).spawner;
            var man, loads := ManifestSince(events), LoadsSince(events);
            && (s.active ==> s.cats.Keys == man.Keys)
            && (c in s.cats ==>
                  && c in man && s.cats[c].info == man[c]
                  && (s.cats[c].loaded <==> (c, true) in loads)
                  && (s.cats[c].failed <==> (c, false) in loads || (s.cats[c].requested && !man[c].hasPath)))
            && (forall e | e in s.ready :: e.category in s.cats && s.cats[e.category].loaded)
  {
    RunTracks(events);
    var s := EditorModule.Run(EditorModule.Init(), events).spawner;
    if c in s.cats {
      assert Agrees(s.cats[c], c, ManifestSince(events), LoadsSince(events));
    }
  }
}

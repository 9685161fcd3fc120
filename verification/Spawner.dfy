/**
 The time-budgeted spawner as a state machine: a ready queue, per-category lists of entries waiting for
 an asset load, and a generation that is finalized at once or when it has drained. World calls and the
 time budget are arbitrary answers; a load callback may come for any category at any time, with either
 result. The last five fields of a state record history and steer nothing.
 */
module Spawner {
  import opened Seqs
  import opened Wire

  /** What the project's manifest says about a category. */
  datatype AssetInfo = AssetInfo(hasPath: bool, instanceable: bool)

  datatype Runtime = Runtime(info: AssetInfo, requested: bool, failed: bool, loaded: bool, waiting: seq<AssetEntry>)

  /** The statistics of a finalized generation, and how many entries it had accepted. */
  datatype Final = Final(id: string, spawned: nat, skipped: nat, accepted: nat)

  datatype State = State(active: bool, id: string, draining: bool, cats: map<string, Runtime>,
                         ready: seq<AssetEntry>, spawned: nat, skipped: nat,
                         accepted: seq<AssetEntry>, processed: seq<AssetEntry>, begins: nat,
                         finals: seq<Final>, spawnLog: seq<(string, AssetEntry)>)

  datatype AssetKind = StaticMesh | ActorClass | OtherAsset

  /** The world's answers about one entry. */
  datatype WorldAnswer = WorldAnswer(groundHit: bool, asset: AssetKind, container: bool, actorSpawned: bool)

  function Init(): State {
    State(false, "", false, map[], [], 0, 0, [], [], 0, [], [])
  }

  /** The branches of SpawnEntry and its two helpers: is the entry spawned, or skipped? */
  predicate Spawns(e: AssetEntry, info: AssetInfo, ans: WorldAnswer) {
    && (e.groundSnap ==> ans.groundHit)
    && (if info.instanceable then ans.asset.StaticMesh? && ans.container
        else !ans.asset.OtherAsset? && ans.actorSpawned)
  }

  function WaitingCounts(cats: map<string, Runtime>): map<string, int> {
    map c | c in cats :: |cats[c].waiting|
  }

  ghost function Pending(s: State): int {
    |s.ready| + MapSum(WaitingCounts(s.cats))
  }

  function FreshCategories(man: map<string, AssetInfo>): map<string, Runtime> {
    map c | c in man :: Runtime(man[c], false, false, false, [])
  }

  /** Closes the generation. It is only ever reached with nothing pending. */
  ghost function Finalize(s: State): State
    requires Pending(s) == 0
  {
    s.(active := false, id := "", draining := false, cats := map[], ready := [],
       finals := s.finals + [Final(s.id, s.spawned, s.skipped, |s.accepted|)])
  }

  function Emptied(cats: map<string, Runtime>): map<string, Runtime> {
    map c | c in cats :: cats[c].(waiting := [])
  }

  ghost function Discard(s: State): (t: State)
    ensures Pending(t) == 0
  {
    MapSumNonNegative(WaitingCounts(s.cats));
    MapSumZero(WaitingCounts(Emptied(s.cats)));
    s.(skipped := s.skipped + Pending(s), ready := [], cats := Emptied(s.cats))
  }

  ghost function End(s: State, discard: bool): State {
    if !s.active then s
    else if discard then Finalize(Discard(s))
    else if Pending(s) == 0 then Finalize(s)
    else s.(draining := true)
  }

  /** A generation just opened: empty queues, zero statistics, fresh category records. */
  function Opened(s: State, id: string, man: map<string, AssetInfo>): State {
    State(true, id, false, FreshCategories(man), [], 0, 0, [], [], s.begins + 1, s.finals, s.spawnLog)
  }

  ghost function Begin(s: State, id: string, man: map<string, AssetInfo>): State {
    Opened(if s.active then End(s, true) else s, id, man)
  }

  /** One round of the loop over a chunk's entries. */
  function EnqueueOne(s: State, e: AssetEntry): State {
    var t := s.(accepted := s.accepted + [e]);
    if e.category !in s.cats then t.(skipped := s.skipped + 1)
    else
      var rt := s.cats[e.category];
      if rt.failed then t.(skipped := s.skipped + 1)
      else if !rt.requested && !rt.info.hasPath
      then t.(skipped := s.skipped + 1, cats := s.cats[e.category := rt.(requested := true, failed := true)])
      else if rt.loaded
      then t.(ready := s.ready + [e], cats := s.cats[e.category := rt.(requested := true)])
      else t.(cats := s.cats[e.category := rt.(requested := true, waiting := rt.waiting + [e])])
  }

  function EnqueueAll(s: State, entries: seq<AssetEntry>): State
    decreases |entries|
  {
    if entries == [] then s else EnqueueAll(EnqueueOne(s, entries[0]), entries[1..])
  }

  function Enqueue(s: State, entries: seq<AssetEntry>): State {
    if s.active then EnqueueAll(s, entries) else s
  }

  /** The completion of an asset load. */
  function Loaded(s: State, c: string, ok: bool): State {
    if c !in s.cats then s
    else
      var rt := s.cats[c];
      if ok
      then s.(cats := s.cats[c := rt.(loaded := true, waiting := [])], ready := s.ready + rt.waiting)
      else s.(cats := s.cats[c := rt.(failed := true, waiting := [])], skipped := s.skipped + |rt.waiting|)
  }

  /** Takes the head of the queue and tries to spawn it. An entry of no known category would vanish uncounted. */
  function ProcessOne(s: State, ans: WorldAnswer): State
    requires s.ready != []
  {
    var e := s.ready[0];
    var t := s.(ready := s.ready[1..], processed := s.processed + [e]);
    if e.category !in s.cats then t
    else if Spawns(e, s.cats[e.category].info, ans)
    then t.(spawned := s.spawned + 1, spawnLog := s.spawnLog + [(s.id, e)])
    else t.(skipped := s.skipped + 1)
  }

  /** The budgeted loop: there is one answer for every entry the budget allows. */
  function Drain(s: State, answers: seq<WorldAnswer>): State
    decreases |answers|
  {
    if s.ready == [] || answers == [] then s else Drain(ProcessOne(s, answers[0]), answers[1..])
  }

  ghost function CloseIfDrained(s: State): State {
    if s.draining && Pending(s) == 0 then Finalize(s) else s
  }

  ghost function Tick(s: State, world: bool, answers: seq<WorldAnswer>): State {
    if !s.active then s
    else if s.ready == [] then CloseIfDrained(s)
    else if !world then s
    else CloseIfDrained(Drain(s, answers))
  }
}

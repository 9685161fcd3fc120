/**
 The editor module between the client and the spawner: it opens a generation, feeds the spawner the
 chunks that carry its id, and closes it on complete, error, cancel or a closed socket.
 */
module EditorModule {
  import opened Seqs
  import opened Wire
  import Spawner
  import SpawnerProperties
  import AssetSpawner

  type Man = map<string, Spawner.AssetInfo>

  datatype Event =
    | Start(suffix: string, connected: bool, man: Man)
    | Cancel
    | Deliver(msg: Message)
    | SocketClosed
    | Tick(world: bool, answers: seq<Spawner.WorldAnswer>)
    | AssetLoaded(category: string, ok: bool)

  /** chunkLog records every entry a delivered chunk carried, with that chunk's id; it steers nothing. */
  datatype State = State(activeId: string, spawner: Spawner.State, chunkLog: seq<(string, AssetEntry)>)

  function Init(): State {
    State("", Spawner.Init(), [])
  }

  /** Ids are minted as this prefix and eight digits of a fresh GUID. */
  function Mint(suffix: string): string {
    "gen-" + suffix
  }

  /** The parser turns a plan, chunk or complete without a generation id into a protocol error. */
  predicate Parsed(m: Message) {
    m.Error? || m.id != ""
  }

  function Tagged(id: string, entries: seq<AssetEntry>): seq<(string, AssetEntry)> {
    seq(|entries|, i requires 0 <= i < |entries| => (id, entries[i]))
  }

  ghost function Close(s: State, discard: bool): State {
    s.(spawner := Spawner.End(s.spawner, discard), activeId := "")
  }

  ghost function OnMessage(s: State, m: Message): State {
    if !Parsed(m) then s
    else
      match m
      case Chunk(id, assets) =>
        var t := s.(chunkLog := s.chunkLog + Tagged(id, assets));
        if id == s.activeId then t.(spawner := Spawner.Enqueue(s.spawner, assets)) else t
      case Complete(id, _) => if id == s.activeId then Close(s, false) else s
      case Error(id, _) => if s.activeId != "" && id == s.activeId then Close(s, true) else s
      case Plan(_, _, _, _) => s
  }

  ghost function Step(s: State, e: Event): State {
    match e
    case Start(suffix, connected, man) =>
      if connected then s.(activeId := Mint(suffix), spawner := Spawner.Begin(s.spawner, Mint(suffix), man)) else s
    case Cancel => if s.activeId == "" then s else Close(s, true)
    case Deliver(m) => OnMessage(s, m)
    case SocketClosed => if s.activeId == "" then s else Close(s, true)
    case Tick(world, answers) => s.(spawner := Spawner.Tick(s.spawner, world, answers))
    case AssetLoaded(c, ok) => s.(spawner := Spawner.Loaded(s.spawner, c, ok))
  }

  ghost function Run(s: State, events: seq<Event>): State
    decreases |events|
  {
    if events == [] then s else Run(Step(s, events[0]), events[1..])
  }

  /** No event starts a generation under the id. */
  ghost predicate NeverStarted(events: seq<Event>, id: string) {
    forall e | e in events :: !(e.Start? && Mint(e.suffix) == id)
  }

  lemma {:induction false} RunAppend(s: State, a: seq<Event>, b: seq<Event>)
    ensures Run(s, a + b) == Run(Run(s, a), b)
    decreases |a|
  {
    if a == [] {
      assert a + b == b;
    } else {
      assert (a + b)[1..] == a[1..] + b;
      RunAppend(Step(s, a[0]), a[1..], b);
    }
  }

  lemma RunPush(s: State, events: seq<Event>, e: Event)
    ensures Run(s, events + [e]) == Step(Run(s, events), e)
  {
    RunAppend(s, events, [e]);
    assert Run(Run(s, events), [e]) == Step(Run(s, events), e);
  }

  // ---- the invariant ----

  /** The module's id, when it has one, is the spawner's open generation, which is not draining. */
  ghost predicate Coupled(s: State) {
    && (s.activeId != "" ==> s.spawner.active && s.spawner.id == s.activeId && !s.spawner.draining)
    && (s.spawner.active && s.activeId == "" ==> s.spawner.draining)
    && (s.spawner.active ==> s.spawner.id != "")
  }

  /** What was accepted or spawned under an id was carried by a chunk with that id. */
  ghost predicate FromChunks(s: State) {
    && (s.spawner.active ==> forall e | e in s.spawner.accepted :: (s.spawner.id, e) in s.chunkLog)
    && (forall x | x in s.spawner.spawnLog :: x in s.chunkLog)
  }

  ghost predicate Inv(s: State) {
    SpawnerProperties.Inv(s.spawner) && Coupled(s) && FromChunks(s)
  }

  lemma TaggedMember(id: string, entries: seq<AssetEntry>, e: AssetEntry)
    requires e in entries
    ensures (id, e) in Tagged(id, entries)
  {
    var i :| 0 <= i < |entries| && entries[i] == e;
    assert Tagged(id, entries)[i] == (id, e);
  }

  /** A spawner that only advances its open generation keeps the provenance of what it spawns. */
  lemma AdvanceKeepsSource(s: State, t: State)
    requires Inv(s) && s.spawner.active && SpawnerProperties.Advances(s.spawner, t.spawner)
    requires t.chunkLog == s.chunkLog
    ensures FromChunks(t)
  {
    forall x | x in t.spawner.spawnLog ensures x in t.chunkLog {
      var i :| 0 <= i < |t.spawner.spawnLog| && t.spawner.spawnLog[i] == x;
      if i < |s.spawner.spawnLog| {
        assert x == s.spawner.spawnLog[i];
      } else {
        assert x == (s.spawner.id, x.1);
      }
    }
  }

  lemma CloseInv(s: State, discard: bool)
    requires Inv(s) && s.activeId != ""
    ensures Inv(Close(s, discard))
  {
    if discard {
      SpawnerProperties.EndDiscardInv(s.spawner);
    } else {
      SpawnerProperties.EndCompleteInv(s.spawner);
    }
    AdvanceKeepsSource(s, Close(s, discard));
  }

  lemma ChunkInv(s: State, id: string, assets: seq<AssetEntry>)
    requires Inv(s) && id != ""
    ensures Inv(OnMessage(s, Chunk(id, assets)))
  {
    SpawnerProperties.EnqueueInv(s.spawner, assets);
    var t := OnMessage(s, Chunk(id, assets));
    forall e | e in assets ensures (id, e) in t.chunkLog {
      TaggedMember(id, assets, e);
    }
  }

  lemma MessageInv(s: State, m: Message)
    requires Inv(s)
    ensures Inv(OnMessage(s, m))
  {
    if Parsed(m) {
      match m
      case Chunk(id, assets) => ChunkInv(s, id, assets);
      case Complete(id, _) => if id == s.activeId { CloseInv(s, false); }
      case Error(id, _) => if s.activeId != "" && id == s.activeId { CloseInv(s, true); }
      case Plan(_, _, _, _) =>
    }
  }

  lemma StartInv(s: State, suffix: string, man: Man)
    requires Inv(s)
    ensures Inv(Step(s, Start(suffix, true, man)))
  {
    SpawnerProperties.BeginInv(s.spawner, Mint(suffix), man);
  }

  lemma TickInv(s: State, world: bool, answers: seq<Spawner.WorldAnswer>)
    requires Inv(s)
    ensures Inv(Step(s, Tick(world, answers)))
  {
    SpawnerProperties.TickInv(s.spawner, world, answers);
    if s.spawner.active {
      AdvanceKeepsSource(s, Step(s, Tick(world, answers)));
    }
  }

  lemma LoadedInv(s: State, c: string, ok: bool)
    requires Inv(s)
    ensures Inv(Step(s, AssetLoaded(c, ok)))
  {
    SpawnerProperties.LoadedInv(s.spawner, c, ok);
  }

  lemma StepInv(s: State, e: Event)
    requires Inv(s)
    ensures Inv(Step(s, e))
  {
    match e
    case Start(suffix, connected, man) => if connected { StartInv(s, suffix, man); }
    case Cancel => if s.activeId != "" { CloseInv(s, true); }
    case Deliver(m) => MessageInv(s, m);
    case SocketClosed => if s.activeId != "" { CloseInv(s, true); }
    case Tick(world, answers) => TickInv(s, world, answers);
    case AssetLoaded(c, ok) => LoadedInv(s, c, ok);
  }

  lemma {:induction false} RunInv(s: State, events: seq<Event>)
    requires Inv(s)
    ensures Inv(Run(s, events))
    decreases |events|
  {
    if events != [] {
      StepInv(s, events[0]);
      RunInv(Step(s, events[0]), events[1..]);
    }
  }

  lemma InitInv()
    ensures Inv(Init())
  {
    SpawnerProperties.InitInv();
  }

  lemma StartsInv(s: State)
    requires s == Init()
    ensures Inv(s)
  {
    InitInv();
  }

  lemma Reached(events: seq<Event>)
    ensures Inv(Run(Init(), events))
  {
    InitInv();
    RunInv(Init(), events);
  }

  /** Finals are only ever added. */
  lemma FinalsGrow(s: State, e: Event)
    requires Inv(s)
    ensures s.spawner.finals <= Step(s, e).spawner.finals
  {
    match e
    case Start(suffix, _, man) => SpawnerProperties.BeginInv(s.spawner, Mint(suffix), man);
    case Deliver(m) => MessageGrows(s, m);
    case Tick(world, answers) => SpawnerProperties.TickInv(s.spawner, world, answers);
    case AssetLoaded(c, ok) => SpawnerProperties.LoadedInv(s.spawner, c, ok);
    case _ => if s.activeId != "" { SpawnerProperties.EndDiscardInv(s.spawner); }
  }

  lemma MessageGrows(s: State, m: Message)
    requires Inv(s)
    ensures s.spawner.finals <= OnMessage(s, m).spawner.finals
  {
    if m.Chunk? {
      SpawnerProperties.EnqueueInv(s.spawner, m.assets);
    } else if s.activeId != "" {
      SpawnerProperties.EndDiscardInv(s.spawner);
      SpawnerProperties.EndCompleteInv(s.spawner);
    }
  }

  // ---- what holds of every run ----

  /**
   Over every interleaving of start, cancel, messages, close, ticks and loads: a nonempty module id is
   the id of the spawner's open, not draining generation, and every entry ever spawned was carried by a
   chunk with the very id it was spawned under.
   */
  lemma SpawnedUnderItsOwnId(events: seq<Event>)
    ensures var s := Run(Init(), events);
            && (s.activeId != "" ==> s.spawner.active && s.spawner.id == s.activeId && !s.spawner.draining)
            && (forall x | x in s.spawner.spawnLog :: x in s.chunkLog)
  {
    Reached(events);
  }

  /**
   Accounts always balance: accepted entries are spawned, skipped or pending; generations begun are
   finalized once each, but for the open one; and final statistics cover exactly what was accepted.
   */
  lemma AccountsBalance(events: seq<Event>)
    ensures var s := Run(Init(), events).spawner;
            && |s.accepted| == s.spawned + s.skipped + Spawner.Pending(s)
            && |s.finals| == s.begins - (if s.active then 1 else 0)
            && (forall f | f in s.finals :: f.spawned + f.skipped == f.accepted)
  {
    Reached(events);
  }

  /** Within a category that has not failed, entries are processed in the order they were accepted. */
  lemma CategoryOrder(events: seq<Event>, c: string)
    ensures var s := Run(Init(), events).spawner;
            c in s.cats && !s.cats[c].failed ==>
              Filter(s.processed, EntryOf(c)) + Filter(s.ready, EntryOf(c)) + s.cats[c].waiting
                == Filter(s.accepted, EntryOf(c))
  {
    Reached(events);
  }

  /** While anything is pending there is an entry to process or an unanswered load with entries waiting on it. */
  lemma PendingIsNeverOrphaned(events: seq<Event>)
    ensures var s := Run(Init(), events).spawner;
            Spawner.Pending(s) > 0 ==>
              s.ready != [] || exists c :: c in s.cats && s.cats[c].waiting != [] && s.cats[c].requested
                                           && !s.cats[c].loaded && !s.cats[c].failed
  {
    Reached(events);
    var s := Run(Init(), events).spawner;
    if Spawner.Pending(s) > 0 {
      SpawnerProperties.PendingHasCause(s);
    }
  }

  /** The event cancels the active generation: the user, a closed socket, or an error for its id. */
  predicate Aborts(s: State, e: Event) {
    s.activeId != "" && (e.Cancel? || e.SocketClosed? || (e.Deliver? && e.msg.Error? && e.msg.id == s.activeId))
  }

  /** From s to t the active generation was finalized: what was spawned stays, everything else accepted counts as skipped. */
  ghost predicate Aborted(s: State, t: State) {
    && t.activeId == "" && !t.spawner.active && t.spawner.spawnLog == s.spawner.spawnLog
    && s.spawner.spawned <= |s.spawner.accepted|
    && t.spawner.finals == s.spawner.finals
         + [Spawner.Final(s.activeId, s.spawner.spawned, |s.spawner.accepted| - s.spawner.spawned, |s.spawner.accepted|)]
  }

  lemma CloseAborts(s: State)
    requires Inv(s) && s.activeId != ""
    ensures Aborted(s, Close(s, true))
  {
    SpawnerProperties.PendingParts(s.spawner);
    SpawnerProperties.EndDiscardInv(s.spawner);
  }

  /** An aborted generation is finalized on the spot. */
  lemma AbortKeepsWhatSpawned(events: seq<Event>, e: Event)
    requires Aborts(Run(Init(), events), e)
    ensures Aborted(Run(Init(), events), Step(Run(Init(), events), e))
  {
    Reached(events);
    CloseAborts(Run(Init(), events));
  }

  /** From s to t complete came: the generation is finalized with all it accepted, or drains on as it is. */
  ghost predicate Completed(s: State, t: State) {
    && t.activeId == ""
    && (if Spawner.Pending(s.spawner) == 0
        then && !t.spawner.active && s.spawner.spawned + s.spawner.skipped == |s.spawner.accepted|
             && t.spawner.finals == s.spawner.finals
                  + [Spawner.Final(s.activeId, s.spawner.spawned, s.spawner.skipped, |s.spawner.accepted|)]
        else t.spawner == s.spawner.(draining := true))
  }

  lemma CloseCompletes(s: State)
    requires Inv(s) && s.activeId != ""
    ensures Completed(s, Close(s, false))
  {
  }

  /** What the module sends to the server. */
  datatype Outgoing =
    | GenerateRequest(id: string, prompt: string, seed: Option<int>, bounds: Bounds)
    | CancelRequest(id: string)

  /** A square around the origin, in centimetres, from 10 m to 1 km wide. */
  function BoundsForArea(areaMeters: real): Bounds {
    var clamped := if areaMeters < 10.0 then 10.0 else if areaMeters > 1000.0 then 1000.0 else areaMeters;
    var half := clamped * 100.0 / 2.0;
    Bounds(Vec2(-half, -half), Vec2(half, half))
  }

  /**
   The area is a square around the origin, its side the wish in centimetres, no less than 10 m and no more than
   1 km; so it is never empty, and a larger wish never gives a smaller area.
   */
  lemma AreaIsSquare(area: real, wider: real)
    requires area <= wider
    ensures var b, w := BoundsForArea(area), BoundsForArea(wider);
            && b.min.x == b.min.y == -b.max.x == -b.max.y
            && 1000.0 <= b.max.x - b.min.x <= 100000.0
            && (10.0 <= area <= 1000.0 ==> b.max.x - b.min.x == area * 100.0)
            && (area < 10.0 ==> b.max.x - b.min.x == 1000.0)
            && (area > 1000.0 ==> b.max.x - b.min.x == 100000.0)
            && b.max.x <= w.max.x
  {
  }

  // ---- the module object ----

  class Module {
    var activeGenerationId: string
    const queue: AssetSpawner.Queue
    var parsedInbound: seq<Message>
    var outbox: seq<Outgoing>
    ghost var chunkLog: seq<(string, AssetEntry)>

    ghost predicate Valid()
      reads this, queue
    {
      queue.Valid() && Inv(Contents())
    }

    ghost function Contents(): State
      requires queue.Valid()
      reads this, queue
    {
      State(activeGenerationId, queue.Contents(), chunkLog)
    }

    constructor ()
      ensures parsedInbound == [] && outbox == [] && fresh(queue)
      ensures Valid() && Contents() == Init()
    {
      activeGenerationId, parsedInbound, outbox, chunkLog := "", [], [], [];
      queue := new AssetSpawner.Queue();
      new;
      assert parsedInbound == [] && outbox == [];
      StartsInv(Contents());
    }

    method StartGeneration(suffix: string, connected: bool, man: Man, prompt: string, seed: Option<int>, areaMeters: real)
      returns (id: string)
      requires Valid()
      modifies this, queue
      ensures Valid() && Contents() == Step(old(Contents()), Start(suffix, connected, man))
      ensures id == if connected then "gen-" + suffix else ""
      ensures connected ==> queue.transactionOpen && queue.activeId == activeGenerationId == id
      ensures !connected ==> Contents() == old(Contents())
      ensures outbox == old(outbox)
                + if connected then [GenerateRequest(id, prompt, seed, BoundsForArea(areaMeters))] else []
      ensures parsedInbound == old(parsedInbound)
    {
      StepInv(Contents(), Start(suffix, connected, man));
      if !connected {
        return "";
      }
      activeGenerationId := Mint(suffix);
      queue.BeginGeneration(activeGenerationId, man);
      outbox := outbox + [GenerateRequest(activeGenerationId, prompt, seed, BoundsForArea(areaMeters))];
      id := activeGenerationId;
    }

    method CancelActiveGeneration(connected: bool)
      requires Valid()
      modifies this, queue
      ensures Valid() && Contents() == Step(old(Contents()), Cancel)
      ensures if old(activeGenerationId) != "" then Aborted(old(Contents()), Contents()) else Contents() == old(Contents())
      ensures outbox == old(outbox)
                + if connected && old(activeGenerationId) != "" then [CancelRequest(old(activeGenerationId))] else []
      ensures parsedInbound == old(parsedInbound)
    {
      StepInv(Contents(), Cancel);
      if activeGenerationId == "" {
        return;
      }
      CloseAborts(Contents());
      if connected {
        outbox := outbox + [CancelRequest(activeGenerationId)];
      }
      queue.EndGeneration(true);
      activeGenerationId := "";
    }

    method HandleChunk(id: string, assets: seq<AssetEntry>)
      requires Valid() && id != ""
      modifies this, queue
      ensures Valid() && Contents() == OnMessage(old(Contents()), Chunk(id, assets))
      ensures queue.accepted == old(queue.accepted) + if id == activeGenerationId then assets else []
      ensures activeGenerationId == old(activeGenerationId)
      ensures id != activeGenerationId ==> queue.Contents() == old(queue.Contents())
      ensures parsedInbound == old(parsedInbound) && outbox == old(outbox)
    {
      MessageInv(Contents(), Chunk(id, assets));
      SpawnerProperties.EnqueueInv(queue.Contents(), assets);
      chunkLog := chunkLog + Tagged(id, assets);
      if id == activeGenerationId {
        queue.EnqueueEntries(assets);
      }
    }

    method HandleComplete(id: string, assetCount: int)
      requires Valid() && id != ""
      modifies this, queue
      ensures Valid() && Contents() == OnMessage(old(Contents()), Complete(id, assetCount))
      ensures if id == old(activeGenerationId) then Completed(old(Contents()), Contents()) else Contents() == old(Contents())
      ensures parsedInbound == old(parsedInbound) && outbox == old(outbox)
    {
      MessageInv(Contents(), Complete(id, assetCount));
      if id == activeGenerationId {
        CloseCompletes(Contents());
        queue.EndGeneration(false);
        activeGenerationId := "";
      }
    }

    method HandleServerError(id: string, code: ErrorCode)
      requires Valid()
      modifies this, queue
      ensures Valid() && Contents() == OnMessage(old(Contents()), Error(id, code))
      ensures if id != "" && id == old(activeGenerationId) then Aborted(old(Contents()), Contents())
              else Contents() == old(Contents())
      ensures parsedInbound == old(parsedInbound) && outbox == old(outbox)
    {
      MessageInv(Contents(), Error(id, code));
      if activeGenerationId != "" && id == activeGenerationId {
        CloseAborts(Contents());
        queue.EndGeneration(true);
        activeGenerationId := "";
      }
    }

    method HandleClosed()
      requires Valid()
      modifies this, queue
      ensures Valid() && Contents() == Step(old(Contents()), SocketClosed)
      ensures if old(activeGenerationId) != "" then Aborted(old(Contents()), Contents()) else Contents() == old(Contents())
      ensures parsedInbound == old(parsedInbound) && outbox == old(outbox)
    {
      StepInv(Contents(), SocketClosed);
      if activeGenerationId != "" {
        CloseAborts(Contents());
        queue.EndGeneration(true);
        activeGenerationId := "";
      }
    }

    /** Routes one parsed message to its handler. */
    method Broadcast(m: Message)
      requires Valid()
      modifies this, queue
      ensures Valid() && Contents() == OnMessage(old(Contents()), m)
      ensures parsedInbound == old(parsedInbound) && outbox == old(outbox)
    {
      if !Parsed(m) {
        return;
      }
      match m {
        case Plan(_, _, _, _) =>
        case Chunk(id, assets) => HandleChunk(id, assets);
        case Complete(id, n) => HandleComplete(id, n);
        case Error(id, code) => HandleServerError(id, code);
      }
    }

    /** Dispatches every parsed message, in order. */
    method DispatchTick()
      requires Valid()
      modifies this, queue
      ensures Valid() && parsedInbound == [] && outbox == old(outbox)
      ensures Contents() == Run(old(Contents()), DeliverAll(old(parsedInbound)))
    {
      ghost var was := parsedInbound;
      ghost var i := 0;
      while parsedInbound != []
        invariant Valid() && 0 <= i <= |was| && parsedInbound == was[i..] && outbox == old(outbox)
        invariant Run(old(Contents()), DeliverAll(was)) == Run(Contents(), DeliverAll(parsedInbound))
        decreases |parsedInbound|
      {
        var m := parsedInbound[0];
        assert DeliverAll(parsedInbound)[1..] == DeliverAll(parsedInbound[1..]);
        parsedInbound := parsedInbound[1..];
        Broadcast(m);
        i := i + 1;
      }
    }
  }

  function DeliverAll(msgs: seq<Message>): seq<Event> {
    Map((m: Message) => Deliver(m), msgs)
  }
}

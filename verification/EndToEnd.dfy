/** One generation from the server's run to the spawner's final statistics. */
module EndToEnd {
  import opened Seqs
  import opened Wire
  import opened Streaming
  import Lifecycle
  import LifecycleInvariants
  import LifecycleFrames
  import LifecycleProperties
  import PlacementProperties
  import ParsePipeline
  import Spawner
  import SpawnerProperties
  import EditorModule

  function HasId(id: string): Message -> bool {
    (m: Message) => m.id == id
  }

  // ---- the wire, seen through one id ----

  /** Every message of a generation carries that generation's id. */
  lemma TraceIds(c: Lifecycle.Config, acts: seq<Lifecycle.Action>, g: nat, m: Message)
    requires var s := LifecycleFrames.After(c, acts); g < |s.gens| && m in s.gens[g].trace
    ensures m.id == LifecycleFrames.After(c, acts).gens[g].req.id
  {
    LifecycleProperties.TraceShape(c, acts, g);
    var gen := LifecycleFrames.After(c, acts).gens[g];
    var i :| 0 <= i < |gen.trace| && gen.trace[i] == m;
    if gen.job.Some? {
      ScriptShape(gen.req.id, gen.job.value, c.chunkSize);
      assert gen.trace[i] == Lifecycle.ScriptOf(c, gen)[i];
    }
  }

  /** The client never reuses an id. */
  ghost predicate DistinctIds(s: Lifecycle.State) {
    && (forall g, h | 0 <= g < h < |s.gens| :: s.gens[g].req.id != s.gens[h].req.id)
    && (forall g | 0 <= g < |s.gens| :: s.gens[g].req.id != "")
  }

  function Messages(s: Lifecycle.State): seq<Message> {
    Map(LifecycleInvariants.Payload, s.wire)
  }

  lemma {:induction false} FilterAgrees(w: seq<Lifecycle.Sent>, g: nat, id: string)
    requires forall i | 0 <= i < |w| :: w[i].from == Some(g) <==> w[i].msg.id == id
    ensures Filter(Map(LifecycleInvariants.Payload, w), HasId(id))
         == Map(LifecycleInvariants.Payload, Filter(w, LifecycleInvariants.From(g)))
  {
    if w != [] {
      var rest := w[1..];
      assert Map(LifecycleInvariants.Payload, w)[1..] == Map(LifecycleInvariants.Payload, rest);
      FilterAgrees(rest, g, id);
    }
  }

  /** A message on the wire carries the id of the generation it came from, and the handler's own carry none. */
  lemma WireIds(c: Lifecycle.Config, acts: seq<Lifecycle.Action>, i: nat)
    requires i < |LifecycleFrames.After(c, acts).wire|
    ensures var s := LifecycleFrames.After(c, acts);
            match s.wire[i].from
            case Some(h) => h < |s.gens| && s.wire[i].msg.id == s.gens[h].req.id
            case None => s.wire[i].msg.id == ""
  {
    var s := LifecycleFrames.After(c, acts);
    LifecycleFrames.Reached(c, acts);
    if s.wire[i].from.Some? {
      var h := s.wire[i].from.value;
      FilterMember(s.wire, LifecycleInvariants.From(h), s.wire[i]);
      LifecycleProperties.WireHoldsTraces(c, acts, h);
      var mine := Filter(s.wire, LifecycleInvariants.From(h));
      var k :| 0 <= k < |mine| && mine[k] == s.wire[i];
      assert LifecycleInvariants.OnWire(s, h)[k] == s.wire[i].msg;
      TraceIds(c, acts, h, s.wire[i].msg);
    }
  }

  /** With distinct ids, the wire filtered by an id is the trace of the generation with that id. */
  lemma WireById(c: Lifecycle.Config, acts: seq<Lifecycle.Action>, g: nat)
    requires var s := LifecycleFrames.After(c, acts); DistinctIds(s) && g < |s.gens|
    ensures var s := LifecycleFrames.After(c, acts);
            Filter(Messages(s), HasId(s.gens[g].req.id)) == s.gens[g].trace
  {
    var s := LifecycleFrames.After(c, acts);
    forall i | 0 <= i < |s.wire| ensures s.wire[i].from == Some(g) <==> s.wire[i].msg.id == s.gens[g].req.id {
      WireIds(c, acts, i);
    }
    FilterAgrees(s.wire, g, s.gens[g].req.id);
    LifecycleProperties.WireHoldsTraces(c, acts, g);
  }

  // ---- the module, seen through one id ----

  function Delivered(e: EditorModule.Event): seq<Message> {
    if e.Deliver? then [e.msg] else []
  }

  function Deliveries(events: seq<EditorModule.Event>): seq<Message> {
    if events == [] then [] else Delivered(events[0]) + Deliveries(events[1..])
  }

  lemma {:induction false} DeliveriesAppend(a: seq<EditorModule.Event>, b: seq<EditorModule.Event>)
    ensures Deliveries(a + b) == Deliveries(a) + Deliveries(b)
  {
    if a == [] {
      assert a + b == b;
    } else {
      assert (a + b)[1..] == a[1..] + b;
      DeliveriesAppend(a[1..], b);
      assert Deliveries(a + b) == Delivered(a[0]) + Deliveries(a[1..] + b);
    }
  }

  lemma DeliveriesPush(a: seq<EditorModule.Event>, e: EditorModule.Event)
    ensures Deliveries(a + [e]) == Deliveries(a) + Delivered(e)
  {
    DeliveriesAppend(a, [e]);
    assert Deliveries([e]) == Delivered(e) + Deliveries([]);
  }

  /** The entries that chunks with the id brought. */
  function Brought(msgs: seq<Message>, id: string): seq<AssetEntry> {
    Carried(Filter(msgs, HasId(id)))
  }

  /** While the id stays active, a step accepts exactly what it delivers for the id. */
  lemma StepAccepts(s: EditorModule.State, e: EditorModule.Event, id: string)
    requires EditorModule.Inv(s) && id != "" && s.activeId == id && EditorModule.Step(s, e).activeId == id
    requires !(e.Start? && EditorModule.Mint(e.suffix) == id)
    ensures EditorModule.Step(s, e).spawner.accepted == s.spawner.accepted + Brought(Deliveries([e]), id)
  {
    var t := EditorModule.Step(s, e);
    assert Deliveries([e]) == if e.Deliver? then [e.msg] else [];
    match e
    case Deliver(m) =>
      FilterPush([], m, HasId(id));
      assert [] + [m] == [m];
      assert Carried([m]) == if m.Chunk? then m.assets else [];
      if m.Chunk? && m.id == id {
        SpawnerProperties.EnqueueInv(s.spawner, m.assets);
      }
    case Tick(world, answers) => SpawnerProperties.TickInv(s.spawner, world, answers);
    case AssetLoaded(c, ok) => SpawnerProperties.LoadedInv(s.spawner, c, ok);
    case _ =>
  }

  lemma {:induction false} NeverReturns(s: EditorModule.State, events: seq<EditorModule.Event>, id: string)
    requires id != "" && s.activeId != id && EditorModule.NeverStarted(events, id)
    ensures EditorModule.Run(s, events).activeId != id
    decreases |events|
  {
    if events != [] {
      assert events[0] in events;
      assert EditorModule.Step(s, events[0]).activeId != id;
      NeverReturns(EditorModule.Step(s, events[0]), events[1..], id);
    }
  }

  lemma BroughtSplits(e: EditorModule.Event, rest: seq<EditorModule.Event>, id: string)
    ensures Brought(Deliveries([e] + rest), id) == Brought(Deliveries([e]), id) + Brought(Deliveries(rest), id)
  {
    DeliveriesAppend([e], rest);
    FilterAppend(Deliveries([e]), Deliveries(rest), HasId(id));
    CarriedAppend(Filter(Deliveries([e]), HasId(id)), Filter(Deliveries(rest), HasId(id)));
  }

  /** One step, then a run, both accepting what they bring. */
  lemma AcceptedJoins(s: seq<AssetEntry>, t: seq<AssetEntry>, u: seq<AssetEntry>,
                      e: EditorModule.Event, rest: seq<EditorModule.Event>, id: string)
    requires t == s + Brought(Deliveries([e]), id) && u == t + Brought(Deliveries(rest), id)
    ensures u == s + Brought(Deliveries([e] + rest), id)
  {
    BroughtSplits(e, rest, id);
    Associate(s, Brought(Deliveries([e]), id), Brought(Deliveries(rest), id));
  }

  lemma {:induction false} AcceptsWhatIsBrought(s: EditorModule.State, events: seq<EditorModule.Event>, id: string)
    requires EditorModule.Inv(s) && id != "" && s.activeId == id
    requires EditorModule.NeverStarted(events, id) && EditorModule.Run(s, events).activeId == id
    ensures EditorModule.Run(s, events).spawner.accepted == s.spawner.accepted + Brought(Deliveries(events), id)
    decreases |events|
  {
    if events == [] {
      assert Brought(Deliveries(events), id) == [];
    } else {
      var e, rest := events[0], events[1..];
      var t := EditorModule.Step(s, e);
      assert e in events;
      EditorModule.StepInv(s, e);
      if t.activeId != id {
        NeverReturns(t, rest, id);
      }
      StepAccepts(s, e, id);
      AcceptsWhatIsBrought(t, rest, id);
      AcceptedJoins(s.spawner.accepted, t.spawner.accepted, EditorModule.Run(t, rest).spawner.accepted, e, rest, id);
      assert [e] + rest == events;
    }
  }

  /** The generation that completed with n accepted entries is still draining, or was finalized with all n accounted for. */
  ghost predicate Settled(s: EditorModule.State, id: string, n: nat, from: nat) {
    && from <= |s.spawner.finals|
    && (|| (s.spawner.active && s.spawner.id == id && s.activeId != id && |s.spawner.accepted| == n)
        || exists i :: from <= i < |s.spawner.finals| && IsFinal(s.spawner.finals[i], id, n))
  }

  predicate IsFinal(f: Spawner.Final, id: string, n: nat) {
    f.id == id && f.spawned + f.skipped == n
  }

  /** One step of a spawner that is still draining the generation keeps its account, or closes it. */
  lemma DrainingStep(s: EditorModule.State, e: EditorModule.Event, id: string)
    requires EditorModule.Inv(s) && id != "" && s.spawner.active && s.spawner.id == id && s.activeId != id
    requires !(e.Start? && EditorModule.Mint(e.suffix) == id)
    ensures Settled(EditorModule.Step(s, e), id, |s.spawner.accepted|, |s.spawner.finals|)
  {
    var t := EditorModule.Step(s, e);
    var n, k := |s.spawner.accepted|, |s.spawner.finals|;
    assert s.activeId == "";
    match e
    case Start(suffix, connected, man) =>
      if connected {
        SpawnerProperties.BeginInv(s.spawner, EditorModule.Mint(suffix), man);
        assert IsFinal(t.spawner.finals[k], id, n);
      }
    case Tick(world, answers) =>
      SpawnerProperties.TickInv(s.spawner, world, answers);
      if !t.spawner.active {
        assert IsFinal(t.spawner.finals[k], id, n);
      }
    case AssetLoaded(c, ok) => SpawnerProperties.LoadedInv(s.spawner, c, ok);
    case _ =>
  }

  lemma {:induction false} StaysSettled(s: EditorModule.State, events: seq<EditorModule.Event>, id: string, n: nat, from: nat)
    requires EditorModule.Inv(s) && id != "" && Settled(s, id, n, from) && EditorModule.NeverStarted(events, id)
    ensures Settled(EditorModule.Run(s, events), id, n, from)
    decreases |events|
  {
    if events != [] {
      var t := EditorModule.Step(s, events[0]);
      assert events[0] in events;
      EditorModule.StepInv(s, events[0]);
      EditorModule.FinalsGrow(s, events[0]);
      if s.spawner.active && s.spawner.id == id && s.activeId != id && |s.spawner.accepted| == n {
        DrainingStep(s, events[0], id);
      } else {
        var i :| from <= i < |s.spawner.finals| && IsFinal(s.spawner.finals[i], id, n);
        assert t.spawner.finals[i] == s.spawner.finals[i];
      }
      StaysSettled(t, events[1..], id, n, from);
    }
  }

  /** A complete for the active id settles the generation's account at what it has accepted. */
  lemma CompleteSettles(s: EditorModule.State, id: string, assetCount: int)
    requires EditorModule.Inv(s) && id != "" && s.activeId == id
    ensures Settled(EditorModule.Step(s, EditorModule.Deliver(Complete(id, assetCount))), id,
                    |s.spawner.accepted|, |s.spawner.finals|)
  {
    var t := EditorModule.Step(s, EditorModule.Deliver(Complete(id, assetCount)));
    SpawnerProperties.EndCompleteInv(s.spawner);
    if !t.spawner.active {
      assert IsFinal(t.spawner.finals[|s.spawner.finals|], id, |s.spawner.accepted|);
    }
  }

  // ---- the two ends together ----

  /** What parsing must keep of a message: its id and kind, and a chunk's entries. A plan's numbers may be rounded. */
  predicate Keeps(m: Message, seen: Message) {
    && seen.id == m.id
    && (seen.Complete? <==> m.Complete?)
    && (seen.Chunk? <==> m.Chunk?)
    && (m.Chunk? ==> seen.assets == m.assets)
  }

  /** The parser drops a chunk that holds an entry without a category. */
  predicate Readable(m: Message) {
    m.Chunk? ==> forall e | e in m.assets :: e.category != ""
  }

  /** A message as the client sees it. */
  function Seen<F>(encode: Message -> F, parse: F -> Message): Message -> Message {
    (m: Message) => parse(encode(m))
  }

  lemma {:induction false} CarriedHas(trace: seq<Message>, m: Message, e: AssetEntry)
    requires m in trace && m.Chunk? && e in m.assets
    ensures e in Carried(trace)
  {
    if m != trace[0] {
      CarriedHas(trace[1..], m, e);
    }
  }

  /** The entries of a generation's job are of the manifest's categories. */
  lemma JobCategories(c: Lifecycle.Config, acts: seq<Lifecycle.Action>, g: nat, e: AssetEntry)
    requires var s := LifecycleFrames.After(c, acts);
             g < |s.gens| && s.gens[g].job.Some? && e in s.gens[g].job.value.entries
    ensures e.category in LifecycleFrames.After(c, acts).man
  {
    LifecycleFrames.Reached(c, acts);
    var s := LifecycleFrames.After(c, acts);
    var gen := s.gens[g];
    assert LifecycleInvariants.GenInv(c, s.man, s.parentDone, gen);
    PlacementProperties.PlacedIsSound(gen.job.value.items, c.streamOf(gen.job.value.seed), gen.req.bounds, s.man);
  }

  lemma TraceReadable(c: Lifecycle.Config, acts: seq<Lifecycle.Action>, g: nat, m: Message)
    requires var s := LifecycleFrames.After(c, acts); g < |s.gens| && m in s.gens[g].trace && "" !in s.man
    ensures Readable(m)
  {
    var s := LifecycleFrames.After(c, acts);
    LifecycleProperties.TraceShape(c, acts, g);
    if m.Chunk? {
      forall e | e in m.assets ensures e.category != "" {
        CarriedHas(s.gens[g].trace, m, e);
        JobCategories(c, acts, g, e);
      }
    }
  }

  /** Unless the manifest has an empty key, the parser drops nothing that the server sends. */
  lemma WireReadable(c: Lifecycle.Config, acts: seq<Lifecycle.Action>, m: Message)
    requires var s := LifecycleFrames.After(c, acts); m in Messages(s) && "" !in s.man
    ensures Readable(m)
  {
    var s := LifecycleFrames.After(c, acts);
    LifecycleFrames.Reached(c, acts);
    var i :| 0 <= i < |s.wire| && s.wire[i].msg == m;
    if s.wire[i].from.Some? {
      var h := s.wire[i].from.value;
      FilterMember(s.wire, LifecycleInvariants.From(h), s.wire[i]);
      LifecycleProperties.WireHoldsTraces(c, acts, h);
      var mine := Filter(s.wire, LifecycleInvariants.From(h));
      var k :| 0 <= k < |mine| && mine[k] == s.wire[i];
      assert LifecycleInvariants.OnWire(s, h)[k] == m;
      TraceReadable(c, acts, h, m);
    }
  }

  lemma {:induction false} CarriedKept(trace: seq<Message>, see: Message -> Message)
    requires forall m | m in trace :: Keeps(m, see(m))
    ensures Carried(Map(see, trace)) == Carried(trace)
  {
    if trace != [] {
      assert Map(see, trace)[1..] == Map(see, trace[1..]);
      assert trace[0] in trace;
      CarriedKept(trace[1..], see);
    }
  }

  /** A trace seen to start with msgs and a complete is the whole script, and msgs brought every placed entry. */
  lemma CompleteMeansAll(c: Lifecycle.Config, acts: seq<Lifecycle.Action>, g: nat, see: Message -> Message,
                         msgs: seq<Message>, assetCount: int)
    requires g < |LifecycleFrames.After(c, acts).gens|
    requires var gen := LifecycleFrames.After(c, acts).gens[g];
             && (forall m | m in gen.trace :: Keeps(m, see(m)))
             && msgs + [Complete(gen.req.id, assetCount)] <= Map(see, gen.trace)
    ensures var gen := LifecycleFrames.After(c, acts).gens[g];
            && gen.job.Some?
            && gen.trace == Lifecycle.ScriptOf(c, gen)
            && gen.trace[0] == PlanOf(gen.req.id, gen.job.value)
            && Carried(msgs) == gen.job.value.entries
  {
    LifecycleProperties.TraceShape(c, acts, g);
    var gen := LifecycleFrames.After(c, acts).gens[g];
    var n := |msgs|;
    SeenComplete(gen.trace, see, msgs, Complete(gen.req.id, assetCount));
    var done := gen.trace[n];
    var all := Lifecycle.ScriptOf(c, gen);
    ScriptShape(gen.req.id, gen.job.value, c.chunkSize);
    assert all[n] == done;
    assert gen.trace == all == gen.trace[..n] + [done];
    CarriedAppend(gen.trace[..n], [done]);
    assert Carried([done]) == [];
    CarriedKept(gen.trace[..n], see);
  }

  lemma SeenComplete(trace: seq<Message>, see: Message -> Message, msgs: seq<Message>, done: Message)
    requires (forall m | m in trace :: Keeps(m, see(m))) && done.Complete?
    requires msgs + [done] <= Map(see, trace)
    ensures |msgs| < |trace| && trace[|msgs|].Complete? && msgs == Map(see, trace[..|msgs|])
  {
    var n := |msgs|;
    assert Map(see, trace)[n] == see(trace[n]) == done;
    assert trace[n] in trace;
    forall i | 0 <= i < n ensures msgs[i] == see(trace[i]) {
      assert (msgs + [done])[i] == Map(see, trace)[i];
    }
  }

  /**
   What was dispatched, over the client's whole life: frames of earlier connections, then what this server
   put on the wire, as parsing shows it and as far as it got, then frames of later connections, each in
   order, cut off somewhere.
   */
  lemma DispatchedInOrder<F>(sent: seq<Message>, encode: Message -> F, parse: F -> Message,
                             acts: seq<ParsePipeline.Action<F>>, earlier: seq<F>, mine: seq<F>, later: seq<F>)
    requires ParsePipeline.After<F, Message>(parse, acts).received == earlier + mine + later
    requires mine <= Map(encode, sent)
    ensures ParsePipeline.After<F, Message>(parse, acts).dispatched
         <= Map(parse, earlier) + Map(Seen(encode, parse), sent)[..|mine|] + Map(parse, later)
  {
    ParsePipeline.DeliveryInOrder<F, Message>(parse, acts);
    MapAppend(parse, earlier + mine, later);
    MapAppend(parse, earlier, mine);
    var parsed, seen := Map(parse, mine), Map(Seen(encode, parse), sent);
    forall i | 0 <= i < |parsed| ensures parsed[i] == seen[i] {
      assert mine[i] == encode(sent[i]);
    }
    assert parsed == seen[..|mine|];
  }

  lemma NoneWithId<F>(frames: seq<F>, parse: F -> Message, id: string)
    requires forall f | f in frames :: parse(f).id != id
    ensures Filter(Map(parse, frames), HasId(id)) == []
  {
    FilterNone(Map(parse, frames), HasId(id));
  }

  lemma {:induction false} FilterSeen(sent: seq<Message>, see: Message -> Message, id: string)
    requires forall m | m in sent :: see(m).id == m.id
    ensures Filter(Map(see, sent), HasId(id)) == Map(see, Filter(sent, HasId(id)))
  {
    if sent != [] {
      assert sent[0] in sent;
      assert Map(see, sent)[1..] == Map(see, sent[1..]);
      FilterSeen(sent[1..], see, id);
    }
  }

  /** Of the messages with an id that only this connection carries, the client dispatches a prefix of those on the wire. */
  lemma DispatchedForId<F>(sent: seq<Message>, encode: Message -> F, parse: F -> Message,
                           acts: seq<ParsePipeline.Action<F>>, earlier: seq<F>, mine: seq<F>, later: seq<F>, id: string)
    requires forall m | m in sent :: parse(encode(m)).id == m.id
    requires ParsePipeline.After<F, Message>(parse, acts).received == earlier + mine + later
    requires mine <= Map(encode, sent)
    requires forall f | f in earlier || f in later :: parse(f).id != id
    ensures Filter(ParsePipeline.After<F, Message>(parse, acts).dispatched, HasId(id))
         <= Map(Seen(encode, parse), Filter(sent, HasId(id)))
  {
    DispatchedInOrder(sent, encode, parse, acts, earlier, mine, later);
    var seen := Map(Seen(encode, parse), sent);
    var a, b, d := Map(parse, earlier), seen[..|mine|], Map(parse, later);
    FilterPrefix(ParsePipeline.After<F, Message>(parse, acts).dispatched, a + b + d, HasId(id));
    FilterAppend(a + b, d, HasId(id));
    FilterAppend(a, b, HasId(id));
    NoneWithId(earlier, parse, id);
    NoneWithId(later, parse, id);
    assert [] + Filter(b, HasId(id)) + [] == Filter(b, HasId(id));
    FilterPrefix(b, seen, HasId(id));
    FilterSeen(sent, Seen(encode, parse), id);
  }

  /** The editor's events up to the moment just before the complete is dispatched. */
  function UpToComplete(before: seq<EditorModule.Event>, start: EditorModule.Event, mid: seq<EditorModule.Event>):
    seq<EditorModule.Event>
  {
    before + [start] + mid
  }

  lemma DeliveriesUpTo(before: seq<EditorModule.Event>, start: EditorModule.Event, mid: seq<EditorModule.Event>,
                       done: EditorModule.Event)
    requires start.Start? && done.Deliver?
    ensures Deliveries(UpToComplete(before, start, mid) + [done]) == Deliveries(before) + Deliveries(mid) + [done.msg]
  {
    DeliveriesPush(before, start);
    DeliveriesAppend(before + [start], mid);
    DeliveriesPush(UpToComplete(before, start, mid), done);
  }

  lemma DeliveredForId(before: seq<EditorModule.Event>, start: EditorModule.Event, mid: seq<EditorModule.Event>,
                       done: EditorModule.Event, rest: seq<EditorModule.Event>, id: string)
    requires start.Start? && done.Deliver? && done.msg.id == id
    requires Filter(Deliveries(before), HasId(id)) == []
    ensures Filter(Deliveries(mid), HasId(id)) + [done.msg]
         <= Filter(Deliveries(UpToComplete(before, start, mid) + [done] + rest), HasId(id))
  {
    var upTo := UpToComplete(before, start, mid);
    DeliveriesAppend(upTo + [done], rest);
    DeliveriesUpTo(before, start, mid, done);
    FilterAppend(Deliveries(before), Deliveries(mid), HasId(id));
    FilterPush(Deliveries(before) + Deliveries(mid), done.msg, HasId(id));
    FilterAppend(Deliveries(upTo + [done]), Deliveries(rest), HasId(id));
  }

  lemma StartOpens(s: EditorModule.State, start: EditorModule.Event)
    requires start.Start? && start.connected
    ensures var t := EditorModule.Step(s, start);
            t.activeId == EditorModule.Mint(start.suffix) && t.spawner.accepted == []
  {
  }

  lemma AfterStart(before: seq<EditorModule.Event>, start: EditorModule.Event)
    requires start.Start? && start.connected
    ensures var s := EditorModule.Run(EditorModule.Init(), before + [start]);
            EditorModule.Inv(s) && s.activeId == EditorModule.Mint(start.suffix) && s.spawner.accepted == []
  {
    EditorModule.Reached(before + [start]);
    EditorModule.RunPush(EditorModule.Init(), before, start);
    StartOpens(EditorModule.Run(EditorModule.Init(), before), start);
  }

  lemma AcceptedAtComplete(before: seq<EditorModule.Event>, start: EditorModule.Event, mid: seq<EditorModule.Event>, id: string)
    requires start.Start? && start.connected && EditorModule.Mint(start.suffix) == id && EditorModule.NeverStarted(mid, id)
    requires EditorModule.Run(EditorModule.Init(), UpToComplete(before, start, mid)).activeId == id
    ensures var s := EditorModule.Run(EditorModule.Init(), UpToComplete(before, start, mid));
            EditorModule.Inv(s) && s.spawner.accepted == Brought(Deliveries(mid), id)
  {
    var s1 := EditorModule.Run(EditorModule.Init(), before + [start]);
    AfterStart(before, start);
    EditorModule.RunAppend(EditorModule.Init(), before + [start], mid);
    AcceptsWhatIsBrought(s1, mid, id);
    EditorModule.Reached(UpToComplete(before, start, mid));
  }

  /**
   End to end. A generation is started in the editor under a fresh id; the server runs it among others on
   one of the client's connections; its messages go over the wire, through the parse workers and the
   dispatch queue, to the module. Parsing may round a plan's numbers, and the manifest has no empty key.
   If its complete is dispatched while its id is still active, then by that moment the spawner has accepted
   exactly the placed entries, in order; and, whatever happens afterwards, the generation is still draining
   all of its plan's assets, or it was finalized, once complete had come, with exactly
   spawned + skipped == plan.total_assets, even if a later generate discarded what was still draining.
   */
  lemma CompletedGenerationIsAccountedFor<F>(
      c: Lifecycle.Config, acts: seq<Lifecycle.Action>, g: nat,
      encode: Message -> F, parse: F -> Message, frames: seq<ParsePipeline.Action<F>>,
      earlier: seq<F>, mine: seq<F>, later: seq<F>,
      before: seq<EditorModule.Event>, start: EditorModule.Event, mid: seq<EditorModule.Event>,
      assetCount: int, rest: seq<EditorModule.Event>)
    requires var s := LifecycleFrames.After(c, acts);
             && DistinctIds(s) && g < |s.gens|
             && "" !in s.man && (forall m | m in Messages(s) && Readable(m) :: Keeps(m, parse(encode(m))))
             && ParsePipeline.After<F, Message>(parse, frames).received == earlier + mine + later
             && mine <= Map(encode, Messages(s))
             && (forall f | f in earlier || f in later :: parse(f).id != s.gens[g].req.id)
    requires var id := LifecycleFrames.After(c, acts).gens[g].req.id;
             && start.Start? && start.connected && EditorModule.Mint(start.suffix) == id
             && EditorModule.NeverStarted(mid, id) && EditorModule.NeverStarted(rest, id)
             && Filter(Deliveries(before), HasId(id)) == []
             && EditorModule.Run(EditorModule.Init(), UpToComplete(before, start, mid)).activeId == id
             && Deliveries(UpToComplete(before, start, mid) + [EditorModule.Deliver(Complete(id, assetCount))] + rest)
                == ParsePipeline.After<F, Message>(parse, frames).dispatched
    ensures var gen := LifecycleFrames.After(c, acts).gens[g];
            var upTo := UpToComplete(before, start, mid);
            var done := EditorModule.Deliver(Complete(gen.req.id, assetCount));
            && gen.trace != [] && gen.trace[0].Plan?
            && gen.job.Some? && EditorModule.Run(EditorModule.Init(), upTo).spawner.accepted == gen.job.value.entries
            && Settled(EditorModule.Run(EditorModule.Init(), upTo + [done] + rest), gen.req.id,
                       gen.trace[0].totalAssets, |EditorModule.Run(EditorModule.Init(), upTo).spawner.finals|)
  {
    var s := LifecycleFrames.After(c, acts);
    var gen := s.gens[g];
    var id := gen.req.id;
    var upTo := UpToComplete(before, start, mid);
    var done := EditorModule.Deliver(Complete(id, assetCount));
    var forId := Filter(Deliveries(mid), HasId(id));

    var see := Seen(encode, parse);
    forall m | m in Messages(s) ensures Keeps(m, see(m)) {
      WireReadable(c, acts, m);
    }
    DispatchedForId(Messages(s), encode, parse, frames, earlier, mine, later, id);
    WireById(c, acts, g);
    forall m | m in gen.trace ensures Keeps(m, see(m)) {
      FilterMember(Messages(s), HasId(id), m);
    }
    DeliveredForId(before, start, mid, done, rest, id);
    CompleteMeansAll(c, acts, g, see, forId, assetCount);

    AcceptedAtComplete(before, start, mid, id);
    var atComplete := EditorModule.Run(EditorModule.Init(), upTo);
    CompleteSettles(atComplete, id, assetCount);
    EditorModule.StepInv(atComplete, done);
    StaysSettled(EditorModule.Step(atComplete, done), rest, id, |atComplete.spawner.accepted|, |atComplete.spawner.finals|);
    EditorModule.RunAppend(EditorModule.Init(), upTo + [done], rest);
    EditorModule.RunPush(EditorModule.Init(), upTo, done);
  }
}

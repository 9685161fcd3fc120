/**
 The whole system as one step system: the editor with its parse pipeline, and, one after the other, the
 connections it opens, each with a server of its own. Requests and messages travel in order; a new
 connection can be opened at any time, while old servers still run and old frames are still queued.
 */
module Joint {
  import opened Seqs
  import opened Wire
  import Lifecycle
  import LifecycleInvariants
  import LifecycleFrames
  import LifecycleProperties
  import ParsePipeline
  import EditorModule
  import EndToEnd

  /** What stays fixed: the servers' configuration, and how messages are written and read. */
  datatype Setup<!F> = Setup(config: Lifecycle.Config, encode: Message -> F, parse: F -> Message)

  /**
   One connection: its server's history, the ids asked for over it, how many of these requests the server
   has read, and how many frames the client has received.
   */
  datatype Conn = Conn(server: seq<Lifecycle.Action>, asked: seq<string>, taken: nat, arrived: nat)

  /** The connections, oldest first, and the histories of the client's pipeline and of the editor. */
  datatype World<F> = World(conns: seq<Conn>, frames: seq<ParsePipeline.Action<F>>, events: seq<EditorModule.Event>)

  datatype Action<F> =
    | Connect                            // a new connection replaces the current one
    | Server(k: nat, a: Lifecycle.Action)
    | Arrive                             // the next message of the current connection arrives
    | Pipe(b: ParsePipeline.Action<F>)   // a worker's step, a kick, the start of a tick, a stale frame
    | DispatchNext                       // one round of the dispatch loop
    | Edit(e: EditorModule.Event)        // the user, the socket, the spawner's tick or a load

  function ServerOf<F>(x: Setup<F>, conn: Conn): Lifecycle.State {
    LifecycleFrames.After(x.config, conn.server)
  }

  function OnWire<F>(x: Setup<F>, conn: Conn): seq<Message> {
    EndToEnd.Messages(ServerOf(x, conn))
  }

  function PipeOf<F>(x: Setup<F>, w: World<F>): ParsePipeline.State<F, Message> {
    ParsePipeline.After(x.parse, w.frames)
  }

  ghost function EditorOf<F>(w: World<F>): EditorModule.State {
    EditorModule.Run(EditorModule.Init(), w.events)
  }

  function Init<F>(): World<F> {
    World([], [], [])
  }

  /** The server reads a generate request only if it is the next one that was sent. */
  function ServerStep<F>(x: Setup<F>, conn: Conn, a: Lifecycle.Action): Conn {
    if !a.ReadGenerate? then conn.(server := conn.server + [a])
    else if ServerOf(x, conn).handler.Reading? && conn.taken < |conn.asked| && conn.asked[conn.taken] == a.req.id
    then conn.(server := conn.server + [a], taken := conn.taken + 1)
    else conn
  }

  function ArriveStep<F>(x: Setup<F>, w: World<F>): World<F> {
    if w.conns == [] || !PipeOf(x, w).game.Idle? then w
    else
      var k := |w.conns| - 1;
      var conn := w.conns[k];
      if conn.arrived >= |OnWire(x, conn)| then w
      else
        w.(frames := w.frames + [ParsePipeline.Frame(true, x.encode(OnWire(x, conn)[conn.arrived]))],
           conns := w.conns[k := conn.(arrived := conn.arrived + 1)])
  }

  function DispatchStep<F>(x: Setup<F>, w: World<F>): World<F> {
    var p := PipeOf(x, w);
    w.(frames := w.frames + [ParsePipeline.Dispatch],
       events := if p.game.Dispatching? && p.parsed != [] then w.events + [EditorModule.Deliver(p.parsed[0])] else w.events)
  }

  /** A generation starts under an id never used before, and its request goes out over the current connection. */
  ghost function EditStep<F>(w: World<F>, e: EditorModule.Event): World<F> {
    if e.Deliver? then w
    else if !e.Start? then w.(events := w.events + [e])
    else if !EditorModule.NeverStarted(w.events, EditorModule.Mint(e.suffix)) then w
    else if !e.connected then w.(events := w.events + [e])
    else if w.conns == [] then w
    else
      var k := |w.conns| - 1;
      w.(events := w.events + [e],
         conns := w.conns[k := w.conns[k].(asked := w.conns[k].asked + [EditorModule.Mint(e.suffix)])])
  }

  ghost function Step<F>(x: Setup<F>, w: World<F>, a: Action<F>): World<F> {
    match a
    case Connect => w.(conns := w.conns + [Conn([], [], 0, 0)])
    case Server(k, b) => if k < |w.conns| then w.(conns := w.conns[k := ServerStep(x, w.conns[k], b)]) else w
    case Arrive => ArriveStep(x, w)
    case Pipe(b) => if (b.Frame? && b.current) || b.Dispatch? then w else w.(frames := w.frames + [b])
    case DispatchNext => DispatchStep(x, w)
    case Edit(e) => EditStep(w, e)
  }

  ghost function Run<F>(x: Setup<F>, w: World<F>, acts: seq<Action<F>>): World<F>
    decreases |acts|
  {
    if acts == [] then w else Run(x, Step(x, w, acts[0]), acts[1..])
  }

  // ---- the invariant ----

  function IdOf(r: Lifecycle.Request): string {
    r.id
  }

  /** The requests a server has launched or is launching are those it has read, in order. */
  ghost predicate ConnInv<F>(x: Setup<F>, conn: Conn) {
    && conn.taken <= |conn.asked| && conn.arrived <= |OnWire(x, conn)|
    && Map(IdOf, LifecycleProperties.Requests(ServerOf(x, conn))) == conn.asked[..conn.taken]
  }

  /** The frames that arrived over a connection. */
  function Arrived<F>(x: Setup<F>, conn: Conn): seq<F>
    requires conn.arrived <= |OnWire(x, conn)|
  {
    Map(x.encode, OnWire(x, conn)[..conn.arrived])
  }

  ghost predicate ConnsInv<F>(x: Setup<F>, conns: seq<Conn>) {
    forall k | 0 <= k < |conns| :: ConnInv(x, conns[k])
  }

  function Parts<F>(x: Setup<F>, conns: seq<Conn>): seq<seq<F>>
    requires forall k | 0 <= k < |conns| :: conns[k].arrived <= |OnWire(x, conns[k])|
  {
    seq(|conns|, k requires 0 <= k < |conns| => Arrived(x, conns[k]))
  }

  /** All frames received, connection after connection. */
  ghost function Arrivals<F>(x: Setup<F>, conns: seq<Conn>): seq<F>
    requires ConnsInv(x, conns)
  {
    Flatten(Parts(x, conns))
  }

  /** Ids asked for are used once, over all connections, and were started in the editor. */
  ghost predicate AskedOnce<F>(w: World<F>) {
    && (forall k, l, i, j | 0 <= k < |w.conns| && 0 <= l < |w.conns|
                            && 0 <= i < |w.conns[k].asked| && 0 <= j < |w.conns[l].asked| ::
          w.conns[k].asked[i] == w.conns[l].asked[j] ==> k == l && i == j)
    && (forall k, i | 0 <= k < |w.conns| && 0 <= i < |w.conns[k].asked| ::
          !EditorModule.NeverStarted(w.events, w.conns[k].asked[i]))
  }

  /** No id is started twice, and no message with an id comes before its start. */
  ghost predicate Causal(events: seq<EditorModule.Event>) {
    forall i, j | 0 <= i < j < |events| && events[j].Start? ::
      && (events[i].Start? ==> EditorModule.Mint(events[i].suffix) != EditorModule.Mint(events[j].suffix))
      && (events[i].Deliver? ==> events[i].msg.id != EditorModule.Mint(events[j].suffix))
  }

  ghost predicate Inv<F>(x: Setup<F>, w: World<F>) {
    && ConnsInv(x, w.conns)
    && PipeOf(x, w).received == Arrivals(x, w.conns)
    && EndToEnd.Deliveries(w.events) == PipeOf(x, w).dispatched
    && AskedOnce(w)
    && Causal(w.events)
  }

  /** What is assumed of writing and parsing: readable messages keep what matters, and others lose at most their id. */
  ghost predicate ParserOk<F>(x: Setup<F>) {
    forall m: Message ::
      var seen := x.parse(x.encode(m));
      (EndToEnd.Readable(m) ==> EndToEnd.Keeps(m, seen)) && (seen.id == m.id || seen.id == "")
  }

  // ---- servers ----

  lemma {:induction false} ServerPush(c: Lifecycle.Config, s: Lifecycle.State, acts: seq<Lifecycle.Action>, a: Lifecycle.Action)
    ensures Lifecycle.Run(c, s, acts + [a]) == Lifecycle.Step(c, Lifecycle.Run(c, s, acts), a)
    decreases |acts|
  {
    if acts == [] {
      assert acts + [a] == [a];
      assert Lifecycle.Run(c, s, [a]) == Lifecycle.Run(c, Lifecycle.Step(c, s, a), []);
    } else {
      assert (acts + [a])[1..] == acts[1..] + [a];
      ServerPush(c, Lifecycle.Step(c, s, acts[0]), acts[1..], a);
    }
  }

  lemma WireGrows(c: Lifecycle.Config, s: Lifecycle.State, a: Lifecycle.Action)
    requires LifecycleInvariants.HolderInv(s)
    ensures s.wire <= Lifecycle.Step(c, s, a).wire
  {
    match a
    case HandlerRuns => if !s.handler.Installing? { LifecycleInvariants.HandlerFrame(s); }
    case ModelAnswers(g, reply) => if g < |s.gens| { LifecycleInvariants.ModelAnswerFrame(s, g, reply); }
    case PlacementEnds(g, pick) => if g < |s.gens| { LifecycleInvariants.PlacementEndFrame(c, s, g, pick); }
    case SendEnds(g, ok) => if g < |s.gens| { LifecycleInvariants.SendEndFrame(c, s, g, ok); }
    case _ =>
  }

  lemma MessagesGrow(s: Lifecycle.State, t: Lifecycle.State, n: nat)
    requires s.wire <= t.wire && n <= |s.wire|
    ensures EndToEnd.Messages(t)[..n] == EndToEnd.Messages(s)[..n]
  {
  }

  lemma IdsPush(rs: seq<Lifecycle.Request>, r: Lifecycle.Request)
    ensures Map(IdOf, rs + [r]) == Map(IdOf, rs) + [r.id]
  {
  }

  lemma ServerStepInv<F>(x: Setup<F>, conn: Conn, a: Lifecycle.Action)
    requires ConnInv(x, conn)
    ensures var next := ServerStep(x, conn, a);
            ConnInv(x, next) && next.asked == conn.asked && Arrived(x, next) == Arrived(x, conn)
  {
    var next := ServerStep(x, conn, a);
    if next != conn {
      var s := ServerOf(x, conn);
      LifecycleFrames.Reached(x.config, conn.server);
      ServerPush(x.config, Lifecycle.Init(), conn.server, a);
      WireGrows(x.config, s, a);
      MessagesGrow(s, ServerOf(x, next), conn.arrived);
      LifecycleProperties.StepKeepsRequests(x.config, s, a);
      if a.ReadGenerate? {
        IdsPush(LifecycleProperties.Requests(s), a.req);
        assert conn.asked[..conn.taken + 1] == conn.asked[..conn.taken] + [a.req.id];
      } else {
        assert LifecycleProperties.Requests(s) + [] == LifecycleProperties.Requests(s);
      }
    }
  }

  lemma ConnsPut<F>(x: Setup<F>, conns: seq<Conn>, k: nat, conn: Conn)
    requires ConnsInv(x, conns) && k < |conns| && ConnInv(x, conn)
    ensures ConnsInv(x, conns[k := conn])
  {
  }

  /** Replacing a connection's record by one with the same arrivals changes nothing that was received. */
  lemma ArrivalsPut<F>(x: Setup<F>, conns: seq<Conn>, k: nat, conn: Conn)
    requires ConnsInv(x, conns) && k < |conns| && ConnInv(x, conn) && Arrived(x, conn) == Arrived(x, conns[k])
    requires ConnsInv(x, conns[k := conn])
    ensures Arrivals(x, conns[k := conn]) == Arrivals(x, conns)
  {
    assert Parts(x, conns[k := conn]) == Parts(x, conns);
  }

  lemma ConnsPush<F>(x: Setup<F>, conns: seq<Conn>, conn: Conn)
    requires ConnsInv(x, conns) && ConnInv(x, conn)
    ensures ConnsInv(x, conns + [conn])
  {
  }

  lemma ArrivalsPush<F>(x: Setup<F>, conns: seq<Conn>, conn: Conn)
    requires ConnsInv(x, conns) && ConnInv(x, conn) && ConnsInv(x, conns + [conn])
    ensures Arrivals(x, conns + [conn]) == Arrivals(x, conns) + Arrived(x, conn)
  {
    assert Parts(x, conns + [conn]) == Parts(x, conns) + [Arrived(x, conn)];
    FlattenPush(Parts(x, conns), Arrived(x, conn));
  }

  // ---- the pipeline ----

  lemma {:induction false} PipePush<F>(parse: F -> Message, s: ParsePipeline.State<F, Message>,
                                       acts: seq<ParsePipeline.Action<F>>, a: ParsePipeline.Action<F>)
    ensures ParsePipeline.Run(s, parse, acts + [a]) == ParsePipeline.Step(ParsePipeline.Run(s, parse, acts), parse, a)
    decreases |acts|
  {
    if acts == [] {
      assert acts + [a] == [a];
      assert ParsePipeline.Run(s, parse, [a]) == ParsePipeline.Run(ParsePipeline.Step(s, parse, a), parse, []);
    } else {
      assert (acts + [a])[1..] == acts[1..] + [a];
      PipePush(parse, ParsePipeline.Step(s, parse, acts[0]), acts[1..], a);
    }
  }

  /** The next state of the pipeline. */
  lemma PipeAfter<F>(x: Setup<F>, w: World<F>, a: ParsePipeline.Action<F>)
    ensures ParsePipeline.After(x.parse, w.frames + [a]) == ParsePipeline.Step(PipeOf(x, w), x.parse, a)
  {
    PipePush(x.parse, ParsePipeline.Init(), w.frames, a);
  }

  lemma QuietPipe<F>(x: Setup<F>, w: World<F>, a: ParsePipeline.Action<F>)
    requires !(a.Frame? && a.current) && !a.Dispatch?
    ensures var t := ParsePipeline.Step(PipeOf(x, w), x.parse, a);
            t.received == PipeOf(x, w).received && t.dispatched == PipeOf(x, w).dispatched
  {
  }

  // ---- every step keeps the invariant ----

  lemma ConnectAsked<F>(w: World<F>, conn: Conn)
    requires AskedOnce(w) && conn.asked == []
    ensures AskedOnce(w.(conns := w.conns + [conn]))
  {
  }

  /** A server that has done nothing. */
  lemma FreshConn<F>(x: Setup<F>, conn: Conn)
    requires conn == Conn([], [], 0, 0)
    ensures ConnInv(x, conn) && Arrived(x, conn) == []
  {
    assert LifecycleProperties.Requests(ServerOf(x, conn)) == [];
  }

  lemma ConnectInv<F>(x: Setup<F>, w: World<F>)
    requires Inv(x, w)
    ensures Inv(x, Step(x, w, Connect))
  {
    var conn := Conn([], [], 0, 0);
    FreshConn(x, conn);
    ConnsPush(x, w.conns, conn);
    ArrivalsPush(x, w.conns, conn);
    ConnectAsked(w, conn);
    assert Arrivals(x, w.conns) + [] == Arrivals(x, w.conns);
  }

  /** AskedOnce looks only at what was asked for and at the editor's history. */
  lemma SameAsked<F>(w: World<F>, t: World<F>)
    requires AskedOnce(w) && t.events == w.events && |t.conns| == |w.conns|
    requires forall k | 0 <= k < |w.conns| :: t.conns[k].asked == w.conns[k].asked
    ensures AskedOnce(t)
  {
  }

  lemma ServerInv<F>(x: Setup<F>, w: World<F>, k: nat, a: Lifecycle.Action)
    requires Inv(x, w) && k < |w.conns|
    ensures Inv(x, Step(x, w, Server(k, a)))
  {
    var conn := ServerStep(x, w.conns[k], a);
    ServerStepInv(x, w.conns[k], a);
    ConnsPut(x, w.conns, k, conn);
    ArrivalsPut(x, w.conns, k, conn);
    SameAsked(w, w.(conns := w.conns[k := conn]));
  }

  /** One more message of a connection arrives. */
  lemma ArrivedPush<F>(x: Setup<F>, conn: Conn)
    requires ConnInv(x, conn) && conn.arrived < |OnWire(x, conn)|
    ensures var next := conn.(arrived := conn.arrived + 1);
            ConnInv(x, next) && Arrived(x, next) == Arrived(x, conn) + [x.encode(OnWire(x, conn)[conn.arrived])]
  {
    var all, n := OnWire(x, conn), conn.arrived;
    assert all[..n + 1] == all[..n] + [all[n]];
    MapAppend(x.encode, all[..n], [all[n]]);
  }

  lemma LastArrives<F>(x: Setup<F>, conns: seq<Conn>, conn: Conn, f: F)
    requires ConnsInv(x, conns) && conns != [] && ConnInv(x, conn)
    requires Arrived(x, conn) == Arrived(x, conns[|conns| - 1]) + [f]
    requires ConnsInv(x, conns[|conns| - 1 := conn])
    ensures Arrivals(x, conns[|conns| - 1 := conn]) == Arrivals(x, conns) + [f]
  {
    var n, conns' := |conns| - 1, conns[|conns| - 1 := conn];
    var front, last := Parts(x, conns)[..n], Arrived(x, conns[n]);
    assert Parts(x, conns) == front + [last];
    assert Parts(x, conns') == front + [last + [f]];
    FlattenPush(front, last);
    FlattenPush(front, last + [f]);
    assert Flatten(front) + (last + [f]) == Flatten(front) + last + [f];
  }

  lemma FrameReceived<F>(x: Setup<F>, w: World<F>, f: F)
    requires PipeOf(x, w).game.Idle?
    ensures var t := ParsePipeline.After(x.parse, w.frames + [ParsePipeline.Frame(true, f)]);
            t.received == PipeOf(x, w).received + [f] && t.dispatched == PipeOf(x, w).dispatched
  {
    PipeAfter(x, w, ParsePipeline.Frame(true, f));
  }

  lemma ArriveInv<F>(x: Setup<F>, w: World<F>)
    requires Inv(x, w)
    ensures Inv(x, ArriveStep(x, w))
  {
    var t := ArriveStep(x, w);
    if t != w {
      var n := |w.conns| - 1;
      var conn := w.conns[n];
      var f := x.encode(OnWire(x, conn)[conn.arrived]);
      ArrivedPush(x, conn);
      ConnsPut(x, w.conns, n, t.conns[n]);
      LastArrives(x, w.conns, t.conns[n], f);
      FrameReceived(x, w, f);
      SameAsked(w, t);
    }
  }

  lemma PipeInv<F>(x: Setup<F>, w: World<F>, a: ParsePipeline.Action<F>)
    requires Inv(x, w) && !(a.Frame? && a.current) && !a.Dispatch?
    ensures Inv(x, w.(frames := w.frames + [a]))
  {
    PipeAfter(x, w, a);
    QuietPipe(x, w, a);
  }

  lemma DispatchInv<F>(x: Setup<F>, w: World<F>)
    requires Inv(x, w)
    ensures Inv(x, DispatchStep(x, w))
  {
    var p, t := PipeOf(x, w), DispatchStep(x, w);
    PipeAfter(x, w, ParsePipeline.Dispatch);
    if p.game.Dispatching? && p.parsed != [] {
      EndToEnd.DeliveriesPush(w.events, EditorModule.Deliver(p.parsed[0]));
      StartedStays(w, EditorModule.Deliver(p.parsed[0]));
    }
  }

  lemma FrontNeverStarted(events: seq<EditorModule.Event>, e: EditorModule.Event, id: string)
    ensures EditorModule.NeverStarted(events + [e], id)
        <==> EditorModule.NeverStarted(events, id) && !(e.Start? && EditorModule.Mint(e.suffix) == id)
  {
    assert forall s :: s in events + [e] <==> s in events || s == e;
  }

  /** What was started stays started. */
  lemma StartedStays<F>(w: World<F>, e: EditorModule.Event)
    requires AskedOnce(w)
    ensures AskedOnce(w.(events := w.events + [e]))
  {
    forall k, i | 0 <= k < |w.conns| && 0 <= i < |w.conns[k].asked|
      ensures !EditorModule.NeverStarted(w.events + [e], w.conns[k].asked[i])
    {
      FrontNeverStarted(w.events, e, w.conns[k].asked[i]);
    }
  }

  // ---- ids ----

  /** The message carries no id, or one that was started in the editor. */
  ghost predicate KnownId(events: seq<EditorModule.Event>, m: Message) {
    m.id == "" || !EditorModule.NeverStarted(events, m.id)
  }

  /** A message on a connection's wire carries no id, or one asked for over that connection. */
  lemma WireAsked<F>(x: Setup<F>, conn: Conn, m: Message)
    requires ConnInv(x, conn) && m in OnWire(x, conn)
    ensures m.id == "" || m.id in conn.asked
  {
    var s := ServerOf(x, conn);
    var i :| 0 <= i < |s.wire| && s.wire[i].msg == m;
    EndToEnd.WireIds(x.config, conn.server, i);
    if s.wire[i].from.Some? {
      GenAsked(x, conn, s.wire[i].from.value);
    }
  }

  /** Generation g runs for the g-th id asked for. */
  lemma GenAsked<F>(x: Setup<F>, conn: Conn, g: nat)
    requires ConnInv(x, conn) && g < |ServerOf(x, conn).gens|
    ensures g < |conn.asked| && ServerOf(x, conn).gens[g].req.id == conn.asked[g]
  {
    var s := ServerOf(x, conn);
    var requests := LifecycleProperties.Requests(s);
    assert requests[g] == s.gens[g].req;
    assert Map(IdOf, requests)[g] == s.gens[g].req.id;
  }

  /** f was written for a message on connection k's wire. */
  ghost predicate CameFrom<F>(x: Setup<F>, w: World<F>, f: F, k: nat, m: Message) {
    k < |w.conns| && m in OnWire(x, w.conns[k]) && f == x.encode(m)
  }

  lemma ArrivedOnWire<F>(x: Setup<F>, conn: Conn, f: F) returns (m: Message)
    requires ConnInv(x, conn) && f in Arrived(x, conn)
    ensures m in OnWire(x, conn) && f == x.encode(m)
  {
    var i :| 0 <= i < |Arrived(x, conn)| && Arrived(x, conn)[i] == f;
    m := OnWire(x, conn)[i];
  }

  lemma ReceivedFrom<F>(x: Setup<F>, w: World<F>, f: F) returns (k: nat, m: Message)
    requires Inv(x, w) && f in PipeOf(x, w).received
    ensures CameFrom(x, w, f, k, m) && f in Arrived(x, w.conns[k])
  {
    var parts := Parts(x, w.conns);
    FlattenMember(parts, f);
    k :| 0 <= k < |parts| && f in parts[k];
    m := ArrivedOnWire(x, w.conns[k], f);
  }

  /** Every frame that was received carries no id, or one that was started. */
  lemma ReceivedKnown<F>(x: Setup<F>, w: World<F>, f: F)
    requires ParserOk(x) && Inv(x, w) && f in PipeOf(x, w).received
    ensures KnownId(w.events, x.parse(f))
  {
    var k, m := ReceivedFrom(x, w, f);
    WireAsked(x, w.conns[k], m);
    if m.id != "" {
      var i :| 0 <= i < |w.conns[k].asked| && w.conns[k].asked[i] == m.id;
    }
  }

  lemma DispatchedReceived<F>(x: Setup<F>, w: World<F>, m: Message) returns (f: F)
    requires Inv(x, w) && m in PipeOf(x, w).dispatched
    ensures f in PipeOf(x, w).received && m == x.parse(f)
  {
    ParsePipeline.DeliveryInOrder(x.parse, w.frames);
    var p := PipeOf(x, w);
    var i :| 0 <= i < |p.dispatched| && p.dispatched[i] == m;
    f := p.received[i];
    assert Map(x.parse, p.received)[i] == m;
  }

  lemma {:induction false} DeliveredIn(events: seq<EditorModule.Event>, e: EditorModule.Event)
    requires e in events && e.Deliver?
    ensures e.msg in EndToEnd.Deliveries(events)
  {
    if e != events[0] {
      DeliveredIn(events[1..], e);
    }
  }

  /** No message with an id that was never started has been delivered. */
  lemma NothingEarly<F>(x: Setup<F>, w: World<F>, e: EditorModule.Event, id: string)
    requires ParserOk(x) && Inv(x, w) && EditorModule.NeverStarted(w.events, id) && id != ""
    requires e in w.events && e.Deliver?
    ensures e.msg.id != id
  {
    DeliveredIn(w.events, e);
    var f := DispatchedReceived(x, w, e.msg);
    ReceivedKnown(x, w, f);
  }

  lemma CausalPush<F>(x: Setup<F>, w: World<F>, e: EditorModule.Event)
    requires ParserOk(x) && Inv(x, w)
    requires e.Start? ==> EditorModule.NeverStarted(w.events, EditorModule.Mint(e.suffix))
    ensures Causal(w.events + [e])
  {
    var events := w.events + [e];
    forall i, j | 0 <= i < j < |events| && events[j].Start?
      ensures events[i].Start? ==> EditorModule.Mint(events[i].suffix) != EditorModule.Mint(events[j].suffix)
      ensures events[i].Deliver? ==> events[i].msg.id != EditorModule.Mint(events[j].suffix)
    {
      if j == |w.events| {
        assert events[i] == w.events[i] && w.events[i] in w.events;
        if events[i].Deliver? {
          NothingEarly(x, w, events[i], EditorModule.Mint(e.suffix));
        }
      } else {
        assert events[i] == w.events[i] && events[j] == w.events[j];
      }
    }
  }

  // ---- the editor's steps ----

  lemma PlainEventInv<F>(x: Setup<F>, w: World<F>, e: EditorModule.Event)
    requires ParserOk(x) && Inv(x, w) && !e.Deliver?
    requires e.Start? ==> EditorModule.NeverStarted(w.events, EditorModule.Mint(e.suffix))
    ensures Inv(x, w.(events := w.events + [e]))
  {
    CausalPush(x, w, e);
    StartedStays(w, e);
    EndToEnd.DeliveriesPush(w.events, e);
    assert EndToEnd.Deliveries(w.events) + [] == EndToEnd.Deliveries(w.events);
  }

  /** Asking for one more id over the current connection, just started and never used before. */
  lemma AskedPush<F>(w: World<F>, k: nat, id: string, events: seq<EditorModule.Event>)
    requires AskedOnce(w) && k < |w.conns| && EditorModule.NeverStarted(w.events, id)
    requires AskedOnce(w.(events := events)) && !EditorModule.NeverStarted(events, id)
    ensures AskedOnce(World(w.conns[k := w.conns[k].(asked := w.conns[k].asked + [id])], w.frames, events))
  {
  }

  lemma AskedConn<F>(x: Setup<F>, conn: Conn, id: string)
    requires ConnInv(x, conn)
    ensures var next := conn.(asked := conn.asked + [id]); ConnInv(x, next) && Arrived(x, next) == Arrived(x, conn)
  {
    assert (conn.asked + [id])[..conn.taken] == conn.asked[..conn.taken];
  }

  lemma EditInv<F>(x: Setup<F>, w: World<F>, e: EditorModule.Event)
    requires ParserOk(x) && Inv(x, w)
    ensures Inv(x, EditStep(w, e))
  {
    var t := EditStep(w, e);
    if t != w {
      PlainEventInv(x, w, e);
      if t.conns != w.conns {
        var k, id := |w.conns| - 1, EditorModule.Mint(e.suffix);
        FrontNeverStarted(w.events, e, id);
        AskedConn(x, w.conns[k], id);
        ConnsPut(x, w.conns, k, t.conns[k]);
        ArrivalsPut(x, w.conns, k, t.conns[k]);
        AskedPush(w, k, id, t.events);
      }
    }
  }

  lemma StepInv<F>(x: Setup<F>, w: World<F>, a: Action<F>)
    requires ParserOk(x) && Inv(x, w)
    ensures Inv(x, Step(x, w, a))
  {
    match a
    case Connect => ConnectInv(x, w);
    case Server(k, b) => if k < |w.conns| { ServerInv(x, w, k, b); }
    case Arrive => ArriveInv(x, w);
    case Pipe(b) => if !(b.Frame? && b.current) && !b.Dispatch? { PipeInv(x, w, b); }
    case DispatchNext => DispatchInv(x, w);
    case Edit(e) => EditInv(x, w, e);
  }

  lemma {:induction false} RunInv<F>(x: Setup<F>, w: World<F>, acts: seq<Action<F>>)
    requires ParserOk(x) && Inv(x, w)
    ensures Inv(x, Run(x, w, acts))
    decreases |acts|
  {
    if acts != [] {
      StepInv(x, w, acts[0]);
      RunInv(x, Step(x, w, acts[0]), acts[1..]);
    }
  }

  lemma Reached<F>(x: Setup<F>, acts: seq<Action<F>>)
    requires ParserOk(x)
    ensures Inv(x, Run(x, Init(), acts))
  {
    assert Parts(x, Init<F>().conns) == [];
    RunInv(x, Init(), acts);
  }

  // ---- one generation in the whole system ----

  /** An active id was started, while connected. */
  lemma {:induction false} ActiveWasStarted(s: EditorModule.State, events: seq<EditorModule.Event>) returns (i: int)
    requires var id := EditorModule.Run(s, events).activeId; id != "" && s.activeId != id
    ensures 0 <= i < |events| && events[i].Start? && events[i].connected
    ensures EditorModule.Mint(events[i].suffix) == EditorModule.Run(s, events).activeId
    decreases |events|
  {
    var id := EditorModule.Run(s, events).activeId;
    var t := EditorModule.Step(s, events[0]);
    if t.activeId == id {
      i := 0;
    } else {
      var j := ActiveWasStarted(t, events[1..]);
      i := j + 1;
    }
  }

  lemma {:induction false} DeliveryEvent(events: seq<EditorModule.Event>, m: Message) returns (j: nat)
    requires m in EndToEnd.Deliveries(events)
    ensures j < |events| && events[j] == EditorModule.Deliver(m)
  {
    if events[0] == EditorModule.Deliver(m) {
      j := 0;
    } else {
      var k := DeliveryEvent(events[1..], m);
      j := k + 1;
    }
  }

  /** Before its start nothing came for the id, and after it the id is not started again. */
  lemma StartedOnce(events: seq<EditorModule.Event>, i: nat, id: string)
    requires Causal(events) && i < |events| && events[i].Start? && EditorModule.Mint(events[i].suffix) == id
    ensures Filter(EndToEnd.Deliveries(events[..i]), EndToEnd.HasId(id)) == []
    ensures EditorModule.NeverStarted(events[i + 1..], id)
  {
    forall m | m in EndToEnd.Deliveries(events[..i]) ensures !EndToEnd.HasId(id)(m) {
      var j := DeliveryEvent(events[..i], m);
      assert events[j] == events[..i][j];
    }
    FilterNone(EndToEnd.Deliveries(events[..i]), EndToEnd.HasId(id));
    forall e | e in events[i + 1..] ensures !(e.Start? && EditorModule.Mint(e.suffix) == id) {
      var j :| 0 <= j < |events| - i - 1 && events[i + 1..][j] == e;
      assert events[i + 1 + j] == e;
    }
  }

  /** Within a connection the servers' generations have distinct ids. */
  lemma DistinctHere<F>(x: Setup<F>, w: World<F>, k: nat)
    requires Inv(x, w) && k < |w.conns|
    ensures EndToEnd.DistinctIds(ServerOf(x, w.conns[k]))
  {
    var s := ServerOf(x, w.conns[k]);
    forall g, h | 0 <= g < h < |s.gens| ensures s.gens[g].req.id != s.gens[h].req.id {
      GenAsked(x, w.conns[k], g);
      GenAsked(x, w.conns[k], h);
    }
    forall g | 0 <= g < |s.gens| ensures s.gens[g].req.id != "" {
      GenAsked(x, w.conns[k], g);
      StartedIsMinted(w.events, w.conns[k].asked[g]);
    }
  }

  lemma StartedIsMinted(events: seq<EditorModule.Event>, id: string)
    ensures !EditorModule.NeverStarted(events, id) ==> id != ""
  {
  }

  /** A message that was delivered with an id comes from a generation with that id, on one connection. */
  lemma DeliveredFrom<F>(x: Setup<F>, w: World<F>, m: Message) returns (k: nat, g: nat)
    requires ParserOk(x) && Inv(x, w) && m in PipeOf(x, w).dispatched && m.id != ""
    ensures k < |w.conns| && g < |ServerOf(x, w.conns[k]).gens|
    ensures ServerOf(x, w.conns[k]).gens[g].req.id == m.id
  {
    var f := DispatchedReceived(x, w, m);
    var l, sent := ReceivedFrom(x, w, f);
    k := l;
    var s := ServerOf(x, w.conns[k]);
    var i :| 0 <= i < |s.wire| && s.wire[i].msg == sent;
    EndToEnd.WireIds(x.config, w.conns[k].server, i);
    g := s.wire[i].from.value;
  }

  /** Frames of other connections do not carry an id asked for over connection k. */
  lemma ElsewhereOtherIds<F>(x: Setup<F>, w: World<F>, k: nat, l: nat, id: string, f: F)
    requires ParserOk(x) && Inv(x, w) && k < |w.conns| && l < |w.conns| && l != k
    requires id in w.conns[k].asked && id != "" && f in Arrived(x, w.conns[l])
    ensures x.parse(f).id != id
  {
    var m := ArrivedOnWire(x, w.conns[l], f);
    WireAsked(x, w.conns[l], m);
    var i :| 0 <= i < |w.conns[k].asked| && w.conns[k].asked[i] == id;
    assert forall j | 0 <= j < |w.conns[l].asked| :: w.conns[l].asked[j] != id;
  }

  lemma OtherParts<F>(x: Setup<F>, w: World<F>, k: nat, id: string, f: F)
    requires ParserOk(x) && Inv(x, w) && k < |w.conns| && id in w.conns[k].asked && id != ""
    requires var parts := Parts(x, w.conns); f in Flatten(parts[..k]) || f in Flatten(parts[k + 1..])
    ensures x.parse(f).id != id
  {
    var parts := Parts(x, w.conns);
    FlattenOthers(parts, k, f);
    var l :| 0 <= l < |parts| && l != k && f in parts[l];
    ElsewhereOtherIds(x, w, k, l, id, f);
  }

  /** What was received before, over and after connection k. */
  lemma SplitReceived<F>(x: Setup<F>, w: World<F>, k: nat, id: string) returns (earlier: seq<F>, mine: seq<F>, later: seq<F>)
    requires ParserOk(x) && Inv(x, w) && k < |w.conns| && id in w.conns[k].asked && id != ""
    ensures PipeOf(x, w).received == earlier + mine + later
    ensures mine <= Map(x.encode, OnWire(x, w.conns[k]))
    ensures forall f | f in earlier || f in later :: x.parse(f).id != id
  {
    var parts := Parts(x, w.conns);
    earlier, mine, later := Flatten(parts[..k]), parts[k], Flatten(parts[k + 1..]);
    FlattenSplit(parts, k);
    forall f | f in earlier || f in later ensures x.parse(f).id != id {
      OtherParts(x, w, k, id, f);
    }
  }

  /**
   Generation g of connection k, with the given id, is accounted for: when its complete came, at the end of
   upTo, its placed entries had been accepted, in order; and in w it is still draining all of its plan's
   assets, or it was finalized since with exactly spawned + skipped == plan.total_assets.
   */
  ghost predicate AccountedFor<F>(x: Setup<F>, w: World<F>, k: nat, g: nat, upTo: seq<EditorModule.Event>, id: string) {
    && k < |w.conns| && g < |ServerOf(x, w.conns[k]).gens|
    && var gen := ServerOf(x, w.conns[k]).gens[g];
       var atComplete := EditorModule.Run(EditorModule.Init(), upTo);
       && gen.req.id == id && gen.trace != [] && gen.trace[0].Plan? && gen.job.Some?
       && atComplete.spawner.accepted == gen.job.value.entries
       && EndToEnd.Settled(EditorOf(w), id, gen.trace[0].totalAssets, |atComplete.spawner.finals|)
  }

  /** The events around a start and a later event. */
  lemma SplitEvents(events: seq<EditorModule.Event>, upTo: seq<EditorModule.Event>, e: EditorModule.Event,
                    rest: seq<EditorModule.Event>, i: nat, id: string)
    requires Causal(events) && events == upTo + [e] + rest
    requires i < |upTo| && upTo[i].Start? && EditorModule.Mint(upTo[i].suffix) == id
    ensures upTo == EndToEnd.UpToComplete(upTo[..i], upTo[i], upTo[i + 1..])
    ensures Filter(EndToEnd.Deliveries(upTo[..i]), EndToEnd.HasId(id)) == []
    ensures EditorModule.NeverStarted(upTo[i + 1..], id) && EditorModule.NeverStarted(rest, id)
  {
    assert events[i] == upTo[i] && events[..i] == upTo[..i];
    StartedOnce(events, i, id);
    assert events[i + 1..] == upTo[i + 1..] + [e] + rest;
    LaterParts(upTo[i + 1..], e, rest, id);
  }

  lemma CompletedHere<F>(x: Setup<F>, w: World<F>, upTo: seq<EditorModule.Event>, done: Message,
                         rest: seq<EditorModule.Event>, k: nat, g: nat, i: nat)
    requires ParserOk(x) && Inv(x, w) && k < |w.conns| && g < |ServerOf(x, w.conns[k]).gens|
    requires "" !in ServerOf(x, w.conns[k]).man && ServerOf(x, w.conns[k]).gens[g].req.id == done.id
    requires w.events == upTo + [EditorModule.Deliver(done)] + rest && done.Complete?
    requires EditorModule.Run(EditorModule.Init(), upTo).activeId == done.id != ""
    requires i < |upTo| && upTo[i].Start? && upTo[i].connected && EditorModule.Mint(upTo[i].suffix) == done.id
    ensures AccountedFor(x, w, k, g, upTo, done.id)
  {
    var id, conn := done.id, w.conns[k];
    GenAsked(x, conn, g);
    DistinctHere(x, w, k);
    var earlier, mine, later := SplitReceived(x, w, k, id);
    var before, start, mid := upTo[..i], upTo[i], upTo[i + 1..];
    SplitEvents(w.events, upTo, EditorModule.Deliver(done), rest, i, id);
    assert done == Complete(id, done.assetCount);
    EndToEnd.CompletedGenerationIsAccountedFor(x.config, conn.server, g, x.encode, x.parse, w.frames,
                                               earlier, mine, later, before, start, mid, done.assetCount, rest);
  }

  lemma LaterParts(mid: seq<EditorModule.Event>, e: EditorModule.Event, rest: seq<EditorModule.Event>, id: string)
    requires EditorModule.NeverStarted(mid + [e] + rest, id)
    ensures EditorModule.NeverStarted(mid, id) && EditorModule.NeverStarted(rest, id)
  {
    forall s | s in mid || s in rest ensures s in mid + [e] + rest {
    }
  }

  /**
   The whole system. Let complete for a generation be delivered while its id is active, at any point of any
   run, over any sequence of connections. Then it comes from a generation with that id, and whatever has
   happened since, that generation is accounted for. That requests and messages travel in order, that a
   message follows its request and that ids are used once is part of the system, not assumed of its runs.
   */
  lemma CompletesAreAccountedFor<F>(x: Setup<F>, acts: seq<Action<F>>, upTo: seq<EditorModule.Event>, done: Message,
                                    rest: seq<EditorModule.Event>)
    requires ParserOk(x)
    requires var w := Run(x, Init(), acts);
             && (forall k | 0 <= k < |w.conns| :: "" !in ServerOf(x, w.conns[k]).man)
             && w.events == upTo + [EditorModule.Deliver(done)] + rest && done.Complete?
             && EditorModule.Run(EditorModule.Init(), upTo).activeId == done.id != ""
    ensures exists k, g :: AccountedFor(x, Run(x, Init(), acts), k, g, upTo, done.id)
  {
    var w := Run(x, Init(), acts);
    Reached(x, acts);
    var i := ActiveWasStarted(EditorModule.Init(), upTo);
    assert EditorModule.Deliver(done) in w.events;
    DeliveredIn(w.events, EditorModule.Deliver(done));
    var k, g := DeliveredFrom(x, w, done);
    CompletedHere(x, w, upTo, done, rest, k, g, i);
  }
}

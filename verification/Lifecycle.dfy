/**
 The generation lifecycle of one connection: the read loop's handler thread and one goroutine per
 generation, interleaved. Every lock acquisition, critical section, cancel, context check, model call,
 send and channel close is one atomic step. Generations are numbered in launch order, because their
 ids come from the client and need not be unique.
 */
module Lifecycle {
  import opened Seqs
  import opened Wire
  import opened Placement
  import opened Recipes
  import opened Streaming

  const DEFAULT_CHUNK_SIZE := 50

  type Positive = n: nat | n > 0 witness DEFAULT_CHUNK_SIZE

  /** What stays fixed: the chunk size, and the random stream that each seed stands for. */
  datatype Config = Config(chunkSize: Positive, streamOf: int -> Stream)

  datatype Request = Request(id: string, seed: Option<int>, bounds: Bounds)

  /** Where a generation's goroutine stands. */
  datatype Pc =
    | Created                        // published in cur, not started
    | Start                          // about to look at the manifest store
    | Calling(attempt: nat)          // inside the model call
    | Reporting(why: RecipeFailure)  // about to look at the context before reporting
    | Placing(items: seq<CategoryRecipe>)
    | PlaceError                     // about to look at the context before reporting
    | SendingError(code: ErrorCode)  // inside the send of the terminal error
    | Checking(k: nat)               // about to look at the context before message k of the script
    | Sending(k: nat)                // past that check, inside the send
    | Returned                       // run has returned; wants the lock
    | Locked                         // holds the lock, about to clear cur
    | Cleared                        // about to cancel its own context
    | Closing                        // about to close done
    | Finished                       // done is closed

  /** Why a run stopped early, if it did. */
  datatype Stop = Ongoing | SawCancel | SendFailed

  /** One generation; replies, the seed it placed with, trace and stop record history and steer nothing. */
  datatype Gen = Gen(req: Request, pc: Pc, cancelled: bool, replies: seq<LlmReply>, seed: Option<int>, job: Option<Job>,
                     trace: seq<Message>, stop: Stop)

  /** What the handler does once the old generation is out of the way. */
  datatype Next = Launch(req: Request) | Shut

  datatype Handler =
    | Handshaking
    | Reading
    | WantTake(next: Next)
    | Taking(next: Next)                    // holds the lock
    | Took(next: Next, prev: Option<nat>)   // lock released, prev not cancelled yet
    | Waiting(next: Next, who: nat)         // blocked on the old generation's done
    | WantInstall(req: Request)
    | Installing(req: Request)              // holds the lock
    | Launching                             // cur published, goroutine not started
    | WantCancel(id: string)
    | Cancelling(id: string)                // holds the lock
    | Down                                  // the handler has returned

  datatype Owner = HandlerOwns | GenOwns(g: nat)

  /** A message on the wire, with the generation it came from; the handler's own errors have none. */
  datatype Sent = Sent(from: Option<nat>, msg: Message)

  datatype State = State(man: Manifest, mu: Option<Owner>, cur: Option<nat>, gens: seq<Gen>,
                         handler: Handler, parentDone: bool, wire: seq<Sent>)

  datatype Action =
    | Hello(man: Manifest, ok: bool)
    | BadHello(code: ErrorCode, ok: bool)
    | ReadGenerate(req: Request)
    | ReadCancel(id: string)
    | ReadJunk(ok: bool)
    | ReadOtherVersion(ok: bool)
    | ReadFailed
    | HandlerRuns
    | GenRuns(g: nat)
    | ModelAnswers(g: nat, reply: LlmReply)
    | PlacementEnds(g: nat, pick: int)
    | SendEnds(g: nat, ok: bool)
    | ParentCancelled

  function Init(): State {
    State(map[], None, None, [], Handshaking, false, [])
  }

  /** The generation's context reports an error. */
  predicate CtxErr(s: State, g: nat)
    requires g < |s.gens|
  {
    s.gens[g].cancelled || s.parentDone || s.gens[g].pc.Closing? || s.gens[g].pc.Finished?
  }

  function ScriptOf(c: Config, gen: Gen): seq<Message>
    requires gen.job.Some?
  {
    Script(gen.req.id, gen.job.value, c.chunkSize)
  }

  function Put(s: State, g: nat, gen: Gen): State
    requires g < |s.gens|
  {
    s.(gens := s.gens[g := gen])
  }

  function Goto(s: State, g: nat, pc: Pc): State
    requires g < |s.gens|
  {
    Put(s, g, s.gens[g].(pc := pc))
  }

  /** run returns early. */
  function Quit(gen: Gen, why: Stop): Gen {
    gen.(pc := Returned, stop := why)
  }

  /** Message m of generation g goes out, and the goroutine moves on to pc. */
  function Emit(s: State, g: nat, m: Message, pc: Pc): State
    requires g < |s.gens|
  {
    Put(s, g, s.gens[g].(pc := pc, trace := s.gens[g].trace + [m])).(wire := s.wire + [Sent(Some(g), m)])
  }

  function CodeFor(why: RecipeFailure): ErrorCode {
    match why
    case TimedOut => LlmTimeout
    case Invalid => LlmInvalidOutput
    case Stopped => Internal
    case Broken => Internal
  }

  /** The goroutine's steps that wait for nothing, given what it sees of its context and of the store. */
  function Resume(gen: Gen, ctxErr: bool, noManifest: bool): Gen {
    match gen.pc
    case Start => gen.(pc := if noManifest then SendingError(Internal) else Calling(0))
    case Reporting(why) =>
      if ctxErr && why != TimedOut then Quit(gen, SawCancel) else gen.(pc := SendingError(CodeFor(why)))
    case PlaceError => if ctxErr then Quit(gen, SawCancel) else gen.(pc := SendingError(Internal))
    case Checking(k) => if ctxErr then Quit(gen, SawCancel) else gen.(pc := Sending(k))
    case Cleared => gen.(pc := Closing)
    case Closing => gen.(pc := Finished)
    case _ => gen
  }

  /** The goroutine's own steps, those on the lock included. */
  function GenStep(s: State, g: nat): State
    requires g < |s.gens|
  {
    match s.gens[g].pc
    case Returned => if s.mu.None? then Goto(s, g, Locked).(mu := Some(GenOwns(g))) else s
    case Locked => Goto(s, g, Cleared).(mu := None, cur := if s.cur == Some(g) then None else s.cur)
    case _ => Put(s, g, Resume(s.gens[g], CtxErr(s, g), s.man == map[]))
  }

  function OnModelAnswer(s: State, g: nat, reply: LlmReply): State
    requires g < |s.gens|
  {
    var gen := s.gens[g];
    if !gen.pc.Calling? then s
    else
      var pc := match Judge(reply, s.man)
                case Accept(items) => Placing(Clamped(items))
                case RetryOrFail(_) => if gen.pc.attempt == 0 then Calling(1) else Reporting(Invalid)
                case GiveUp(why) => Reporting(why);
      Put(s, g, gen.(pc := pc, replies := gen.replies + [reply]))
  }

  predicate FreshSeed(seed: int) {
    0 <= seed < 0x20_0000_0000_0000
  }

  /** Placement is pure: its outcome is fixed by the recipe, the seed, the bounds and the manifest. */
  function OnPlacementEnd(c: Config, s: State, g: nat, pick: int): State
    requires g < |s.gens|
  {
    var gen := s.gens[g];
    if !gen.pc.Placing? || !FreshSeed(pick) then s
    else
      var seed := if gen.req.seed.Some? then gen.req.seed.value else pick;
      match PlaceByGrid(gen.pc.items, c.streamOf(seed), gen.req.bounds, s.man)
      case Placed(entries, _) =>
        Put(s, g, gen.(pc := Checking(0), seed := Some(seed), job := Some(Job(gen.pc.items, seed, entries))))
      case Failed(_, _, _) => Put(s, g, gen.(pc := PlaceError, seed := Some(seed)))
  }

  function OnSendEnd(c: Config, s: State, g: nat, ok: bool): State
    requires g < |s.gens|
  {
    var gen := s.gens[g];
    match gen.pc
    case SendingError(code) =>
      if ok then Emit(s, g, Error(gen.req.id, code), Returned) else Put(s, g, Quit(gen, SendFailed))
    case Sending(k) =>
      if gen.job.None? || k >= |ScriptOf(c, gen)| then s
      else if !ok then Put(s, g, Quit(gen, SendFailed))
      else Emit(s, g, ScriptOf(c, gen)[k], if k + 1 < |ScriptOf(c, gen)| then Checking(k + 1) else Returned)
    case _ => s
  }

  function Proceed(s: State, next: Next): State {
    s.(handler := match next case Launch(req) => WantInstall(req) case Shut => Down)
  }

  /** The handler's steps between two reads. */
  function HandlerStep(s: State): State {
    match s.handler
    case WantTake(next) => if s.mu.None? then s.(mu := Some(HandlerOwns), handler := Taking(next)) else s
    case Taking(next) => s.(mu := None, cur := None, handler := Took(next, s.cur))
    case Took(next, prev) =>
      if prev.None? then Proceed(s, next)
      else if prev.value < |s.gens|
      then Put(s, prev.value, s.gens[prev.value].(cancelled := true)).(handler := Waiting(next, prev.value))
      else s
    case Waiting(next, who) => if who < |s.gens| && s.gens[who].pc.Finished? then Proceed(s, next) else s
    case WantInstall(req) => if s.mu.None? then s.(mu := Some(HandlerOwns), handler := Installing(req)) else s
    case Installing(req) =>
      s.(mu := None, cur := Some(|s.gens|), handler := Launching,
         gens := s.gens + [Gen(req, Created, false, [], None, None, [], Ongoing)])
    case Launching =>
      if s.gens == [] then s else Goto(s, |s.gens| - 1, Start).(handler := Reading)
    case WantCancel(id) => if s.mu.None? then s.(mu := Some(HandlerOwns), handler := Cancelling(id)) else s
    case Cancelling(id) =>
      var released := s.(mu := None, handler := Reading);
      if s.cur.Some? && s.cur.value < |s.gens| && (id == "" || s.gens[s.cur.value].req.id == id)
      then Put(released, s.cur.value, s.gens[s.cur.value].(cancelled := true))
      else released
    case _ => s
  }

  /** The handler's own error message, which belongs to no generation. */
  function Complain(s: State, code: ErrorCode, ok: bool): State {
    if ok then s.(wire := s.wire + [Sent(None, Error("", code))]) else s
  }

  function OnRead(s: State, a: Action): State {
    match a
    case ReadGenerate(req) => s.(handler := WantTake(Launch(req)))
    case ReadCancel(id) => s.(handler := WantCancel(id))
    case ReadJunk(ok) => Complain(s, Internal, ok)
    case ReadOtherVersion(ok) => Complain(s, VersionMismatch, ok).(handler := WantTake(Shut))
    case ReadFailed => s.(handler := WantTake(Shut))
    case _ => s
  }

  function OnHello(s: State, a: Action): State {
    match a
    case Hello(man, ok) =>
      if man == map[] then Complain(s, ExpectedHello, ok).(handler := Down) else s.(man := man, handler := Reading)
    case BadHello(code, ok) => Complain(s, code, ok).(handler := Down)
    case ReadFailed => s.(handler := Down)
    case _ => s
  }

  /** One atomic step; an action that is not enabled changes nothing. */
  function Step(c: Config, s: State, a: Action): State {
    match a
    case HandlerRuns => HandlerStep(s)
    case ParentCancelled => s.(parentDone := true)
    case GenRuns(g) => if g < |s.gens| then GenStep(s, g) else s
    case ModelAnswers(g, reply) => if g < |s.gens| then OnModelAnswer(s, g, reply) else s
    case PlacementEnds(g, pick) => if g < |s.gens| then OnPlacementEnd(c, s, g, pick) else s
    case SendEnds(g, ok) => if g < |s.gens| then OnSendEnd(c, s, g, ok) else s
    case _ => if s.handler.Handshaking? then OnHello(s, a) else if s.handler.Reading? then OnRead(s, a) else s
  }

  /** A whole run: any interleaving of any actions. */
  function Run(c: Config, s: State, acts: seq<Action>): State
    decreases |acts|
  {
    if acts == [] then s else Run(c, Step(c, s, acts[0]), acts[1..])
  }
}

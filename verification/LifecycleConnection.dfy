/** How a connection begins and ends: the handshake, what is read, and shutting down. */
module LifecycleConnection {
  import opened Wire
  import opened Lifecycle
  import opened LifecycleInvariants
  import opened LifecycleFrames
  import opened Seqs

  /** The handler's error with the given code goes out, if the send succeeds, and nothing else. */
  predicate Answers(s: State, t: State, code: ErrorCode, ok: bool) {
    t.wire == s.wire + if ok then [Sent(None, Error("", code))] else []
  }

  /**
   The first frame decides: a hello with a manifest opens the connection; an empty manifest, anything that is
   not a hello, and another protocol version are answered with their error and end it; a failed read ends it
   without a word. Nothing is generated meanwhile.
   */
  lemma HandshakeDecides(c: Config, acts: seq<Action>, a: Action)
    requires After(c, acts).handler.Handshaking?
    ensures var s := After(c, acts);
            var t := Step(c, s, a);
            && s.gens == [] && t.gens == []
            && match a
               case Hello(man, ok) =>
                 if man != map[] then t.handler.Reading? && t.man == man && t.wire == s.wire
                 else t.handler.Down? && Answers(s, t, ExpectedHello, ok)
               case BadHello(code, ok) => t.handler.Down? && Answers(s, t, code, ok)
               case ReadFailed => t.handler.Down? && t.wire == s.wire
               case _ => t.handler.Handshaking? && t.man == s.man && t.wire == s.wire
  {
    Reached(c, acts);
  }

  lemma StepManifest(c: Config, s: State, a: Action)
    requires HolderInv(s)
    ensures Step(c, s, a).man == s.man || (a.Hello? && Step(c, s, a).man == a.man)
  {
    match a
    case HandlerRuns => if !s.handler.Installing? { HandlerFrame(s); }
    case GenRuns(g) => if g < |s.gens| { GenStepFrame(s, g); }
    case ModelAnswers(g, reply) => if g < |s.gens| { ModelAnswerFrame(s, g, reply); }
    case PlacementEnds(g, pick) => if g < |s.gens| { PlacementEndFrame(c, s, g, pick); }
    case SendEnds(g, ok) => if g < |s.gens| { SendEndFrame(c, s, g, ok); }
    case _ =>
  }

  lemma {:induction false} RunManifest(c: Config, s: State, acts: seq<Action>)
    requires Inv(c, s)
    ensures var t := Run(c, s, acts); t.man == s.man || exists a :: a in acts && a.Hello? && a.man == t.man
    decreases |acts|
  {
    if acts != [] {
      StepManifest(c, s, acts[0]);
      StepInv(c, s, acts[0]);
      RunManifest(c, Step(c, s, acts[0]), acts[1..]);
      assert acts[0] in acts;
    }
  }

  /** Generations run only with a manifest that a hello of this connection brought, and it is not empty. */
  lemma ManifestFromHello(c: Config, acts: seq<Action>)
    ensures var s := After(c, acts);
            s.gens != [] ==> s.man != map[] && exists a :: a in acts && a.Hello? && a.man == s.man
  {
    Reached(c, acts);
    InitInv(c);
    RunManifest(c, Init(), acts);
  }

  /** What a frame that is no request does: it is answered and reading goes on, unless the version is wrong or the read failed. */
  lemma ReadsDecide(c: Config, acts: seq<Action>, a: Action)
    requires After(c, acts).handler.Reading? && (a.ReadJunk? || a.ReadOtherVersion? || a.ReadFailed?)
    ensures var s := After(c, acts);
            var t := Step(c, s, a);
            && t.gens == s.gens && t.cur == s.cur
            && (a.ReadJunk? ==> t.handler.Reading? && Answers(s, t, Internal, a.ok))
            && (a.ReadOtherVersion? ==> t.handler == WantTake(Shut) && Answers(s, t, VersionMismatch, a.ok))
            && (a.ReadFailed? ==> t.handler == WantTake(Shut) && t.wire == s.wire)
  {
  }

  /** The handler is on its way out, or has returned. */
  predicate ShuttingDown(h: Handler) {
    match h
    case WantTake(next) => next.Shut?
    case Taking(next) => next.Shut?
    case Took(next, _) => next.Shut?
    case Waiting(next, _) => next.Shut?
    case Down => true
    case _ => false
  }

  lemma HandlerShuts(s: State)
    requires ShuttingDown(s.handler)
    ensures ShuttingDown(HandlerStep(s).handler) && |HandlerStep(s).gens| == |s.gens|
  {
  }

  lemma ShutStep(c: Config, s: State, a: Action)
    requires ShuttingDown(s.handler)
    ensures var t := Step(c, s, a); ShuttingDown(t.handler) && |t.gens| == |s.gens|
  {
    match a
    case HandlerRuns => HandlerShuts(s);
    case GenRuns(g) => if g < |s.gens| { GenStepFrame(s, g); }
    case ModelAnswers(g, reply) => if g < |s.gens| { ModelAnswerFrame(s, g, reply); }
    case PlacementEnds(g, pick) => if g < |s.gens| { PlacementEndFrame(c, s, g, pick); }
    case SendEnds(g, ok) => if g < |s.gens| { SendEndFrame(c, s, g, ok); }
    case _ =>
  }

  lemma {:induction false} ShutRun(c: Config, s: State, acts: seq<Action>)
    requires Inv(c, s) && ShuttingDown(s.handler)
    ensures var t := Run(c, s, acts); Inv(c, t) && ShuttingDown(t.handler) && |t.gens| == |s.gens|
    decreases |acts|
  {
    if acts != [] {
      ShutStep(c, s, acts[0]);
      StepInv(c, s, acts[0]);
      ShutRun(c, Step(c, s, acts[0]), acts[1..]);
    }
  }

  /** A handler that has returned leaves no generation that could still send or touch the lock. */
  lemma DownIsQuiet(c: Config, s: State, g: nat)
    requires Inv(c, s) && s.handler.Down? && g < |s.gens|
    ensures Past(s.gens[g].pc)
  {
  }

  /**
   A failed read or another version ends the connection for good: whatever happens afterwards the handler
   reads nothing more and starts nothing more, and once it has returned every generation is over.
   */
  lemma EndsForGood(c: Config, acts: seq<Action>, a: Action, more: seq<Action>)
    requires After(c, acts).handler.Reading? && (a.ReadFailed? || a.ReadOtherVersion?)
    ensures var s := After(c, acts);
            var t := Run(c, Step(c, s, a), more);
            && ShuttingDown(t.handler) && |t.gens| == |s.gens|
            && (t.handler.Down? ==> forall g | 0 <= g < |t.gens| :: Past(t.gens[g].pc))
  {
    Reached(c, acts);
    var s := After(c, acts);
    StepInv(c, s, a);
    ShutRun(c, Step(c, s, a), more);
    var t := Run(c, Step(c, s, a), more);
    if t.handler.Down? {
      forall g | 0 <= g < |t.gens| ensures Past(t.gens[g].pc) {
        DownIsQuiet(c, t, g);
      }
    }
  }

  /** A cancelled generation, or one whose connection's context is gone, stops at its next check without a word. */
  lemma CancelIsSeen(c: Config, acts: seq<Action>, g: nat)
    requires g < |After(c, acts).gens| && After(c, acts).gens[g].pc.Checking?
    requires After(c, acts).gens[g].cancelled || After(c, acts).parentDone
    ensures var s := After(c, acts);
            var t := Step(c, s, GenRuns(g));
            t.wire == s.wire && t.gens[g] == s.gens[g].(pc := Returned, stop := SawCancel)
  {
  }

  /** Otherwise the check passes. */
  lemma CheckPassesOtherwise(c: Config, acts: seq<Action>, g: nat)
    requires g < |After(c, acts).gens| && After(c, acts).gens[g].pc.Checking?
    requires !After(c, acts).gens[g].cancelled && !After(c, acts).parentDone
    ensures var s := After(c, acts);
            Step(c, s, GenRuns(g)).gens[g] == s.gens[g].(pc := Sending(s.gens[g].pc.k))
  {
  }

  /** A send that fails puts nothing on the wire and ends the generation's run. */
  lemma FailedSendEnds(c: Config, acts: seq<Action>, g: nat)
    requires g < |After(c, acts).gens|
    requires var gen := After(c, acts).gens[g]; gen.pc.SendingError? || gen.pc.Sending?
    ensures var s := After(c, acts);
            var t := Step(c, s, SendEnds(g, false));
            t.wire == s.wire && t.gens[g] == s.gens[g].(pc := Returned, stop := SendFailed)
  {
    SendsFromScript(c, acts, g);
  }

  lemma SendsFromScript(c: Config, acts: seq<Action>, g: nat)
    requires g < |After(c, acts).gens|
    ensures var gen := After(c, acts).gens[g]; gen.pc.Sending? ==> gen.job.Some? && gen.pc.k < |ScriptOf(c, gen)|
  {
    Reached(c, acts);
    var s := After(c, acts);
    assert GenInv(c, s.man, s.parentDone, s.gens[g]);
  }
}

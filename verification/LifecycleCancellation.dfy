/** What a generation may still send once it is cancelled, preempted or shut down. */
module LifecycleCancellation {
  import opened Seqs
  import opened Wire
  import opened Recipes
  import opened Streaming
  import opened Lifecycle
  import opened LifecycleInvariants
  import opened LifecycleFrames

  /** A cancelled generation can still send from here. */
  predicate MayStillSend(pc: Pc) {
    pc.Created? || pc.Start? || pc.Calling? || pc == Reporting(TimedOut) || pc.SendingError? || pc.Sending?
  }

  /** How many messages a cancelled generation can still send from here. */
  function LeftAfterCancel(pc: Pc): nat {
    if MayStillSend(pc) then 1 else 0
  }

  /** The one message a generation cancelled at gen0 may still send. */
  ghost predicate LastWord(c: Config, gen0: Gen, m: Message) {
    if gen0.pc.Sending?
    then gen0.job.Some? && gen0.pc.k < |ScriptOf(c, gen0)| && m == ScriptOf(c, gen0)[gen0.pc.k]
    else m.Error?
  }

  /** From gen0, cancelled, to gen: nothing was sent, or one message that was past its check, or one error. */
  ghost predicate AfterCancel(c: Config, gen0: Gen, gen: Gen) {
    || (gen.trace == gen0.trace && LeftAfterCancel(gen.pc) <= LeftAfterCancel(gen0.pc)
        && (gen.pc.Sending? ==> SameSend(gen0, gen))
        && (gen0.pc.Sending? ==> gen.pc.Sending? || LeftAfterCancel(gen.pc) == 0))
    || (LeftAfterCancel(gen.pc) == 0 && exists m :: gen.trace == gen0.trace + [m] && LastWord(c, gen0, m))
  }

  predicate SameSend(gen: Gen, gen': Gen) {
    gen'.pc == gen.pc && gen'.job == gen.job && gen'.req == gen.req
  }

  /** A cancelled generation moves without sending. */
  predicate QuietMove(gen: Gen, gen': Gen) {
    && gen'.trace == gen.trace && LeftAfterCancel(gen'.pc) <= LeftAfterCancel(gen.pc)
    && (gen'.pc.Sending? ==> SameSend(gen, gen'))
    && (gen.pc.Sending? ==> gen'.pc.Sending? || LeftAfterCancel(gen'.pc) == 0)
  }

  /** A cancelled generation sends m, and has nothing left to send. */
  ghost predicate LastMove(c: Config, gen: Gen, gen': Gen, m: Message) {
    && gen'.trace == gen.trace + [m] && LeftAfterCancel(gen'.pc) == 0
    && LeftAfterCancel(gen.pc) == 1 && LastWord(c, gen, m)
  }

  ghost predicate CancelledMove(c: Config, gen: Gen, gen': Gen) {
    QuietMove(gen, gen') || exists m :: LastMove(c, gen, gen', m)
  }

  lemma ExtendAfterCancel(c: Config, gen0: Gen, gen: Gen, gen': Gen)
    requires AfterCancel(c, gen0, gen) && CancelledMove(c, gen, gen')
    ensures AfterCancel(c, gen0, gen')
  {
    if !QuietMove(gen, gen') {
      var m :| LastMove(c, gen, gen', m);
      if gen.pc.Sending? {
        assert ScriptOf(c, gen) == ScriptOf(c, gen0);
      }
      assert LastWord(c, gen0, m);
    }
  }

  lemma CancelledResume(gen: Gen, noManifest: bool)
    ensures QuietMove(gen, Resume(gen, true, noManifest))
  {
  }

  lemma CancelledGenStep(s: State, g: nat)
    requires g < |s.gens| && CtxErr(s, g)
    ensures QuietMove(s.gens[g], GenStep(s, g).gens[g])
  {
    CancelledResume(s.gens[g], s.man == map[]);
  }

  lemma CancelledAnswer(s: State, g: nat, reply: LlmReply)
    requires g < |s.gens|
    ensures QuietMove(s.gens[g], OnModelAnswer(s, g, reply).gens[g])
  {
  }

  lemma CancelledPlacement(c: Config, s: State, g: nat, pick: int)
    requires g < |s.gens|
    ensures QuietMove(s.gens[g], OnPlacementEnd(c, s, g, pick).gens[g])
  {
    PlacementExits(c, s, g, pick);
    ExitIsQuiet(s.gens[g], OnPlacementEnd(c, s, g, pick).gens[g]);
  }

  lemma ExitIsQuiet(gen: Gen, gen': Gen)
    requires PlacementExit(gen, gen')
    ensures QuietMove(gen, gen')
  {
  }

  lemma CancelledSend(c: Config, s: State, g: nat, ok: bool)
    requires g < |s.gens|
    ensures CancelledMove(c, s.gens[g], OnSendEnd(c, s, g, ok).gens[g])
  {
    var gen, gen' := s.gens[g], OnSendEnd(c, s, g, ok).gens[g];
    if ok && gen.pc.SendingError? {
      assert LastMove(c, gen, gen', Error(gen.req.id, gen.pc.code));
    } else if ok && gen.pc.Sending? && gen' != gen {
      assert LastMove(c, gen, gen', ScriptOf(c, gen)[gen.pc.k]);
    }
  }

  lemma OwnCancelledStep(c: Config, s: State, a: Action, g: nat)
    requires g < |s.gens| && CtxErr(s, g) && About(a, g)
    ensures var t := Step(c, s, a); g < |t.gens| && CtxErr(t, g) && CancelledMove(c, s.gens[g], t.gens[g])
  {
    match a
    case GenRuns(_) => CancelledGenStep(s, g); StillCancelled(s, g);
    case ModelAnswers(_, reply) => CancelledAnswer(s, g, reply);
    case PlacementEnds(_, pick) => CancelledPlacement(c, s, g, pick); PlacementEndFrame(c, s, g, pick);
    case SendEnds(_, ok) => CancelledSend(c, s, g, ok);
  }

  /** What one step does to a cancelled generation, whoever takes it. */
  lemma CancelledStep(c: Config, s: State, a: Action, g: nat)
    requires HolderInv(s) && g < |s.gens| && CtxErr(s, g)
    ensures var t := Step(c, s, a); g < |t.gens| && CtxErr(t, g) && CancelledMove(c, s.gens[g], t.gens[g])
  {
    if About(a, g) {
      OwnCancelledStep(c, s, a, g);
    } else {
      OthersStep(c, s, a, g);
      var t := Step(c, s, a);
      assert HandlerMove(s.gens[g], t.gens[g]) && QuietMove(s.gens[g], t.gens[g]);
    }
  }

  lemma StillCancelled(s: State, g: nat)
    requires g < |s.gens| && CtxErr(s, g)
    ensures CtxErr(GenStep(s, g), g)
  {
  }

  lemma {:induction false} CancelledRun(c: Config, s: State, acts: seq<Action>, g: nat, gen0: Gen)
    requires Inv(c, s) && g < |s.gens| && CtxErr(s, g) && AfterCancel(c, gen0, s.gens[g])
    ensures var t := Run(c, s, acts); g < |t.gens| && AfterCancel(c, gen0, t.gens[g])
    decreases |acts|
  {
    if acts != [] {
      var t := Step(c, s, acts[0]);
      CancelledStep(c, s, acts[0], g);
      ExtendAfterCancel(c, gen0, s.gens[g], t.gens[g]);
      StepInv(c, s, acts[0]);
      CancelledRun(c, t, acts[1..], g, gen0);
    }
  }

  /**
   After its context is cancelled a generation sends at most one more message, however long the rest of
   the run: the message already past its check, or else a single error. In particular no complete
   follows a cancellation unless it was past its check when the cancellation came.
   */
  lemma AtMostOneMore(c: Config, acts: seq<Action>, more: seq<Action>, g: nat)
    requires g < |After(c, acts).gens| && CtxErr(After(c, acts), g)
    ensures var s := After(c, acts);
            var t := Run(c, s, more);
            && g < |t.gens|
            && (t.gens[g].trace == s.gens[g].trace
                || exists m :: t.gens[g].trace == s.gens[g].trace + [m] && LastWord(c, s.gens[g], m))
  {
    Reached(c, acts);
    CancelledRun(c, After(c, acts), more, g, After(c, acts).gens[g]);
  }

  lemma {:induction false} SilentRun(c: Config, s: State, acts: seq<Action>, g: nat)
    requires Inv(c, s) && g < |s.gens| && CtxErr(s, g) && LeftAfterCancel(s.gens[g].pc) == 0
    ensures var t := Run(c, s, acts); g < |t.gens| && t.gens[g].trace == s.gens[g].trace
    decreases |acts|
  {
    if acts != [] {
      CancelledStep(c, s, acts[0], g);
      StepInv(c, s, acts[0]);
      SilentRun(c, Step(c, s, acts[0]), acts[1..], g);
    }
  }

  /** more gets another message of generation g out. */
  ghost predicate Grows(c: Config, s: State, more: seq<Action>, g: nat)
    requires g < |s.gens|
  {
    var t := Run(c, s, more);
    g < |t.gens| && |t.gens[g].trace| > |s.gens[g].trace|
  }

  /** The steps to the next send of a cancelled generation that has one left. */
  function NextToSend(pc: Pc, g: nat): Action {
    match pc
    case Created => HandlerRuns
    case Start => GenRuns(g)
    case Calling(_) => ModelAnswers(g, DeadlineExceeded)
    case Reporting(_) => GenRuns(g)
    case _ => SendEnds(g, true)
  }

  function StepsToSend(pc: Pc): nat {
    match pc
    case Created => 4
    case Start => 3
    case Calling(_) => 2
    case Reporting(_) => 1
    case _ => 0
  }

  /** One step towards the next send. */
  ghost predicate Nearer(s: State, t: State, g: nat)
    requires g < |s.gens|
  {
    && g < |t.gens| && CtxErr(t, g) && MayStillSend(t.gens[g].pc) && t.gens[g].trace == s.gens[g].trace
    && StepsToSend(t.gens[g].pc) < StepsToSend(s.gens[g].pc)
  }

  lemma CreatedStarts(s: State, g: nat)
    requires HolderInv(s) && g < |s.gens| && CtxErr(s, g) && s.gens[g].pc.Created?
    ensures Nearer(s, HandlerStep(s), g)
  {
  }

  lemma CallTimesOut(s: State, g: nat)
    requires g < |s.gens| && CtxErr(s, g) && s.gens[g].pc.Calling?
    ensures Nearer(s, OnModelAnswer(s, g, DeadlineExceeded), g)
  {
  }

  lemma RunsOn(s: State, g: nat)
    requires g < |s.gens| && CtxErr(s, g) && s.man != map[] && (s.gens[g].pc.Start? || s.gens[g].pc == Reporting(TimedOut))
    ensures Nearer(s, GenStep(s, g), g)
  {
  }

  lemma TowardsSend(c: Config, s: State, g: nat)
    requires Inv(c, s) && g < |s.gens| && CtxErr(s, g) && MayStillSend(s.gens[g].pc) && StepsToSend(s.gens[g].pc) > 0
    ensures Nearer(s, Step(c, s, NextToSend(s.gens[g].pc, g)), g)
  {
    match s.gens[g].pc
    case Created => CreatedStarts(s, g);
    case Calling(_) => CallTimesOut(s, g);
    case _ => RunsOn(s, g);
  }

  lemma SendEmits(c: Config, s: State, g: nat)
    requires Inv(c, s) && g < |s.gens| && (s.gens[g].pc.Sending? || s.gens[g].pc.SendingError?)
    ensures var t := OnSendEnd(c, s, g, true); g < |t.gens| && |t.gens[g].trace| == |s.gens[g].trace| + 1
  {
    assert GenInv(c, s.man, s.parentDone, s.gens[g]);
  }

  lemma RunOne(c: Config, s: State, a: Action)
    ensures Run(c, s, [a]) == Step(c, s, a)
  {
    assert Run(c, s, [a]) == Run(c, Step(c, s, a), []);
  }

  lemma SendGrows(c: Config, s: State, g: nat)
    requires g < |s.gens|
    requires var t := OnSendEnd(c, s, g, true); g < |t.gens| && |t.gens[g].trace| == |s.gens[g].trace| + 1
    ensures Grows(c, s, [SendEnds(g, true)], g)
  {
    RunOne(c, s, SendEnds(g, true));
  }

  lemma SpeakUp(c: Config, s: State, g: nat) returns (more: seq<Action>)
    requires Inv(c, s) && g < |s.gens| && CtxErr(s, g) && MayStillSend(s.gens[g].pc)
    ensures Grows(c, s, more, g)
    decreases StepsToSend(s.gens[g].pc)
  {
    var a := NextToSend(s.gens[g].pc, g);
    if StepsToSend(s.gens[g].pc) == 0 {
      SendEmits(c, s, g);
      SendGrows(c, s, g);
      more := [a];
    } else {
      TowardsSend(c, s, g);
      StepInv(c, s, a);
      var rest := SpeakUp(c, Step(c, s, a), g);
      more := [a] + rest;
      assert more[1..] == rest;
    }
  }

  /**
   What a cancellation silences, exactly. A cancelled generation can still send something if and only if it
   is inside a send, or its model call may yet time out or has: a timeout is reported even then.
   */
  lemma SendsAfterCancelExactly(c: Config, acts: seq<Action>, g: nat)
    requires g < |After(c, acts).gens| && CtxErr(After(c, acts), g)
    ensures (exists more :: Grows(c, After(c, acts), more, g)) <==> MayStillSend(After(c, acts).gens[g].pc)
  {
    Reached(c, acts);
    var s := After(c, acts);
    if MayStillSend(s.gens[g].pc) {
      var more := SpeakUp(c, s, g);
    } else {
      forall more ensures !Grows(c, s, more, g) {
        SilentRun(c, s, more, g);
      }
    }
  }

  /** A generation that is cancelled while it places, or before its next context check, sends nothing more, ever. */
  lemma SilentUnlessSending(c: Config, acts: seq<Action>, more: seq<Action>, g: nat)
    requires g < |After(c, acts).gens| && CtxErr(After(c, acts), g) && !MayStillSend(After(c, acts).gens[g].pc)
    ensures var t := Run(c, After(c, acts), more);
            g < |t.gens| && t.gens[g].trace == After(c, acts).gens[g].trace
  {
    Reached(c, acts);
    SilentRun(c, After(c, acts), more, g);
  }

  /** The generation is inside the send of its complete. */
  predicate SendingComplete(c: Config, gen: Gen) {
    gen.pc.Sending? && gen.job.Some? && gen.pc.k == |ScriptOf(c, gen)| - 1
  }

  predicate HasComplete(trace: seq<Message>) {
    exists m :: m in trace && m.Complete?
  }

  lemma LastMessageIsComplete(c: Config, gen: Gen, k: nat)
    requires gen.job.Some? && k < |ScriptOf(c, gen)|
    ensures ScriptOf(c, gen)[k].Complete? <==> k == |ScriptOf(c, gen)| - 1
  {
    ScriptShape(gen.req.id, gen.job.value, c.chunkSize);
  }

  lemma CompleteGetsOut(c: Config, s: State, g: nat)
    requires g < |s.gens| && SendingComplete(c, s.gens[g])
    ensures var t := Run(c, s, [SendEnds(g, true)]); g < |t.gens| && HasComplete(t.gens[g].trace)
  {
    var gen := s.gens[g];
    var m := ScriptOf(c, gen)[gen.pc.k];
    LastMessageIsComplete(c, gen, gen.pc.k);
    RunOne(c, s, SendEnds(g, true));
    var t := OnSendEnd(c, s, g, true);
    assert t == Emit(s, g, m, Returned);
    assert m in t.gens[g].trace;
  }

  lemma OnlyACompleteInFlight(c: Config, gen: Gen, m: Message)
    requires LastWord(c, gen, m) && m.Complete?
    ensures SendingComplete(c, gen)
  {
    LastMessageIsComplete(c, gen, gen.pc.k);
  }

  lemma NewCompleteIsLastWord(before: seq<Message>, m: Message)
    requires !HasComplete(before) && HasComplete(before + [m])
    ensures m.Complete?
  {
    var done :| done in before + [m] && done.Complete?;
  }

  /** more gets a complete of generation g out. */
  ghost predicate Completes(c: Config, s: State, more: seq<Action>, g: nat) {
    var t := Run(c, s, more);
    g < |t.gens| && HasComplete(t.gens[g].trace)
  }

  lemma CompletesOnlyInFlight(c: Config, acts: seq<Action>, more: seq<Action>, g: nat)
    requires g < |After(c, acts).gens| && CtxErr(After(c, acts), g)
    requires !HasComplete(After(c, acts).gens[g].trace) && Completes(c, After(c, acts), more, g)
    ensures SendingComplete(c, After(c, acts).gens[g])
  {
    AtMostOneMore(c, acts, more, g);
    var gen := After(c, acts).gens[g];
    var m :| Run(c, After(c, acts), more).gens[g].trace == gen.trace + [m] && LastWord(c, gen, m);
    NewCompleteIsLastWord(gen.trace, m);
    OnlyACompleteInFlight(c, gen, m);
  }

  /**
   The documented rule that no complete follows a cancellation, exactly: a generation whose context is
   cancelled with complete not yet sent can still send it if and only if it is inside that very send.
   */
  lemma CompleteAfterCancelExactly(c: Config, acts: seq<Action>, g: nat)
    requires g < |After(c, acts).gens| && CtxErr(After(c, acts), g)
    requires !HasComplete(After(c, acts).gens[g].trace)
    ensures (exists more :: Completes(c, After(c, acts), more, g)) <==> SendingComplete(c, After(c, acts).gens[g])
  {
    var s := After(c, acts);
    if SendingComplete(c, s.gens[g]) {
      CompleteGetsOut(c, s, g);
      assert Completes(c, s, [SendEnds(g, true)], g);
    }
    forall more | Completes(c, s, more, g) ensures SendingComplete(c, s.gens[g]) {
      CompletesOnlyInFlight(c, acts, more, g);
    }
  }

  // ---- preemption and shutdown ----

  lemma PastOwnStep(c: Config, s: State, a: Action, g: nat)
    requires g < |s.gens| && Past(s.gens[g].pc) && About(a, g)
    ensures var t := Step(c, s, a); g < |t.gens| && Past(t.gens[g].pc) && t.gens[g].trace == s.gens[g].trace
  {
  }

  lemma PastStep(c: Config, s: State, a: Action, g: nat)
    requires HolderInv(s) && g < |s.gens| && Past(s.gens[g].pc)
    ensures var t := Step(c, s, a); g < |t.gens| && Past(t.gens[g].pc) && t.gens[g].trace == s.gens[g].trace
  {
    if About(a, g) {
      PastOwnStep(c, s, a, g);
    } else {
      OthersStep(c, s, a, g);
    }
  }

  lemma {:induction false} PastRun(c: Config, s: State, acts: seq<Action>, g: nat)
    requires Inv(c, s) && g < |s.gens| && Past(s.gens[g].pc)
    ensures var t := Run(c, s, acts); g < |t.gens| && Past(t.gens[g].pc) && t.gens[g].trace == s.gens[g].trace
    decreases |acts|
  {
    if acts != [] {
      PastStep(c, s, acts[0], g);
      StepInv(c, s, acts[0]);
      PastRun(c, Step(c, s, acts[0]), acts[1..], g);
    }
  }

  /** The handler has got past its wait, in Generate or in Shutdown, and g was launched before that. */
  predicate Superseded(s: State, g: nat) {
    g < |s.gens| && (g < |s.gens| - 1 || s.handler.WantInstall? || s.handler.Installing? || s.handler.Down?)
  }

  /** Once a preempting generate has passed its wait, or Shutdown has returned, older generations are silent for good. */
  lemma SupersededIsSilent(c: Config, acts: seq<Action>, more: seq<Action>, g: nat)
    requires Superseded(After(c, acts), g)
    ensures var t := Run(c, After(c, acts), more);
            g < |t.gens| && t.gens[g].trace == After(c, acts).gens[g].trace
  {
    Reached(c, acts);
    PastRun(c, After(c, acts), more, g);
  }

  // ---- a cancel that was read takes hold ----

  /** The handler is still busy with the cancel it read for id. */
  predicate Busy(h: Handler, id: string) {
    h == WantCancel(id) || h == Cancelling(id)
  }

  predicate Stopped(gen: Gen) {
    gen.cancelled || Past(gen.pc)
  }

  /** While a cancel for id is on its way, generation g is still its target, or is stopped already. */
  ghost predicate OnItsWay(s: State, g: nat, id: string) {
    && g < |s.gens|
    && (Stopped(s.gens[g])
        || (s.cur == Some(g) && Busy(s.handler, id) && (id == "" || s.gens[g].req.id == id)))
  }

  lemma StoppedStep(c: Config, s: State, a: Action, g: nat)
    requires HolderInv(s) && g < |s.gens| && Stopped(s.gens[g])
    ensures var t := Step(c, s, a); g < |t.gens| && Stopped(t.gens[g])
  {
    if Past(s.gens[g].pc) {
      PastStep(c, s, a, g);
    } else if About(a, g) {
      OwnStepIdentity(c, s, a, g);
    } else {
      OthersStep(c, s, a, g);
    }
  }

  lemma HandlerOnItsWay(s: State, g: nat, id: string)
    requires HolderInv(s) && OnItsWay(s, g, id) && !Stopped(s.gens[g])
    ensures OnItsWay(HandlerStep(s), g, id)
  {
  }

  /** A goroutine's own step takes it out of cur only when it is past. */
  lemma GenOnItsWay(s: State, h: nat, g: nat, id: string)
    requires HolderInv(s) && OnItsWay(s, g, id) && !Stopped(s.gens[g]) && h < |s.gens|
    ensures OnItsWay(GenStep(s, h), g, id)
  {
    GenStepIdentity(s, h);
    if h != g {
      assert Past(s.gens[h].pc);
    }
  }

  lemma StepOnItsWay(c: Config, s: State, a: Action, g: nat, id: string)
    requires HolderInv(s) && OnItsWay(s, g, id) && !Stopped(s.gens[g])
    ensures OnItsWay(Step(c, s, a), g, id)
  {
    match a
    case HandlerRuns => HandlerOnItsWay(s, g, id);
    case GenRuns(h) => if h < |s.gens| { GenOnItsWay(s, h, g, id); }
    case ModelAnswers(h, reply) => if h < |s.gens| { ModelAnswerFrame(s, h, reply); AnswerIdentity(s, h, reply); }
    case PlacementEnds(h, pick) => if h < |s.gens| { PlacementEndFrame(c, s, h, pick); PlacementIdentity(c, s, h, pick); }
    case SendEnds(h, ok) => if h < |s.gens| { SendEndFrame(c, s, h, ok); SendIdentity(c, s, h, ok); }
    case _ =>
  }

  lemma {:induction false} RunOnItsWay(c: Config, s: State, acts: seq<Action>, g: nat, id: string)
    requires Inv(c, s) && OnItsWay(s, g, id)
    ensures Inv(c, Run(c, s, acts)) && OnItsWay(Run(c, s, acts), g, id)
    decreases |acts|
  {
    if acts != [] {
      if Stopped(s.gens[g]) {
        StoppedStep(c, s, acts[0], g);
      } else {
        StepOnItsWay(c, s, acts[0], g, id);
      }
      StepInv(c, s, acts[0]);
      RunOnItsWay(c, Step(c, s, acts[0]), acts[1..], g, id);
    }
  }

  lemma {:induction false} StoppedRun(c: Config, s: State, acts: seq<Action>, g: nat)
    requires Inv(c, s) && g < |s.gens| && Stopped(s.gens[g])
    ensures var t := Run(c, s, acts); g < |t.gens| && Stopped(t.gens[g])
    decreases |acts|
  {
    if acts != [] {
      StoppedStep(c, s, acts[0], g);
      StepInv(c, s, acts[0]);
      StoppedRun(c, Step(c, s, acts[0]), acts[1..], g);
    }
  }

  /** A stopped generation sends at most one more message. */
  lemma StoppedSendsLittle(c: Config, s: State, more: seq<Action>, g: nat)
    requires Inv(c, s) && g < |s.gens| && Stopped(s.gens[g])
    ensures var t := Run(c, s, more);
            && g < |t.gens|
            && (t.gens[g].trace == s.gens[g].trace
                || exists m :: t.gens[g].trace == s.gens[g].trace + [m] && LastWord(c, s.gens[g], m))
  {
    if s.gens[g].cancelled {
      CancelledRun(c, s, more, g, s.gens[g]);
    } else {
      PastRun(c, s, more, g);
    }
  }

  /**
   A cancel takes hold. Let the handler read a cancel with no id, or with the id of the generation that is
   current. Once it is done with it, whatever happened meanwhile and whatever happens afterwards, that
   generation's context is cancelled or its run is over, and it sends at most one more message.
   */
  lemma CancelTakesHold(c: Config, acts: seq<Action>, id: string, meanwhile: seq<Action>, more: seq<Action>, g: nat)
    requires var s := After(c, acts);
             && s.handler.Reading? && s.cur == Some(g) && g < |s.gens| && (id == "" || s.gens[g].req.id == id)
    requires !Busy(Run(c, Step(c, After(c, acts), ReadCancel(id)), meanwhile).handler, id)
    ensures var t := Run(c, Step(c, After(c, acts), ReadCancel(id)), meanwhile);
            var u := Run(c, t, more);
            && g < |t.gens| && g < |u.gens| && Stopped(u.gens[g])
            && (u.gens[g].trace == t.gens[g].trace
                || exists m :: u.gens[g].trace == t.gens[g].trace + [m] && LastWord(c, t.gens[g], m))
  {
    Reached(c, acts);
    var s := Step(c, After(c, acts), ReadCancel(id));
    StepInv(c, After(c, acts), ReadCancel(id));
    RunOnItsWay(c, s, meanwhile, g, id);
    var t := Run(c, s, meanwhile);
    StoppedRun(c, t, more, g);
    StoppedSendsLittle(c, t, more, g);
  }
}

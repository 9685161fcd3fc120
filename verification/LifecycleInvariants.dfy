/** The inductive invariant of the lifecycle, kept by every step. */
module LifecycleInvariants {
  import opened Seqs
  import opened Wire
  import opened Placement
  import opened Recipes
  import opened RecipeProperties
  import opened Lifecycle

  /** run is over and cur is settled: the goroutine neither sends nor takes the lock again. */
  predicate Past(pc: Pc) {
    pc.Cleared? || pc.Closing? || pc.Finished?
  }

  /** The goroutine may still send. */
  predicate CanSend(pc: Pc) {
    !Past(pc) && !pc.Returned? && !pc.Locked?
  }

  /** The generation that counts as current: the one the handler has taken and waits out, or else cur. */
  function Holder(s: State): Option<nat> {
    match s.handler
    case Took(_, prev) => if prev.Some? then prev else s.cur
    case Waiting(_, who) => Some(who)
    case _ => s.cur
  }

  predicate HandlerInside(h: Handler) {
    h.Taking? || h.Installing? || h.Cancelling?
  }

  /** The mutex is held exactly by whoever is in a critical section. */
  ghost predicate LockInv(s: State) {
    && (s.mu == Some(HandlerOwns) <==> HandlerInside(s.handler))
    && (forall g | 0 <= g < |s.gens| :: s.mu == Some(GenOwns(g)) <==> s.gens[g].pc.Locked?)
    && (s.mu.Some? && s.mu.value.GenOwns? ==> s.mu.value.g < |s.gens|)
  }

  /** In these handler states cur is empty. */
  predicate CurEmpty(h: Handler) {
    h.Handshaking? || h.Took? || h.Waiting? || h.WantInstall? || h.Installing? || h.Down?
  }

  /** Every goroutine that is not past is the holder, and the holder is the newest generation. */
  ghost predicate HolderInv(s: State) {
    && (forall g | 0 <= g < |s.gens| :: Past(s.gens[g].pc) || Holder(s) == Some(g))
    && (Holder(s).Some? ==> Holder(s).value == |s.gens| - 1)
    && (CurEmpty(s.handler) ==> s.cur.None?)
    && (s.cur.Some? ==> s.cur.value < |s.gens| && !Past(s.gens[s.cur.value].pc))
    && (s.handler.Launching? ==> s.cur.Some? && s.gens[s.cur.value].pc.Created?)
    && (forall g | 0 <= g < |s.gens| :: s.gens[g].pc.Created? ==> s.handler.Launching?)
    && (s.handler.Handshaking? ==> s.gens == [])
    && (s.gens != [] ==> s.man != map[])
    && (!s.handler.Handshaking? && !s.handler.Down? ==> s.man != map[])
  }

  function From(g: nat): Sent -> bool {
    (m: Sent) => m.from == Some(g)
  }

  function Payload(m: Sent): Message {
    m.msg
  }

  /** What generation g has put on the wire. */
  function OnWire(s: State, g: nat): seq<Message> {
    Map(Payload, Filter(s.wire, From(g)))
  }

  /** Generations appear on the wire in launch order, and each one's messages are its trace. */
  ghost predicate WireInv(s: State) {
    && (forall i | 0 <= i < |s.wire| && s.wire[i].from.Some? :: s.wire[i].from.value < |s.gens|)
    && (forall i, j | 0 <= i < j < |s.wire| && s.wire[i].from.Some? && s.wire[j].from.Some? ::
          s.wire[i].from.value <= s.wire[j].from.value)
    && (forall g | 0 <= g < |s.gens| :: OnWire(s, g) == s.gens[g].trace)
    && (forall i | 0 <= i < |s.wire| && s.wire[i].from.None? :: s.wire[i].msg.Error? && s.wire[i].msg.id == "")
  }

  /** A recipe that passed validation and went through the hard caps. */
  ghost predicate Approved(items: seq<CategoryRecipe>, man: Manifest) {
    ValidRecipe(items, man) && WithinCaps(items)
  }

  lemma ClampApproves(items: seq<CategoryRecipe>, man: Manifest)
    requires ValidRecipe(items, man)
    ensures Approved(Clamped(items), man)
  {
    ClampKeepsValid(items, man);
    ClampMeetsCaps(items);
  }

  /** A job comes from a valid, capped recipe, placed with the request's seed or a server-chosen 53-bit one. */
  ghost predicate JobOk(c: Config, man: Manifest, gen: Gen) {
    gen.job.Some? ==>
      var job := gen.job.value;
      && Approved(job.items, man)
      && (gen.req.seed.Some? ==> job.seed == gen.req.seed.value)
      && (gen.req.seed.None? ==> FreshSeed(job.seed))
      && (exists draws :: PlaceByGrid(job.items, c.streamOf(job.seed), gen.req.bounds, man) == Placed(job.entries, draws))
  }

  predicate IsErrorTrace(gen: Gen) {
    |gen.trace| == 1 && gen.trace[0].Error? && gen.trace[0].id == gen.req.id
  }

  /** Before anything can be sent, or on the way to the one terminal error. */
  predicate Early(pc: Pc) {
    pc.Created? || pc.Start? || pc.Calling? || pc.Reporting? || pc.Placing? || pc.PlaceError? || pc.SendingError?
  }

  predicate Streams(pc: Pc) {
    pc.Checking? || pc.Sending?
  }

  /** What the trace looks like at each point of a run, script being what the whole run would send. */
  ghost predicate TraceInv(script: seq<Message>, gen: Gen) {
    if Early(gen.pc) then gen.job.None? && gen.trace == [] && gen.stop == Ongoing
    else if Streams(gen.pc) then
      gen.job.Some? && gen.pc.k < |script| && gen.trace == script[..gen.pc.k] && gen.stop == Ongoing
    else EndOk(script, gen)
  }

  /** A run ends with the whole script or a single error, unless it was cut short. */
  ghost predicate EndOk(script: seq<Message>, gen: Gen) {
    if gen.job.None?
    then (gen.stop == Ongoing && IsErrorTrace(gen)) || (gen.stop != Ongoing && gen.trace == [])
    else gen.trace <= script && (gen.stop == Ongoing <==> gen.trace == script)
  }

  function ScriptIfAny(c: Config, gen: Gen): seq<Message> {
    if gen.job.Some? then ScriptOf(c, gen) else []
  }

  ghost predicate GenInv(c: Config, man: Manifest, parentDone: bool, gen: Gen) {
    && JobOk(c, man, gen)
    && TraceInv(ScriptIfAny(c, gen), gen)
    && (gen.pc.Calling? ==> gen.pc.attempt < 2)
    && (gen.pc.Placing? ==> Approved(gen.pc.items, man))
    && (gen.stop == SawCancel ==> gen.cancelled || parentDone)
  }

  ghost predicate GensInv(c: Config, s: State) {
    forall g | 0 <= g < |s.gens| :: GenInv(c, s.man, s.parentDone, s.gens[g])
  }

  ghost predicate Inv(c: Config, s: State) {
    LockInv(s) && HolderInv(s) && WireInv(s) && GensInv(c, s)
  }

  lemma InitInv(c: Config)
    ensures Inv(c, Init())
  {
  }

  /** Replacing one generation's record without touching its trace leaves the wire invariant alone. */
  lemma WireFrame(s: State, t: State)
    requires WireInv(s) && t.wire == s.wire && |t.gens| == |s.gens|
    requires forall g | 0 <= g < |s.gens| :: t.gens[g].trace == s.gens[g].trace
    ensures WireInv(t)
  {
    forall g | 0 <= g < |t.gens| ensures OnWire(t, g) == t.gens[g].trace {
      assert OnWire(s, g) == s.gens[g].trace;
    }
  }

  lemma EmitWire(s: State, g: nat, m: Message, pc: Pc)
    requires WireInv(s) && g == |s.gens| - 1
    ensures WireInv(Emit(s, g, m, pc))
  {
    var t := Emit(s, g, m, pc);
    forall h | 0 <= h < |t.gens| ensures OnWire(t, h) == t.gens[h].trace {
      FilterPush(s.wire, Sent(Some(g), m), From(h));
      MapAppend(Payload, Filter(s.wire, From(h)), [Sent(Some(g), m)]);
      assert OnWire(s, h) == s.gens[h].trace;
    }
  }

  lemma ComplainWire(s: State, t: State, code: ErrorCode, ok: bool)
    requires WireInv(s) && t.gens == s.gens && t.wire == Complain(s, code, ok).wire
    ensures WireInv(t)
  {
    forall h | 0 <= h < |t.gens| ensures OnWire(t, h) == t.gens[h].trace {
      assert OnWire(s, h) == s.gens[h].trace;
      if ok {
        FilterPush(s.wire, Sent(None, Error("", code)), From(h));
      }
    }
  }

  /** A pc that neither holds the lock, nor waits to be started, nor is past. */
  predicate Plain(pc: Pc) {
    !pc.Locked? && !pc.Created? && !Past(pc)
  }

  /** t differs from s only in generation g's record, the lock, cur, the handler and the wire. */
  ghost predicate OnlyGen(s: State, t: State, g: nat) {
    && g < |s.gens| == |t.gens| && t.man == s.man && t.parentDone == s.parentDone
    && (forall h | 0 <= h < |s.gens| && h != g :: t.gens[h] == s.gens[h])
  }

  lemma SkeletonFrame(s: State, t: State, g: nat)
    requires LockInv(s) && HolderInv(s) && OnlyGen(s, t, g)
    requires t.mu == s.mu && t.cur == s.cur && t.handler == s.handler
    requires t.gens[g].pc == s.gens[g].pc || (Plain(s.gens[g].pc) && Plain(t.gens[g].pc))
          || (Past(s.gens[g].pc) && Past(t.gens[g].pc))
    ensures LockInv(t) && HolderInv(t)
  {
  }

  lemma GensFrame(c: Config, s: State, t: State, g: nat)
    requires GensInv(c, s) && OnlyGen(s, t, g)
    requires GenInv(c, s.man, s.parentDone, t.gens[g])
    ensures GensInv(c, t)
  {
    forall h | 0 <= h < |t.gens| ensures GenInv(c, t.man, t.parentDone, t.gens[h]) {
      assert GenInv(c, s.man, s.parentDone, s.gens[h]);
    }
  }

  lemma QuietInv(c: Config, s: State, t: State, g: nat)
    requires Inv(c, s) && OnlyGen(s, t, g) && t.wire == s.wire
    requires LockInv(t) && HolderInv(t)
    requires GenInv(c, s.man, s.parentDone, t.gens[g]) && t.gens[g].trace == s.gens[g].trace
    ensures Inv(c, t)
  {
    WireFrame(s, t);
    GensFrame(c, s, t, g);
  }

  /** Moving within a phase keeps the trace invariant. */
  lemma PhaseKeepsTrace(script: seq<Message>, gen: Gen, pc: Pc)
    requires TraceInv(script, gen)
    requires Early(gen.pc) == Early(pc) && Streams(gen.pc) == Streams(pc)
    requires Streams(pc) ==> pc.k == gen.pc.k
    ensures TraceInv(script, gen.(pc := pc))
  {
  }

  /** Stopping early keeps it. */
  lemma HaltKeepsTrace(script: seq<Message>, gen: Gen, why: Stop)
    requires TraceInv(script, gen) && why != Ongoing && (Early(gen.pc) || Streams(gen.pc))
    ensures TraceInv(script, gen.(pc := Returned, stop := why))
  {
    if Streams(gen.pc) {
      assert |gen.trace| < |script|;
    }
  }

  /** Sending message k extends the sent prefix of the script by that message. */
  lemma SendKeepsTrace(script: seq<Message>, gen: Gen)
    requires TraceInv(script, gen) && gen.pc.Sending?
    ensures var k := gen.pc.k;
            TraceInv(script, gen.(trace := gen.trace + [script[k]],
                                  pc := if k + 1 < |script| then Checking(k + 1) else Returned))
  {
    var k := gen.pc.k;
    assert script[..k] + [script[k]] == script[..k + 1];
    if k + 1 == |script| {
      assert script[..k + 1] == script;
    }
  }

  lemma ResumeKeepsTrace(script: seq<Message>, gen: Gen, ctxErr: bool, noManifest: bool)
    requires TraceInv(script, gen)
    ensures var gen' := Resume(gen, ctxErr, noManifest);
            TraceInv(script, gen') && gen'.trace == gen.trace && gen'.job == gen.job && gen'.req == gen.req
  {
    var gen' := Resume(gen, ctxErr, noManifest);
    if gen' == Quit(gen, SawCancel) && (Early(gen.pc) || Streams(gen.pc)) {
      HaltKeepsTrace(script, gen, SawCancel);
    } else {
      PhaseKeepsTrace(script, gen, gen'.pc);
    }
  }

  lemma ResumeKeepsGen(c: Config, man: Manifest, parentDone: bool, gen: Gen, ctxErr: bool, noManifest: bool)
    requires GenInv(c, man, parentDone, gen)
    requires Early(gen.pc) || Streams(gen.pc) ==> ctxErr == (gen.cancelled || parentDone)
    ensures GenInv(c, man, parentDone, Resume(gen, ctxErr, noManifest))
    ensures Resume(gen, ctxErr, noManifest).trace == gen.trace
  {
    ResumeKeepsTrace(ScriptIfAny(c, gen), gen, ctxErr, noManifest);
    assert ScriptIfAny(c, Resume(gen, ctxErr, noManifest)) == ScriptIfAny(c, gen);
  }

  lemma ResumeSkeleton(gen: Gen, ctxErr: bool, noManifest: bool)
    requires !gen.pc.Returned? && !gen.pc.Locked?
    ensures var pc := Resume(gen, ctxErr, noManifest).pc;
            pc == gen.pc || (Plain(gen.pc) && Plain(pc)) || (Past(gen.pc) && Past(pc))
  {
  }

  lemma AcquireSkeleton(s: State, g: nat)
    requires LockInv(s) && HolderInv(s) && g < |s.gens| && s.gens[g].pc.Returned?
    ensures LockInv(GenStep(s, g)) && HolderInv(GenStep(s, g))
  {
  }

  lemma ReleaseSkeleton(s: State, g: nat)
    requires LockInv(s) && HolderInv(s) && g < |s.gens| && s.gens[g].pc.Locked?
    ensures LockInv(GenStep(s, g)) && HolderInv(GenStep(s, g))
  {
  }

  lemma ResumeInv(c: Config, s: State, g: nat)
    requires Inv(c, s) && g < |s.gens| && !s.gens[g].pc.Returned? && !s.gens[g].pc.Locked?
    ensures Inv(c, Put(s, g, Resume(s.gens[g], CtxErr(s, g), s.man == map[])))
  {
    var gen, ctxErr, noManifest := s.gens[g], CtxErr(s, g), s.man == map[];
    var t := Put(s, g, Resume(gen, ctxErr, noManifest));
    assert GenInv(c, s.man, s.parentDone, gen);
    ResumeKeepsGen(c, s.man, s.parentDone, gen, ctxErr, noManifest);
    ResumeSkeleton(gen, ctxErr, noManifest);
    SkeletonFrame(s, t, g);
    QuietInv(c, s, t, g);
  }

  /** Taking or releasing the lock at the end of a run changes nothing a generation's own invariant sees. */
  lemma LockKeepsGen(c: Config, man: Manifest, parentDone: bool, gen: Gen, pc: Pc)
    requires GenInv(c, man, parentDone, gen)
    requires (gen.pc.Returned? && (pc.Returned? || pc.Locked?)) || (gen.pc.Locked? && pc.Cleared?)
    ensures GenInv(c, man, parentDone, gen.(pc := pc))
  {
    PhaseKeepsTrace(ScriptIfAny(c, gen), gen, pc);
    assert ScriptIfAny(c, gen.(pc := pc)) == ScriptIfAny(c, gen);
  }

  lemma LockStepFrame(s: State, g: nat)
    requires g < |s.gens| && (s.gens[g].pc.Returned? || s.gens[g].pc.Locked?)
    ensures var t := GenStep(s, g);
            && OnlyGen(s, t, g) && t.wire == s.wire && t.gens[g] == s.gens[g].(pc := t.gens[g].pc)
            && (s.gens[g].pc.Returned? ==> t.gens[g].pc.Returned? || t.gens[g].pc.Locked?)
            && (s.gens[g].pc.Locked? ==> t.gens[g].pc.Cleared?)
  {
  }

  lemma LockStepInv(c: Config, s: State, g: nat)
    requires Inv(c, s) && g < |s.gens| && (s.gens[g].pc.Returned? || s.gens[g].pc.Locked?)
    ensures Inv(c, GenStep(s, g))
  {
    var t := GenStep(s, g);
    assert GenInv(c, s.man, s.parentDone, s.gens[g]);
    LockStepFrame(s, g);
    LockKeepsGen(c, s.man, s.parentDone, s.gens[g], t.gens[g].pc);
    if s.gens[g].pc.Returned? {
      AcquireSkeleton(s, g);
    } else {
      ReleaseSkeleton(s, g);
    }
    QuietInv(c, s, t, g);
  }

  lemma GenStepInv(c: Config, s: State, g: nat)
    requires Inv(c, s) && g < |s.gens|
    ensures Inv(c, GenStep(s, g))
  {
    if s.gens[g].pc.Returned? || s.gens[g].pc.Locked? {
      LockStepInv(c, s, g);
    } else {
      ResumeInv(c, s, g);
    }
  }

  lemma AnswerKeepsGen(c: Config, s: State, g: nat, reply: LlmReply)
    requires g < |s.gens| && GenInv(c, s.man, s.parentDone, s.gens[g])
    ensures GenInv(c, s.man, s.parentDone, OnModelAnswer(s, g, reply).gens[g])
    ensures OnModelAnswer(s, g, reply).gens[g].trace == s.gens[g].trace
  {
    var gen, t := s.gens[g], OnModelAnswer(s, g, reply);
    PhaseKeepsTrace(ScriptIfAny(c, gen), gen, t.gens[g].pc);
    AcceptedIsValid(reply, s.man);
    var call := Judge(reply, s.man);
    if call.Accept? {
      ClampApproves(call.items, s.man);
    }
  }

  lemma ModelAnswerFrame(s: State, g: nat, reply: LlmReply)
    requires g < |s.gens|
    ensures var t := OnModelAnswer(s, g, reply);
            && OnlyGen(s, t, g) && t.wire == s.wire && t.handler == s.handler && t.mu == s.mu && t.cur == s.cur
            && (t.gens[g].pc == s.gens[g].pc || (Plain(s.gens[g].pc) && Plain(t.gens[g].pc)))
  {
  }

  lemma ModelAnswerInv(c: Config, s: State, g: nat, reply: LlmReply)
    requires Inv(c, s) && g < |s.gens|
    ensures Inv(c, OnModelAnswer(s, g, reply))
  {
    assert GenInv(c, s.man, s.parentDone, s.gens[g]);
    AnswerKeepsGen(c, s, g, reply);
    ModelAnswerFrame(s, g, reply);
    SkeletonFrame(s, OnModelAnswer(s, g, reply), g);
    QuietInv(c, s, OnModelAnswer(s, g, reply), g);
  }

  lemma ScriptNonEmpty(c: Config, gen: Gen)
    requires gen.job.Some?
    ensures |ScriptOf(c, gen)| > 0
  {
  }

  lemma PlacementKeepsGen(c: Config, s: State, g: nat, pick: int)
    requires g < |s.gens| && GenInv(c, s.man, s.parentDone, s.gens[g])
    ensures GenInv(c, s.man, s.parentDone, OnPlacementEnd(c, s, g, pick).gens[g])
    ensures OnPlacementEnd(c, s, g, pick).gens[g].trace == s.gens[g].trace
  {
    var gen := OnPlacementEnd(c, s, g, pick).gens[g];
    if gen.job.Some? {
      ScriptNonEmpty(c, gen);
    }
  }

  lemma PlacementEndFrame(c: Config, s: State, g: nat, pick: int)
    requires g < |s.gens|
    ensures var t := OnPlacementEnd(c, s, g, pick);
            && OnlyGen(s, t, g) && t.wire == s.wire && t.handler == s.handler && t.mu == s.mu && t.cur == s.cur
            && (t.gens[g].pc == s.gens[g].pc || (Plain(s.gens[g].pc) && Plain(t.gens[g].pc)))
  {
  }

  lemma PlacementEndInv(c: Config, s: State, g: nat, pick: int)
    requires Inv(c, s) && g < |s.gens|
    ensures Inv(c, OnPlacementEnd(c, s, g, pick))
  {
    assert GenInv(c, s.man, s.parentDone, s.gens[g]);
    PlacementKeepsGen(c, s, g, pick);
    PlacementEndFrame(c, s, g, pick);
    SkeletonFrame(s, OnPlacementEnd(c, s, g, pick), g);
    QuietInv(c, s, OnPlacementEnd(c, s, g, pick), g);
  }

  lemma SendKeepsGen(c: Config, s: State, g: nat, ok: bool)
    requires g < |s.gens| && GenInv(c, s.man, s.parentDone, s.gens[g])
    ensures GenInv(c, s.man, s.parentDone, OnSendEnd(c, s, g, ok).gens[g])
  {
    var gen := s.gens[g];
    var script := ScriptIfAny(c, gen);
    if gen.pc.SendingError? || gen.pc.Sending? {
      if !ok {
        HaltKeepsTrace(script, gen, SendFailed);
      } else if gen.pc.Sending? {
        SendKeepsTrace(script, gen);
      }
    }
  }

  lemma SendEndFrame(c: Config, s: State, g: nat, ok: bool)
    requires g < |s.gens|
    ensures var t := OnSendEnd(c, s, g, ok);
            && OnlyGen(s, t, g) && t.handler == s.handler && t.mu == s.mu && t.cur == s.cur
            && (t.gens[g].pc == s.gens[g].pc || (Plain(s.gens[g].pc) && Plain(t.gens[g].pc)))
            && ((t.wire == s.wire && t.gens[g].trace == s.gens[g].trace)
                || exists m :: t == Emit(s, g, m, t.gens[g].pc) && CanSend(s.gens[g].pc))
  {
    var gen, t := s.gens[g], OnSendEnd(c, s, g, ok);
    if ok && gen.pc.SendingError? {
      assert t == Emit(s, g, Error(gen.req.id, gen.pc.code), t.gens[g].pc);
    } else if t.wire != s.wire {
      assert t == Emit(s, g, ScriptOf(c, gen)[gen.pc.k], t.gens[g].pc);
    }
  }

  lemma SendEndInv(c: Config, s: State, g: nat, ok: bool)
    requires Inv(c, s) && g < |s.gens|
    ensures Inv(c, OnSendEnd(c, s, g, ok))
  {
    var t := OnSendEnd(c, s, g, ok);
    assert GenInv(c, s.man, s.parentDone, s.gens[g]);
    SendKeepsGen(c, s, g, ok);
    SendEndFrame(c, s, g, ok);
    SkeletonFrame(s, t, g);
    if t.wire == s.wire && t.gens[g].trace == s.gens[g].trace {
      QuietInv(c, s, t, g);
    } else {
      var m :| t == Emit(s, g, m, t.gens[g].pc);
      GensFrame(c, s, t, g);
      EmitWire(s, g, m, t.gens[g].pc);
    }
  }

  lemma HandlerAcquires(s: State)
    requires LockInv(s) && HolderInv(s)
    requires s.handler.WantTake? || s.handler.WantInstall? || s.handler.WantCancel?
    ensures LockInv(HandlerStep(s)) && HolderInv(HandlerStep(s))
  {
  }

  lemma HandlerTakes(s: State)
    requires LockInv(s) && HolderInv(s) && s.handler.Taking?
    ensures LockInv(HandlerStep(s)) && HolderInv(HandlerStep(s))
  {
  }

  lemma HandlerCancelsOld(s: State)
    requires LockInv(s) && HolderInv(s) && s.handler.Took?
    ensures LockInv(HandlerStep(s)) && HolderInv(HandlerStep(s))
  {
  }

  lemma HandlerStopsWaiting(s: State)
    requires LockInv(s) && HolderInv(s) && s.handler.Waiting?
    ensures LockInv(HandlerStep(s)) && HolderInv(HandlerStep(s))
  {
  }

  lemma HandlerInstalls(s: State)
    requires LockInv(s) && HolderInv(s) && s.handler.Installing?
    ensures LockInv(HandlerStep(s)) && HolderInv(HandlerStep(s))
  {
  }

  lemma HandlerLaunches(s: State)
    requires LockInv(s) && HolderInv(s) && s.handler.Launching?
    ensures LockInv(HandlerStep(s)) && HolderInv(HandlerStep(s))
  {
  }

  lemma HandlerCancels(s: State)
    requires LockInv(s) && HolderInv(s) && s.handler.Cancelling?
    ensures LockInv(HandlerStep(s)) && HolderInv(HandlerStep(s))
  {
  }

  lemma HandlerSkeleton(s: State)
    requires LockInv(s) && HolderInv(s)
    ensures LockInv(HandlerStep(s)) && HolderInv(HandlerStep(s))
  {
    match s.handler
    case WantTake(_) => HandlerAcquires(s);
    case WantInstall(_) => HandlerAcquires(s);
    case WantCancel(_) => HandlerAcquires(s);
    case Taking(_) => HandlerTakes(s);
    case Took(_, _) => HandlerCancelsOld(s);
    case Waiting(_, _) => HandlerStopsWaiting(s);
    case Installing(_) => HandlerInstalls(s);
    case Launching => HandlerLaunches(s);
    case Cancelling(_) => HandlerCancels(s);
    case _ =>
  }

  lemma InstallWire(s: State, t: State, gen: Gen)
    requires WireInv(s) && t.wire == s.wire && t.gens == s.gens + [gen] && gen.trace == []
    ensures WireInv(t)
  {
    forall g | 0 <= g < |t.gens| ensures OnWire(t, g) == t.gens[g].trace {
      if g == |s.gens| {
        forall m | m in s.wire ensures !From(g)(m) {
          var i :| 0 <= i < |s.wire| && s.wire[i] == m;
        }
        FilterNone(s.wire, From(g));
      } else {
        assert OnWire(s, g) == s.gens[g].trace;
      }
    }
  }

  /** The handler changes a generation's record only by cancelling it or by starting it. */
  predicate HandlerMove(gen: Gen, gen': Gen) {
    || gen' == gen
    || gen' == gen.(cancelled := true)
    || (gen.pc.Created? && gen' == gen.(pc := Start))
  }

  lemma HandlerFrame(s: State)
    requires HolderInv(s) && !s.handler.Installing?
    ensures var t := HandlerStep(s);
            && |t.gens| == |s.gens| && t.wire == s.wire && t.man == s.man && t.parentDone == s.parentDone
            && forall g | 0 <= g < |s.gens| :: HandlerMove(s.gens[g], t.gens[g])
  {
    var t := HandlerStep(s);
    if !s.handler.Took? && !s.handler.Launching? && !s.handler.Cancelling? {
      assert t.gens == s.gens;
    }
  }

  lemma MoveKeepsGen(c: Config, man: Manifest, parentDone: bool, gen: Gen, gen': Gen)
    requires GenInv(c, man, parentDone, gen) && HandlerMove(gen, gen')
    ensures GenInv(c, man, parentDone, gen') && gen'.trace == gen.trace
  {
    assert ScriptIfAny(c, gen') == ScriptIfAny(c, gen);
  }

  lemma HandlerMovesInv(c: Config, s: State, t: State)
    requires Inv(c, s) && LockInv(t) && HolderInv(t)
    requires |t.gens| == |s.gens| && t.wire == s.wire && t.man == s.man && t.parentDone == s.parentDone
    requires forall g | 0 <= g < |s.gens| :: HandlerMove(s.gens[g], t.gens[g])
    ensures Inv(c, t)
  {
    forall g | 0 <= g < |t.gens|
      ensures GenInv(c, t.man, t.parentDone, t.gens[g]) && t.gens[g].trace == s.gens[g].trace
    {
      MoveKeepsGen(c, s.man, s.parentDone, s.gens[g], t.gens[g]);
    }
    WireFrame(s, t);
  }

  lemma InstallInv(c: Config, s: State)
    requires Inv(c, s) && s.handler.Installing?
    ensures Inv(c, HandlerStep(s))
  {
    var t := HandlerStep(s);
    HandlerInstalls(s);
    InstallWire(s, t, Gen(s.handler.req, Created, false, [], None, None, [], Ongoing));
    forall h | 0 <= h < |t.gens| ensures GenInv(c, t.man, t.parentDone, t.gens[h]) {
      if h < |s.gens| {
        assert GenInv(c, s.man, s.parentDone, s.gens[h]);
      }
    }
  }

  lemma HandlerStepInv(c: Config, s: State)
    requires Inv(c, s)
    ensures Inv(c, HandlerStep(s))
  {
    if s.handler.Installing? {
      InstallInv(c, s);
    } else {
      HandlerSkeleton(s);
      HandlerFrame(s);
      HandlerMovesInv(c, s, HandlerStep(s));
    }
  }

  /** The actions a read of the socket produces. */
  predicate IsInput(a: Action) {
    !(a.HandlerRuns? || a.ParentCancelled? || a.GenRuns? || a.ModelAnswers? || a.PlacementEnds? || a.SendEnds?)
  }

  lemma ReadSkeleton(s: State, t: State)
    requires LockInv(s) && HolderInv(s) && s.handler.Reading?
    requires t == s.(handler := t.handler, wire := t.wire)
    requires t.handler.Reading? || t.handler.WantTake? || t.handler.WantCancel?
    ensures LockInv(t) && HolderInv(t)
  {
  }

  lemma ReadInv(c: Config, s: State, a: Action)
    requires Inv(c, s) && IsInput(a) && s.handler.Reading?
    ensures Inv(c, OnRead(s, a))
  {
    var t := OnRead(s, a);
    match a {
      case ReadJunk(ok) => ComplainWire(s, t, Internal, ok);
      case ReadOtherVersion(ok) => ComplainWire(s, t, VersionMismatch, ok);
      case _ => WireFrame(s, t);
    }
    ReadSkeleton(s, t);
    assert GensInv(c, t);
  }

  lemma HelloSkeleton(s: State, t: State)
    requires LockInv(s) && HolderInv(s) && s.handler.Handshaking?
    requires t == s.(man := t.man, handler := t.handler, wire := t.wire)
    requires (t.handler.Handshaking? && t.man == s.man) || t.handler.Down? || (t.handler.Reading? && t.man != map[])
    ensures LockInv(t) && HolderInv(t) && t.gens == []
  {
  }

  lemma HelloInv(c: Config, s: State, a: Action)
    requires Inv(c, s) && IsInput(a) && s.handler.Handshaking?
    ensures Inv(c, OnHello(s, a))
  {
    var t := OnHello(s, a);
    HelloSkeleton(s, t);
    match a {
      case Hello(man, ok) => ComplainWire(s, t, ExpectedHello, ok && man == map[]);
      case BadHello(code, ok) => ComplainWire(s, t, code, ok);
      case _ => WireFrame(s, t);
    }
  }

  lemma InputInv(c: Config, s: State, a: Action)
    requires Inv(c, s) && IsInput(a)
    ensures Inv(c, Step(c, s, a))
  {
    if s.handler.Handshaking? {
      HelloInv(c, s, a);
      assert Step(c, s, a) == OnHello(s, a);
    } else if s.handler.Reading? {
      ReadInv(c, s, a);
      assert Step(c, s, a) == OnRead(s, a);
    }
  }

  lemma ParentInv(c: Config, s: State)
    requires Inv(c, s)
    ensures Inv(c, s.(parentDone := true))
  {
    var t := s.(parentDone := true);
    WireFrame(s, t);
    forall h | 0 <= h < |t.gens| ensures GenInv(c, t.man, t.parentDone, t.gens[h]) {
      assert GenInv(c, s.man, s.parentDone, s.gens[h]);
    }
  }

  lemma GenActionInv(c: Config, s: State, a: Action)
    requires Inv(c, s)
    requires a.GenRuns? || a.ModelAnswers? || a.PlacementEnds? || a.SendEnds?
    ensures Inv(c, Step(c, s, a))
  {
    if a.g < |s.gens| {
      match a
      case GenRuns(g) => GenStepInv(c, s, g);
      case ModelAnswers(g, reply) => ModelAnswerInv(c, s, g, reply);
      case PlacementEnds(g, pick) => PlacementEndInv(c, s, g, pick);
      case SendEnds(g, ok) => SendEndInv(c, s, g, ok);
    }
  }

  /** Every step keeps the invariant. */
  lemma StepInv(c: Config, s: State, a: Action)
    requires Inv(c, s)
    ensures Inv(c, Step(c, s, a))
  {
    if IsInput(a) {
      InputInv(c, s, a);
    } else if a.HandlerRuns? {
      HandlerStepInv(c, s);
    } else if a.ParentCancelled? {
      ParentInv(c, s);
    } else {
      GenActionInv(c, s, a);
    }
  }

  lemma {:induction false} RunInv(c: Config, s: State, acts: seq<Action>)
    requires Inv(c, s)
    ensures Inv(c, Run(c, s, acts))
    decreases |acts|
  {
    if acts != [] {
      StepInv(c, s, acts[0]);
      RunInv(c, Step(c, s, acts[0]), acts[1..]);
    }
  }
}

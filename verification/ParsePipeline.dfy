/**
 The client's receive path: the game thread queues raw frames, background workers parse them one owner
 at a time, and the game thread dispatches the results. Queue operations and operations on the flag are
 atomic; any number of workers may be in flight, most of them past the release of the flag.
 */
module ParsePipeline {
  import opened Seqs

  datatype Worker<F> =
    | Draining            // holds the flag, about to dequeue
    | Holding(frame: F)   // holds the flag, about to queue the parse of frame
    | Emptied             // holds the flag, saw an empty queue, about to release
    | Released            // about to look at the queue again
    | Retrying            // saw work after its release, about to try for the flag
    | Gone

  datatype Game = Idle | Enqueued | Dispatching

  datatype State<F, M> = State(raw: seq<F>, parsed: seq<M>, flag: bool, workers: seq<Worker<F>>, game: Game,
                               received: seq<F>, dispatched: seq<M>)

  datatype Action<F> =
    | Frame(current: bool, frame: F)   // a socket callback, from the current socket or a replaced one
    | Kick                             // the game thread's attempt to take the flag for a new worker
    | Tick                             // DispatchTick starts
    | Dispatch                         // one round of its loop
    | Work(w: nat)                     // worker w's next step

  function Init<F, M>(): State<F, M> {
    State([], [], false, [], Idle, [], [])
  }

  function Put<F, M>(s: State<F, M>, w: nat, to: Worker<F>): State<F, M>
    requires w < |s.workers|
  {
    s.(workers := s.workers[w := to])
  }

  /** One step of ParseWorker. */
  function WorkerStep<F, M>(s: State<F, M>, parse: F -> M, w: nat): State<F, M>
    requires w < |s.workers|
  {
    match s.workers[w]
    case Draining =>
      if s.raw == [] then Put(s, w, Emptied) else Put(s, w, Holding(s.raw[0])).(raw := s.raw[1..])
    case Holding(f) => Put(s, w, Draining).(parsed := s.parsed + [parse(f)])
    case Emptied => Put(s, w, Released).(flag := false)
    case Released => Put(s, w, if s.raw == [] then Gone else Retrying)
    case Retrying => if s.flag then Put(s, w, Gone) else Put(s, w, Draining).(flag := true)
    case Gone => s
  }

  /** One atomic step; an action that is not enabled changes nothing. */
  function Step<F, M>(s: State<F, M>, parse: F -> M, a: Action<F>): State<F, M> {
    match a
    case Frame(current, f) =>
      if s.game.Idle? && current then s.(raw := s.raw + [f], received := s.received + [f], game := Enqueued) else s
    case Kick =>
      if !s.game.Enqueued? then s
      else if s.flag then s.(game := Idle)
      else s.(flag := true, workers := s.workers + [Draining], game := Idle)
    case Tick => if s.game.Idle? then s.(game := Dispatching) else s
    case Dispatch =>
      if !s.game.Dispatching? then s
      else if s.parsed == [] then s.(game := Idle)
      else s.(parsed := s.parsed[1..], dispatched := s.dispatched + [s.parsed[0]])
    case Work(w) => if w < |s.workers| then WorkerStep(s, parse, w) else s
  }

  function Run<F, M>(s: State<F, M>, parse: F -> M, acts: seq<Action<F>>): State<F, M>
    decreases |acts|
  {
    if acts == [] then s else Run(Step(s, parse, acts[0]), parse, acts[1..])
  }

  function After<F, M>(parse: F -> M, acts: seq<Action<F>>): State<F, M> {
    Run(Init(), parse, acts)
  }

  // ---- the invariant ----

  /** The worker owns the drain: it took the flag and has not released it. */
  predicate Owns<F>(w: Worker<F>) {
    w.Draining? || w.Holding? || w.Emptied?
  }

  /** The worker is between its release and the end of its recheck. */
  predicate Rechecks<F>(w: Worker<F>) {
    w.Released? || w.Retrying?
  }

  /** No worker but w owns the drain. */
  ghost predicate OnlyOwner<F>(ws: seq<Worker<F>>, w: int) {
    forall v | 0 <= v < |ws| && v != w :: !Owns(ws[v])
  }

  /** The flag is set exactly while one worker, named by owner, owns the drain. */
  ghost predicate OwnerInv<F, M>(s: State<F, M>, owner: int) {
    && OnlyOwner(s.workers, owner)
    && (if s.flag then 0 <= owner < |s.workers| && Owns(s.workers[owner]) else owner == -1)
  }

  /** The frame in the owner's hand, if it has one. */
  function InHand<F, M>(s: State<F, M>, owner: int): seq<F> {
    if 0 <= owner < |s.workers| && s.workers[owner].Holding? then [s.workers[owner].frame] else []
  }

  /** Everything between arrival and dispatch, in delivery order. */
  function Line<F, M>(dispatched: seq<M>, parsed: seq<M>, hand: seq<F>, raw: seq<F>, parse: F -> M): seq<M> {
    dispatched + parsed + Map(parse, hand) + Map(parse, raw)
  }

  ghost predicate Conserved<F, M>(s: State<F, M>, parse: F -> M, owner: int) {
    Line(s.dispatched, s.parsed, InHand(s, owner), s.raw, parse) == Map(parse, s.received)
  }

  /** Queued work without an owner has somebody on the way to take the flag. */
  ghost predicate NotStranded<F, M>(s: State<F, M>) {
    s.raw != [] && !s.flag ==> s.game.Enqueued? || exists w :: 0 <= w < |s.workers| && Rechecks(s.workers[w])
  }

  ghost predicate Inv<F, M>(s: State<F, M>, parse: F -> M, owner: int) {
    OwnerInv(s, owner) && Conserved(s, parse, owner) && NotStranded(s)
  }

  /** Who owns the drain after worker w's step. */
  function NextOwner<F, M>(s: State<F, M>, w: nat, owner: int): int
    requires w < |s.workers|
  {
    match s.workers[w]
    case Emptied => -1
    case Retrying => if s.flag then owner else w
    case _ => owner
  }

  lemma WorkerKeepsOwner<F, M>(s: State<F, M>, parse: F -> M, owner: int, w: nat)
    requires OwnerInv(s, owner) && w < |s.workers|
    ensures OwnerInv(WorkerStep(s, parse, w), NextOwner(s, w, owner))
  {
  }

  lemma TakingKeepsLine<F, M>(d: seq<M>, p: seq<M>, raw: seq<F>, parse: F -> M)
    requires raw != []
    ensures Line(d, p, [raw[0]], raw[1..], parse) == Line(d, p, [], raw, parse)
  {
    assert Map(parse, []) == [];
    assert Map(parse, raw) == Map(parse, [raw[0]]) + Map(parse, raw[1..]);
  }

  lemma ParsingKeepsLine<F, M>(d: seq<M>, p: seq<M>, f: F, raw: seq<F>, parse: F -> M)
    ensures Line(d, p + [parse(f)], [], raw, parse) == Line(d, p, [f], raw, parse)
  {
    assert Map(parse, [f]) == [parse(f)] && Map(parse, []) == [];
    assert d + (p + [parse(f)]) + [] == d + p + [parse(f)];
  }

  lemma ArrivalExtendsLine<F, M>(d: seq<M>, p: seq<M>, hand: seq<F>, raw: seq<F>, f: F, parse: F -> M)
    ensures Line(d, p, hand, raw + [f], parse) == Line(d, p, hand, raw, parse) + [parse(f)]
  {
    assert Map(parse, raw + [f]) == Map(parse, raw) + [parse(f)];
  }

  lemma DispatchKeepsLine<F, M>(d: seq<M>, p: seq<M>, hand: seq<F>, raw: seq<F>, parse: F -> M)
    requires p != []
    ensures Line(d + [p[0]], p[1..], hand, raw, parse) == Line(d, p, hand, raw, parse)
  {
    assert d + [p[0]] + p[1..] == d + p;
  }

  lemma WorkerConserves<F, M>(s: State<F, M>, parse: F -> M, owner: int, w: nat)
    requires OwnerInv(s, owner) && Conserved(s, parse, owner) && w < |s.workers|
    ensures Conserved(WorkerStep(s, parse, w), parse, NextOwner(s, w, owner))
  {
    var t, next := WorkerStep(s, parse, w), NextOwner(s, w, owner);
    match s.workers[w]
    case Draining =>
      if s.raw != [] {
        TakingKeepsLine(s.dispatched, s.parsed, s.raw, parse);
        assert InHand(s, owner) == [] && InHand(t, next) == [s.raw[0]];
      }
    case Holding(f) =>
      ParsingKeepsLine(s.dispatched, s.parsed, f, s.raw, parse);
      assert InHand(s, owner) == [f] && InHand(t, next) == [];
    case _ => assert InHand(t, next) == InHand(s, owner);
  }

  lemma WorkerStrandsNothing<F, M>(s: State<F, M>, parse: F -> M, owner: int, w: nat)
    requires OwnerInv(s, owner) && NotStranded(s) && w < |s.workers|
    ensures NotStranded(WorkerStep(s, parse, w))
  {
    var t := WorkerStep(s, parse, w);
    if t.raw != [] && !t.flag {
      if s.workers[w].Emptied? || s.workers[w].Released? {
        assert Rechecks(t.workers[w]);
      } else if !s.game.Enqueued? {
        var v :| 0 <= v < |s.workers| && Rechecks(s.workers[v]);
        assert t.workers[v] == s.workers[v];
      }
    }
  }

  lemma WaitersStay<F, M>(s: State<F, M>, t: State<F, M>)
    requires NotStranded(s) && t.workers == s.workers && t.flag == s.flag
    requires t.raw == s.raw || t.game.Enqueued?
    requires t.game == s.game || !s.game.Enqueued?
    ensures NotStranded(t)
  {
  }

  lemma FrameInv<F, M>(s: State<F, M>, parse: F -> M, owner: int, current: bool, f: F)
    requires Inv(s, parse, owner)
    ensures Inv(Step(s, parse, Frame(current, f)), parse, owner)
  {
    var t := Step(s, parse, Frame(current, f));
    assert InHand(t, owner) == InHand(s, owner);
    if s.game.Idle? && current {
      ArrivalExtendsLine(s.dispatched, s.parsed, InHand(s, owner), s.raw, f, parse);
      assert Map(parse, s.received + [f]) == Map(parse, s.received) + [parse(f)];
    }
    WaitersStay(s, t);
  }

  lemma KickInv<F, M>(s: State<F, M>, parse: F -> M, owner: int)
    requires Inv(s, parse, owner)
    ensures Inv(Step(s, parse, Kick), parse, if s.game.Enqueued? && !s.flag then |s.workers| else owner)
  {
    var t := Step(s, parse, Kick);
    if s.game.Enqueued? && !s.flag {
      assert InHand(t, |s.workers|) == [] == InHand(s, owner);
    } else {
      assert InHand(t, owner) == InHand(s, owner);
    }
  }

  lemma DispatchInv<F, M>(s: State<F, M>, parse: F -> M, owner: int, a: Action<F>)
    requires Inv(s, parse, owner) && (a.Tick? || a.Dispatch?)
    ensures Inv(Step(s, parse, a), parse, owner)
  {
    var t := Step(s, parse, a);
    assert InHand(t, owner) == InHand(s, owner);
    if a.Dispatch? && s.game.Dispatching? && s.parsed != [] {
      DispatchKeepsLine(s.dispatched, s.parsed, InHand(s, owner), s.raw, parse);
    }
    WaitersStay(s, t);
  }

  lemma GameStepInv<F, M>(s: State<F, M>, parse: F -> M, owner: int, a: Action<F>)
    requires Inv(s, parse, owner) && !a.Work?
    ensures exists owner' :: Inv(Step(s, parse, a), parse, owner')
  {
    match a
    case Frame(current, f) => FrameInv(s, parse, owner, current, f);
    case Kick => KickInv(s, parse, owner);
    case _ => DispatchInv(s, parse, owner, a);
  }

  lemma StepInv<F, M>(s: State<F, M>, parse: F -> M, owner: int, a: Action<F>)
    requires Inv(s, parse, owner)
    ensures exists owner' :: Inv(Step(s, parse, a), parse, owner')
  {
    if a.Work? {
      if a.w < |s.workers| {
        WorkerKeepsOwner(s, parse, owner, a.w);
        WorkerConserves(s, parse, owner, a.w);
        WorkerStrandsNothing(s, parse, owner, a.w);
        assert Inv(Step(s, parse, a), parse, NextOwner(s, a.w, owner));
      } else {
        assert Inv(Step(s, parse, a), parse, owner);
      }
    } else {
      GameStepInv(s, parse, owner, a);
    }
  }

  lemma {:induction false} RunInv<F, M>(s: State<F, M>, parse: F -> M, owner: int, acts: seq<Action<F>>)
    requires Inv(s, parse, owner)
    ensures exists owner' :: Inv(Run(s, parse, acts), parse, owner')
    decreases |acts|
  {
    if acts == [] {
      assert Inv(Run(s, parse, acts), parse, owner);
    } else {
      StepInv(s, parse, owner, acts[0]);
      var owner' :| Inv(Step(s, parse, acts[0]), parse, owner');
      RunInv(Step(s, parse, acts[0]), parse, owner', acts[1..]);
      var last :| Inv(Run(Step(s, parse, acts[0]), parse, acts[1..]), parse, last);
      assert Inv(Run(s, parse, acts), parse, last);
    }
  }

  lemma Reached<F, M>(parse: F -> M, acts: seq<Action<F>>) returns (owner: int)
    ensures Inv(After<F, M>(parse, acts), parse, owner)
  {
    assert Inv(Init<F, M>(), parse, -1);
    RunInv<F, M>(Init(), parse, -1, acts);
    owner :| Inv(After<F, M>(parse, acts), parse, owner);
  }

  // ---- what holds of every run ----

  /** With any number of workers in flight, the flag is set exactly when some worker owns the drain, and never two do. */
  lemma FlagMeansOneOwner<F, M>(parse: F -> M, acts: seq<Action<F>>)
    ensures var s := After<F, M>(parse, acts);
            && (s.flag <==> exists w :: 0 <= w < |s.workers| && Owns(s.workers[w]))
            && (forall v, w | 0 <= v < |s.workers| && 0 <= w < |s.workers| && Owns(s.workers[v]) && Owns(s.workers[w]) :: v == w)
  {
    var owner := Reached<F, M>(parse, acts);
  }

  /** Work queued while nobody owns the drain is never forgotten: somebody is about to look and try for the flag. */
  lemma QueuedWorkHasATaker<F, M>(parse: F -> M, acts: seq<Action<F>>)
    ensures var s := After<F, M>(parse, acts);
            s.raw != [] && !s.flag ==>
              s.game.Enqueued? || exists w :: 0 <= w < |s.workers| && Rechecks(s.workers[w])
  {
    var owner := Reached<F, M>(parse, acts);
  }

  /**
   Delivery is in arrival order, with nothing lost, duplicated or reordered across worker handoffs:
   what was dispatched, what is parsed, the frame in hand if any, and the raw queue are, in that order,
   the frames received.
   */
  lemma DeliveryInOrder<F, M>(parse: F -> M, acts: seq<Action<F>>)
    ensures var s := After<F, M>(parse, acts);
            && s.dispatched <= Map(parse, s.received)
            && exists hand: seq<F> :: |hand| <= 1
                 && (hand != [] ==> exists w :: 0 <= w < |s.workers| && s.workers[w] == Holding(hand[0]))
                 && s.dispatched + s.parsed + Map(parse, hand) + Map(parse, s.raw) == Map(parse, s.received)
  {
    var owner := Reached<F, M>(parse, acts);
    var s := After<F, M>(parse, acts);
    var hand := InHand(s, owner);
    assert s.dispatched + s.parsed + Map(parse, hand) + Map(parse, s.raw)
        == s.dispatched + (s.parsed + Map(parse, hand) + Map(parse, s.raw));
    assert |hand| <= 1 && (hand != [] ==> s.workers[owner] == Holding(hand[0]));
  }

  /** Everybody is at rest: the game thread between callbacks, and no worker running. */
  ghost predicate Quiet<F, M>(s: State<F, M>) {
    !s.game.Enqueued? && forall w | 0 <= w < |s.workers| :: s.workers[w].Gone?
  }

  /** No frame is ever stranded: when everybody is at rest the raw queue is empty and every frame is parsed. */
  lemma NothingStranded<F, M>(parse: F -> M, acts: seq<Action<F>>)
    ensures var s := After<F, M>(parse, acts);
            Quiet(s) ==> s.raw == [] && !s.flag && s.dispatched + s.parsed == Map(parse, s.received)
  {
    var owner := Reached<F, M>(parse, acts);
    QuietIsDone(After<F, M>(parse, acts), parse, owner);
  }

  lemma QuietIsDone<F, M>(s: State<F, M>, parse: F -> M, owner: int)
    requires Inv(s, parse, owner)
    ensures Quiet(s) ==> s.raw == [] && !s.flag && s.dispatched + s.parsed == Map(parse, s.received)
  {
    if Quiet(s) {
      assert Map(parse, InHand(s, owner)) == [];
      assert s.raw == [];
      assert Map(parse, s.raw) == [];
    }
  }

  // ---- the pipeline comes to rest ----

  /** The steps a worker has left, given whether the raw queue is empty. */
  function Weight<F>(w: Worker<F>, idle: bool): nat {
    match w
    case Gone => 0
    case Draining => 4
    case Holding(_) => 5
    case Emptied => if idle then 3 else 7
    case Released => if idle then 2 else 6
    case Retrying => 5
  }

  function Weights<F>(ws: seq<Worker<F>>, idle: bool): nat {
    if ws == [] then 0 else Weight(ws[0], idle) + Weights(ws[1..], idle)
  }

  lemma {:induction false} WeightsPut<F>(ws: seq<Worker<F>>, w: nat, to: Worker<F>, idle: bool)
    requires w < |ws|
    ensures Weights(ws[w := to], idle) == Weights(ws, idle) - Weight(ws[w], idle) + Weight(to, idle)
  {
    if w > 0 {
      assert ws[w := to][1..] == ws[1..][w - 1 := to];
      WeightsPut(ws[1..], w - 1, to, idle);
    } else {
      assert ws[w := to][1..] == ws[1..];
    }
  }

  lemma {:induction false} WeightsPush<F>(ws: seq<Worker<F>>, x: Worker<F>, idle: bool)
    ensures Weights(ws + [x], idle) == Weights(ws, idle) + Weight(x, idle)
  {
    if ws == [] {
      assert ws + [x] == [x];
    } else {
      assert (ws + [x])[1..] == ws[1..] + [x];
      WeightsPush(ws[1..], x, idle);
    }
  }

  function Effort<F, M>(s: State<F, M>): nat {
    Weights(s.workers, s.raw == []) + (if s.game.Enqueued? then 5 else 0)
  }

  /** A step that processes what has arrived, as opposed to an arrival or a dispatch. */
  predicate Internal<F, M>(s: State<F, M>, a: Action<F>) {
    match a
    case Kick => s.game.Enqueued?
    case Work(w) => w < |s.workers| && !s.workers[w].Gone?
    case _ => false
  }

  /** How many processing steps are left, at most, if nothing more arrives. */
  function Rank<F, M>(s: State<F, M>): nat {
    2 * |s.raw| + Effort(s)
  }

  lemma {:induction false} IdleIsLighter<F>(ws: seq<Worker<F>>, idle: bool)
    ensures Weights(ws, true) <= Weights(ws, idle)
  {
    if ws != [] {
      IdleIsLighter(ws[1..], idle);
    }
  }

  lemma WorkerLowersRank<F, M>(s: State<F, M>, parse: F -> M, w: nat)
    requires w < |s.workers| && !s.workers[w].Gone?
    ensures Rank(WorkerStep(s, parse, w)) < Rank(s)
  {
    var t, idle := WorkerStep(s, parse, w), s.raw == [];
    WeightsPut(s.workers, w, t.workers[w], idle);
    IdleIsLighter(t.workers, idle);
  }

  /** Each processing step lowers the rank; ticks, dispatches and frames of replaced sockets leave it alone. */
  lemma StepRank<F, M>(s: State<F, M>, parse: F -> M, a: Action<F>)
    requires a.Frame? ==> !a.current
    ensures Rank(Step(s, parse, a)) + (if Internal(s, a) then 1 else 0) <= Rank(s)
  {
    match a
    case Kick => WeightsPush(s.workers, Draining, s.raw == []);
    case Work(w) => if w < |s.workers| && !s.workers[w].Gone? { WorkerLowersRank(s, parse, w); }
    case _ =>
  }

  predicate NoArrivals<F>(acts: seq<Action<F>>) {
    forall i | 0 <= i < |acts| :: acts[i].Frame? ==> !acts[i].current
  }

  /** The processing steps along a run. */
  function ProcessingSteps<F, M>(s: State<F, M>, parse: F -> M, acts: seq<Action<F>>): nat
    decreases |acts|
  {
    if acts == [] then 0
    else (if Internal(s, acts[0]) then 1 else 0) + ProcessingSteps(Step(s, parse, acts[0]), parse, acts[1..])
  }

  lemma {:induction false} RunRank<F, M>(s: State<F, M>, parse: F -> M, acts: seq<Action<F>>)
    requires NoArrivals(acts)
    ensures ProcessingSteps(s, parse, acts) + Rank(Run(s, parse, acts)) <= Rank(s)
    decreases |acts|
  {
    if acts != [] {
      StepRank(s, parse, acts[0]);
      RunRank(Step(s, parse, acts[0]), parse, acts[1..]);
    }
  }

  lemma {:induction false} WeightlessIsGone<F>(ws: seq<Worker<F>>, idle: bool)
    ensures Weights(ws, idle) == 0 ==> forall w | 0 <= w < |ws| :: ws[w].Gone?
  {
    if ws != [] {
      WeightlessIsGone(ws[1..], idle);
    }
  }

  /**
   Without arrivals the pipeline comes to rest, in any schedule of workers, kicks, ticks, dispatches and
   stale frames: there are at most Rank processing steps, and once they are used up everybody is at rest
   with every frame parsed. Until then, by ProcessingEnabled, there is always one more to take.
   */
  lemma ProcessingTerminates<F, M>(parse: F -> M, acts: seq<Action<F>>, more: seq<Action<F>>)
    requires NoArrivals(more)
    ensures var s := After<F, M>(parse, acts);
            var t := Run(s, parse, more);
            && ProcessingSteps(s, parse, more) <= Rank(s)
            && (ProcessingSteps(s, parse, more) == Rank(s) ==>
                  Quiet(t) && t.raw == [] && !t.flag && t.dispatched + t.parsed == Map(parse, t.received))
  {
    var s := After<F, M>(parse, acts);
    var t := Run(s, parse, more);
    RunRank(s, parse, more);
    var owner := Reached<F, M>(parse, acts);
    RunInv(s, parse, owner, more);
    var last :| Inv(t, parse, last);
    QuietIsDone(t, parse, last);
    WeightlessIsGone(t.workers, t.raw == []);
  }

  lemma ProcessingEnabled<F, M>(s: State<F, M>)
    requires !Quiet(s)
    ensures exists a :: Internal(s, a)
  {
    if s.game.Enqueued? {
      assert Internal(s, Kick);
    } else {
      var w :| 0 <= w < |s.workers| && !s.workers[w].Gone?;
      assert Internal(s, Work(w));
    }
  }
}

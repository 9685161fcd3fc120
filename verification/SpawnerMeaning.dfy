/** What single operations of the spawner do, case by case. */
module SpawnerMeaning {
  import opened Wire
  import opened Spawner

  /** Nothing but the counters, the queue and category c's record changes. */
  predicate OnlyCategory(s: State, t: State, c: string) {
    && t.active == s.active && t.id == s.id && t.draining == s.draining
    && t.spawned == s.spawned && t.processed == s.processed && t.spawnLog == s.spawnLog
    && t.begins == s.begins && t.finals == s.finals
    && t.cats.Keys == s.cats.Keys
    && forall d | d in s.cats && d != c :: t.cats[d] == s.cats[d]
  }

  /**
   An entry of an unknown or failed category is skipped. The first entry of a category without a path fails the
   category and is skipped. Otherwise the load is asked for, and the entry joins the queue if the asset is
   there and the category's waiting entries if it is not; in either case it goes to the back.
   */
  lemma EnqueueMeans(s: State, e: AssetEntry)
    ensures var t := EnqueueOne(s, e);
            && t.accepted == s.accepted + [e] && OnlyCategory(s, t, e.category)
            && if e.category !in s.cats || s.cats[e.category].failed
               then t.skipped == s.skipped + 1 && t.ready == s.ready && t.cats == s.cats
               else
                 var was, now := s.cats[e.category], t.cats[e.category];
                 && now.info == was.info && now.loaded == was.loaded && now.requested
                 && if !was.requested && !was.info.hasPath
                    then now.failed && now.waiting == was.waiting && t.skipped == s.skipped + 1 && t.ready == s.ready
                    else if was.loaded
                    then !now.failed && now.waiting == was.waiting && t.skipped == s.skipped && t.ready == s.ready + [e]
                    else !now.failed && now.waiting == was.waiting + [e] && t.skipped == s.skipped && t.ready == s.ready
  {
  }

  /**
   A load that succeeds marks the category loaded and puts its waiting entries, in order, at the back of the
   queue, skipping none. One that fails marks it failed and counts its waiting entries as skipped, leaving the
   queue alone. A load for a category that is no longer known does nothing.
   */
  lemma LoadedMeans(s: State, c: string, ok: bool)
    ensures var t := Loaded(s, c, ok);
            && t.accepted == s.accepted && OnlyCategory(s, t, c)
            && if c !in s.cats then t == s
               else
                 var was, now := s.cats[c], t.cats[c];
                 && now.info == was.info && now.requested == was.requested && now.waiting == []
                 && (ok ==> now.loaded && now.failed == was.failed
                            && t.ready == s.ready + was.waiting && t.skipped == s.skipped)
                 && (!ok ==> now.failed && now.loaded == was.loaded
                             && t.ready == s.ready && t.skipped == s.skipped + |was.waiting|)
  {
  }

  /** Why the world turns an entry down. */
  datatype Refusal = NoGround | NotAMesh | NoContainer | NotSpawnable | ActorRefused

  predicate Refuses(e: AssetEntry, info: AssetInfo, ans: WorldAnswer, why: Refusal) {
    match why
    case NoGround => e.groundSnap && !ans.groundHit
    case NotAMesh => info.instanceable && !ans.asset.StaticMesh?
    case NoContainer => info.instanceable && !ans.container
    case NotSpawnable => !info.instanceable && ans.asset.OtherAsset?
    case ActorRefused => !info.instanceable && !ans.actorSpawned
  }

  /** An entry is spawned exactly if the world has no reason to turn it down. */
  lemma SpawnsUnlessRefused(e: AssetEntry, info: AssetInfo, ans: WorldAnswer)
    ensures Spawns(e, info, ans) <==> forall why: Refusal :: !Refuses(e, info, ans, why)
  {
    if !Spawns(e, info, ans) {
      assert Refuses(e, info, ans, NoGround) || Refuses(e, info, ans, NotAMesh) || Refuses(e, info, ans, NoContainer)
             || Refuses(e, info, ans, NotSpawnable) || Refuses(e, info, ans, ActorRefused);
    }
  }

  /** The head of the queue is taken off; it is spawned under the open id if nothing refuses it, and else skipped. */
  lemma ProcessMeans(s: State, ans: WorldAnswer)
    requires s.ready != [] && s.ready[0].category in s.cats
    ensures var e, t := s.ready[0], ProcessOne(s, ans);
            var refused := exists why: Refusal :: Refuses(e, s.cats[e.category].info, ans, why);
            && t.ready == s.ready[1..] && t.processed == s.processed + [e] && t.cats == s.cats
            && t.spawned == s.spawned + (if refused then 0 else 1)
            && t.skipped == s.skipped + (if refused then 1 else 0)
            && t.spawnLog == s.spawnLog + (if refused then [] else [(s.id, e)])
  {
    SpawnsUnlessRefused(s.ready[0], s.cats[s.ready[0].category].info, ans);
  }

  lemma SliceStep<T>(queue: seq<T>, n: nat)
    requires 0 < n <= |queue|
    ensures queue[1..][n - 1..] == queue[n..] && [queue[0]] + queue[1..][..n - 1] == queue[..n]
  {
  }

  lemma Associate3<T>(done: seq<T>, head: seq<T>, more: seq<T>, all: seq<T>)
    requires head + more == all
    ensures done + head + more == done + all
  {
  }

  lemma HeadTaken(s: State, ans: WorldAnswer)
    requires s.ready != []
    ensures var t := ProcessOne(s, ans); t.ready == s.ready[1..] && t.processed == s.processed + [s.ready[0]]
  {
  }

  /** The budgeted loop takes as many entries off the queue as the budget allows, and no more than there are. */
  lemma {:induction false} DrainTakes(s: State, answers: seq<WorldAnswer>)
    ensures var n := if |answers| < |s.ready| then |answers| else |s.ready|;
            var t := Drain(s, answers);
            t.ready == s.ready[n..] && t.processed == s.processed + s.ready[..n]
    decreases |answers|
  {
    if s.ready != [] && answers != [] {
      var n := if |answers| < |s.ready| then |answers| else |s.ready|;
      HeadTaken(s, answers[0]);
      DrainTakes(ProcessOne(s, answers[0]), answers[1..]);
      SliceStep(s.ready, n);
      Associate3(s.processed, [s.ready[0]], s.ready[1..][..n - 1], s.ready[..n]);
    }
  }

  /** A tick without the editor world touches nothing that is queued. */
  lemma NoWorldNoSpawn(s: State, answers: seq<WorldAnswer>)
    ensures s.active && s.ready != [] ==> Tick(s, false, answers) == s
    ensures !s.active ==> Tick(s, false, answers) == s && Tick(s, true, answers) == s
  {
  }

  /** A new generation knows exactly the manifest's categories, none of them asked for, loaded or failed, and has counted nothing. */
  lemma BeginIsFresh(s: State, id: string, man: map<string, AssetInfo>)
    ensures var t := Begin(s, id, man);
            && t.cats.Keys == man.Keys && t.ready == [] && t.spawned == t.skipped == 0 && t.accepted == t.processed == []
            && forall c | c in man :: t.cats[c].info == man[c] && !t.cats[c].requested && !t.cats[c].failed
                                      && !t.cats[c].loaded && t.cats[c].waiting == []
  {
  }
}

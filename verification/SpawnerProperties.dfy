/** Conservation, per-category order and finalization of the spawner, kept by every operation. */
module SpawnerProperties {
  import opened Seqs
  import opened Wire
  import opened Spawner

  /** Every accepted entry is spawned, skipped or still pending. */
  ghost predicate Conserved(s: State) {
    |s.accepted| == s.spawned + s.skipped + Pending(s)
  }

  /** Queued entries are of known categories, and lists of waiting entries hold their own category's. */
  ghost predicate WellPlaced(s: State) {
    && (forall e | e in s.ready :: e.category in s.cats)
    && (forall c | c in s.cats :: forall e | e in s.cats[c].waiting :: e.category == c)
  }

  /** Only a category whose load was asked for and has neither succeeded nor failed has waiting entries. */
  ghost predicate WaitingOnLoads(s: State) {
    forall c | c in s.cats :: s.cats[c].waiting != [] ==>
      s.cats[c].requested && s.cats[c].info.hasPath && !s.cats[c].loaded && !s.cats[c].failed
  }

  ghost predicate RequestedHasPath(s: State) {
    forall c | c in s.cats :: s.cats[c].requested && !s.cats[c].failed ==> s.cats[c].info.hasPath
  }

  /** The category's entries: processed, then ready, then waiting, in the order they were accepted. */
  ghost predicate InOrder(s: State, c: string)
    requires c in s.cats
  {
    Filter(s.processed, EntryOf(c)) + Filter(s.ready, EntryOf(c)) + s.cats[c].waiting == Filter(s.accepted, EntryOf(c))
  }

  /** No category that has not failed has lost, gained or reordered an entry. */
  ghost predicate AllInOrder(s: State) {
    forall c | c in s.cats :: !s.cats[c].failed ==> InOrder(s, c)
  }

  /** Everything pending was accepted for the generation that is open. */
  ghost predicate FromAccepted(s: State) {
    && (forall e | e in s.ready :: e in s.accepted)
    && (forall c | c in s.cats :: forall e | e in s.cats[c].waiting :: e in s.accepted)
  }

  /** Begun generations are open or finalized, once each, and final statistics account for every entry. */
  ghost predicate Closed(s: State) {
    && s.begins == |s.finals| + (if s.active then 1 else 0)
    && (forall f | f in s.finals :: f.spawned + f.skipped == f.accepted)
    && (!s.active ==> s.cats == map[] && s.ready == [] && s.id == "" && !s.draining)
  }

  ghost predicate Inv(s: State) {
    && Conserved(s) && WellPlaced(s) && WaitingOnLoads(s) && RequestedHasPath(s)
    && AllInOrder(s) && FromAccepted(s) && Closed(s)
  }

  lemma InitInv()
    ensures Inv(Init())
  {
    PendingNone(Init());
  }

  /** Changing one category's waiting list changes the pending count by the difference. */
  lemma PendingPut(s: State, t: State, c: string, rt: Runtime)
    requires c in s.cats && t.cats == s.cats[c := rt]
    ensures Pending(t) - |t.ready| == Pending(s) - |s.ready| + |rt.waiting| - |s.cats[c].waiting|
  {
    assert WaitingCounts(t.cats) == WaitingCounts(s.cats)[c := |rt.waiting|];
    MapSumPut(WaitingCounts(s.cats), c, |rt.waiting|);
  }

  lemma PendingParts(s: State)
    ensures Pending(s) >= |s.ready| && forall c | c in s.cats :: |s.cats[c].waiting| <= Pending(s)
  {
    MapSumNonNegative(WaitingCounts(s.cats));
    forall c | c in s.cats ensures |s.cats[c].waiting| <= Pending(s) {
      assert c in WaitingCounts(s.cats) && WaitingCounts(s.cats)[c] == |s.cats[c].waiting|;
    }
  }

  lemma PendingNone(s: State)
    requires s.ready == [] && forall c | c in s.cats :: s.cats[c].waiting == []
    ensures Pending(s) == 0
  {
    MapSumZero(WaitingCounts(s.cats));
  }

  /**
   A draining generation is not stuck: while anything is pending there is an entry to process, or a
   category with waiting entries whose load was requested and has not been answered.
   */
  lemma PendingHasCause(s: State)
    requires Inv(s) && Pending(s) > 0
    ensures s.ready != [] || exists c :: c in s.cats && s.cats[c].waiting != [] && s.cats[c].requested
                                        && !s.cats[c].loaded && !s.cats[c].failed
  {
    if s.ready == [] && forall c | c in s.cats :: s.cats[c].waiting == [] {
      PendingNone(s);
    }
  }

  // ---- EnqueueEntries ----

  lemma EnqueueConserves(s: State, e: AssetEntry)
    requires Conserved(s)
    ensures Conserved(EnqueueOne(s, e))
  {
    var t := EnqueueOne(s, e);
    if e.category in s.cats && t.cats != s.cats {
      PendingPut(s, t, e.category, t.cats[e.category]);
    }
  }

  lemma PushAtEnd<T>(p: seq<T>, r: seq<T>, w: seq<T>, a: seq<T>, x: seq<T>)
    requires p + r + w == a
    ensures p + r + (w + x) == a + x
    ensures w == [] ==> p + (r + x) + w == a + x
  {
    assert p + r + (w + x) == p + r + w + x;
    if w == [] {
      assert p + (r + x) + w == p + r + w + x;
    }
  }

  lemma FilterSkip(s: seq<AssetEntry>, e: AssetEntry, c: string)
    requires e.category != c
    ensures Filter(s + [e], EntryOf(c)) == Filter(s, EntryOf(c))
  {
    FilterPush(s, e, EntryOf(c));
  }

  lemma OthersUntouched(s: State, e: AssetEntry, c: string)
    requires c in s.cats && c != e.category
    ensures var t := EnqueueOne(s, e);
            && c in t.cats && t.cats[c] == s.cats[c] && t.processed == s.processed
            && Filter(t.ready, EntryOf(c)) == Filter(s.ready, EntryOf(c))
            && Filter(t.accepted, EntryOf(c)) == Filter(s.accepted, EntryOf(c))
  {
    FilterSkip(s.accepted, e, c);
    FilterSkip(s.ready, e, c);
  }

  lemma OwnCategoryPushed(s: State, e: AssetEntry)
    requires e.category in s.cats && WaitingOnLoads(s) && !s.cats[e.category].failed && InOrder(s, e.category)
    ensures var t := EnqueueOne(s, e);
            e.category in t.cats && (!t.cats[e.category].failed ==> InOrder(t, e.category))
  {
    var c := e.category;
    FilterPush(s.accepted, e, EntryOf(c));
    FilterPush(s.ready, e, EntryOf(c));
    PushAtEnd(Filter(s.processed, EntryOf(c)), Filter(s.ready, EntryOf(c)), s.cats[c].waiting,
              Filter(s.accepted, EntryOf(c)), [e]);
  }

  lemma EnqueueKeepsOrder(s: State, e: AssetEntry)
    requires WaitingOnLoads(s) && AllInOrder(s)
    ensures AllInOrder(EnqueueOne(s, e))
  {
    var t := EnqueueOne(s, e);
    forall c | c in t.cats ensures !t.cats[c].failed ==> InOrder(t, c) {
      if c != e.category {
        OthersUntouched(s, e, c);
      } else if !s.cats[c].failed {
        OwnCategoryPushed(s, e);
      }
    }
  }

  lemma EnqueueKeepsLoads(s: State, e: AssetEntry)
    requires WaitingOnLoads(s) && RequestedHasPath(s)
    ensures WaitingOnLoads(EnqueueOne(s, e)) && RequestedHasPath(EnqueueOne(s, e))
  {
  }

  lemma EnqueueKeepsReady(s: State, e: AssetEntry)
    requires forall x | x in s.ready :: x.category in s.cats
    ensures forall x | x in EnqueueOne(s, e).ready :: x.category in EnqueueOne(s, e).cats
  {
    var t := EnqueueOne(s, e);
    assert t.ready == s.ready || (t.ready == s.ready + [e] && e.category in t.cats);
    assert forall c | c in s.cats :: c in t.cats;
  }

  lemma EnqueueKeepsWaiting(s: State, e: AssetEntry, c: string)
    requires c in s.cats && forall x | x in s.cats[c].waiting :: x.category == c
    ensures c in EnqueueOne(s, e).cats && forall x | x in EnqueueOne(s, e).cats[c].waiting :: x.category == c
  {
    var w := EnqueueOne(s, e).cats[c].waiting;
    assert w == s.cats[c].waiting || (w == s.cats[c].waiting + [e] && e.category == c);
  }

  lemma EnqueueKeepsPlaces(s: State, e: AssetEntry)
    requires WellPlaced(s)
    ensures WellPlaced(EnqueueOne(s, e))
  {
    var t := EnqueueOne(s, e);
    EnqueueKeepsReady(s, e);
    forall c | c in t.cats ensures forall x | x in t.cats[c].waiting :: x.category == c {
      EnqueueKeepsWaiting(s, e, c);
    }
  }

  lemma EnqueueKeepsSource(s: State, e: AssetEntry)
    requires FromAccepted(s)
    ensures FromAccepted(EnqueueOne(s, e))
  {
    var t := EnqueueOne(s, e);
    assert forall x | x in s.accepted :: x in t.accepted;
    assert e in t.accepted;
  }

  lemma EnqueueKeepsRest(s: State, e: AssetEntry)
    ensures var t := EnqueueOne(s, e);
            && t.active == s.active && t.id == s.id && t.draining == s.draining && t.begins == s.begins
            && t.finals == s.finals && t.spawnLog == s.spawnLog && t.accepted == s.accepted + [e]
  {
  }

  lemma EnqueueOneInv(s: State, e: AssetEntry)
    requires Inv(s) && s.active
    ensures Inv(EnqueueOne(s, e))
  {
    EnqueueConserves(s, e);
    EnqueueKeepsOrder(s, e);
    EnqueueKeepsLoads(s, e);
    EnqueueKeepsPlaces(s, e);
    EnqueueKeepsSource(s, e);
    EnqueueKeepsRest(s, e);
  }

  lemma {:induction false} EnqueueInv(s: State, entries: seq<AssetEntry>)
    requires Inv(s)
    ensures var t := Enqueue(s, entries);
            && Inv(t) && t.active == s.active && t.id == s.id && t.draining == s.draining
            && t.accepted == (if s.active then s.accepted + entries else s.accepted)
            && t.finals == s.finals && t.begins == s.begins && t.spawnLog == s.spawnLog
    decreases |entries|
  {
    if s.active && entries != [] {
      EnqueueOneInv(s, entries[0]);
      EnqueueKeepsRest(s, entries[0]);
      EnqueueInv(EnqueueOne(s, entries[0]), entries[1..]);
      assert s.accepted + entries == s.accepted + [entries[0]] + entries[1..];
    } else if s.active {
      assert s.accepted + entries == s.accepted;
    }
  }

  // ---- OnCategoryAssetLoaded ----

  lemma LoadedConserves(s: State, c: string, ok: bool)
    requires Conserved(s)
    ensures Conserved(Loaded(s, c, ok))
  {
    if c in s.cats {
      PendingPut(s, Loaded(s, c, ok), c, Loaded(s, c, ok).cats[c]);
    }
  }

  lemma FilterWaiting(w: seq<AssetEntry>, c: string, d: string)
    requires forall e | e in w :: e.category == c
    ensures Filter(w, EntryOf(d)) == if c == d then w else []
  {
    if c == d {
      FilterAll(w, EntryOf(d));
    } else {
      FilterNone(w, EntryOf(d));
    }
  }

  lemma LoadedKeepsOrder(s: State, c: string, ok: bool, d: string)
    requires c in s.cats && d in s.cats && WellPlaced(s) && (!s.cats[d].failed ==> InOrder(s, d))
    ensures !Loaded(s, c, ok).cats[d].failed ==> InOrder(Loaded(s, c, ok), d)
  {
    var w, ready := s.cats[c].waiting, Filter(s.ready, EntryOf(d));
    if ok && !s.cats[d].failed {
      FilterAppend(s.ready, w, EntryOf(d));
      FilterWaiting(w, c, d);
      PromoteAll(Filter(s.processed, EntryOf(d)), ready, if c == d then w else []);
    }
  }

  lemma PromoteAll<T>(p: seq<T>, r: seq<T>, w: seq<T>)
    ensures p + (r + w) + [] == p + r + w
    ensures r + [] == r
  {
  }

  lemma LoadedInv(s: State, c: string, ok: bool)
    requires Inv(s)
    ensures var t := Loaded(s, c, ok);
            && Inv(t) && t.active == s.active && t.id == s.id && t.draining == s.draining && t.accepted == s.accepted
            && t.finals == s.finals && t.begins == s.begins && t.spawnLog == s.spawnLog
  {
    var t := Loaded(s, c, ok);
    LoadedConserves(s, c, ok);
    if c in s.cats {
      forall d | d in t.cats ensures !t.cats[d].failed ==> InOrder(t, d) {
        LoadedKeepsOrder(s, c, ok, d);
      }
    }
  }

  // ---- SpawnTick ----

  lemma HeadMoves<T>(done: seq<T>, queue: seq<T>, keep: T -> bool)
    requires queue != []
    ensures Filter(done + [queue[0]], keep) + Filter(queue[1..], keep) == Filter(done, keep) + Filter(queue, keep)
  {
    FilterPush(done, queue[0], keep);
  }

  lemma ProcessKeepsOrder(s: State, ans: WorldAnswer, c: string)
    requires s.ready != [] && c in s.cats && InOrder(s, c)
    ensures InOrder(ProcessOne(s, ans), c)
  {
    HeadMoves(s.processed, s.ready, EntryOf(c));
    ProcessMoves(s, ans);
  }

  lemma ProcessMoves(s: State, ans: WorldAnswer)
    requires s.ready != []
    ensures var t := ProcessOne(s, ans);
            && t.processed == s.processed + [s.ready[0]] && t.ready == s.ready[1..]
            && t.cats == s.cats && t.accepted == s.accepted
  {
  }

  /** From s to t, entries of the open generation were processed in queue order, and it stays open. */
  ghost predicate Processes(s: State, t: State) {
    && Inv(t) && t.active && t.id == s.id && t.draining == s.draining && t.accepted == s.accepted
    && t.finals == s.finals && t.begins == s.begins
    && t.processed + t.ready == s.processed + s.ready
    && SpawnsOwn(s, t)
  }

  /** The entries spawned between s and t, under s's id, were all accepted by s's generation. */
  ghost predicate SpawnsOwn(s: State, t: State) {
    && s.spawnLog <= t.spawnLog
    && forall i | |s.spawnLog| <= i < |t.spawnLog| :: t.spawnLog[i].0 == s.id && t.spawnLog[i].1 in s.accepted
  }

  lemma ProcessesTransitive(s: State, m: State, t: State)
    requires Processes(s, m) && Processes(m, t)
    ensures Processes(s, t)
  {
  }

  lemma ProcessKeepsParts(s: State, ans: WorldAnswer)
    requires Inv(s) && s.ready != []
    ensures var t := ProcessOne(s, ans);
            Conserved(t) && WellPlaced(t) && WaitingOnLoads(t) && RequestedHasPath(t) && FromAccepted(t)
  {
    assert s.ready[0] in s.ready;
  }

  lemma ProcessKeepsAllOrder(s: State, ans: WorldAnswer)
    requires AllInOrder(s) && s.ready != []
    ensures AllInOrder(ProcessOne(s, ans))
  {
    var t := ProcessOne(s, ans);
    ProcessMoves(s, ans);
    forall c | c in t.cats ensures !t.cats[c].failed ==> InOrder(t, c) {
      if !s.cats[c].failed {
        ProcessKeepsOrder(s, ans, c);
      }
    }
  }

  lemma ProcessFrame(s: State, ans: WorldAnswer)
    requires s.ready != [] && s.ready[0] in s.accepted
    ensures var t := ProcessOne(s, ans);
            && t.active == s.active && t.id == s.id && t.draining == s.draining && t.accepted == s.accepted
            && t.finals == s.finals && t.begins == s.begins
            && t.processed + t.ready == s.processed + s.ready && SpawnsOwn(s, t)
  {
    assert s.ready == [s.ready[0]] + s.ready[1..];
  }

  /** Processing the head settles it one way or the other, and records a spawn under the open generation's id. */
  lemma ProcessOneInv(s: State, ans: WorldAnswer)
    requires Inv(s) && s.active && s.ready != []
    ensures Processes(s, ProcessOne(s, ans))
  {
    assert s.ready[0] in s.ready;
    ProcessKeepsParts(s, ans);
    ProcessKeepsAllOrder(s, ans);
    ProcessFrame(s, ans);
  }

  lemma {:induction false} DrainInv(s: State, answers: seq<WorldAnswer>)
    requires Inv(s) && s.active
    ensures Processes(s, Drain(s, answers))
    decreases |answers|
  {
    if s.ready != [] && answers != [] {
      var m := ProcessOne(s, answers[0]);
      ProcessOneInv(s, answers[0]);
      DrainInv(m, answers[1..]);
      ProcessesTransitive(s, m, Drain(m, answers[1..]));
    }
  }

  lemma FinalizeInv(s: State)
    requires Inv(s) && s.active && Pending(s) == 0
    ensures var t := Finalize(s);
            && Inv(t) && !t.active
            && t.finals == s.finals + [Final(s.id, s.spawned, s.skipped, |s.accepted|)]
            && s.spawned + s.skipped == |s.accepted|
  {
    assert WaitingCounts(map[]) == map[];
  }

  /** What one operation does to the generation that is open: it stays open, or it is finalized, accounts settled. */
  ghost predicate Advances(s: State, t: State) {
    && Inv(t) && t.begins == s.begins && SpawnsOwn(s, t)
    && (if t.active then t.id == s.id && t.accepted == s.accepted && t.finals == s.finals
        else exists f :: t.finals == s.finals + [f] && f.id == s.id && f.accepted == |s.accepted|
                         && f.spawned + f.skipped == |s.accepted|)
  }

  lemma CloseAdvances(s: State, m: State)
    requires Inv(m) && m.active && m.id == s.id && m.accepted == s.accepted && m.finals == s.finals && m.begins == s.begins
    requires SpawnsOwn(s, m) && Pending(m) == 0
    ensures Advances(s, Finalize(m))
  {
    FinalizeInv(m);
    assert Finalize(m).finals == s.finals + [Final(m.id, m.spawned, m.skipped, |m.accepted|)];
  }

  /** A tick processes entries of the open generation, and finalizes it only when draining with nothing pending. */
  lemma TickInv(s: State, world: bool, answers: seq<WorldAnswer>)
    requires Inv(s)
    ensures var t := Tick(s, world, answers);
            if !s.active then t == s
            else Advances(s, t) && (t.active ==> t.draining == s.draining) && (!t.active ==> s.draining)
  {
    if s.active {
      if s.ready == [] {
        if s.draining && Pending(s) == 0 {
          CloseAdvances(s, s);
        }
      } else if world {
        DrainInv(s, answers);
        var m := Drain(s, answers);
        if m.draining && Pending(m) == 0 {
          CloseAdvances(s, m);
        }
      }
    }
  }

  // ---- EndGeneration ----

  lemma DiscardInv(s: State)
    requires Inv(s) && s.active
    ensures var t := Discard(s);
            && Conserved(t) && t.active && t.id == s.id && t.accepted == s.accepted && t.finals == s.finals
            && t.begins == s.begins && t.spawnLog == s.spawnLog
  {
    PendingParts(s);
  }

  /** Ending with discard closes the generation at once, keeping what was spawned and counting the rest as skipped. */
  lemma EndDiscardInv(s: State)
    requires Inv(s) && s.active
    ensures Advances(s, End(s, true)) && !End(s, true).active
    ensures End(s, true).finals == s.finals + [Final(s.id, s.spawned, |s.accepted| - s.spawned, |s.accepted|)]
  {
    DiscardInv(s);
    PendingParts(s);
    var m := Discard(s);
    var t := Finalize(m);
    assert WaitingCounts(map[]) == map[];
    assert t.finals == s.finals + [Final(s.id, m.spawned, m.skipped, |s.accepted|)];
    assert Inv(t);
  }

  /** Ending on complete closes the generation if nothing is pending, and else leaves it draining. */
  lemma EndCompleteInv(s: State)
    requires Inv(s) && s.active
    ensures Advances(s, End(s, false)) && (End(s, false).active <==> Pending(s) != 0)
    ensures End(s, false).active ==> End(s, false).draining
  {
    if Pending(s) == 0 {
      CloseAdvances(s, s);
    }
  }

  /** A new generation starts empty, and closes the one still open, if any. */
  lemma BeginInv(s: State, id: string, man: map<string, AssetInfo>)
    requires Inv(s)
    ensures var t := Begin(s, id, man);
            && Inv(t) && t.active && t.id == id && !t.draining && t.accepted == [] && t.spawnLog == s.spawnLog
            && t.begins == s.begins + 1
            && (if !s.active then t.finals == s.finals
                else exists f :: t.finals == s.finals + [f] && f.id == s.id && f.accepted == |s.accepted|
                                 && f.spawned + f.skipped == |s.accepted|)
  {
    var t := Begin(s, id, man);
    PendingNone(t);
    if s.active {
      EndDiscardInv(s);
      var closed := End(s, true);
      var f :| closed.finals == s.finals + [f] && f.id == s.id && f.accepted == |s.accepted|
               && f.spawned + f.skipped == |s.accepted|;
      assert t.finals == s.finals + [f];
      assert closed.spawnLog == s.spawnLog;
    }
  }

  // ---- draining comes to an end ----

  /** Every load that entries wait for has been answered. */
  ghost predicate NobodyWaits(s: State) {
    forall c | c in s.cats :: s.cats[c].waiting == []
  }

  lemma {:induction false} DrainShrinks(s: State, answers: seq<WorldAnswer>)
    ensures var t := Drain(s, answers);
            && t.cats == s.cats && |t.ready| <= |s.ready|
            && (s.ready != [] && answers != [] ==> |t.ready| < |s.ready|)
    decreases |answers|
  {
    if s.ready != [] && answers != [] {
      ProcessMoves(s, answers[0]);
      DrainShrinks(ProcessOne(s, answers[0]), answers[1..]);
    }
  }

  lemma TickShrinks(s: State, answers: seq<WorldAnswer>)
    requires Inv(s) && s.active && s.draining && NobodyWaits(s) && answers != []
    ensures var t := Tick(s, true, answers);
            t.active ==> NobodyWaits(t) && 0 < |t.ready| < |s.ready|
  {
    if s.ready == [] {
      PendingNone(s);
    } else {
      DrainInv(s, answers);
      DrainShrinks(s, answers);
      var m := Drain(s, answers);
      if m.ready == [] {
        PendingNone(m);
      }
    }
  }
}

/** The spawner object: its methods, array queue and head index included, compute the spawner's state machine. */
module AssetSpawner {
  import opened Seqs
  import opened Wire
  import opened Spawner

  ghost function Restrict(m: map<string, int>, keys: set<string>): map<string, int> {
    map k | k in keys && k in m :: m[k]
  }

  lemma RestrictToNone(m: map<string, int>)
    ensures Restrict(m, {}) == map[]
  {
  }

  class Queue {
    var transactionOpen: bool
    var activeId: string
    var finalizeWhenDrained: bool
    var categories: map<string, Runtime>
    var readyQueue: seq<AssetEntry>
    var head: nat
    var spawnedCount: nat
    var skippedCount: nat
    ghost var accepted: seq<AssetEntry>
    ghost var processed: seq<AssetEntry>
    ghost var begins: nat
    ghost var finals: seq<Final>
    ghost var spawnLog: seq<(string, AssetEntry)>

    ghost predicate Valid()
      reads this
    {
      head <= |readyQueue|
    }

    /** The abstract state: the array from its head on is a first-in first-out queue. */
    ghost function Contents(): State
      requires Valid()
      reads this
    {
      State(transactionOpen, activeId, finalizeWhenDrained, categories, readyQueue[head..], spawnedCount, skippedCount,
            accepted, processed, begins, finals, spawnLog)
    }

    constructor ()
      ensures Valid() && Contents() == Init()
    {
      transactionOpen, activeId, finalizeWhenDrained := false, "", false;
      categories, readyQueue, head, spawnedCount, skippedCount := map[], [], 0, 0, 0;
      accepted, processed, begins, finals, spawnLog := [], [], 0, [], [];
    }

    method NumPendingEntries() returns (n: nat)
      requires Valid()
      ensures n == Pending(Contents())
    {
      n := |readyQueue| - head;
      var left := categories.Keys;
      ghost var counts := WaitingCounts(categories);
      assert Restrict(counts, left) == counts;
      while left != {}
        invariant left <= categories.Keys
        invariant n + MapSum(Restrict(counts, left)) == Pending(Contents())
        decreases left
      {
        var k :| k in left;
        MapSumRemove(Restrict(counts, left), k);
        assert Restrict(counts, left) - {k} == Restrict(counts, left - {k});
        left := left - {k};
        n := n + |categories[k].waiting|;
      }
      RestrictToNone(counts);
    }

    method FinalizeGeneration()
      requires Valid() && Pending(Contents()) == 0
      modifies this
      ensures Valid() && Contents() == Finalize(old(Contents()))
    {
      finals := finals + [Final(activeId, spawnedCount, skippedCount, |accepted|)];
      transactionOpen, finalizeWhenDrained := false, false;
      categories, readyQueue, head := map[], [], 0;
      activeId := "";
    }

    /** Drops everything not yet spawned, counting it as skipped. */
    method DiscardPending()
      requires Valid()
      modifies this
      ensures Valid() && Contents() == Discard(old(Contents()))
    {
      var dropped := NumPendingEntries();
      skippedCount := skippedCount + dropped;
      readyQueue, head := [], 0;
      categories := Emptied(categories);
    }

    method EndGeneration(discard: bool)
      requires Valid()
      modifies this
      ensures Valid() && Contents() == End(old(Contents()), discard)
    {
      if !transactionOpen {
        return;
      }
      if discard {
        DiscardPending();
        FinalizeGeneration();
      } else {
        var pending := NumPendingEntries();
        if pending == 0 {
          FinalizeGeneration();
        } else {
          finalizeWhenDrained := true;
        }
      }
    }

    method BeginGeneration(id: string, man: map<string, AssetInfo>)
      requires Valid()
      modifies this
      ensures Valid() && Contents() == Begin(old(Contents()), id, man)
    {
      if transactionOpen {
        EndGeneration(true);
      }
      Open(id, man);
    }

    /** Resets the state for a new generation and opens its transaction. */
    method Open(id: string, man: map<string, AssetInfo>)
      requires Valid()
      modifies this
      ensures Valid() && Contents() == Opened(old(Contents()), id, man)
    {
      ghost var was := Contents();
      activeId, finalizeWhenDrained := id, false;
      readyQueue, head, spawnedCount, skippedCount := [], 0, 0, 0;
      categories := FreshCategories(man);
      transactionOpen := true;
      accepted, processed, begins := [], [], begins + 1;
      assert readyQueue[head..] == [];
      assert Contents().begins == was.begins + 1;
      assert Contents().finals == was.finals && Contents().spawnLog == was.spawnLog;
    }

    /** One entry of a chunk: skipped, queued, or put to wait for its category's load. */
    method EnqueueEntry(e: AssetEntry)
      requires Valid()
      modifies this
      ensures Valid() && Contents() == EnqueueOne(old(Contents()), e)
    {
      accepted := accepted + [e];
      if e.category !in categories {
        skippedCount := skippedCount + 1;
        return;
      }
      var rt := categories[e.category];
      if rt.failed {
        skippedCount := skippedCount + 1;
        return;
      }
      if !rt.requested {
        rt := rt.(requested := true);
        if !rt.info.hasPath {
          categories := categories[e.category := rt.(failed := true)];
          skippedCount := skippedCount + 1;
          return;
        }
      }
      if rt.loaded {
        readyQueue := readyQueue + [e];
      } else {
        rt := rt.(waiting := rt.waiting + [e]);
      }
      categories := categories[e.category := rt];
    }

    method EnqueueEntries(entries: seq<AssetEntry>)
      requires Valid()
      modifies this
      ensures Valid() && Contents() == Enqueue(old(Contents()), entries)
    {
      if !transactionOpen {
        return;
      }
      for i := 0 to |entries|
        invariant Valid()
        invariant EnqueueAll(old(Contents()), entries) == EnqueueAll(Contents(), entries[i..])
      {
        assert entries[i..][0] == entries[i] && entries[i..][1..] == entries[i + 1..];
        EnqueueEntry(entries[i]);
      }
    }

    method OnCategoryAssetLoaded(c: string, ok: bool)
      requires Valid()
      modifies this
      ensures Valid() && Contents() == Loaded(old(Contents()), c, ok)
      ensures c in old(categories) ==>
                && c in categories && categories[c].waiting == []
                && (ok ==> && categories[c].loaded && skippedCount == old(skippedCount)
                           && readyQueue[head..] == old(readyQueue[head..]) + old(categories[c].waiting))
                && (!ok ==> && categories[c].failed && readyQueue == old(readyQueue) && head == old(head)
                            && skippedCount == old(skippedCount) + |old(categories[c].waiting)|)
    {
      if c !in categories {
        return;
      }
      var rt := categories[c];
      if !ok {
        rt := rt.(failed := true);
        skippedCount := skippedCount + |rt.waiting|;
        categories := categories[c := rt.(waiting := [])];
        return;
      }
      rt := rt.(loaded := true);
      readyQueue := readyQueue + rt.waiting;
      categories := categories[c := rt.(waiting := [])];
    }

    /** Spawns or skips one entry, counting it exactly once. */
    method SpawnEntry(e: AssetEntry, info: AssetInfo, ans: WorldAnswer)
      modifies this`spawnedCount, this`skippedCount
      ensures spawnedCount == old(spawnedCount) + (if Spawns(e, info, ans) then 1 else 0)
      ensures skippedCount == old(skippedCount) + (if Spawns(e, info, ans) then 0 else 1)
      ensures spawnedCount > old(spawnedCount) <==>
                && (e.groundSnap ==> ans.groundHit)
                && (info.instanceable ==> ans.asset.StaticMesh? && ans.container)
                && (!info.instanceable ==> (ans.asset.StaticMesh? || ans.asset.ActorClass?) && ans.actorSpawned)
    {
      if e.groundSnap && !ans.groundHit {
        skippedCount := skippedCount + 1;
        return;
      }
      if info.instanceable {
        SpawnInstanced(ans);
      } else {
        SpawnAsActor(ans);
      }
    }

    method SpawnInstanced(ans: WorldAnswer)
      modifies this`spawnedCount, this`skippedCount
      ensures var ok := ans.asset.StaticMesh? && ans.container;
              spawnedCount == old(spawnedCount) + (if ok then 1 else 0)
              && skippedCount == old(skippedCount) + (if ok then 0 else 1)
    {
      if !ans.asset.StaticMesh? {
        skippedCount := skippedCount + 1;
        return;
      }
      if !ans.container {
        skippedCount := skippedCount + 1;
        return;
      }
      spawnedCount := spawnedCount + 1;
    }

    method SpawnAsActor(ans: WorldAnswer)
      modifies this`spawnedCount, this`skippedCount
      ensures var ok := !ans.asset.OtherAsset? && ans.actorSpawned;
              spawnedCount == old(spawnedCount) + (if ok then 1 else 0)
              && skippedCount == old(skippedCount) + (if ok then 0 else 1)
    {
      var spawned := false;
      match ans.asset {
        case ActorClass => spawned := ans.actorSpawned;
        case StaticMesh => spawned := ans.actorSpawned;
        case OtherAsset =>
          skippedCount := skippedCount + 1;
          return;
      }
      if !spawned {
        skippedCount := skippedCount + 1;
        return;
      }
      spawnedCount := spawnedCount + 1;
    }

    /** One round of the budgeted loop. */
    method ProcessHead(ans: WorldAnswer)
      requires Valid() && head < |readyQueue|
      modifies this
      ensures Valid() && Contents() == ProcessOne(old(Contents()), ans)
    {
      var e := readyQueue[head];
      head := head + 1;
      processed := processed + [e];
      if e.category in categories {
        var info := categories[e.category].info;
        SpawnEntry(e, info, ans);
        if Spawns(e, info, ans) {
          spawnLog := spawnLog + [(activeId, e)];
        }
      }
    }

    /** The loop and the compaction after it. */
    method DrainQueue(answers: seq<WorldAnswer>)
      requires Valid()
      modifies this
      ensures Valid() && Contents() == Drain(old(Contents()), answers)
    {
      var i := 0;
      while head < |readyQueue| && i < |answers|
        invariant Valid() && 0 <= i <= |answers|
        invariant Drain(old(Contents()), answers) == Drain(Contents(), answers[i..])
        decreases |answers| - i
      {
        assert answers[i..][0] == answers[i] && answers[i..][1..] == answers[i + 1..];
        ProcessHead(answers[i]);
        i := i + 1;
      }
      if head >= |readyQueue| {
        readyQueue, head := [], 0;
      }
    }

    method SpawnTick(world: bool, answers: seq<WorldAnswer>)
      requires Valid()
      modifies this
      ensures Valid() && Contents() == Tick(old(Contents()), world, answers)
    {
      if !transactionOpen {
        return;
      }
      if head < |readyQueue| {
        if !world {
          return;
        }
        DrainQueue(answers);
      }
      if finalizeWhenDrained {
        var pending := NumPendingEntries();
        if pending == 0 {
          FinalizeGeneration();
        }
      }
    }
  }
}

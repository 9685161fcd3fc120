/** The message script of one generation, plan then chunks then complete, and the loop that sends it. */
module Streaming {
  import opened Seqs
  import opened Wire
  import opened RecipeProperties

  /** What a generation has decided before it starts to stream. */
  datatype Job = Job(items: seq<CategoryRecipe>, seed: int, entries: seq<AssetEntry>)

  function Chunks(entries: seq<AssetEntry>, size: nat): seq<seq<AssetEntry>>
    requires size > 0
  {
    if entries == [] then []
    else if |entries| <= size then [entries]
    else [entries[..size]] + Chunks(entries[size..], size)
  }

  function ChunkFor(id: string): seq<AssetEntry> -> Message {
    (assets: seq<AssetEntry>) => Chunk(id, assets)
  }

  function PlanOf(id: string, job: Job): Message {
    Plan(id, job.seed, |job.entries|, CategoryCounts(job.items))
  }

  /** Everything an undisturbed generation sends. */
  function Script(id: string, job: Job, size: nat): seq<Message>
    requires size > 0
  {
    [PlanOf(id, job)] + Map(ChunkFor(id), Chunks(job.entries, size)) + [Complete(id, |job.entries|)]
  }

  function Min(a: int, b: int): int {
    if a < b then a else b
  }

  /** Chunk k is the slice from k * size: full, except that the last one ends with the entries. */
  lemma {:induction false} ChunkAt(entries: seq<AssetEntry>, size: nat, k: nat)
    requires size > 0 && k < |Chunks(entries, size)|
    ensures k * size < |entries|
    ensures Chunks(entries, size)[k] == entries[k * size..Min(k * size + size, |entries|)]
  {
    if k > 0 {
      assert k * size == (k - 1) * size + size;
      ChunkAt(entries[size..], size, k - 1);
      ShiftSlice(entries, size, (k - 1) * size);
    }
  }

  /** A slice of the rest is a slice of the whole. */
  lemma ShiftSlice<T>(s: seq<T>, size: nat, p: nat)
    requires size + p < |s|
    ensures s[size..][p..Min(p + size, |s| - size)] == s[p + size..Min(p + size + size, |s|)]
  {
  }

  /** There are exactly ceil(n / size) chunks. */
  lemma {:induction false} ChunkCount(entries: seq<AssetEntry>, size: nat)
    requires size > 0
    ensures var k := |Chunks(entries, size)|; (k - 1) * size < |entries| <= k * size || k == |entries| == 0
  {
    if |entries| > size {
      ChunkCount(entries[size..], size);
      var k := |Chunks(entries, size)|;
      assert k * size == (k - 1) * size + size;
      assert (k - 1) * size == (k - 2) * size + size;
    }
  }

  lemma SameCeiling(n: int, k: int, size: int)
    requires size > 0 && (k - 1) * size < n <= k * size
    ensures k == (n + size - 1) / size
  {
    var q := (n + size - 1) / size;
    assert q * size <= n + size - 1 < q * size + size;
    assert (k - 1) * size + size == k * size;
    ScaleInt(q, k + 1, size);
    ScaleInt(k, q + 1, size);
    assert (k + 1) * size == k * size + size;
    assert (q + 1) * size == q * size + size;
  }

  lemma CeilingCount(entries: seq<AssetEntry>, size: nat)
    requires size > 0
    ensures |Chunks(entries, size)| == (|entries| + size - 1) / size
  {
    ChunkCount(entries, size);
    if entries == [] {
      assert (size - 1) / size == 0;
    } else {
      SameCeiling(|entries|, |Chunks(entries, size)|, size);
    }
  }

  lemma ChunkSize(entries: seq<AssetEntry>, size: nat, i: nat)
    requires size > 0 && i < |Chunks(entries, size)|
    ensures var cs := Chunks(entries, size); 1 <= |cs[i]| <= size && (i < |cs| - 1 ==> |cs[i]| == size)
  {
    ChunkAt(entries, size, i);
    if i < |Chunks(entries, size)| - 1 {
      ChunkAt(entries, size, i + 1);
      assert (i + 1) * size == i * size + size;
    }
  }

  lemma AllChunks(entries: seq<AssetEntry>, size: nat)
    requires size > 0
    ensures Flatten(Chunks(entries, size)) == entries
  {
    var cs := Chunks(entries, size);
    ChunkCount(entries, size);
    FirstChunks(entries, size, |cs|);
    assert cs[..|cs|] == cs;
    assert entries[..|entries|] == entries;
  }

  /**
   The chunks of a script: none is empty, none is over the chunk size, all but the last are full, they
   number ceil(n / size), and the first k of them carry exactly the first k * size entries.
   */
  lemma ChunksCarryEntries(entries: seq<AssetEntry>, size: nat, k: nat)
    requires size > 0 && k <= |Chunks(entries, size)|
    ensures var cs := Chunks(entries, size);
            && |cs| == (|entries| + size - 1) / size
            && (forall i | 0 <= i < |cs| :: 1 <= |cs[i]| <= size && (i < |cs| - 1 ==> |cs[i]| == size))
            && Flatten(cs[..k]) == entries[..Min(k * size, |entries|)]
            && Flatten(cs) == entries
  {
    CeilingCount(entries, size);
    forall i | 0 <= i < |Chunks(entries, size)|
      ensures var cs := Chunks(entries, size); 1 <= |cs[i]| <= size && (i < |cs| - 1 ==> |cs[i]| == size)
    {
      ChunkSize(entries, size, i);
    }
    FirstChunks(entries, size, k);
    AllChunks(entries, size);
  }

  lemma {:induction false} FirstChunks(entries: seq<AssetEntry>, size: nat, k: nat)
    requires size > 0 && k <= |Chunks(entries, size)|
    ensures 0 <= k * size && Flatten(Chunks(entries, size)[..k]) == entries[..Min(k * size, |entries|)]
  {
    var cs := Chunks(entries, size);
    if k > 0 {
      FirstChunks(entries, size, k - 1);
      ChunkAt(entries, size, k - 1);
      AddChunk(cs, k, entries, (k - 1) * size, size);
      assert k * size == (k - 1) * size + size;
    }
  }

  lemma AddChunk(cs: seq<seq<AssetEntry>>, k: nat, entries: seq<AssetEntry>, p: nat, size: nat)
    requires 0 < k <= |cs| && p < |entries|
    requires Flatten(cs[..k - 1]) == entries[..p]
    requires cs[k - 1] == entries[p..Min(p + size, |entries|)]
    ensures Flatten(cs[..k]) == entries[..Min(p + size, |entries|)]
  {
    FlattenPush(cs[..k - 1], cs[k - 1]);
    assert cs[..k] == cs[..k - 1] + [cs[k - 1]];
    JoinSlices(entries, p, Min(p + size, |entries|));
  }

  lemma JoinSlices<T>(s: seq<T>, p: nat, q: nat)
    requires p <= q <= |s|
    ensures s[..p] + s[p..q] == s[..q]
  {
  }

  /** The entries carried by the chunk messages of a trace. */
  function Carried(trace: seq<Message>): seq<AssetEntry> {
    if trace == [] then []
    else (if trace[0].Chunk? then trace[0].assets else []) + Carried(trace[1..])
  }

  lemma {:induction false} CarriedAppend(a: seq<Message>, b: seq<Message>)
    ensures Carried(a + b) == Carried(a) + Carried(b)
  {
    if a == [] {
      assert a + b == b;
    } else {
      assert (a + b)[1..] == a[1..] + b;
      CarriedAppend(a[1..], b);
    }
  }

  lemma {:induction false} CarriedChunks(id: string, cs: seq<seq<AssetEntry>>)
    ensures Carried(Map(ChunkFor(id), cs)) == Flatten(cs)
  {
    if cs != [] {
      assert Map(ChunkFor(id), cs)[1..] == Map(ChunkFor(id), cs[1..]);
      CarriedChunks(id, cs[1..]);
    }
  }

  /** A script carries every placed entry, in placement order. */
  lemma ScriptCarriesAll(id: string, job: Job, size: nat)
    requires size > 0
    ensures Carried(Script(id, job, size)) == job.entries
  {
    var cs := Chunks(job.entries, size);
    var body := Map(ChunkFor(id), cs);
    CarriedAppend([PlanOf(id, job)] + body, [Complete(id, |job.entries|)]);
    CarriedAppend([PlanOf(id, job)], body);
    CarriedChunks(id, cs);
    AllChunks(job.entries, size);
    assert Carried([Complete(id, |job.entries|)]) == [];
    assert Carried([PlanOf(id, job)]) == [];
  }

  /** Any prefix of a script carries a prefix of the placed entries. */
  lemma ScriptPrefixCarriesPrefix(id: string, job: Job, size: nat, trace: seq<Message>)
    requires size > 0 && trace <= Script(id, job, size)
    ensures Carried(trace) <= job.entries
  {
    var all := Script(id, job, size);
    assert all == trace + all[|trace|..];
    CarriedAppend(trace, all[|trace|..]);
    ScriptCarriesAll(id, job, size);
  }

  /** The first message announces, and the last one reports, how many entries the chunks between them carry. */
  lemma ScriptCounts(id: string, job: Job, size: nat)
    requires size > 0
    ensures var all := Script(id, job, size);
            && |all| >= 2
            && all[0].Plan? && all[0].totalAssets == |Carried(all)|
            && all[|all| - 1].Complete? && all[|all| - 1].assetCount == |Carried(all)|
            && |Carried(all)| == |job.entries|
  {
    ScriptCarriesAll(id, job, size);
  }

  /** complete is the last message of a script and appears nowhere else; plan is the first. */
  lemma ScriptShape(id: string, job: Job, size: nat)
    requires size > 0
    ensures var all := Script(id, job, size);
            && |all| == |Chunks(job.entries, size)| + 2
            && (forall i | 0 <= i < |all| :: all[i].id == id)
            && (forall i | 0 <= i < |all| :: all[i].Plan? <==> i == 0)
            && (forall i | 0 <= i < |all| :: all[i].Complete? <==> i == |all| - 1)
            && (forall i | 0 <= i < |all| :: !all[i].Error?)
  {
  }

  /**
   The streaming part of a run. Message k gets out iff gate(k): the context is not cancelled at its check
   and the send succeeds. The run stops at the first message that does not, and emits exactly the
   messages of the script before it.
   */
  method StreamJob(id: string, job: Job, size: nat, gate: nat -> bool) returns (sent: seq<Message>, finished: bool)
    requires size > 0
    ensures sent <= Script(id, job, size)
    ensures finished <==> sent == Script(id, job, size)
    ensures forall k | 0 <= k < |sent| :: gate(k)
    ensures !finished ==> !gate(|sent|)
    ensures finished ==> |sent| >= 2 && sent[|sent| - 1] == Complete(id, |job.entries|)
  {
    var entries := job.entries;
    ghost var all := Script(id, job, size);
    ghost var cs := Chunks(entries, size);
    ChunkCount(entries, size);
    sent := [];
    if !gate(0) {
      return sent, false;
    }
    sent := sent + [PlanOf(id, job)];
    var off: nat := 0;
    ghost var k: nat := 0;
    while off < |entries|
      invariant k <= |cs| && off == k * size && |sent| == k + 1
      invariant sent == all[..k + 1]
      invariant forall i | 0 <= i <= k :: gate(i)
      decreases |entries| - off
    {
      var end := Min(off + size, |entries|);
      NextChunk(entries, size, k);
      if !gate(|sent|) {
        return sent, false;
      }
      sent := sent + [Chunk(id, entries[off..end])];
      off := off + size;
      k := k + 1;
    }
    AllChunksSent(entries, size, k);
    if !gate(|sent|) {
      return sent, false;
    }
    sent := sent + [Complete(id, |entries|)];
    finished := true;
  }

  lemma NextChunk(entries: seq<AssetEntry>, size: nat, k: nat)
    requires size > 0 && k <= |Chunks(entries, size)| && k * size < |entries|
    ensures k < |Chunks(entries, size)| && (k + 1) * size == k * size + size
    ensures Chunks(entries, size)[k] == entries[k * size..Min(k * size + size, |entries|)]
  {
    ChunkCount(entries, size);
    if k < |Chunks(entries, size)| {
      ChunkAt(entries, size, k);
    }
  }

  lemma AllChunksSent(entries: seq<AssetEntry>, size: nat, k: nat)
    requires size > 0 && k <= |Chunks(entries, size)| && k * size >= |entries|
    ensures k == |Chunks(entries, size)|
  {
    var n := |Chunks(entries, size)|;
    ChunkCount(entries, size);
    if k <= n - 1 {
      ScaleInt(n - 1, k, size);
    }
  }
}

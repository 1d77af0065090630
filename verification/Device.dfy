/** What the device computes. A KV entry is whatever the model derives from the entries before it
    and its own token; the next token is an arbitrary function of the entries of the sequence, the
    request's seed (with its sampling parameters) and the position. Nothing else is assumed of the
    model, so the results hold for all of them. */
module Device {
  import opened Common

  /** The KV of one position: a function of the earlier entries and the token, kept symbolic. */
  datatype KV = KV(past: seq<KV>, token: int)

  type Sampler = (seq<KV>, nat, nat) -> nat

  /** The KV entries of a sequence computed on its own. */
  function Hist(s: seq<int>): (h: seq<KV>)
    ensures |h| == |s|
  {
    if s == [] then []
    else
      var h := Hist(s[..|s| - 1]);
      h + [KV(h, s[|s| - 1])]
  }

  lemma {:induction false} HistTake(s: seq<int>, k: nat)
    requires k <= |s|
    ensures Hist(s)[..k] == Hist(s[..k])
  {
    if k < |s| {
      HistTake(s[..|s| - 1], k);
      assert s[..|s| - 1][..k] == s[..k];
    } else {
      assert s[..k] == s;
    }
  }

  /** An entry depends on the tokens up to its own position only. */
  lemma HistAt(s: seq<int>, i: nat)
    requires i < |s|
    ensures Hist(s)[i] == KV(Hist(s[..i]), s[i])
  {
    HistTake(s, i + 1);
    assert Hist(s)[i] == Hist(s)[..i + 1][i];
    assert s[..i + 1][..i] == s[..i];
  }

  // ------------------------------------------------------------ decoding alone

  /** The first `n` tokens the model produces after `prompt`, stop rules aside. */
  function Stream(next: Sampler, prompt: seq<nat>, seed: nat, n: nat): (r: seq<nat>)
    ensures |r| == n
  {
    if n == 0 then []
    else
      var s := Stream(next, prompt, seed, n - 1);
      s + [next(Hist(prompt + s), seed, |prompt| + n - 1)]
  }

  lemma {:induction false} StreamTake(next: Sampler, prompt: seq<nat>, seed: nat, n: nat, k: nat)
    requires k <= n
    ensures Stream(next, prompt, seed, n)[..k] == Stream(next, prompt, seed, k)
  {
    if k < n {
      StreamTake(next, prompt, seed, n - 1, k);
    }
  }

  /** Greedy generation of one request by itself: one token at a time until a stop token, which is
      kept, or the token limit. */
  function SoloFrom(next: Sampler, prompt: seq<nat>, seed: nat, maxNew: nat, stops: set<nat>, out: seq<nat>): seq<nat>
    decreases maxNew - |out|
  {
    if |out| >= maxNew then out
    else
      var tok := next(Hist(prompt + out), seed, |prompt| + |out|);
      if tok in stops then out + [tok] else SoloFrom(next, prompt, seed, maxNew, stops, out + [tok])
  }

  function Solo(next: Sampler, prompt: seq<nat>, seed: nat, maxNew: nat, stops: set<nat>): seq<nat> {
    SoloFrom(next, prompt, seed, maxNew, stops, [])
  }

  predicate NoStop(s: seq<nat>, stops: set<nat>) {
    forall i :: 0 <= i < |s| ==> s[i] !in stops
  }

  lemma {:induction false} SoloRuns(next: Sampler, prompt: seq<nat>, seed: nat, maxNew: nat, stops: set<nat>, k: nat)
    requires k <= maxNew && NoStop(Stream(next, prompt, seed, k), stops)
    ensures Solo(next, prompt, seed, maxNew, stops) ==
      SoloFrom(next, prompt, seed, maxNew, stops, Stream(next, prompt, seed, k))
  {
    if k > 0 {
      var s := Stream(next, prompt, seed, k);
      StreamTake(next, prompt, seed, k, k - 1);
      SoloRuns(next, prompt, seed, maxNew, stops, k - 1);
      assert s[k - 1] !in stops;
    }
  }

  /** A stream without an earlier stop, cut at its limit or at a stop token, is the solo output. */
  lemma SoloIsCut(next: Sampler, prompt: seq<nat>, seed: nat, maxNew: nat, stops: set<nat>, k: nat)
    requires 0 < k <= maxNew && NoStop(Stream(next, prompt, seed, k - 1), stops)
    requires k == maxNew || Stream(next, prompt, seed, k)[k - 1] in stops
    ensures Solo(next, prompt, seed, maxNew, stops) == Stream(next, prompt, seed, k)
  {
    SoloRuns(next, prompt, seed, maxNew, stops, k - 1);
  }

  /** `greedy_generate`: prefill the prompt into a cache, then feed each token back alone. */
  method GreedyGenerate(next: Sampler, prompt: seq<nat>, seed: nat, maxNew: nat, stops: set<nat>) returns (out: seq<nat>)
    requires |prompt| > 0
    ensures out == Solo(next, prompt, seed, maxNew, stops)
  {
    var cache: seq<KV> := [];
    var ids: seq<int> := prompt;
    ghost var done: seq<int> := [];
    out := [];
    assert done + ids == prompt + out;
    while |out| < maxNew
      invariant |out| <= maxNew && out == Stream(next, prompt, seed, |out|) && NoStop(out, stops)
      invariant cache == Hist(done) && done + ids == prompt + out
    {
      cache := RunModel(cache, ids, done);
      done := done + ids;
      var tok := next(cache, seed, |prompt| + |out|);
      out := out + [tok];
      if tok in stops {
        SoloIsCut(next, prompt, seed, maxNew, stops, |out|);
        return;
      }
      ids := [tok];
    }
    SoloRuns(next, prompt, seed, maxNew, stops, |out|);
  }

  /** A forward pass over `ids` on top of the KV of `before`. */
  method RunModel(cache: seq<KV>, ids: seq<int>, ghost before: seq<int>) returns (cache': seq<KV>)
    requires cache == Hist(before)
    ensures cache' == Hist(before + ids)
  {
    cache' := cache;
    assert before + ids[..0] == before;
    for i := 0 to |ids|
      invariant cache' == Hist(before + ids[..i])
    {
      assert (before + ids[..i + 1])[..|before| + i] == before + ids[..i];
      cache' := cache' + [KV(cache', ids[i])];
    }
    assert ids[..|ids|] == ids;
  }

  // ------------------------------------------------------------ the KV pool

  type Store = seq<seq<KV>>

  predicate StoreOk(store: Store, numBlocks: nat, bs: nat) {
    |store| == numBlocks && forall b :: 0 <= b < numBlocks ==> |store[b]| == bs
  }

  /** The first `n` positions of a table lie in the pool. */
  predicate InPool(store: Store, blocks: seq<nat>, n: nat, bs: nat) {
    && bs > 0
    && (forall i: nat :: i < n ==> Blk(i, bs) < |blocks|)
    && (forall k :: 0 <= k < |blocks| ==> blocks[k] < |store| && |store[blocks[k]]| == bs)
  }

  function ReadAt(store: Store, blocks: seq<nat>, i: nat, bs: nat): KV
    requires InPool(store, blocks, i + 1, bs)
  {
    store[blocks[Blk(i, bs)]][Off(i, bs)]
  }

  /** The entries a row of the attention kernel reads: those of its table's first `n` positions. */
  function Read(store: Store, blocks: seq<nat>, n: nat, bs: nat): (r: seq<KV>)
    requires InPool(store, blocks, n, bs)
    ensures |r| == n
    ensures forall i: nat :: i < n ==> r[i] == ReadAt(store, blocks, i, bs)
  {
    seq(n, i requires 0 <= i < n => ReadAt(store, blocks, i, bs))
  }

  function Put(store: Store, blocks: seq<nat>, i: nat, bs: nat, kv: KV): (r: Store)
    requires InPool(store, blocks, i + 1, bs)
    ensures |r| == |store| && forall b :: 0 <= b < |store| ==> |r[b]| == |store[b]|
  {
    var b := blocks[Blk(i, bs)];
    store[b := store[b][Off(i, bs) := kv]]
  }

  /** A forward pass over one row: each new token's entry is computed from the entries its table
      holds before it, and written to its slot. */
  function WriteRow(store: Store, blocks: seq<nat>, start: nat, ids: seq<int>, bs: nat): (r: Store)
    requires InPool(store, blocks, start + |ids|, bs)
    ensures |r| == |store| && forall b :: 0 <= b < |store| ==> |r[b]| == |store[b]|
    decreases |ids|
  {
    if ids == [] then store
    else
      var n := |ids| - 1;
      var st := WriteRow(store, blocks, start, ids[..n], bs);
      Put(st, blocks, start + n, bs, KV(Read(st, blocks, start + n, bs), ids[n]))
  }

  /** The first `n` positions of the table hold the KV of `s`. */
  ghost predicate Holds(store: Store, blocks: seq<nat>, s: seq<int>, n: nat, bs: nat) {
    && InPool(store, blocks, n, bs) && n <= |s|
    && forall i: nat :: i < n ==> ReadAt(store, blocks, i, bs) == Hist(s)[i]
  }

  lemma HoldsReads(store: Store, blocks: seq<nat>, s: seq<int>, n: nat, bs: nat)
    requires Holds(store, blocks, s, n, bs)
    ensures Read(store, blocks, n, bs) == Hist(s[..n])
  {
    HistTake(s, n);
  }

  /** A row that continues a correct table leaves a correct table. */
  lemma PutHolds(store: Store, blocks: seq<nat>, s: seq<int>, n: nat, bs: nat)
    requires Distinct(blocks) && InPool(store, blocks, n + 1, bs) && Holds(store, blocks, s, n, bs) && n < |s|
    ensures Holds(Put(store, blocks, n, bs, KV(Read(store, blocks, n, bs), s[n])), blocks, s, n + 1, bs)
  {
    HoldsReads(store, blocks, s, n, bs);
    HistAt(s, n);
    var r := Put(store, blocks, n, bs, KV(Read(store, blocks, n, bs), s[n]));
    forall i: nat | i < n + 1 ensures ReadAt(r, blocks, i, bs) == Hist(s)[i] {
      if i < n && Blk(i, bs) == Blk(n, bs) && Off(i, bs) == Off(n, bs) {
        SlotInjective(i, n, bs);
      }
    }
  }

  lemma {:induction false} RowHolds(store: Store, blocks: seq<nat>, s: seq<int>, start: nat, ids: seq<int>, bs: nat)
    requires Distinct(blocks) && InPool(store, blocks, start + |ids|, bs)
    requires Holds(store, blocks, s, start, bs) && start + |ids| <= |s| && ids == s[start..start + |ids|]
    ensures Holds(WriteRow(store, blocks, start, ids, bs), blocks, s, start + |ids|, bs)
    decreases |ids|
  {
    if ids != [] {
      var n := |ids| - 1;
      var st := WriteRow(store, blocks, start, ids[..n], bs);
      RowHolds(store, blocks, s, start, ids[..n], bs);
      PutHolds(st, blocks, s, start + n, bs);
    }
  }

  /** A row writes only to the slots of its own new positions. */
  lemma {:induction false} RowKeeps(store: Store, blocks: seq<nat>, start: nat, ids: seq<int>, bs: nat, b: nat, o: nat)
    requires InPool(store, blocks, start + |ids|, bs) && b < |store| && o < |store[b]|
    requires forall i: nat :: start <= i < start + |ids| ==> blocks[Blk(i, bs)] != b || Off(i, bs) != o
    ensures WriteRow(store, blocks, start, ids, bs)[b][o] == store[b][o]
    decreases |ids|
  {
    if ids != [] {
      RowKeeps(store, blocks, start, ids[..|ids| - 1], bs, b, o);
    }
  }
}

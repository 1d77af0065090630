/** Every step of the machine keeps the invariant. */
module MachineSteps {
  import opened Common
  import opened BlockTables
  import opened TreeShape
  import opened TokenChunks
  import opened KvState
  import opened KvCache
  import opened Device
  import opened Requests
  import opened Verification
  import opened Machine
  import opened MachineInv

  // ------------------------------------------------------------ tokens

  /** Up to the first placeholder the host's record is the request's own sequence. */
  lemma TokensMatch(next: Sampler, q: Req, m: nat)
    requires ReqTokens(next, q) && m <= |q.prompt| + ReadyLen(q)
    ensures |Full(next, q)| == SeqLen(q) == |Tokens(q)| && Tokens(q)[..m] == Full(next, q)[..m]
  {
    var st := Stream(next, q.prompt, q.seed, |q.output|);
    assert forall i :: 0 <= i < ReadyLen(q) ==> q.output[i] == ReadyIds(q)[i] == st[i];
  }

  /** With placeholders resolved from the device, the input tokens are exactly its sequence. */
  lemma DeviceMatch(next: Sampler, q: Req)
    requires ReqTokens(next, q)
    ensures DeviceTokens(q) == Full(next, q)
  {
  }

  lemma FullTake(next: Sampler, q: Req, q1: Req)
    requires q1.prompt == q.prompt && q1.seed == q.seed && |q.output| <= |q1.output|
    ensures Full(next, q) == Full(next, q1)[..SeqLen(q)]
  {
    StreamTake(next, q.prompt, q.seed, |q1.output|, |q.output|);
  }

  /** The KV of a request stays right when its record grows or loses trailing tokens, as long as
      the computed positions are covered. */
  lemma Relength(next: Sampler, bs: nat, store: Store, h: Hold, q: Req, q1: Req)
    requires LiveOk(next, bs, store, h, q) && !q.row.Verified? && !q1.row.Verified?
    requires q1.prompt == q.prompt && q1.seed == q.seed && q1.table == q.table && q1.written == q.written <= SeqLen(q1)
    ensures LiveOk(next, bs, store, h, q1)
  {
    hide Holds, Hist, Stream, Chunks, InPool;
    var (f, f1) := (Full(next, q), Full(next, q1));
    HoldsLen(store, h.blocks, f, q.written, bs);
    if |q.output| <= |q1.output| {
      FullTake(next, q, q1);
      ChunksPrefix(f, f1, bs);
    } else {
      FullTake(next, q1, q);
      ChunksPrefix(f1, f, bs);
      ChunksCount(f1, bs);
      BlkMono(q.written, |f1|, bs);
    }
    HoldsAgree(store, h.blocks, f, f1, q.written, q.written, bs);
  }

  lemma {:induction false} SoloExtends(next: Sampler, prompt: seq<nat>, seed: nat, maxNew: nat, stops: set<nat>, out: seq<nat>)
    ensures out <= SoloFrom(next, prompt, seed, maxNew, stops, out)
    decreases maxNew - |out|
  {
    if |out| < maxNew {
      var tok := next(Hist(prompt + out), seed, |prompt| + |out|);
      if tok !in stops { SoloExtends(next, prompt, seed, maxNew, stops, out + [tok]); }
    }
  }

  /** A live request has a beginning of its solo output, and more to come. */
  lemma ReadyBeginsSolo(next: Sampler, q: Req)
    requires ReqTokens(next, q)
    ensures ReadyIds(q) <= Solo(next, q.prompt, q.seed, q.maxNew, q.stops)
  {
    var n := ReadyLen(q);
    StreamTake(next, q.prompt, q.seed, |q.output|, n);
    SoloRuns(next, q.prompt, q.seed, q.maxNew, q.stops, n);
    SoloExtends(next, q.prompt, q.seed, q.maxNew, q.stops, Stream(next, q.prompt, q.seed, n));
  }

  // ------------------------------------------------------------ arrival and departure

  lemma AddKeeps(s: Sys, rid: nat, q: Req, s': Sys)
    requires Inv(s) && AddStep(s, rid, q, s')
    ensures Inv(s')
  {
    hide KvOk, CacheHolds;
    assert Elsewhere(s, s', rid);
    assert rid !in s.kv.held;
    Assemble(s, s', rid);
  }

  /** The KV of a settled request covers no token that was not read back. */
  lemma SettledCovers(s: Sys, rid: nat)
    requires Inv(s) && rid in s.reqs && Settled(s.reqs[rid]) && s.reqs[rid].table.Some?
    ensures var q := s.reqs[rid];
      && ReqTokens(s.next, q) && rid in s.kv.held && LiveOk(s.next, s.bs, s.store, s.kv.held[rid], q)
      && TableOk(q.table.value, s.bs)
      && q.written < SeqLen(q) && (q.pending > 0 ==> q.written == SeqLen(q) - 1)
  {
    InvReq(s, rid);
  }

  lemma AbortKeeps(s: Sys, rid: nat, s': Sys)
    requires Inv(s) && AbortStep(s, rid, s')
    ensures Inv(s')
  {
    hide KvOk, CacheHolds, MayRelease, Retired, LiveOk;
    DroppedRelease(s, rid, s.reqs[rid]);
    var q := s.reqs[rid];
    InvReq(s, rid);
    ReadyBeginsSolo(s.next, q);
    RetireKeeps(s, rid, DropPending(q), ABORTED);
  }

  /** What a request needs of `q`, its record, to have its KV taken. */
  ghost predicate Releasable(s: Sys, rid: nat, q: Req) {
    && (q.table.Some? <==> rid in s.kv.held)
    && (q.table.Some? ==> LiveOk(s.next, s.bs, s.store, s.kv.held[rid], q) && TableOk(q.table.value, s.bs))
    && (s.radix && q.table.Some? ==>
         && q.row.Idle? && q.written == q.table.value.numTokens <= SeqLen(q)
         && Tokens(q)[..q.written] == Full(s.next, q)[..q.written])
  }

  /** A settled request may be preempted, or dropped with its late tokens, at any time. */
  lemma DroppedRelease(s: Sys, rid: nat, q: Req)
    requires Inv(s) && rid in s.reqs && q == s.reqs[rid] && Settled(q) && q.pending <= 1
    ensures q.pending <= |q.output| && Releasable(s, rid, q) && Releasable(s, rid, DropPending(q))
  {
    hide KvOk, CacheHolds, LiveOk, Full;
    InvReq(s, rid);
    if q.table.Some? {
      SettledCovers(s, rid);
      TokensMatch(s.next, q, q.written);
      var q1 := DropPending(q);
      Relength(s.next, s.bs, s.store, s.kv.held[rid], q, q1);
      FullTake(s.next, q1, q);
      assert Tokens(q1)[..q.written] == Tokens(q)[..q.written];
    }
  }

  /** The engine can always give up a settled request's KV: what a commit needs is there. */
  lemma MayAlwaysRelease(s: Sys, rid: nat)
    requires Inv(s) && rid in s.reqs && Settled(s.reqs[rid]) && s.reqs[rid].pending <= 1
    ensures var q := s.reqs[rid];
      q.pending <= |q.output| && MayRelease(s, rid, q) && MayRelease(s, rid, DropPending(q))
  {
    hide KvOk, CacheHolds, LiveOk, Full, MayRelease;
    InvReq(s, rid);
    var q := s.reqs[rid];
    DroppedRelease(s, rid, q);
    ReleaseKeeps(s, rid, q);
    ReleaseKeeps(s, rid, DropPending(q));
  }

  /** One request's hold and record changed, and nothing else. */
  lemma HoldMoved(s: Sys, s': Sys, rid: nat)
    requires SharedOk(s) && rid in s.reqs && rid in s'.reqs
    requires s' == s.(reqs := s'.reqs, kv := s'.kv) && s'.reqs == s.reqs[rid := s'.reqs[rid]]
    requires s'.kv.numBlocks == s.kv.numBlocks && KvOk(s'.kv) && CacheHolds(s.store, s'.kv.cached, s.bs)
    requires !s.radix ==> s'.kv.cached == map[]
    requires s'.kv.held - {rid} == s.kv.held - {rid}
    ensures SharedOk(s') && Elsewhere(s, s', rid)
  {
    hide KvOk, CacheHolds, StoreOk, DoneOk;
    forall r | r != rid ensures r in s'.kv.held <==> r in s.kv.held {
      assert r in s.kv.held <==> r in s.kv.held - {rid};
      assert r in s'.kv.held <==> r in s'.kv.held - {rid};
    }
    forall r | r != rid && r in s.kv.held ensures s'.kv.held[r] == s.kv.held[r] {
      assert s.kv.held[r] == (s.kv.held - {rid})[r];
      assert s'.kv.held[r] == (s'.kv.held - {rid})[r];
    }
  }

  // ------------------------------------------------------------ admission and preemption

  lemma PreemptKeeps(s: Sys, rid: nat, s': Sys)
    requires Inv(s) && PreemptStep(s, rid, s')
    ensures Inv(s')
  {
    hide KvOk, CacheHolds, MayRelease, LiveOk, Full, Released, SharedOk, Elsewhere, ReqTokens;
    var q := s.reqs[rid];
    InvReq(s, rid);
    DroppedRelease(s, rid, q);
    ReleaseKeeps(s, rid, q);
    HoldMoved(s, s', rid);
    WaitTokens(s.next, q, s'.reqs[rid]);
    Assemble(s, s', rid);
  }

  /** Tokens of a request are not touched by what happens to its KV. */
  lemma WaitTokens(next: Sampler, q: Req, q': Req)
    requires ReqTokens(next, q) && q'.prompt == q.prompt && q'.seed == q.seed && q'.maxNew == q.maxNew && q'.stops == q.stops
    requires q'.output == q.output && q'.pending == q.pending && q'.unread == q.unread
    ensures ReqTokens(next, q')
  {
  }

  lemma AdmitKeeps(s: Sys, rid: nat, s': Sys)
    requires Inv(s) && AdmitStep(s, rid, s')
    ensures Inv(s')
  {
    hide KvOk, CacheHolds, Holds, Hist, Stream, Chunks, LongestOf, SharedOk, Elsewhere;
    var q := s.reqs[rid];
    KvOfShared(s);
    InvReq(s, rid);
    var key := LookupKey(q, s.bs);
    var p := LongestOf(s.kv.cached, key);
    var toks := Tokens(q)[..SeqLen(q) - 1];
    TokensMatch(s.next, q, SeqLen(q));
    var full := Full(s.next, q);
    assert toks <= full;
    ChunksPrefix(toks, full, s.bs);
    CachedInPool(s);
    PathHolds(s.store, s.kv.cached, full, p, s.bs);
    ChunksCount(toks, s.bs);
    FloorCeil(|toks|, s.bs);
    MulMono(|p|, |toks| / s.bs, s.bs);
    DivUnique(|p| * s.bs, |p|, 0, s.bs);
    AcquiredOk(s.kv, rid, p);
    HoldMoved(s, s', rid);
    Assemble(s, s', rid);
  }

  lemma KvOfShared(s: Sys)
    requires SharedOk(s)
    ensures s.bs > 0 && KvOk(s.kv) && CacheHolds(s.store, s.kv.cached, s.bs) && (!s.radix ==> s.kv.cached == map[])
  {
  }

  lemma CachedInPool(s: Sys)
    requires SharedOk(s)
    ensures forall b :: b in s.kv.cached.Values ==> b < |s.store| && |s.store[b]| == s.bs
  {
    assert CachedOk(s.kv);
  }

  // ------------------------------------------------------------ eviction and growth

  lemma EvictKeeps(s: Sys, s': Sys)
    requires Inv(s) && EvictStep(s, s')
    ensures Inv(s')
  {
    hide KvOk, ReqOk, BlockHolds;
    EvictedOk(s.kv, s'.kv);
    forall r | r in s'.reqs ensures ReqOk(s'.next, s'.bs, s'.store, s'.kv.held, r, s'.reqs[r]) {
      assert AllReqs(s);
      assert ReqOk(s.next, s.bs, s.store, s.kv.held, r, s.reqs[r]);
    }
    assert s'.kv.cached.Keys <= s.kv.cached.Keys;
    assert !s.radix ==> s'.kv.cached == map[];
  }

  lemma ReserveKeeps(s: Sys, rid: nat, n: nat, news: seq<nat>, s': Sys)
    requires Inv(s) && ReserveStep(s, rid, n, news, s')
    ensures Inv(s')
  {
    hide KvOk, CacheHolds, Holds, Hist, Stream, Chunks, SharedOk, Elsewhere, ReqTokens;
    InvReq(s, rid);
    KvOfShared(s);
    var q := s.reqs[rid];
    var (h, t) := (s.kv.held[rid], q.table.value);
    GrownOk(s.kv, rid, news);
    AppendFits(t, n, news, s.bs);
    HoldsLonger(s, h.blocks, news, Full(s.next, q), q.written);
    HoldMoved(s, s', rid);
    WaitTokens(s.next, q, s'.reqs[rid]);
    Assemble(s, s', rid);
  }

  lemma HoldsLonger(s: Sys, blocks: seq<nat>, news: seq<nat>, full: seq<nat>, n: nat)
    requires SharedOk(s) && Holds(s.store, blocks, full, n, s.bs) && forall b :: b in news ==> b < s.kv.numBlocks
    ensures Holds(s.store, blocks + news, full, n, s.bs)
  {
    hide KvOk, CacheHolds, Hist;
    var all := blocks + news;
    forall k | 0 <= k < |all| ensures all[k] < |s.store| && |s.store[all[k]]| == s.bs {
      if k >= |blocks| { assert all[k] == news[k - |blocks|] && all[k] in news; }
    }
    forall i: nat | i < n ensures ReadAt(s.store, blocks + news, i, s.bs) == Hist(full)[i] {
      assert ReadAt(s.store, blocks, i, s.bs) == Hist(full)[i];
    }
  }

  // ------------------------------------------------------------ forward passes

  /** A block past the locked prefix is its table's alone: no other table and no tree has it, so a
      pass may write it and nothing ever needs to be copied first. */
  lemma TailIsOwn(kv: Kv, rid: nat, k: nat)
    requires KvOk(kv) && rid in kv.held && |kv.held[rid].path| <= k < |kv.held[rid].blocks|
    ensures kv.held[rid].blocks[k] !in kv.cached.Values
    ensures Holders(kv, kv.held[rid].blocks[k]) == {rid}
  {
    var b := kv.held[rid].blocks[k];
    assert HoldOk(kv, kv.held[rid]);
    forall r | r in Holders(kv, b) ensures r == rid {
    }
    IsHolder(kv, rid, b);
  }

  /** What a row writes, it writes to blocks of its own. */
  lemma RowFrame(s: Sys, rid: nat, start: nat, ids: seq<int>, b: nat)
    requires s.bs > 0 && KvOk(s.kv) && rid in s.kv.held && |s.kv.held[rid].path| <= Blk(start, s.bs)
    requires InPool(s.store, s.kv.held[rid].blocks, start + |ids|, s.bs) && b < |s.store|
    requires b in s.kv.cached.Values || exists r :: r in s.kv.held && r != rid && b in s.kv.held[r].blocks
    ensures WriteRow(s.store, s.kv.held[rid].blocks, start, ids, s.bs)[b] == s.store[b]
  {
    hide KvOk, WriteRow;
    var blocks := s.kv.held[rid].blocks;
    forall i: nat | start <= i < start + |ids| ensures blocks[Blk(i, s.bs)] != b {
      BlkMono(start, i, s.bs);
      TailIsOwn(s.kv, rid, Blk(i, s.bs));
      if b !in s.kv.cached.Values && blocks[Blk(i, s.bs)] == b {
        var r :| r in s.kv.held && r != rid && b in s.kv.held[r].blocks;
        IsHolder(s.kv, r, b);
      }
    }
    forall o | 0 <= o < |s.store[b]| ensures WriteRow(s.store, blocks, start, ids, s.bs)[b][o] == s.store[b][o] {
      RowKeeps(s.store, blocks, start, ids, s.bs, b, o);
    }
  }

  /** A row leaves every tree block and every other table as it was. */
  lemma RowShared(s: Sys, rid: nat, start: nat, ids: seq<int>, s': Sys)
    requires SharedOk(s) && rid in s.reqs && rid in s.kv.held && |s.kv.held[rid].path| <= Blk(start, s.bs)
    requires InPool(s.store, s.kv.held[rid].blocks, start + |ids|, s.bs)
    requires rid in s'.reqs && s' == s.(reqs := s'.reqs, store := WriteRow(s.store, s.kv.held[rid].blocks, start, ids, s.bs))
    requires s'.reqs == s.reqs[rid := s'.reqs[rid]]
    ensures SharedOk(s') && Elsewhere(s, s', rid)
  {
    hide KvOk, WriteRow, InPool, DoneOk;
    forall p | p in s.kv.cached ensures BlockHolds(s'.store, p, s'.kv.cached[p], s.bs) {
      CacheAt(s.store, s.kv.cached, p, s.bs);
      InValues(s.kv.cached, p);
      RowFrame(s, rid, start, ids, s.kv.cached[p]);
    }
    forall r, b | r in s'.reqs && r != rid && r in s.kv.held && b in s.kv.held[r].blocks && b < |s.store|
      ensures s'.store[b] == s.store[b]
    {
      RowFrame(s, rid, start, ids, b);
    }
  }

  lemma HeldDistinct(kv: Kv, rid: nat)
    requires KvOk(kv) && rid in kv.held
    ensures Distinct(kv.held[rid].blocks)
  {
    assert HoldOk(kv, kv.held[rid]);
  }

  lemma RunKeeps(s: Sys, rid: nat, s': Sys)
    requires Inv(s) && RunStep(s, rid, s')
    ensures Inv(s')
  {
    hide KvOk, CacheHolds, Holds, WriteRow, SharedOk, Elsewhere, InPool, ReqTokens, Chunks;
    InvReq(s, rid);
    var q := s.reqs[rid];
    var (h, t, full) := (s.kv.held[rid], q.table.value, Full(s.next, q));
    var ids := DeviceTokens(q)[q.written..t.numTokens];
    DeviceMatch(s.next, q);
    KvOfShared(s);
    HeldDistinct(s.kv, rid);
    RowShared(s, rid, q.written, ids, s');
    RowHolds(s.store, t.blocks, full, q.written, ids, s.bs);
    HoldsReads(s'.store, t.blocks, full, t.numTokens, s.bs);
    BlkMono(q.written, t.numTokens, s.bs);
    RunReq(s, rid, s');
    Assemble(s, s', rid);
  }

  lemma RunReq(s: Sys, rid: nat, s': Sys)
    requires RunStep(s, rid, s') && rid in s.kv.held && s.bs > 0
    requires ReqOk(s.next, s.bs, s.store, s.kv.held, rid, s.reqs[rid])
    requires var q := s.reqs[rid];
      && Holds(s'.store, q.table.value.blocks, Full(s.next, q), q.table.value.numTokens, s.bs)
      && InPool(s'.store, q.table.value.blocks, q.table.value.numTokens, s.bs)
      && Read(s'.store, q.table.value.blocks, q.table.value.numTokens, s.bs) == Hist(Full(s.next, q)[..q.table.value.numTokens])
      && Blk(q.written, s.bs) <= Blk(q.table.value.numTokens, s.bs)
    ensures ReqOk(s'.next, s'.bs, s'.store, s'.kv.held, rid, s'.reqs[rid])
  {
    hide Holds, WriteRow, InPool, Hist, Stream, Chunks, Blk, Read;
    var q := s.reqs[rid];
    assert |Full(s.next, q)| == SeqLen(q);
    assert Full(s.next, q)[..SeqLen(q)] == Full(s.next, q);
  }

  // ------------------------------------------------------------ tokens booked and read back

  lemma BookKeeps(s: Sys, rid: nat, s': Sys)
    requires Inv(s) && BookStep(s, rid, s')
    ensures Inv(s')
  {
    hide KvOk, CacheHolds, LiveOk, SharedOk, ReqTokens;
    InvReq(s, rid);
    var (q, q') := (s.reqs[rid], s'.reqs[rid]);
    BookTokens(s.next, q, q');
    Relength(s.next, s.bs, s.store, s.kv.held[rid], q, q');
    BookShared(s, rid, s');
    Assemble(s, s', rid);
  }

  lemma BookShared(s: Sys, rid: nat, s': Sys)
    requires SharedOk(s) && rid in s.reqs && rid in s'.reqs && s' == WithReq(s, rid, s'.reqs[rid])
    ensures SharedOk(s') && Elsewhere(s, s', rid)
  {
  }

  lemma BookTokens(next: Sampler, q: Req, q': Req)
    requires ReqTokens(next, q) && q.row.Sampled? && q.pending <= 1 && |q.output| < q.maxNew
    requires q.row.tok == next(Hist(Full(next, q)), q.seed, SeqLen(q))
    requires q' == q.(output := q.output + [PLACEHOLDER], pending := q.pending + 1,
                      unread := q.unread + [q.row.tok], row := Idle, state := DECODE)
    ensures ReqTokens(next, q')
  {
    hide Hist;
    var n := |q.output|;
    var (st, st') := (Stream(next, q.prompt, q.seed, n), Stream(next, q.prompt, q.seed, n + 1));
    assert st' == st + [q.row.tok];
    assert ReadyIds(q') == ReadyIds(q);
  }

  lemma CommitKeeps(s: Sys, rid: nat, s': Sys)
    requires Inv(s) && CommitStep(s, rid, s')
    ensures Inv(s')
  {
    hide KvOk, CacheHolds, Committable, Hist, Stream, Chunks, OwnKey, Holds, SharedOk, Elsewhere, ReqTokens;
    InvReq(s, rid);
    KvOfShared(s);
    if s.radix {
      var q := s.reqs[rid];
      var (t, full) := (q.table.value, Full(s.next, q));
      SettledCovers(s, rid);
      TokensMatch(s.next, q, q.written);
      MayCommit(s.kv, rid, t, Tokens(q), full, s.bs);
      CommitKeepsCache(s.kv, s.store, rid, full, t.numTokens, s.bs);
      OwnKeyBelow(full, t.numTokens, s.bs);
      HoldMoved(s, s', rid);
      Assemble(s, s', rid);
    } else {
      assert s' == s;
    }
  }

  lemma OwnKeyBelow(full: seq<nat>, n: nat, bs: nat)
    requires bs > 0 && n <= |full|
    ensures OwnKey(full, n, bs) <= Chunks(full, bs) && |OwnKey(full, n, bs)| == Blk(n, bs)
  {
    ChunksCount(full, bs);
    BlkMono(n, |full|, bs);
  }

  /** Reading a token back puts the stream's next token where its placeholder was. */
  lemma FilledTokens(next: Sampler, q: Req)
    requires ReqTokens(next, q) && q.pending > 0
    ensures ReadyIds(Filled(q)) == Stream(next, q.prompt, q.seed, |q.output|)[..ReadyLen(q) + 1]
    ensures q.unread[0] == Stream(next, q.prompt, q.seed, |q.output|)[ReadyLen(q)]
    ensures !Ends(q) ==> ReqTokens(next, Filled(q))
    ensures Ends(q) ==> DoneOk(next, DropPending(Filled(q)).(state := FINISHED))
  {
    hide Stream, Hist, Solo;
    var n := ReadyLen(q);
    var st := Stream(next, q.prompt, q.seed, |q.output|);
    assert ReadyIds(Filled(q)) == st[..n + 1];
    assert st[n..][1..] == st[n + 1..];
    if Ends(q) {
      StreamTake(next, q.prompt, q.seed, |q.output|, n);
      StreamTake(next, q.prompt, q.seed, |q.output|, n + 1);
      SoloIsCut(next, q.prompt, q.seed, q.maxNew, q.stops, n + 1);
    }
  }

  lemma ReadBackKeeps(s: Sys, rid: nat, s': Sys)
    requires Inv(s) && ReadBackStep(s, rid, s')
    ensures Inv(s')
  {
    hide KvOk, CacheHolds, LiveOk, SharedOk, ReqTokens, MayRelease, Retired, DoneOk, Full;
    InvReq(s, rid);
    var q := s.reqs[rid];
    PendingBounds(s.next, q);
    FilledTokens(s.next, q);
    if Ends(q) {
      FinishReleases(s, rid);
      RetireKeeps(s, rid, DropPending(Filled(q)), FINISHED);
    } else {
      if q.table.Some? { Relength(s.next, s.bs, s.store, s.kv.held[rid], q, Filled(q)); }
      BookShared(s, rid, s');
      Assemble(s, s', rid);
    }
  }

  lemma PendingBounds(next: Sampler, q: Req)
    requires ReqTokens(next, q)
    ensures q.pending <= |q.output| && |q.unread| == q.pending <= 2
  {
  }

  /** The record of a request that its last read token ends covers all the KV it holds. */
  lemma FinishReleases(s: Sys, rid: nat)
    requires Inv(s) && rid in s.reqs && Settled(s.reqs[rid]) && s.reqs[rid].pending > 0
    ensures var q := s.reqs[rid];
      && |q.unread| == q.pending <= |q.output| && Releasable(s, rid, DropPending(Filled(q)))
  {
    hide KvOk, CacheHolds, LiveOk, SharedOk, Stream, Hist;
    InvReq(s, rid);
    var q := s.reqs[rid];
    var q1 := DropPending(Filled(q));
    if q.table.Some? {
      SettledCovers(s, rid);
      Relength(s.next, s.bs, s.store, s.kv.held[rid], q, q1);
      FilledTokens(s.next, q);
      FullTake(s.next, q1, q);
      assert Tokens(q1) == Full(s.next, q)[..SeqLen(q1)];
    }
  }

  lemma MayAlwaysFinish(s: Sys, rid: nat)
    requires Inv(s) && rid in s.reqs && Settled(s.reqs[rid]) && s.reqs[rid].pending > 0
    ensures var q := s.reqs[rid];
      && |q.unread| == q.pending <= |q.output| && MayRelease(s, rid, DropPending(Filled(q)))
  {
    hide KvOk, CacheHolds, LiveOk, Full, MayRelease, SharedOk;
    FinishReleases(s, rid);
    InvReq(s, rid);
    ReleaseKeeps(s, rid, DropPending(Filled(s.reqs[rid])));
  }

  // ------------------------------------------------------------ speculation

  /** Any prefix of the round's tokens continues the stream: each is what the target chooses after
      the ones before it, because up to the last kept one they are the proposals it saw. */
  lemma {:induction false} RoundIsStream(next: Sampler, q: Req, j: nat)
    requires q.row.Verified? && |q.row.chosen| == |q.row.proposals| + 1
    requires forall k :: 0 <= k <= |q.row.proposals| ==>
      q.row.chosen[k] == next(Hist(Full(next, q) + q.row.proposals[..k]), q.seed, SeqLen(q) + k)
    requires j <= |AcceptedTokens(q.row.proposals, q.row.chosen)|
    ensures Stream(next, q.prompt, q.seed, |q.output| + j)
      == Stream(next, q.prompt, q.seed, |q.output|) + AcceptedTokens(q.row.proposals, q.row.chosen)[..j]
    ensures j > 0 ==> q.row.proposals[..j - 1] == AcceptedTokens(q.row.proposals, q.row.chosen)[..j - 1]
  {
    hide Hist, AcceptPrefix;
    var news := AcceptedTokens(q.row.proposals, q.row.chosen);
    var st := Stream(next, q.prompt, q.seed, |q.output|);
    if j > 0 {
      RoundIsStream(next, q, j - 1);
      assert q.prompt + (st + news[..j - 1]) == Full(next, q) + q.row.proposals[..j - 1];
      assert news[j - 1] == q.row.chosen[j - 1];
    }
  }

  /** A verify pass over any proposals leaves the verdict a settle step needs: the target's choice
      after each prefix of them, and the KV of all of them. */
  lemma VerifyReq(s: Sys, rid: nat, proposals: seq<nat>, s': Sys)
    requires VerifyStep(s, rid, proposals, s') && rid in s.kv.held && KvOk(s.kv)
    requires ReqOk(s.next, s.bs, s.store, s.kv.held, rid, s.reqs[rid])
    ensures ReqOk(s'.next, s'.bs, s'.store, s'.kv.held, rid, s'.reqs[rid])
  {
    hide Holds, WriteRow, InPool, Hist, Stream, Chunks, KvOk, Choices;
    var q := s.reqs[rid];
    var (t, len, full) := (q.table.value, SeqLen(q), Full(s.next, q));
    var long := full + proposals;
    VerifiedRow(s, rid, proposals, s');
    ChoicesAre(s'.store, t.blocks, s.bs, s.next, q.seed, len, long, |proposals|);
    forall j | 0 <= j <= |proposals| ensures long[..len + j] == full + proposals[..j] {
    }
  }

  lemma VerifiedRow(s: Sys, rid: nat, proposals: seq<nat>, s': Sys)
    requires VerifyStep(s, rid, proposals, s') && rid in s.kv.held && KvOk(s.kv)
    requires ReqOk(s.next, s.bs, s.store, s.kv.held, rid, s.reqs[rid])
    ensures var q := s.reqs[rid];
      Holds(s'.store, q.table.value.blocks, Full(s.next, q) + proposals, SeqLen(q) + |proposals|, s.bs)
  {
    hide Holds, WriteRow, InPool, Hist, Stream, Chunks, KvOk, Choices;
    var q := s.reqs[rid];
    var (t, len, full) := (q.table.value, SeqLen(q), Full(s.next, q));
    var ids: seq<int> := [q.output[|q.output| - 1]] + proposals;
    TokensMatch(s.next, q, len);
    assert Tokens(q)[len - 1] == full[len - 1];
    assert ids == (full + proposals)[len - 1..len - 1 + |ids|];
    HeldDistinct(s.kv, rid);
    HoldsAgree(s.store, t.blocks, full, full + proposals, len - 1, len - 1, s.bs);
    RowHolds(s.store, t.blocks, full + proposals, len - 1, ids, s.bs);
  }

  lemma ChoicesAre(store: Store, blocks: seq<nat>, bs: nat, next: Sampler, seed: nat, len: nat, long: seq<int>, n: nat)
    requires Holds(store, blocks, long, len + n, bs) && |long| == len + n
    ensures forall j :: 0 <= j <= n ==>
      Choices(store, blocks, bs, next, seed, len, n)[j] == next(Hist(long[..len + j]), seed, len + j)
  {
    HoldsReads(store, blocks, long, len + n, bs);
    hide Hist;
    assert long[..len + n] == long;
    var c := Choices(store, blocks, bs, next, seed, len, n);
    forall j | 0 <= j <= n ensures c[j] == next(Hist(long[..len + j]), seed, len + j) {
      HistTake(long, len + j);
    }
  }

  lemma VerifyKeeps(s: Sys, rid: nat, proposals: seq<nat>, s': Sys)
    requires Inv(s) && VerifyStep(s, rid, proposals, s')
    ensures Inv(s')
  {
    hide KvOk, CacheHolds, Holds, WriteRow, InPool, SharedOk, Elsewhere, ReqTokens, Chunks, Choices;
    InvReq(s, rid);
    var q := s.reqs[rid];
    KvOfShared(s);
    VerifyReq(s, rid, proposals, s');
    assert s.kv.held[rid].blocks == q.table.value.blocks;
    RowShared(s, rid, q.written, [q.output[|q.output| - 1]] + proposals, s');
    Assemble(s, s', rid);
  }

  /** The kept tokens of a round extend the request's stream. */
  lemma SettledFull(next: Sampler, q: Req, keep: nat)
    requires q.table.Some? && RowOk(next, q) && q.row.Verified? && |q.output| <= q.maxNew
    requires 0 < keep <= |AcceptedTokens(q.row.proposals, q.row.chosen)|
    ensures |q.row.proposals| + 1 - keep <= q.table.value.numTokens
    ensures var (full, full') := (Full(next, q), Full(next, SettledReq(q, keep)));
      && full' == full + AcceptedTokens(q.row.proposals, q.row.chosen)[..keep]
      && (full + q.row.proposals)[..SeqLen(q) + keep - 1] == full'[..SeqLen(q) + keep - 1]
  {
    hide Hist, AcceptPrefix, Stream;
    RoundIsStream(next, q, keep);
  }

  lemma SettledLive(next: Sampler, bs: nat, store: Store, h: Hold, q: Req, keep: nat)
    requires LiveOk(next, bs, store, h, q) && q.row.Verified? && RowOk(next, q) && |q.output| <= q.maxNew
    requires 0 < keep <= |AcceptedTokens(q.row.proposals, q.row.chosen)|
    ensures |q.row.proposals| + 1 - keep <= q.table.value.numTokens
    ensures LiveOk(next, bs, store, h, SettledReq(q, keep))
  {
    hide Hist, AcceptedTokens, Stream, Holds, InPool, Chunks;
    SettledFull(next, q, keep);
    var q' := SettledReq(q, keep);
    ChunksPrefix(Full(next, q), Full(next, q'), bs);
    BlkMono(q.written, q'.written, bs);
    HoldsAgree(store, h.blocks, WrittenSeq(next, q), Full(next, q'), WrittenLen(q), q'.written, bs);
  }

  /** The round's kept tokens continue the stream, and only the last of them can be a stop token. */
  lemma KeptStream(next: Sampler, q: Req, keep: nat)
    requires ReqTokens(next, q) && q.table.Some? && RowOk(next, q) && q.row.Verified?
    requires 0 < keep <= |AcceptedTokens(q.row.proposals, q.row.chosen)|
    requires forall j :: 0 <= j < keep - 1 ==> AcceptedTokens(q.row.proposals, q.row.chosen)[j] !in q.stops
    ensures |q.row.proposals| + 1 - keep <= q.table.value.numTokens
    ensures var out := Stream(next, q.prompt, q.seed, |q.output| + keep);
      && SettledReq(q, keep).output == out
      && out[|q.output| + keep - 1] == AcceptedTokens(q.row.proposals, q.row.chosen)[keep - 1]
      && NoStop(Stream(next, q.prompt, q.seed, |q.output| + keep - 1), q.stops)
  {
    hide Hist, Stream, AcceptedTokens;
    var news := AcceptedTokens(q.row.proposals, q.row.chosen);
    var st := Stream(next, q.prompt, q.seed, |q.output|);
    RoundIsStream(next, q, keep);
    RoundIsStream(next, q, keep - 1);
    assert q.output == st by { assert st[..|q.output|] == st; }
  }

  /** The record is the stream still, and if the round's last kept token ends it, it is the solo
      output: whatever the draft proposed. */
  lemma SettledTokens(next: Sampler, q: Req)
    requires ReqTokens(next, q) && q.table.Some? && RowOk(next, q) && q.row.Verified?
    ensures var news := AcceptedTokens(q.row.proposals, q.row.chosen);
      && var keep := Kept(news, q.maxNew - |q.output|, q.stops);
      && 0 < keep && |q.row.proposals| + 1 - keep <= q.table.value.numTokens
      && var q' := SettledReq(q, keep);
      && (if news[keep - 1] in q.stops || |q'.output| >= q.maxNew
          then DoneOk(next, q'.(state := FINISHED)) else ReqTokens(next, q'))
  {
    hide Hist, Stream, Solo, Kept, AcceptedTokens;
    var news := AcceptedTokens(q.row.proposals, q.row.chosen);
    var keep := Kept(news, q.maxNew - |q.output|, q.stops);
    KeptStream(next, q, keep);
    var n := |q.output| + keep;
    var out := Stream(next, q.prompt, q.seed, n);
    if news[keep - 1] in q.stops || n >= q.maxNew {
      SoloIsCut(next, q.prompt, q.seed, q.maxNew, q.stops, n);
    } else {
      StreamTake(next, q.prompt, q.seed, n, n - 1);
      var q' := SettledReq(q, keep);
      assert ReadyIds(q') == out[..n] == out && q'.unread == out[n..];
    }
  }

  lemma SettleKeeps(s: Sys, rid: nat, s': Sys)
    requires Inv(s) && SettleStep(s, rid, s')
    ensures Inv(s')
  {
    hide KvOk, CacheHolds, LiveOk, SharedOk, ReqTokens, MayRelease, Retired, DoneOk, Full, Kept, AcceptedTokens;
    InvReq(s, rid);
    var q := s.reqs[rid];
    SettledTokens(s.next, q);
    var keep := Kept(AcceptedTokens(q.row.proposals, q.row.chosen), q.maxNew - |q.output|, q.stops);
    SettledLive(s.next, s.bs, s.store, s.kv.held[rid], q, keep);
    var q' := SettledReq(q, keep);
    SettledTable(s.next, q, keep, s.bs);
    if AcceptedTokens(q.row.proposals, q.row.chosen)[keep - 1] in q.stops || |q'.output| >= q.maxNew {
      RetireKeeps(s, rid, q', FINISHED);
    } else {
      BookShared(s, rid, s');
      Assemble(s, s', rid);
    }
  }

  lemma SettledTable(next: Sampler, q: Req, keep: nat, bs: nat)
    requires q.table.Some? && ReqTable(next, q, bs) && q.row.Verified? && |q.output| <= q.maxNew
    requires 0 < keep <= |AcceptedTokens(q.row.proposals, q.row.chosen)|
    ensures |q.row.proposals| + 1 - keep <= q.table.value.numTokens
    ensures ReqTable(next, SettledReq(q, keep), bs)
  {
    hide Hist, AcceptPrefix;
  }

  // ------------------------------------------------------------ every step, every run

  lemma StepKeeps(s: Sys, a: Action, s': Sys)
    requires Inv(s) && Step(s, a, s')
    ensures Inv(s')
  {
    hide Inv;
    match a {
      case Add(rid, q) => AddKeeps(s, rid, q, s');
      case Abort(rid) => AbortKeeps(s, rid, s');
      case Admit(rid) => AdmitKeeps(s, rid, s');
      case Preempt(rid) => PreemptKeeps(s, rid, s');
      case Evict => EvictKeeps(s, s');
      case Reserve(rid, n, news) => ReserveKeeps(s, rid, n, news, s');
      case Run(rid) => RunKeeps(s, rid, s');
      case Book(rid) => BookKeeps(s, rid, s');
      case Commit(rid) => CommitKeeps(s, rid, s');
      case ReadBack(rid) => ReadBackKeeps(s, rid, s');
      case Verify(rid, proposals) => VerifyKeeps(s, rid, proposals, s');
      case Settle(rid) => SettleKeeps(s, rid, s');
    }
  }

  lemma InitInv(s: Sys)
    requires Init(s)
    ensures Inv(s)
  {
  }

  lemma {:induction false} RunInv(run: seq<Sys>, acts: seq<Action>, i: nat)
    requires IsRun(run, acts) && i < |run|
    ensures Inv(run[i])
  {
    hide Inv, Init, Step;
    if i == 0 {
      InitInv(run[0]);
    } else {
      RunInv(run, acts, i - 1);
      assert Step(run[i - 1], acts[i - 1], run[i - 1 + 1]);
      StepKeeps(run[i - 1], acts[i - 1], run[i]);
    }
  }
}

/** What every run of the engine keeps: tables and cache blocks hold exactly the KV of the tokens
    they stand for, shared blocks are never written, and what a request has produced is what it
    would have produced alone. */
module MachineInv {
  import opened Common
  import opened BlockTables
  import opened TreeShape
  import opened TokenChunks
  import opened KvState
  import opened KvCache
  import opened Device
  import opened Requests
  import opened Verification
  import opened Machine

  // ------------------------------------------------------------ the invariant

  /** Prompt and output with every placeholder resolved. */
  function Full(next: Sampler, q: Req): seq<nat> {
    q.prompt + Stream(next, q.prompt, q.seed, |q.output|)
  }

  /** The output is the request's own stream, ended by a placeholder per unread token. */
  predicate ReqTokens(next: Sampler, q: Req) {
    && |q.prompt| > 0 && |q.unread| == q.pending <= 2
    && q.pending <= |q.output| <= q.maxNew && ReadyLen(q) < q.maxNew
    && var st := Stream(next, q.prompt, q.seed, |q.output|);
    && ReadyIds(q) == st[..ReadyLen(q)] && q.unread == st[ReadyLen(q)..]
    && NoStop(st[..ReadyLen(q)], q.stops)
    && forall i :: ReadyLen(q) <= i < |q.output| ==> q.output[i] == PLACEHOLDER
  }

  /** What the row of a pass left behind is what the request's own sequence gives. */
  ghost predicate RowOk(next: Sampler, q: Req)
    requires q.table.Some?
  {
    var (t, len) := (q.table.value, SeqLen(q));
    match q.row
    case Idle =>
      && (if q.state == DECODE then |q.output| > 0 && q.written == len - 1 else q.written < len)
      && (t.numTokens <= len || (q.state == DECODE && q.pending == 0))
    case Sampled(tok) =>
      && q.written == t.numTokens == len && |q.output| < q.maxNew
      && tok == next(Hist(Full(next, q)), q.seed, len)
    case Verified(proposals, chosen) =>
      && q.state == DECODE && q.pending == 0 && |q.output| > 0
      && q.written == len - 1 && t.numTokens == len + |proposals| && |chosen| == |proposals| + 1
      && forall j :: 0 <= j <= |proposals| ==> chosen[j] == next(Hist(Full(next, q) + proposals[..j]), q.seed, len + j)
  }

  ghost predicate ReqTable(next: Sampler, q: Req, bs: nat) {
    && (q.state == WAITING || q.state == PREFILL || q.state == DECODE)
    && (q.table.None? <==> q.state == WAITING)
    && (q.state == PREFILL ==> q.pending == 0)
    && match q.table
       case None => q.written == 0 && q.row.Idle?
       case Some(t) => TableOk(t, bs) && q.written <= t.numTokens && RowOk(next, q)
  }

  /** The tokens whose KV the device has written for the request, rejected proposals included. */
  function WrittenSeq(next: Sampler, q: Req): seq<int> {
    if q.row.Verified? then Full(next, q) + q.row.proposals else Full(next, q)
  }

  function WrittenLen(q: Req): nat {
    if q.row.Verified? && q.table.Some? then q.table.value.numTokens else q.written
  }

  /** The table's slots hold the KV of the request's own tokens, and its locked prefix is one of
      whole computed blocks. */
  ghost predicate LiveOk(next: Sampler, bs: nat, store: Store, h: Hold, q: Req) {
    && bs > 0 && q.table.Some? && h.blocks == q.table.value.blocks
    && h.path <= Chunks(Full(next, q), bs)
    && |h.path| <= Blk(q.written, bs)
    && Holds(store, h.blocks, WrittenSeq(next, q), WrittenLen(q), bs)
  }

  ghost predicate ReqOk(next: Sampler, bs: nat, store: Store, held: map<nat, Hold>, rid: nat, q: Req) {
    && ReqTokens(next, q) && ReqTable(next, q, bs)
    && (q.table.Some? <==> rid in held)
    && (rid in held ==> LiveOk(next, bs, store, held[rid], q))
  }

  /** A tree block holds the KV of the last block of the prefix that leads to it; no placeholder is
      ever part of a prefix. */
  ghost predicate BlockHolds(store: Store, p: Prefix, b: nat, bs: nat) {
    && b < |store| && |Flat(p)| >= bs && (forall x :: x in Flat(p) ==> x >= 0)
    && store[b] == Hist(Flat(p))[|Flat(p)| - bs..]
  }

  ghost predicate CacheHolds(store: Store, cached: map<Prefix, nat>, bs: nat) {
    forall p {:trigger BlockHolds(store, p, cached[p], bs)} :: p in cached ==> BlockHolds(store, p, cached[p], bs)
  }

  /** A request that left has its solo output, or, when aborted, a beginning of it. */
  predicate DoneOk(next: Sampler, q: Req) {
    var solo := Solo(next, q.prompt, q.seed, q.maxNew, q.stops);
    (q.state == FINISHED && q.output == solo) || (q.state == ABORTED && q.output <= solo)
  }

  ghost predicate AllReqs(s: Sys) {
    forall r {:trigger ReqOk(s.next, s.bs, s.store, s.kv.held, r, s.reqs[r])} :: r in s.reqs ==>
      ReqOk(s.next, s.bs, s.store, s.kv.held, r, s.reqs[r])
  }

  ghost predicate Inv(s: Sys) {
    && s.bs > 0 && StoreOk(s.store, s.kv.numBlocks, s.bs) && KvOk(s.kv)
    && (!s.radix ==> s.kv.cached == map[])
    && CacheHolds(s.store, s.kv.cached, s.bs)
    && s.kv.held.Keys <= s.reqs.Keys && s.reqs.Keys !! s.done.Keys
    && AllReqs(s)
    && forall r :: r in s.done ==> DoneOk(s.next, s.done[r])
  }

  // ------------------------------------------------------------ blocks and tables

  /** The whole block `k` of a correct table holds the last block of the prefix of `k + 1` chunks. */
  lemma TableBlockHolds(store: Store, blocks: seq<nat>, full: seq<nat>, n: nat, k: nat, bs: nat)
    requires Holds(store, blocks, full, n, bs) && (k + 1) * bs <= n
    ensures k < |blocks| && k < |Chunks(full, bs)|
    ensures BlockHolds(store, Chunks(full, bs)[..k + 1], blocks[k], bs)
  {
    hide Hist, Chunks, Flat;
    var m := (k + 1) * bs;
    assert m == k * bs + bs;
    ChunksTake(full, k + 1, bs);
    HistTake(full, m);
    DivUnique(k * bs, k, 0, bs);
    assert Blk(k * bs, bs) == k;
    var want := Hist(full[..m])[k * bs..];
    forall o | 0 <= o < bs ensures store[blocks[k]][o] == want[o] {
      DivUnique(k * bs + o, k, o, bs);
      assert ReadAt(store, blocks, k * bs + o, bs) == Hist(full)[k * bs + o];
    }
    assert store[blocks[k]] == want;
  }

  /** A table over cached blocks is a correct table. */
  lemma PathHolds(store: Store, cached: map<Prefix, nat>, full: seq<nat>, p: Prefix, bs: nat)
    requires bs > 0 && CacheHolds(store, cached, bs) && p <= Chunks(full, bs) && Whole(cached, p)
    requires forall b :: b in cached.Values ==> b < |store| && |store[b]| == bs
    ensures |p| * bs <= |full| && Holds(store, PathBlocks(cached, p), full, |p| * bs, bs)
  {
    var (blocks, n) := (PathBlocks(cached, p), |p| * bs);
    ChunksCount(full, bs);
    FloorCeil(|full|, bs);
    MulMono(|p|, |full| / bs, bs);
    forall k | 0 <= k < |blocks| ensures blocks[k] in cached.Values {
      InValues(cached, p[..k + 1]);
    }
    forall i: nat | i < n ensures Blk(i, bs) < |blocks| { BlkBound(i, |p|, bs); }
    forall i: nat | i < n ensures ReadAt(store, blocks, i, bs) == Hist(full)[i] {
      var k := Blk(i, bs);
      var q := p[..k + 1];
      MulMono(k + 1, |p|, bs);
      CachedEntry(store, full, q, cached[q], i, bs);
    }
  }

  /** Position `i` of a sequence is found in the block of the prefix that ends at its chunk. */
  lemma CachedEntry(store: Store, full: seq<nat>, q: Prefix, b: nat, i: nat, bs: nat)
    requires bs > 0 && BlockHolds(store, q, b, bs) && |store[b]| == bs && i < |full|
    requires |q| == Blk(i, bs) + 1 && (Blk(i, bs) + 1) * bs <= |full| && q <= Chunks(full, bs)
    ensures store[b][Off(i, bs)] == Hist(full)[i]
  {
    hide BlockHolds, Hist, Flat, Chunks;
    var m := (Blk(i, bs) + 1) * bs;
    ChunksTake(full, Blk(i, bs) + 1, bs);
    assert q == Chunks(full, bs)[..Blk(i, bs) + 1];
    BlockIs(store, q, b, bs);
    PosInChunk(i, bs);
    EntryAt(full, m, store[b], bs, Off(i, bs), i);
  }

  lemma EntryAt(full: seq<nat>, m: nat, t: seq<KV>, bs: nat, o: nat, i: nat)
    requires bs <= m <= |full| && t == Hist(full[..m])[m - bs..] && o < bs && i == m - bs + o
    ensures t[o] == Hist(full)[i]
  {
    hide Hist;
    HistTake(full, m);
    var h := Hist(full[..m]);
    assert t[o] == h[m - bs + o];
    assert h == Hist(full)[..m];
  }

  lemma PosInChunk(i: nat, bs: nat)
    requires bs > 0
    ensures i == (Blk(i, bs) + 1) * bs - bs + Off(i, bs)
  {
    DivMod(i, bs);
    var k := Blk(i, bs);
    assert (k + 1) * bs == k * bs + bs;
  }

  lemma BlockIs(store: Store, p: Prefix, b: nat, bs: nat)
    requires BlockHolds(store, p, b, bs)
    ensures b < |store| && |Flat(p)| >= bs && store[b] == Hist(Flat(p))[|Flat(p)| - bs..]
  {
  }

  /** Correctness of a table reaches as far as two sequences agree. */
  lemma HoldsAgree(store: Store, blocks: seq<nat>, s: seq<int>, t: seq<int>, n: nat, m: nat, bs: nat)
    requires Holds(store, blocks, s, n, bs) && m <= n && m <= |t| && s[..m] == t[..m]
    ensures Holds(store, blocks, t, m, bs)
  {
    HistTake(s, m);
    HistTake(t, m);
  }

  /** A store that agrees on a table's blocks reads the same. */
  lemma HoldsFrame(store: Store, store': Store, blocks: seq<nat>, s: seq<int>, n: nat, bs: nat)
    requires Holds(store, blocks, s, n, bs) && |store'| == |store|
    requires forall b :: b in blocks && b < |store| ==> store'[b] == store[b]
    ensures Holds(store', blocks, s, n, bs)
  {
    assert forall i: nat :: i < n ==> blocks[Blk(i, bs)] in blocks;
    assert forall i: nat :: i < n ==> ReadAt(store', blocks, i, bs) == ReadAt(store, blocks, i, bs);
  }

  /** The whole computed blocks of a correct table, as a key. */
  function OwnKey(full: seq<nat>, n: nat, bs: nat): (key: Prefix)
    requires bs > 0 && n <= |full|
    ensures |key| == Blk(n, bs)
  {
    ChunksCount(full, bs);
    BlkMono(n, |full|, bs);
    Chunks(full, bs)[..Blk(n, bs)]
  }

  /** Committing is always possible. `toks` may end in placeholders: the table never covers one. */
  lemma MayCommit(kv: Kv, r: nat, table: Table, toks: seq<int>, full: seq<nat>, bs: nat)
    requires r in kv.held && kv.held[r].blocks == table.blocks && TableOk(table, bs)
    requires table.numTokens <= |full| && table.numTokens <= |toks| && toks[..table.numTokens] == full[..table.numTokens]
    requires kv.held[r].path <= Chunks(full, bs) && |kv.held[r].path| <= Blk(table.numTokens, bs)
    ensures Committable(kv, r, table, toks, bs)
    ensures |OwnKey(full, table.numTokens, bs)| <= |table.blocks| && kv.held[r].path <= OwnKey(full, table.numTokens, bs)
    ensures CommittedView(kv, r, table, toks, bs, true) == Committed(kv, r, OwnKey(full, table.numTokens, bs))
  {
    var n := Blk(table.numTokens, bs);
    FloorCeil(table.numTokens, bs);
    ChunksTake(full, n, bs);
    assert toks[..n * bs] == toks[..table.numTokens][..n * bs] == full[..n * bs];
    CommitLengths(kv, r, table, toks, bs);
  }

  /** A commit puts only blocks into the tree that hold what their prefix spells. */
  lemma CommitKeepsCache(kv: Kv, store: Store, r: nat, full: seq<nat>, n: nat, bs: nat)
    requires bs > 0 && KvOk(kv) && CacheHolds(store, kv.cached, bs) && r in kv.held
    requires Holds(store, kv.held[r].blocks, full, n, bs)
    requires |OwnKey(full, n, bs)| <= |kv.held[r].blocks| && kv.held[r].path <= OwnKey(full, n, bs)
    ensures KvOk(Committed(kv, r, OwnKey(full, n, bs)))
    ensures CacheHolds(store, Committed(kv, r, OwnKey(full, n, bs)).cached, bs)
  {
    HoldsLen(store, kv.held[r].blocks, full, n, bs);
    hide KvOk, Holds, BlockHolds, Chunks, OwnKey;
    var key := OwnKey(full, n, bs);
    CommittedOk(kv, r, key);
    var c := Committed(kv, r, key).cached;
    forall p | p in c ensures BlockHolds(store, p, c[p], bs) {
      if p !in kv.cached {
        NewEntry(store, kv.held[r].blocks, full, n, p, bs);
      }
    }
  }

  lemma NewEntry(store: Store, blocks: seq<nat>, full: seq<nat>, n: nat, p: Prefix, bs: nat)
    requires Holds(store, blocks, full, n, bs) && n <= |full|
    requires p <= OwnKey(full, n, bs) && p != []
    ensures |p| <= |blocks| && BlockHolds(store, p, blocks[|p| - 1], bs)
  {
    FloorCeil(n, bs);
    MulMono(|p|, Blk(n, bs), bs);
    TableBlockHolds(store, blocks, full, n, |p| - 1, bs);
    assert p == Chunks(full, bs)[..|p| - 1 + 1];
  }

  lemma CacheAt(store: Store, cached: map<Prefix, nat>, p: Prefix, bs: nat)
    requires CacheHolds(store, cached, bs) && p in cached
    ensures BlockHolds(store, p, cached[p], bs)
  {
  }

  lemma HoldsLen(store: Store, blocks: seq<nat>, s: seq<int>, n: nat, bs: nat)
    requires Holds(store, blocks, s, n, bs)
    ensures n <= |s| && InPool(store, blocks, n, bs)
  {
  }

  // ------------------------------------------------------------ one request moves, the others stay

  /** Every request but `rid` keeps its record, its hold and the contents of its blocks. */
  ghost predicate Elsewhere(s: Sys, s': Sys, rid: nat) {
    && s'.bs == s.bs && s'.next == s.next && s'.radix == s.radix
    && |s'.store| == |s.store|
    && (forall r :: r in s'.reqs && r != rid ==> r in s.reqs && s'.reqs[r] == s.reqs[r])
    && (forall r :: r in s'.reqs && r != rid ==> (r in s'.kv.held <==> r in s.kv.held))
    && (forall r :: r in s'.reqs && r != rid && r in s.kv.held ==> s'.kv.held[r] == s.kv.held[r])
    && (forall r, b :: r in s'.reqs && r != rid && r in s.kv.held && b in s.kv.held[r].blocks && b < |s.store| ==>
          s'.store[b] == s.store[b])
  }

  lemma KeepsReq(s: Sys, s': Sys, rid: nat, r: nat)
    requires Elsewhere(s, s', rid) && r in s'.reqs && r != rid
    requires ReqOk(s.next, s.bs, s.store, s.kv.held, r, s.reqs[r])
    ensures ReqOk(s'.next, s'.bs, s'.store, s'.kv.held, r, s'.reqs[r])
  {
    hide ReqTokens, ReqTable, Holds;
    if r in s.kv.held {
      var q := s.reqs[r];
      HoldsFrame(s.store, s'.store, s.kv.held[r].blocks, WrittenSeq(s.next, q), WrittenLen(q), s.bs);
    }
  }

  /** The parts of the invariant that are not about a single request. */
  ghost predicate SharedOk(s: Sys) {
    && s.bs > 0 && StoreOk(s.store, s.kv.numBlocks, s.bs) && KvOk(s.kv)
    && (!s.radix ==> s.kv.cached == map[])
    && CacheHolds(s.store, s.kv.cached, s.bs)
    && s.kv.held.Keys <= s.reqs.Keys && s.reqs.Keys !! s.done.Keys
    && forall r :: r in s.done ==> DoneOk(s.next, s.done[r])
  }

  lemma Assemble(s: Sys, s': Sys, rid: nat)
    requires Inv(s) && Elsewhere(s, s', rid) && SharedOk(s')
    requires rid in s'.reqs ==> ReqOk(s'.next, s'.bs, s'.store, s'.kv.held, rid, s'.reqs[rid])
    ensures Inv(s')
  {
    hide ReqOk, KvOk, CacheHolds, Elsewhere, DoneOk;
    forall r | r in s'.reqs ensures ReqOk(s'.next, s'.bs, s'.store, s'.kv.held, r, s'.reqs[r]) {
      if r != rid {
        ElsewhereIn(s, s', rid, r);
        assert ReqOk(s.next, s.bs, s.store, s.kv.held, r, s.reqs[r]);
        KeepsReq(s, s', rid, r);
      }
    }
  }

  lemma ElsewhereIn(s: Sys, s': Sys, rid: nat, r: nat)
    requires Elsewhere(s, s', rid) && r in s'.reqs && r != rid
    ensures r in s.reqs
  {
  }

  lemma InvReq(s: Sys, rid: nat)
    requires Inv(s) && rid in s.reqs
    ensures SharedOk(s) && ReqOk(s.next, s.bs, s.store, s.kv.held, rid, s.reqs[rid])
  {
    assert AllReqs(s);
  }

  // ------------------------------------------------------------ giving up KV

  /** Whatever ended the request, its KV may be given up, and what stays in the tree is right.
      `q` is the request as its record reads at that moment. */
  lemma ReleaseKeeps(s: Sys, rid: nat, q: Req)
    requires SharedOk(s) && (q.table.Some? <==> rid in s.kv.held)
    requires q.table.Some? ==> LiveOk(s.next, s.bs, s.store, s.kv.held[rid], q) && TableOk(q.table.value, s.bs)
    requires s.radix && q.table.Some? ==>
      && q.row.Idle? && q.written == q.table.value.numTokens <= SeqLen(q)
      && Tokens(q)[..q.written] == Full(s.next, q)[..q.written]
    ensures MayRelease(s, rid, q)
    ensures KvOk(Released(s, rid, q)) && CacheHolds(s.store, Released(s, rid, q).cached, s.bs)
    ensures Released(s, rid, q).held == s.kv.held - {rid} && Released(s, rid, q).numBlocks == s.kv.numBlocks
    ensures !s.radix ==> Released(s, rid, q).cached == map[]
  {
    hide KvOk, CacheHolds, Committable, Hist, Stream, Chunks, OwnKey;
    if q.table.Some? {
      var t := q.table.value;
      if s.radix {
        var full := Full(s.next, q);
        MayCommit(s.kv, rid, t, Tokens(q), full, s.bs);
        CommitKeepsCache(s.kv, s.store, rid, full, t.numTokens, s.bs);
      }
      DroppedOk(CommittedView(s.kv, rid, t, Tokens(q), s.bs, s.radix), rid);
    }
  }

  lemma RetireKeeps(s: Sys, rid: nat, q: Req, end: State)
    requires Inv(s) && rid in s.reqs && (q.table.Some? <==> rid in s.kv.held)
    requires q.table.Some? ==> LiveOk(s.next, s.bs, s.store, s.kv.held[rid], q) && TableOk(q.table.value, s.bs)
    requires s.radix && q.table.Some? ==>
      && q.row.Idle? && q.written == q.table.value.numTokens <= SeqLen(q)
      && Tokens(q)[..q.written] == Full(s.next, q)[..q.written]
    requires DoneOk(s.next, q.(state := end))
    ensures MayRelease(s, rid, q) && Inv(Retired(s, rid, q, end))
  {
    hide KvOk, CacheHolds, Committable, LiveOk, ReqOk, Full, Released;
    InvReq(s, rid);
    ReleaseKeeps(s, rid, q);
    var s' := Retired(s, rid, q, end);
    forall r | r in s'.done ensures DoneOk(s'.next, s'.done[r]) {}
    Assemble(s, s', rid);
  }
}

/** The KV pool as the manager sees it: which prefixes are cached in which blocks, and which blocks
    and which locked prefix each live request holds. Free blocks, reference counts, lock counts and
    the scheduler's block budget are all functions of this. */
module KvState {
  import opened Common
  import opened TreeShape

  datatype Hold = Hold(blocks: seq<nat>, path: Prefix)

  datatype Kv = Kv(numBlocks: nat, cached: map<Prefix, nat>, held: map<nat, Hold>)

  ghost predicate CachedOk(kv: Kv) {
    && (forall p :: p in kv.cached ==> p != [] && kv.cached[p] < kv.numBlocks && Whole(kv.cached, p))
    && (forall p, q :: p in kv.cached && q in kv.cached && kv.cached[p] == kv.cached[q] ==> p == q)
  }

  /** A table's tree blocks lie under its locked path, each at its own place. */
  ghost predicate HoldOk(kv: Kv, h: Hold) {
    && Whole(kv.cached, h.path)
    && |h.path| <= |h.blocks|
    && Distinct(h.blocks)
    && (forall i :: 0 <= i < |h.blocks| ==> h.blocks[i] < kv.numBlocks)
    && (forall i :: 0 <= i < |h.blocks| && h.blocks[i] in kv.cached.Values ==>
          i < |h.path| && kv.cached[h.path[..i + 1]] == h.blocks[i])
  }

  /** Blocks outside the tree have one holder. */
  ghost predicate Exclusive(kv: Kv) {
    forall r, s, b :: r in kv.held && s in kv.held && r != s && b in kv.held[r].blocks && b in kv.held[s].blocks ==>
      b in kv.cached.Values
  }

  ghost predicate KvOk(kv: Kv) {
    && CachedOk(kv)
    && (forall r {:trigger HoldOk(kv, kv.held[r])} :: r in kv.held ==> HoldOk(kv, kv.held[r]))
    && Exclusive(kv)
  }

  ghost function Holders(kv: Kv, b: nat): set<nat> {
    set r | r in kv.held && b in kv.held[r].blocks
  }

  /** The live requests whose locked path passes through `p`. */
  ghost function Users(kv: Kv, p: Prefix): set<nat> {
    set r | r in kv.held && p <= kv.held[r].path
  }

  /** Each count is the number of tables that hold the block, plus one if the tree does. */
  ghost predicate RefsOk(kv: Kv, refs: seq<nat>) {
    && |refs| == kv.numBlocks
    && forall b: nat :: b < kv.numBlocks ==>
         refs[b] == |Holders(kv, b)| + if b in kv.cached.Values then 1 else 0
  }

  ghost predicate LocksOk(kv: Kv, locks: map<Prefix, nat>) {
    locks.Keys == kv.cached.Keys
    && forall p :: p in kv.cached ==> locks[p] == |Users(kv, p)|
  }

  ghost function FreeBlocks(kv: Kv): set<nat> {
    set b: nat | b < kv.numBlocks && Holders(kv, b) == {} && b !in kv.cached.Values
  }

  ghost function Evictable(kv: Kv): set<Prefix> {
    set p | p in kv.cached && Users(kv, p) == {}
  }

  /** `num_available`: blocks that can be handed out. */
  ghost function Avail(kv: Kv): nat {
    |FreeBlocks(kv)| + |Evictable(kv)|
  }

  lemma KeyOfValue(m: map<Prefix, nat>, b: nat) returns (p: Prefix)
    requires b in m.Values
    ensures p in m && m[p] == b
  {
    p :| p in m && m[p] == b;
  }

  /** A tree block in a table sits at the place its prefix gives it. */
  lemma TreeBlockPlace(kv: Kv, r: nat, i: nat, key: Prefix)
    requires KvOk(kv) && r in kv.held && i < |kv.held[r].blocks| && kv.held[r].blocks[i] in kv.cached.Values
    requires kv.held[r].path <= key
    ensures i < |kv.held[r].path| && key[..i + 1] in kv.cached && kv.cached[key[..i + 1]] == kv.held[r].blocks[i]
    ensures key[..i + 1] <= kv.held[r].path
  {
    assert HoldOk(kv, kv.held[r]);
    assert kv.held[r].path[..i + 1] == key[..i + 1];
  }

  /** Holding a tree block means using the prefix it is cached under. */
  lemma TreeBlockUsed(kv: Kv, r: nat, p: Prefix)
    requires KvOk(kv) && r in kv.held && p in kv.cached && kv.cached[p] in kv.held[r].blocks
    ensures r in Users(kv, p)
  {
    var h := kv.held[r];
    var i :| 0 <= i < |h.blocks| && h.blocks[i] == kv.cached[p];
    InValues(kv.cached, p);
    TreeBlockPlace(kv, r, i, h.path);
    assert CachedOk(kv);
    assert h.path[..i + 1] == p;
  }

  /** Evictable blocks are held by no table: the tree is their only holder. */
  lemma EvictableUnheld(kv: Kv, p: Prefix)
    requires KvOk(kv) && p in Evictable(kv)
    ensures Holders(kv, kv.cached[p]) == {}
  {
    forall r | r in Holders(kv, kv.cached[p]) ensures false {
      TreeBlockUsed(kv, r, p);
    }
  }

  /** A tree block's reference count is one when no request uses its prefix. */
  lemma UnlockedMeansTreeOnly(kv: Kv, refs: seq<nat>, locks: map<Prefix, nat>, p: Prefix)
    requires KvOk(kv) && RefsOk(kv, refs) && LocksOk(kv, locks)
    requires p in kv.cached && locks[p] == 0
    ensures kv.cached[p] < |refs| && refs[kv.cached[p]] == 1
  {
    assert p in Evictable(kv);
    EvictableUnheld(kv, p);
  }

  // ------------------------------------------------------------ taking and giving back

  /** `p` is the longest cached prefix of `key`. */
  ghost predicate Longest(cached: map<Prefix, nat>, key: Prefix, p: Prefix) {
    && p <= key && Whole(cached, p)
    && forall q :: q in cached && q <= key ==> |q| <= |p|
  }

  lemma WholeNext(cached: map<Prefix, nat>, key: Prefix, k: nat)
    requires k < |key| && Whole(cached, key[..k]) && key[..k + 1] in cached
    ensures Whole(cached, key[..k + 1])
  {
    var p := key[..k + 1];
    forall i | 0 < i <= |p| ensures p[..i] in cached {
      assert p[..i] == if i <= k then key[..k][..i] else p;
    }
  }

  /** How far `key` is cached without a gap, from its first `k` chunks on. */
  ghost function CoverLen(cached: map<Prefix, nat>, key: Prefix, k: nat): (n: nat)
    requires k <= |key| && Whole(cached, key[..k])
    ensures k <= n <= |key| && Whole(cached, key[..n])
    ensures n < |key| ==> key[..n + 1] !in cached
    decreases |key| - k
  {
    if k < |key| && key[..k + 1] in cached then
      WholeNext(cached, key, k);
      CoverLen(cached, key, k + 1)
    else k
  }

  ghost function LongestOf(cached: map<Prefix, nat>, key: Prefix): (p: Prefix)
    ensures p <= key && Whole(cached, p)
  {
    key[..CoverLen(cached, key, 0)]
  }

  lemma PastGap(cached: map<Prefix, nat>, key: Prefix, q: Prefix, n: nat)
    requires q <= key && Whole(cached, q) && n <= |key| && (n < |key| ==> key[..n + 1] !in cached)
    ensures |q| <= n
  {
    assert forall i :: 0 < i <= |q| ==> q[..i] == key[..i];
  }

  /** There is one longest cached prefix, and it is the one up to the first gap. */
  lemma LongestIs(cached: map<Prefix, nat>, key: Prefix, p: Prefix)
    requires forall q :: q in cached ==> Whole(cached, q)
    ensures Longest(cached, key, p) <==> p == LongestOf(cached, key)
  {
    var n := CoverLen(cached, key, 0);
    forall q | q in cached && q <= key ensures |q| <= n {
      PastGap(cached, key, q, n);
    }
    if Longest(cached, key, p) {
      if n > 0 { assert key[..n][..n] == key[..n]; }
      PastGap(cached, key, p, n);
    }
  }

  ghost function Acquired(kv: Kv, r: nat, p: Prefix): Kv
    requires Whole(kv.cached, p)
  {
    kv.(held := kv.held[r := Hold(PathBlocks(kv.cached, p), p)])
  }

  lemma PathBlocksDistinct(kv: Kv, p: Prefix)
    requires CachedOk(kv) && Whole(kv.cached, p)
    ensures Distinct(PathBlocks(kv.cached, p))
    ensures forall i :: 0 <= i < |p| ==> PathBlocks(kv.cached, p)[i] < kv.numBlocks
    ensures forall b :: b in PathBlocks(kv.cached, p) ==> b in kv.cached.Values
  {
    forall i, j | 0 <= i < j < |p| ensures PathBlocks(kv.cached, p)[i] != PathBlocks(kv.cached, p)[j] {
      assert |p[..i + 1]| != |p[..j + 1]|;
    }
  }

  lemma AcquiredOk(kv: Kv, r: nat, p: Prefix)
    requires KvOk(kv) && r !in kv.held && Whole(kv.cached, p)
    ensures KvOk(Acquired(kv, r, p))
  {
    var kv' := Acquired(kv, r, p);
    PathBlocksDistinct(kv, p);
    forall s | s in kv'.held ensures HoldOk(kv', kv'.held[s]) {
      if s != r { assert HoldOk(kv, kv.held[s]); }
    }
    assert CachedOk(kv');
  }

  lemma HoldersAdd(kv: Kv, kv': Kv, r: nat, b: nat)
    requires r !in kv.held && kv'.held.Keys == kv.held.Keys + {r}
    requires forall s :: s in kv.held ==> kv'.held[s] == kv.held[s]
    ensures |Holders(kv', b)| == |Holders(kv, b)| + if b in kv'.held[r].blocks then 1 else 0
  {
    if b in kv'.held[r].blocks {
      assert Holders(kv', b) == Holders(kv, b) + {r};
    } else {
      assert Holders(kv', b) == Holders(kv, b);
    }
  }

  lemma UsersAdd(kv: Kv, kv': Kv, r: nat, p: Prefix)
    requires r !in kv.held && kv'.held.Keys == kv.held.Keys + {r}
    requires forall s :: s in kv.held ==> kv'.held[s] == kv.held[s]
    ensures |Users(kv', p)| == |Users(kv, p)| + if p <= kv'.held[r].path then 1 else 0
  {
    if p <= kv'.held[r].path {
      assert Users(kv', p) == Users(kv, p) + {r};
    } else {
      assert Users(kv', p) == Users(kv, p);
    }
  }

  /** The counts after `r` joined: one more holder per block, one more user per prefix. */
  lemma JoinCounts(kv: Kv, kv': Kv, r: nat, refs: seq<nat>, refs': seq<nat>, locks: map<Prefix, nat>, locks': map<Prefix, nat>)
    requires r !in kv.held && kv' == kv.(held := kv'.held) && kv'.held.Keys == kv.held.Keys + {r}
    requires forall s :: s in kv.held ==> kv'.held[s] == kv.held[s]
    requires RefsOk(kv, refs) && LocksOk(kv, locks) && |refs'| == |refs| && locks'.Keys == locks.Keys
    requires forall b: nat :: b < |refs| ==> refs'[b] == refs[b] + if b in kv'.held[r].blocks then 1 else 0
    requires forall p :: p in locks ==> locks'[p] == locks[p] + if p <= kv'.held[r].path then 1 else 0
    ensures RefsOk(kv', refs') && LocksOk(kv', locks')
  {
    forall b: nat | b < kv.numBlocks
      ensures refs'[b] == |Holders(kv', b)| + if b in kv'.cached.Values then 1 else 0
    {
      HoldersAdd(kv, kv', r, b);
    }
    forall p | p in kv.cached ensures locks'[p] == |Users(kv', p)| {
      UsersAdd(kv, kv', r, p);
    }
  }

  ghost function Dropped(kv: Kv, r: nat): Kv {
    kv.(held := kv.held - {r})
  }

  lemma DroppedOk(kv: Kv, r: nat)
    requires KvOk(kv)
    ensures KvOk(Dropped(kv, r))
  {
    var kv' := Dropped(kv, r);
    forall s | s in kv'.held ensures HoldOk(kv', kv'.held[s]) {
      assert HoldOk(kv, kv.held[s]);
    }
    assert CachedOk(kv');
  }

  /** The counts after `r` left: one holder less per block, one user less per prefix. */
  lemma LeaveCounts(kv: Kv, r: nat, refs: seq<nat>, refs': seq<nat>, locks: map<Prefix, nat>, locks': map<Prefix, nat>)
    requires r in kv.held && RefsOk(kv, refs) && LocksOk(kv, locks) && |refs'| == |refs| && locks'.Keys == locks.Keys
    requires forall b: nat :: b < |refs| ==> refs'[b] + (if b in kv.held[r].blocks then 1 else 0) == refs[b]
    requires forall p :: p in locks ==> locks'[p] + (if p <= kv.held[r].path then 1 else 0) == locks[p]
    ensures RefsOk(Dropped(kv, r), refs') && LocksOk(Dropped(kv, r), locks')
  {
    var kv' := Dropped(kv, r);
    forall b: nat | b < kv.numBlocks
      ensures refs'[b] == |Holders(kv', b)| + if b in kv'.cached.Values then 1 else 0
    {
      HoldersAdd(kv', kv, r, b);
    }
    forall p | p in kv.cached ensures locks'[p] == |Users(kv', p)| {
      UsersAdd(kv', kv, r, p);
    }
  }

  /** What an acquire takes, an abandon gives back. */
  lemma AcquireThenDrop(kv: Kv, r: nat, p: Prefix)
    requires r !in kv.held && Whole(kv.cached, p)
    ensures Dropped(Acquired(kv, r, p), r) == kv
  {
    assert kv.held[r := Hold(PathBlocks(kv.cached, p), p)] - {r} == kv.held;
  }

  lemma IsHolder(kv: Kv, r: nat, b: nat)
    requires r in kv.held && b in kv.held[r].blocks
    ensures r in Holders(kv, b)
  {
  }

  // ------------------------------------------------------------ growing a table

  ghost function Grown(kv: Kv, r: nat, news: seq<nat>): Kv
    requires r in kv.held
  {
    kv.(held := kv.held[r := Hold(kv.held[r].blocks + news, kv.held[r].path)])
  }

  lemma GrownOk(kv: Kv, r: nat, news: seq<nat>)
    requires KvOk(kv) && r in kv.held && Distinct(news) && forall b :: b in news ==> b in FreeBlocks(kv)
    ensures KvOk(Grown(kv, r, news))
  {
    var kv' := Grown(kv, r, news);
    var h := kv.held[r];
    assert HoldOk(kv, h);
    forall b | b in news ensures b !in h.blocks && b < kv.numBlocks && b !in kv.cached.Values {
      if b in h.blocks { IsHolder(kv, r, b); }
    }
    forall s | s in kv'.held ensures HoldOk(kv', kv'.held[s]) {
      if s != r {
        assert HoldOk(kv, kv.held[s]);
      } else {
        forall i | |h.blocks| <= i < |kv'.held[r].blocks|
          ensures kv'.held[r].blocks[i] in news
        {
          assert kv'.held[r].blocks[i] == news[i - |h.blocks|];
        }
      }
    }
    forall s, t, b | s in kv'.held && t in kv'.held && s != t && b in kv'.held[s].blocks && b in kv'.held[t].blocks
      ensures b in kv'.cached.Values
    {
      if b in news {
        if s == r { IsHolder(kv, t, b); } else { IsHolder(kv, s, b); }
      }
    }
    assert CachedOk(kv');
  }

  lemma GrowCounts(kv: Kv, r: nat, news: seq<nat>, refs: seq<nat>, refs': seq<nat>, locks: map<Prefix, nat>)
    requires KvOk(kv) && r in kv.held && forall b :: b in news ==> b in FreeBlocks(kv)
    requires RefsOk(kv, refs) && LocksOk(kv, locks) && |refs'| == |refs|
    requires forall b: nat :: b < |refs| ==> refs'[b] == if b in news then 1 else refs[b]
    ensures RefsOk(Grown(kv, r, news), refs') && LocksOk(Grown(kv, r, news), locks)
  {
    var kv' := Grown(kv, r, news);
    forall b: nat | b < kv.numBlocks
      ensures refs'[b] == |Holders(kv', b)| + if b in kv'.cached.Values then 1 else 0
    {
      if b in news {
        assert Holders(kv, b) == {};
        assert Holders(kv', b) == {r};
      } else {
        assert Holders(kv', b) == Holders(kv, b);
      }
    }
    forall p | p in kv.cached ensures locks[p] == |Users(kv', p)| {
      assert Users(kv', p) == Users(kv, p);
    }
  }

  // ------------------------------------------------------------ commit

  /** The prefixes of `key` that are not cached yet, with the caller's blocks. */
  ghost function CommitMap(cached: map<Prefix, nat>, key: Prefix, blocks: seq<nat>): (m: map<Prefix, nat>)
    requires |key| <= |blocks|
    ensures forall p :: p in m <==> p in cached || (p <= key && p != [])
    ensures forall p :: p in cached ==> m[p] == cached[p]
    ensures forall p :: p in m && p !in cached ==> 0 < |p| <= |key| && m[p] == blocks[|p| - 1]
  {
    var added := set i | 0 < i <= |key| :: key[..i];
    assert forall p :: p <= key && p != [] ==> p == key[..|p|];
    map p | p in cached.Keys + added :: if p in cached then cached[p] else blocks[|p| - 1]
  }

  ghost function Committed(kv: Kv, r: nat, key: Prefix): Kv
    requires r in kv.held && |key| <= |kv.held[r].blocks|
  {
    Kv(kv.numBlocks, CommitMap(kv.cached, key, kv.held[r].blocks),
       kv.held[r := Hold(kv.held[r].blocks, key)])
  }

  /** A block that enters the tree was its committer's alone. */
  lemma CommitTakesOwn(kv: Kv, r: nat, key: Prefix, p: Prefix)
    requires KvOk(kv) && r in kv.held && kv.held[r].path <= key && |key| <= |kv.held[r].blocks|
    requires p != [] && p <= key && p !in kv.cached
    ensures var b := kv.held[r].blocks[|p| - 1];
      && b < kv.numBlocks && b !in kv.cached.Values && Holders(kv, b) == {r}
  {
    var h := kv.held[r];
    assert HoldOk(kv, h);
    var b := h.blocks[|p| - 1];
    assert key[..|p| - 1 + 1] == p;
    if b in kv.cached.Values {
      TreeBlockPlace(kv, r, |p| - 1, key);
    }
    forall s | s in Holders(kv, b) ensures s == r {
    }
    assert r in Holders(kv, b);
  }

  lemma CommitCachedOk(kv: Kv, r: nat, key: Prefix)
    requires KvOk(kv) && r in kv.held && kv.held[r].path <= key && |key| <= |kv.held[r].blocks|
    ensures CachedOk(Committed(kv, r, key))
  {
    var kv' := Committed(kv, r, key);
    var c, c', h := kv.cached, kv'.cached, kv.held[r];
    assert HoldOk(kv, h);
    forall p | p in c' ensures p != [] && c'[p] < kv.numBlocks && Whole(c', p) {
      if p in c {
        assert Whole(c, p);
      } else {
        CommitTakesOwn(kv, r, key, p);
      }
    }
    forall p, q | p in c' && q in c' && c'[p] == c'[q] ensures p == q {
      if p !in c { CommitTakesOwn(kv, r, key, p); }
      if q !in c { CommitTakesOwn(kv, r, key, q); }
      if p in c { InValues(c, p); }
      if q in c { InValues(c, q); }
    }
  }

  lemma CommitValues(kv: Kv, r: nat, key: Prefix, b: nat) returns (p: Prefix)
    requires KvOk(kv) && r in kv.held && kv.held[r].path <= key && |key| <= |kv.held[r].blocks|
    requires b in Committed(kv, r, key).cached.Values && b !in kv.cached.Values
    ensures p != [] && p <= key && p !in kv.cached && b == kv.held[r].blocks[|p| - 1]
    ensures p in Committed(kv, r, key).cached && Committed(kv, r, key).cached[p] == b
    ensures Holders(kv, b) == {r}
  {
    var c' := Committed(kv, r, key).cached;
    p := KeyOfValue(c', b);
    if p in kv.cached { InValues(kv.cached, p); }
    CommitTakesOwn(kv, r, key, p);
  }

  lemma CommitPlaces(kv: Kv, r: nat, key: Prefix, s: nat, i: nat)
    requires KvOk(kv) && r in kv.held && kv.held[r].path <= key && |key| <= |kv.held[r].blocks| && s in kv.held
    requires i < |kv.held[s].blocks| && kv.held[s].blocks[i] in Committed(kv, r, key).cached.Values
    ensures var kv' := Committed(kv, r, key);
      i < |kv'.held[s].path| && kv'.held[s].path[..i + 1] in kv'.cached
      && kv'.cached[kv'.held[s].path[..i + 1]] == kv.held[s].blocks[i]
  {
    var b := kv.held[s].blocks[i];
    if b in kv.cached.Values {
      TreeBlockPlace(kv, s, i, Committed(kv, r, key).held[s].path);
    } else {
      var p := CommitValues(kv, r, key, b);
      assert s in Holders(kv, b);
      assert HoldOk(kv, kv.held[r]);
      assert i == |p| - 1 && p == key[..i + 1];
    }
  }

  lemma CommitHolds(kv: Kv, r: nat, key: Prefix, s: nat)
    requires KvOk(kv) && r in kv.held && kv.held[r].path <= key && |key| <= |kv.held[r].blocks| && s in kv.held
    ensures HoldOk(Committed(kv, r, key), Committed(kv, r, key).held[s])
  {
    var kv' := Committed(kv, r, key);
    var h, h' := kv.held[s], kv'.held[s];
    assert HoldOk(kv, h);
    CommitWhole(kv, r, key, s);
    hide KvOk, Committed;
    forall i | 0 <= i < |h'.blocks| && h'.blocks[i] in kv'.cached.Values
      ensures i < |h'.path| && kv'.cached[h'.path[..i + 1]] == h'.blocks[i]
    {
      CommitPlaces(kv, r, key, s, i);
    }
  }

  lemma CommitWhole(kv: Kv, r: nat, key: Prefix, s: nat)
    requires KvOk(kv) && r in kv.held && kv.held[r].path <= key && |key| <= |kv.held[r].blocks| && s in kv.held
    ensures var kv' := Committed(kv, r, key);
      && Whole(kv'.cached, kv'.held[s].path) && kv'.held[s].blocks == kv.held[s].blocks
      && |kv'.held[s].path| <= |kv.held[s].blocks| && kv'.numBlocks == kv.numBlocks
  {
    assert HoldOk(kv, kv.held[s]);
  }

  lemma CommittedOk(kv: Kv, r: nat, key: Prefix)
    requires KvOk(kv) && r in kv.held && kv.held[r].path <= key && |key| <= |kv.held[r].blocks|
    ensures KvOk(Committed(kv, r, key))
  {
    var kv' := Committed(kv, r, key);
    CommitCachedOk(kv, r, key);
    forall s | s in kv'.held ensures HoldOk(kv', kv'.held[s]) { CommitHolds(kv, r, key, s); }
    forall s, t, b | s in kv'.held && t in kv'.held && s != t && b in kv'.held[s].blocks && b in kv'.held[t].blocks
      ensures b in kv'.cached.Values
    {
      var p := KeyOfValue(kv.cached, b);
      assert p in kv'.cached && kv'.cached[p] == b;
    }
  }

  // ------------------------------------------------------------ eviction

  /** Some unlocked prefixes are gone; the rest is as it was and still closed under prefixes. */
  ghost predicate EvictedFrom(kv: Kv, kv': Kv) {
    && kv'.numBlocks == kv.numBlocks && kv'.held == kv.held
    && (forall p :: p in kv'.cached ==> p in kv.cached && kv'.cached[p] == kv.cached[p] && Whole(kv'.cached, p))
    && (forall p :: p in kv.cached && p !in kv'.cached ==> p in Evictable(kv))
  }

  lemma EvictedOk(kv: Kv, kv': Kv)
    requires KvOk(kv) && EvictedFrom(kv, kv')
    ensures KvOk(kv')
  {
    forall r | r in kv'.held ensures HoldOk(kv', kv'.held[r]) {
      var h := kv.held[r];
      assert HoldOk(kv, h);
      forall i | 0 < i <= |h.path| ensures h.path[..i] in kv'.cached {
        assert r in Users(kv, h.path[..i]);
      }
      assert forall b :: b in kv'.cached.Values ==> b in kv.cached.Values;
    }
    forall r, s, b | r in kv.held && s in kv.held && r != s && b in kv.held[r].blocks && b in kv.held[s].blocks
      ensures b in kv'.cached.Values
    {
      assert b in kv.cached.Values;
      var p := KeyOfValue(kv.cached, b);
      TreeBlockUsed(kv, r, p);
      assert kv'.cached[p] == b;
    }
  }

  lemma {:induction false} ImageSize(m: map<Prefix, nat>, keys: set<Prefix>)
    requires forall p :: p in keys ==> p in m
    requires forall p, q :: p in m && q in m && m[p] == m[q] ==> p == q
    ensures |set p | p in keys :: m[p]| == |keys|
    decreases |keys|
  {
    if keys == {} {
      assert (set p | p in keys :: m[p]) == {};
    } else {
      var k :| k in keys;
      ImageSize(m, keys - {k});
      assert (set p | p in keys :: m[p]) == (set p | p in keys - {k} :: m[p]) + {m[k]};
    }
  }

  /** Every evicted prefix gives one free block: eviction moves blocks from evictable to free and
      leaves the budget unchanged. */
  lemma EvictionFreesBlocks(kv: Kv, kv': Kv)
    requires KvOk(kv) && EvictedFrom(kv, kv')
    ensures |FreeBlocks(kv')| == |FreeBlocks(kv)| + |kv.cached| - |kv'.cached|
    ensures Avail(kv') == Avail(kv)
  {
    var gone := kv.cached.Keys - kv'.cached.Keys;
    assert CachedOk(kv);
    ImageSize(kv.cached, gone);
    EvictedBlocks(kv, kv');
    EvictedPrefixes(kv, kv');
    hide KvOk, EvictedFrom, FreeBlocks, Evictable;
    assert |kv.cached| == |kv.cached.Keys| && |kv'.cached| == |kv'.cached.Keys|;
    assert |FreeBlocks(kv')| == |FreeBlocks(kv)| + |gone|;
  }

  lemma EvictedPrefixes(kv: Kv, kv': Kv)
    requires EvictedFrom(kv, kv')
    ensures var gone := kv.cached.Keys - kv'.cached.Keys;
      && kv.cached.Keys == kv'.cached.Keys + gone
      && Evictable(kv) == Evictable(kv') + gone && Evictable(kv') !! gone
  {
    assert forall p :: Users(kv', p) == Users(kv, p);
  }

  lemma EvictedBlocks(kv: Kv, kv': Kv)
    requires KvOk(kv) && EvictedFrom(kv, kv')
    ensures var gone := set p | p in kv.cached.Keys - kv'.cached.Keys :: kv.cached[p];
      FreeBlocks(kv') == FreeBlocks(kv) + gone && FreeBlocks(kv) !! gone
  {
    var gone := set p | p in kv.cached.Keys - kv'.cached.Keys :: kv.cached[p];
    forall b ensures b in FreeBlocks(kv') <==> b in FreeBlocks(kv) || b in gone {
      assert Holders(kv', b) == Holders(kv, b);
      if b in gone {
        var p :| p in kv.cached && p !in kv'.cached && kv.cached[p] == b;
        EvictableUnheld(kv, p);
        assert b !in kv'.cached.Values;
      }
      if b in FreeBlocks(kv') && b in kv.cached.Values {
        var p := KeyOfValue(kv.cached, b);
        if p in kv'.cached { InValues(kv'.cached, p); }
      }
      if b in kv'.cached.Values {
        var p := KeyOfValue(kv'.cached, b);
        InValues(kv.cached, p);
      }
    }
    forall b | b in gone ensures b !in FreeBlocks(kv) {
      var p :| p in kv.cached && kv.cached[p] == b;
      InValues(kv.cached, p);
    }
  }

  ghost function SetOf(s: seq<nat>): set<nat> {
    set b | b in s
  }

  lemma {:induction false} SeqSize(s: seq<nat>)
    requires Distinct(s)
    ensures |SetOf(s)| == |s|
  {
    if s != [] {
      var init, last := s[..|s| - 1], s[|s| - 1];
      assert s == init + [last];
      SeqSize(init);
      assert last !in init;
      assert SetOf(s) == SetOf(init) + {last};
    }
  }

  /** Users of a longer prefix use the shorter one too. */
  lemma UsersNest(kv: Kv, p: Prefix, q: Prefix)
    requires p <= q
    ensures |Users(kv, q)| <= |Users(kv, p)|
  {
    assert Users(kv, q) <= Users(kv, p);
    assert Users(kv, p) == Users(kv, q) + (Users(kv, p) - Users(kv, q));
  }

  /** The counts after a commit: only tree blocks gained a holder, and `r`'s use moved from its
      old path to the new one. */
  lemma CommitCounts(kv: Kv, r: nat, key: Prefix, refs: seq<nat>, refs': seq<nat>,
                     l0: map<Prefix, nat>, l1: map<Prefix, nat>, l2: map<Prefix, nat>)
    requires KvOk(kv) && r in kv.held && kv.held[r].path <= key && |key| <= |kv.held[r].blocks|
    requires RefsOk(kv, refs) && LocksOk(kv, l0) && |refs'| == |refs|
    requires var c' := Committed(kv, r, key).cached;
      && l1.Keys == c'.Keys && l2.Keys == c'.Keys
      && (forall p :: p in kv.cached ==> l1[p] == l0[p])
      && (forall p :: p in c' && p !in kv.cached ==> l1[p] == 0)
      && (forall b: nat :: b < |refs| ==> refs'[b] == refs[b] + if b in c'.Values && b !in kv.cached.Values then 1 else 0)
    requires forall p :: p in l2 ==>
      l2[p] + (if p <= kv.held[r].path then 1 else 0) == l1[p] + if p <= key then 1 else 0
    ensures RefsOk(Committed(kv, r, key), refs') && LocksOk(Committed(kv, r, key), l2)
  {
    var kv' := Committed(kv, r, key);
    forall b: nat | b < kv.numBlocks
      ensures refs'[b] == |Holders(kv', b)| + if b in kv'.cached.Values then 1 else 0
    {
      assert Holders(kv', b) == Holders(kv, b);
      if b in kv.cached.Values {
        var p := KeyOfValue(kv.cached, b);
        InValues(kv'.cached, p);
      }
    }
    forall p | p in kv'.cached ensures l2[p] == |Users(kv', p)| {
      CommitUsers(kv, r, key, p);
      if p !in kv.cached { UncachedUnused(kv, p); }
    }
  }

  lemma UncachedUnused(kv: Kv, p: Prefix)
    requires KvOk(kv) && p !in kv.cached && p != []
    ensures Users(kv, p) == {}
  {
    forall r | r in Users(kv, p) ensures false {
      PathWhole(kv, r, p);
    }
  }

  lemma PathWhole(kv: Kv, r: nat, p: Prefix)
    requires KvOk(kv) && r in kv.held && p <= kv.held[r].path && p != []
    ensures p in kv.cached
  {
    assert HoldOk(kv, kv.held[r]);
    assert kv.held[r].path[..|p|] == p;
  }

  lemma CommitUsers(kv: Kv, r: nat, key: Prefix, p: Prefix)
    requires r in kv.held && |key| <= |kv.held[r].blocks|
    ensures |Users(Committed(kv, r, key), p)| + (if p <= kv.held[r].path then 1 else 0)
      == |Users(kv, p)| + if p <= key then 1 else 0
  {
    var kv' := Committed(kv, r, key);
    assert Users(kv', p) - {r} == Users(kv, p) - {r};
    assert r in Users(kv', p) <==> p <= key;
    assert r in Users(kv, p) <==> p <= kv.held[r].path;
    WithoutOne(Users(kv', p), r);
    WithoutOne(Users(kv, p), r);
  }

  lemma WithoutOne(s: set<nat>, r: nat)
    ensures |s| == |s - {r}| + if r in s then 1 else 0
  {
    if r in s { assert s == (s - {r}) + {r}; } else { assert s == s - {r}; }
  }

  // ------------------------------------------------------------ conservation

  ghost function AllBlocks(n: nat): (s: set<nat>)
    ensures |s| == n && forall b: nat :: b in s <==> b < n
  {
    if n == 0 then {}
    else
      var last: nat := n - 1;
      AllBlocks(last) + {last}
  }

  /** While no request holds KV, free and cached blocks together are the whole pool, and all of it
      can be handed out. */
  lemma IdleConservation(kv: Kv)
    requires KvOk(kv) && kv.held == map[]
    ensures |FreeBlocks(kv)| + |kv.cached| == kv.numBlocks == Avail(kv)
  {
    assert CachedOk(kv);
    ImageSize(kv.cached, kv.cached.Keys);
    var used := set p | p in kv.cached.Keys :: kv.cached[p];
    IdleSplit(kv, used);
    hide FreeBlocks, Evictable, KvOk, CachedOk;
    assert |AllBlocks(kv.numBlocks)| == |FreeBlocks(kv)| + |used|;
    assert |kv.cached| == |kv.cached.Keys|;
  }

  lemma IdleSplit(kv: Kv, used: set<nat>)
    requires CachedOk(kv) && kv.held == map[] && used == set p | p in kv.cached.Keys :: kv.cached[p]
    ensures AllBlocks(kv.numBlocks) == FreeBlocks(kv) + used && FreeBlocks(kv) !! used
    ensures Evictable(kv) == kv.cached.Keys
  {
    assert used == kv.cached.Values;
    forall b: nat ensures b in AllBlocks(kv.numBlocks) <==> b in FreeBlocks(kv) || b in used {
      assert Holders(kv, b) == {};
    }
  }

  /** Blocks that the listed requests hold. */
  ghost function HeldSizes(kv: Kv): map<nat, int> {
    map r | r in kv.held :: |kv.held[r].blocks|
  }

  /** Without a prefix cache no block is shared: free blocks and the tables' blocks add up to the
      pool. */
  lemma {:induction false} HeldConservation(kv: Kv, rids: seq<nat>)
    requires KvOk(kv) && kv.cached == map[] && Distinct(rids) && forall r :: r in rids <==> r in kv.held
    ensures Avail(kv) + Sum(HeldSizes(kv), rids) == kv.numBlocks
    decreases |rids|
  {
    if rids == [] {
      assert kv.held == map[];
      IdleConservation(kv);
    } else {
      var r := rids[0];
      var kv' := Dropped(kv, r);
      DroppedOk(kv, r);
      assert forall i :: 0 < i < |rids| ==> rids[i] != r;
      HeldConservation(kv', rids[1..]);
      SumSame(HeldSizes(kv'), HeldSizes(kv), rids[1..]);
      assert HoldOk(kv, kv.held[r]);
      SeqSize(kv.held[r].blocks);
      DropFrees(kv, r);
      assert Evictable(kv) == Evictable(kv') == {};
    }
  }

  lemma DropFrees(kv: Kv, r: nat)
    requires KvOk(kv) && kv.cached == map[] && r in kv.held
    ensures FreeBlocks(Dropped(kv, r)) == FreeBlocks(kv) + SetOf(kv.held[r].blocks)
    ensures FreeBlocks(kv) !! SetOf(kv.held[r].blocks)
  {
    var (kv', own) := (Dropped(kv, r), SetOf(kv.held[r].blocks));
    assert HoldOk(kv, kv.held[r]);
    forall b: nat ensures Holders(kv', b) == Holders(kv, b) - {r} {}
    forall b ensures b in FreeBlocks(kv') <==> b in FreeBlocks(kv) || b in own {
      if b in own {
        IsHolder(kv, r, b);
        forall s | s in Holders(kv', b) ensures false {
        }
      }
    }
    forall b | b in own ensures b !in FreeBlocks(kv) { IsHolder(kv, r, b); }
  }
}

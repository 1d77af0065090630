/** Request-level KV operations over the block pool and the prefix cache. The manager keeps the two
    counts in step: allocator reference counts are table holders plus the tree, and node locks are
    the live requests whose path goes through the node. */
module KvCache {
  import opened Common
  import opened BlockPool
  import opened BlockTables
  import opened TreeShape
  import opened EvictionOrder
  import opened RadixTrees
  import opened KvState
  import opened NodeRefs
  import opened TokenChunks

  lemma LongestFrom(sh: Shape, key: Prefix, p: Prefix)
    requires TreeOk(sh) && p <= key && LongestAt(sh, key, |p|) && Whole(Cached(sh), p)
    ensures Longest(Cached(sh), key, p)
  {
  }

  lemma LongestCut(sh: Shape, key: Prefix, pos: nat)
    requires TreeOk(sh) && LongestAt(sh, key, pos)
    ensures pos <= |key| && Longest(Cached(sh), key, key[..pos])
  {
    forall i | 0 < i <= pos ensures key[..pos][..i] in sh.home {
      AllPrefixes(sh, key[..pos], i);
    }
  }

  lemma NothingCached(key: Prefix)
    ensures LongestOf(map[], key) == []
  {
  }

  lemma SumOfMentions(refs: seq<nat>, refs': seq<nat>, blocks: seq<nat>)
    requires |refs'| == |refs| && Distinct(blocks)
    requires forall b: nat :: b < |refs| ==> refs'[b] == refs[b] + multiset(blocks)[b]
    ensures forall b: nat :: b < |refs| ==> refs'[b] == refs[b] + if b in blocks then 1 else 0
  {
    forall b: nat | b < |refs| { CountOf(blocks, b); }
  }

  /** Every live request's node still spells its locked path. */
  ghost predicate HandlesOk(path: map<nat, Prefix>, held: map<nat, Hold>, nodeOf: map<nat, nat>) {
    && nodeOf.Keys == held.Keys
    && forall r :: r in held ==> nodeOf[r] in path && path[nodeOf[r]] == held[r].path
  }

  lemma HandlesSurvive(p0: map<nat, Prefix>, p1: map<nat, Prefix>, held: map<nat, Hold>, nodeOf: map<nat, nat>)
    requires HandlesOk(p0, held, nodeOf) && HandlesKept(p0, p1)
    ensures HandlesOk(p1, held, nodeOf)
  {
  }

  /** A request's own blocks may always be dropped once. */
  lemma OwnDroppable(kv: Kv, r: nat, refs: seq<nat>)
    requires KvOk(kv) && RefsOk(kv, refs) && r in kv.held
    ensures IdsOk(|refs|, kv.held[r].blocks) && Droppable(refs, kv.held[r].blocks) && Distinct(kv.held[r].blocks)
    ensures forall b: nat :: multiset(kv.held[r].blocks)[b] == if b in kv.held[r].blocks then 1 else 0
  {
    var blocks: seq<int> := kv.held[r].blocks;
    assert HoldOk(kv, kv.held[r]);
    forall b: nat ensures multiset(blocks)[b] == if b in blocks then 1 else 0 { CountOf(blocks, b); }
    forall b | b in blocks ensures 0 <= b < |refs| && multiset(blocks)[b] <= refs[b] {
      IsHolder(kv, r, b);
    }
  }

  /** `r` now holds the longest cached prefix of `key`; nothing else changed. */
  ghost function Taken(kv: Kv, r: nat, key: Prefix): Kv {
    Acquired(kv, r, LongestOf(kv.cached, key))
  }

  /** The table it starts with: the prefix's blocks, all full. */
  ghost function TakenTable(kv: Kv, key: Prefix, bs: nat): Table {
    var blocks := PathBlocks(kv.cached, LongestOf(kv.cached, key));
    Table(blocks, |blocks| * bs)
  }

  lemma Took(kv: Kv, r: nat, p: Prefix, key: Prefix, blocks: seq<nat>, bs: nat)
    requires CachedOk(kv) && Longest(kv.cached, key, p) && blocks == PathBlocks(kv.cached, p)
    ensures Acquired(kv, r, p) == Taken(kv, r, key) && Table(blocks, |blocks| * bs) == TakenTable(kv, key, bs)
  {
    LongestIs(kv.cached, key, p);
  }

  /** The path of the table's full blocks has time `t`, the rest is as old as it was. */
  ghost predicate BlocksStamped(a: Shape, b: Shape, table: Table, toks: seq<int>, bs: nat, t: nat) {
    && bs > 0 && (table.numTokens / bs) * bs <= |toks|
    && Stamped(a, b, Chunks(toks[..(table.numTokens / bs) * bs], bs), t)
  }

  class KVCacheManager {
    const allocator: BlockAllocator
    const tree: RadixTree?
    ghost var held: map<nat, Hold>
    ghost var nodeOf: map<nat, nat>

    ghost predicate TreeSound()
      reads this, allocator, tree
    {
      allocator.Valid() && (tree != null ==> tree.Valid() && tree.allocator == allocator)
    }

    ghost function View(): Kv
      reads this, allocator, tree
      requires TreeSound()
    {
      Kv(allocator.numBlocks, if tree == null then map[] else Cached(tree.Sh()), held)
    }

    /** The tree as it is; without one, any shape stands for it. */
    ghost function ShapeNow(): Shape
      reads this, tree
    {
      if tree == null then Shape(map[], map[], map[]) else tree.Sh()
    }

    ghost function LockView(): map<Prefix, nat>
      reads this, allocator, tree
      requires TreeSound()
    {
      if tree == null then map[] else Locks(tree.Sh())
    }

    /** The two counts are in step with each other and with the handles. */
    ghost predicate Balanced()
      reads this, allocator, tree
    {
      && TreeSound()
      && KvOk(View())
      && RefsOk(View(), allocator.refs)
      && LocksOk(View(), LockView())
      && HandlesOk(if tree == null then map[ROOT := []] else tree.path, held, nodeOf)
    }

    /** Tables hold whole nodes of the tree. */
    ghost predicate Even()
      reads this, allocator, tree
      requires TreeSound()
    {
      tree != null ==> EvenlyHeld(tree.Sh(), held)
    }

    ghost predicate Valid()
      reads this, allocator, tree
    {
      Balanced() && Even()
    }

    constructor (allocator: BlockAllocator, radix: bool, indexed: bool)
      requires allocator.Valid() && forall b: nat :: b < allocator.numBlocks ==> allocator.refs[b] == 0
      ensures Valid() && this.allocator == allocator && (tree == null <==> !radix)
      ensures tree != null ==> fresh(tree)
      ensures View() == Kv(allocator.numBlocks, map[], map[])
    {
      var t: RadixTree? := null;
      if radix {
        t := new RadixTree(allocator, indexed);
      }
      this.allocator, tree := allocator, t;
      held, nodeOf := map[], map[];
      new;
      assert View().cached == map[];
    }

    lemma NodeOfHeld()
      requires Valid()
      ensures nodeOf.Keys == held.Keys && View().held == held
    {
    }

    lemma Sound()
      requires Valid()
      ensures TreeSound()
    {
    }

    /** The tree is one holder of each of its blocks. */
    lemma TreeBacked()
      requires Balanced() && tree != null
      ensures tree.Backed()
    {
      forall p | p in tree.home
        ensures Cached(tree.Sh())[p] < allocator.numBlocks && allocator.refs[Cached(tree.Sh())[p]] > 0
      {
        InValues(View().cached, p);
      }
    }

    // ------------------------------------------------------------ acquire and abandon

    /** Starts `rid`'s table with its longest cached prefix of `toks`, in whole blocks, and locks
        that prefix's path. */
    method Acquire(rid: nat, toks: seq<int>) returns (table: Table, node: nat)
      requires Valid() && rid !in held
      modifies this, allocator, tree
      ensures Valid() && allocator.free == old(allocator.free)
      ensures View() == Taken(old(View()), rid, Chunks(toks, allocator.blockSize))
      ensures table == TakenTable(old(View()), Chunks(toks, allocator.blockSize), allocator.blockSize)
      ensures nodeOf == old(nodeOf)[rid := node]
      ensures tree != null ==> tree.clock == old(tree.clock) + 1 && Stamped(old(tree.Sh()), tree.Sh(), held[rid].path, tree.clock)
    {
      hide KvOk, RefsOk, LocksOk, HandlesOk, TreeOk, Injective, UidsOk, RecencyNests, Unlocked, IndexOk, Cached, Locks,
           Longest, LongestOf, CachedOk, EvenlyHeld, HandlesKept, Stamped;
      ghost var kv, locks0, sh0 := View(), LockView(), ShapeNow();
      var blocks: seq<nat>;
      ghost var p;
      node, blocks, p := MatchAndLock(Chunks(toks, allocator.blockSize));
      CachedOfKv(kv);
      if tree != null { MatchedEvenly(sh0, tree.Sh(), kv, rid, node); }
      NewTable(rid, blocks, node, p, locks0);
      Took(kv, rid, p, Chunks(toks, allocator.blockSize), blocks, allocator.blockSize);
      table := Table(blocks, |blocks| * allocator.blockSize);
    }

    /** Tokens an `Acquire` would find cached now; changes nothing. */
    method CachedPrefixLen(toks: seq<int>) returns (n: nat)
      requires Valid()
      ensures n == |LongestOf(View().cached, Chunks(toks, allocator.blockSize))| * allocator.blockSize
    {
      hide RefsOk, LocksOk, HandlesOk, TreeOk, Injective, UidsOk, RecencyNests, Unlocked, IndexOk, EvenlyHeld, LongestAt, LongestOf,
           Longest, Cached, Chunks;
      var key := Chunks(toks, allocator.blockSize);
      if tree == null {
        NothingCached(key);
        return 0;
      }
      var pos := tree.PrefixLen(key);
      LongestCut(tree.Sh(), key, pos);
      LongestIs(View().cached, key, key[..pos]);
      n := pos * allocator.blockSize;
    }

    /** `new_table`: one more holder of each matched block. */
    method NewTable(rid: nat, blocks: seq<nat>, ghost node: nat, ghost p: Prefix, ghost locks0: map<Prefix, nat>)
      requires TreeSound() && KvOk(View()) && RefsOk(View(), allocator.refs) && LocksOk(View(), locks0) && rid !in held
      requires Whole(View().cached, p) && blocks == PathBlocks(View().cached, p)
      requires LockView().Keys == locks0.Keys
      requires forall q :: q in LockView() ==> LockView()[q] == locks0[q] + if q <= p then 1 else 0
      requires var path := if tree == null then map[ROOT := []] else tree.path;
        HandlesOk(path, held, nodeOf) && node in path && path[node] == p
      modifies this, allocator
      ensures Balanced() && allocator.free == old(allocator.free)
      ensures View() == Acquired(old(View()), rid, p) && nodeOf == old(nodeOf)[rid := node]
    {
      hide KvOk, RefsOk, LocksOk, HandlesOk, TreeOk, Injective, UidsOk, RecencyNests, Unlocked, IndexOk, Cached, Locks,
           IdsOk;
      ghost var kv, refs0 := View(), allocator.refs;
      TakenBlocks(kv, refs0, p);
      var taken := allocator.IncRef(blocks);
      JoinFacts(kv, rid, p, refs0, allocator.refs, locks0, LockView());
      ghost var path := if tree == null then map[ROOT := []] else tree.path;
      HandleAdded(path, held, nodeOf, rid, Hold(blocks, p), node);
      held := held[rid := Hold(blocks, p)];
      nodeOf := nodeOf[rid := node];
      assert View() == Acquired(kv, rid, p);
    }

    method MatchAndLock(key: Prefix) returns (node: nat, blocks: seq<nat>, ghost p: Prefix)
      requires Balanced()
      modifies tree
      ensures TreeSound() && View() == old(View())
      ensures Longest(View().cached, key, p) && Whole(View().cached, p) && blocks == PathBlocks(View().cached, p)
      ensures tree != null ==> HandlesKept(old(tree.path), tree.path)
      ensures LockView().Keys == old(LockView()).Keys
      ensures forall q :: q in LockView() ==> LockView()[q] == old(LockView())[q] + if q <= p then 1 else 0
      ensures var path := if tree == null then map[ROOT := []] else tree.path;
        HandlesOk(path, held, nodeOf) && node in path && path[node] == p
      ensures tree != null ==> tree.clock == old(tree.clock) + 1 && Stamped(old(tree.Sh()), tree.Sh(), p, tree.clock)
    {
      hide KvOk, RefsOk, LocksOk, HandlesOk, TreeOk, Injective, UidsOk, RecencyNests, Unlocked, IndexOk, Cached, Locks,
           HandlesKept, LongestAt, Stamped, OnlyLocks;
      if tree == null {
        node, blocks, p := ROOT, [], [];
      } else {
        ghost var path0 := tree.path;
        node, blocks := tree.Match(key);
        p := tree.path[node];
        SameKeys(tree.Sh());
        LongestFrom(tree.Sh(), key, p);
        HandlesSurvive(path0, tree.path, held, nodeOf);
        ghost var sh0, sh1 := old(tree.Sh()), tree.Sh();
        tree.Lock(node);
        LocksKeepStamps(sh0, sh1, tree.Sh(), p, tree.clock);
        SameKeys(tree.Sh());
      }
    }

    /** Undoes an acquire whose admission was refused: the pool is exactly as before. */
    method Abandon(rid: nat, table: Table, node: nat)
      requires Valid() && rid in held && held[rid].blocks == table.blocks && nodeOf[rid] == node
      modifies this, allocator, tree
      ensures Valid() && View() == Dropped(old(View()), rid) && nodeOf == old(nodeOf) - {rid}
      ensures tree != null ==> tree.clock == old(tree.clock) && OnlyLocks(old(tree.Sh()), tree.Sh())
    {
      hide KvOk, RefsOk, LocksOk, TreeOk, Injective, UidsOk, RecencyNests, Unlocked, IndexOk, Cached, Locks, EvenlyHeld, OnlyLocks;
      ghost var sh0, held0 := ShapeNow(), held;
      UnlockPath(rid, node);
      if tree != null { LeftEvenly(sh0, tree.Sh(), held0, rid); }
      DropTable(rid, table);
    }

    /** Moves `rid`'s lock off its path. */
    method UnlockPath(rid: nat, node: nat)
      requires Balanced() && rid in held && rid in nodeOf && nodeOf[rid] == node
      modifies tree
      ensures TreeSound() && View() == old(View())
      ensures LockView().Keys == old(LockView()).Keys
      ensures forall q :: q in LockView() ==> LockView()[q] + (if q <= held[rid].path then 1 else 0) == old(LockView())[q]
      ensures HandlesOk(if tree == null then map[ROOT := []] else tree.path, held, nodeOf)
      ensures tree != null ==> tree.path == old(tree.path) && tree.clock == old(tree.clock) && OnlyLocks(old(tree.Sh()), tree.Sh())
    {
      hide OnlyLocks, KvOk, RefsOk, TreeOk, Injective, UidsOk, RecencyNests, Unlocked, IndexOk, Cached, Locks;
      if tree != null {
        SameKeys(tree.Sh());
        LockedPath(View(), LockView(), rid);
        hide LocksOk;
        var done := tree.Unlock(node);
        SameKeys(tree.Sh());
      }
    }

    /** Drops `rid`'s table after its path was unlocked. */
    method DropTable(rid: nat, table: Table)
      requires TreeSound() && KvOk(View()) && RefsOk(View(), allocator.refs) && rid in held
      requires held[rid].blocks == table.blocks
      requires HandlesOk(if tree == null then map[ROOT := []] else tree.path, held, nodeOf)
      requires exists locks :: LocksOk(View(), locks) && UnlockedBy(locks, LockView(), held[rid].path)
      modifies this, allocator
      ensures Balanced() && View() == Dropped(old(View()), rid) && nodeOf == old(nodeOf) - {rid}
    {
      hide KvOk, RefsOk, LocksOk, HandlesOk, TreeOk, Injective, UidsOk, RecencyNests, Unlocked, IndexOk, Cached, Locks,
           UnlockedBy, Droppable, IdsOk;
      ghost var kv, refs0 := View(), allocator.refs;
      ghost var locks0 :| LocksOk(kv, locks0) && UnlockedBy(locks0, LockView(), held[rid].path);
      OwnDroppable(kv, rid, refs0);
      var done := allocator.Free(table.blocks);
      LeaveFacts(kv, rid, refs0, allocator.refs, locks0, LockView());
      ghost var path := if tree == null then map[ROOT := []] else tree.path;
      HandleGone(path, held, nodeOf, rid);
      Forget(rid);
    }

    method Forget(rid: nat)
      requires TreeSound() && KvOk(Dropped(View(), rid)) && RefsOk(Dropped(View(), rid), allocator.refs)
      requires LocksOk(Dropped(View(), rid), LockView())
      requires HandlesOk(if tree == null then map[ROOT := []] else tree.path, held - {rid}, nodeOf - {rid})
      modifies this`held, this`nodeOf
      ensures Balanced() && View() == Dropped(old(View()), rid) && nodeOf == old(nodeOf) - {rid}
    {
      hide KvOk, RefsOk, LocksOk, HandlesOk, TreeOk, Injective, UidsOk, RecencyNests, Unlocked, IndexOk, Cached, Locks;
      ghost var kv := View();
      held := held - {rid};
      nodeOf := nodeOf - {rid};
      assert View() == Dropped(kv, rid);
    }

    // ------------------------------------------------------------ commit and release

    /** Inserts the full blocks whose KV `rid` has computed and moves its lock to cover them. */
    method Commit(rid: nat, table: Table, node: nat, toks: seq<int>) returns (node': nat)
      requires Valid() && rid in held && nodeOf[rid] == node
      requires tree != null ==> Committable(View(), rid, table, toks, allocator.blockSize)
      modifies this, allocator, tree
      ensures Valid() && allocator.free == old(allocator.free)
      ensures View() == CommittedView(old(View()), rid, table, toks, allocator.blockSize, tree != null)
      ensures nodeOf == old(nodeOf)[rid := node']
      ensures tree != null ==> tree.clock == old(tree.clock) + 1 && Stamped(old(tree.Sh()), tree.Sh(), held[rid].path, tree.clock)
    {
      hide KvOk, RefsOk, LocksOk, HandlesOk, TreeOk, Injective, UidsOk, RecencyNests, Unlocked, IndexOk, Cached, Locks,
           Committable, CommittedView, Chunks, Committed, TableOk, EvenlyHeld, HandlesKept, Stamped;
      HandleAt(if tree == null then map[ROOT := []] else tree.path, held, nodeOf, rid);
      if tree == null {
        NoTree(View(), rid, table, toks, allocator.blockSize);
        HandleSame(nodeOf, rid, node);
        return node;
      }
      var n := table.numTokens / allocator.blockSize;
      CommitKey(View(), rid, table, toks, allocator.blockSize);
      var key := Chunks(toks[..n * allocator.blockSize], allocator.blockSize);
      ghost var kv, sh0 := View(), tree.Sh();
      node' := CommitToTree(rid, node, key, table.blocks, n);
      CommittedEvenly(sh0, tree.Sh(), kv, rid, key);
    }

    method CommitToTree(rid: nat, node: nat, key: Prefix, blocks: seq<nat>, n: nat) returns (node': nat)
      requires Balanced() && tree != null && rid in held && rid in nodeOf && nodeOf[rid] == node
      requires held[rid].blocks == blocks && |key| == n <= |blocks| && held[rid].path <= key
      modifies this, allocator, tree
      ensures Balanced() && allocator.free == old(allocator.free)
      ensures View() == Committed(old(View()), rid, key) && nodeOf == old(nodeOf)[rid := node']
      ensures HandlesKept(old(tree.path), tree.path)
      ensures tree.clock == old(tree.clock) + 1 && Stamped(old(tree.Sh()), tree.Sh(), key, tree.clock) && held[rid].path == key
    {
      hide KvOk, RefsOk, LocksOk, HandlesOk, TreeOk, Injective, UidsOk, RecencyNests, Unlocked, IndexOk, Cached, Locks,
           HandlesKept, Inserted, NewHolders, OwnSuffix, Stamped, OnlyLocks, LocksAfterInsert, CommitMap;
      ghost var kv, refs0, l0, path0 := View(), allocator.refs, LockView(), tree.path;
      TreeBacked();
      OwnForInsert(kv, rid, key, refs0);
      var r := tree.Insert(key, blocks[..n]);
      node' := r.value;
      SameKeys(tree.Sh());
      HandlesSurvive(path0, tree.path, held, nodeOf);
      InsertedIsCommit(kv, rid, key, View().cached, l0, LockView());
      ghost var sh1 := tree.Sh();
      MoveLock(rid, node, node', kv, key, refs0, l0);
      LocksKeepStamps(old(tree.Sh()), sh1, tree.Sh(), key, tree.clock);
    }

    /** The lock moves from the old path to the committed one. */
    method MoveLock(rid: nat, node: nat, node': nat, ghost kv: Kv, ghost key: Prefix, ghost refs0: seq<nat>, ghost l0: map<Prefix, nat>)
      requires TreeSound() && tree != null && held == kv.held
      requires KvOk(kv) && RefsOk(kv, refs0) && LocksOk(kv, l0) && rid in kv.held && rid in nodeOf && nodeOf[rid] == node
      requires kv.held[rid].path <= key && |key| <= |kv.held[rid].blocks|
      requires node' in tree.path && tree.path[node'] == key && HandlesOk(tree.path, held, nodeOf)
      requires View() == kv.(cached := Committed(kv, rid, key).cached)
      requires NewHolders(refs0, allocator.refs, kv.cached.Values, View().cached.Values)
      requires LocksAfterInsert(kv.cached, View().cached, l0, LockView())
      modifies this, tree
      ensures Balanced() && View() == Committed(kv, rid, key) && nodeOf == old(nodeOf)[rid := node']
      ensures tree.path == old(tree.path) && tree.clock == old(tree.clock) && OnlyLocks(old(tree.Sh()), tree.Sh())
    {
      hide KvOk, RefsOk, LocksOk, HandlesOk, TreeOk, Injective, UidsOk, RecencyNests, Unlocked, IndexOk, Cached, Locks,
           NewHolders, LocksAfterInsert, Committed, OnlyLocks;
      ghost var l1 := LockView();
      SameKeys(tree.Sh());
      HandleAt(tree.path, held, nodeOf, rid);
      LockThenUnlock(rid, node, node', kv, key, l0);
      SameKeys(tree.Sh());
      CommitFacts(kv, rid, key, refs0, allocator.refs, l0, l1, LockView());
      HandleMoved(tree.path, held, nodeOf, rid, Hold(kv.held[rid].blocks, key), node');
      CommittedHeld(kv, rid, key);
      held := held[rid := Hold(kv.held[rid].blocks, key)];
      nodeOf := nodeOf[rid := node'];
      assert View() == Committed(kv, rid, key);
    }

    method LockThenUnlock(rid: nat, node: nat, node': nat, ghost kv: Kv, ghost key: Prefix, ghost l0: map<Prefix, nat>)
      requires TreeSound() && tree != null && KvOk(kv) && LocksOk(kv, l0) && rid in kv.held
      requires node' in tree.path && tree.path[node'] == key
      requires node in tree.path && tree.path[node] == kv.held[rid].path
      requires LocksAfterInsert(kv.cached, View().cached, l0, LockView())
      modifies tree`nodes, tree`numEvictable, tree`index
      ensures TreeSound() && View() == old(View()) && OnlyLocks(old(tree.Sh()), tree.Sh())
      ensures LockView().Keys == old(LockView()).Keys
      ensures forall p :: p in LockView() ==>
        LockView()[p] + (if p <= kv.held[rid].path then 1 else 0) == old(LockView())[p] + if p <= key then 1 else 0
    {
      hide KvOk, LocksOk, TreeOk, Injective, UidsOk, RecencyNests, Unlocked, IndexOk, Cached, Locks,
           LocksAfterInsert, OnlyLocks;
      ghost var l1, sh := LockView(), tree.Sh();
      SameKeys(sh);
      tree.Lock(node');
      ghost var sh' := tree.Sh();
      SameKeys(sh');
      LockedStill(kv, rid, key, View().cached, l0, l1, LockView());
      var done := tree.Unlock(node);
      LocksFurther(sh, sh', tree.Sh());
      SameKeys(tree.Sh());
    }

    /** Gives up `rid`'s KV; its full blocks stay in the prefix cache. */
    method Release(rid: nat, table: Table, node: nat, toks: seq<int>)
      requires Valid() && rid in held && held[rid].blocks == table.blocks && nodeOf[rid] == node
      requires tree != null ==> Committable(View(), rid, table, toks, allocator.blockSize)
      modifies this, allocator, tree
      ensures Valid() && nodeOf == old(nodeOf) - {rid}
      ensures View() == Dropped(CommittedView(old(View()), rid, table, toks, allocator.blockSize, tree != null), rid)
      ensures tree != null ==>
        tree.clock == old(tree.clock) + 1 && BlocksStamped(old(tree.Sh()), tree.Sh(), table, toks, allocator.blockSize, tree.clock)
    {
      hide KvOk, RefsOk, LocksOk, HandlesOk, TreeOk, Injective, UidsOk, RecencyNests, Unlocked, IndexOk, Cached, Locks,
           Committable, CommittedView, TableOk, EvenlyHeld, Stamped, OnlyLocks, Chunks;
      ghost var kv0, bs := View(), allocator.blockSize;
      var node' := Commit(rid, table, node, toks);
      StillHolds(kv0, rid, table, toks, bs, tree != null);
      ghost var locks, sh1, held1 := LockView(), ShapeNow(), held;
      UnlockPath(rid, node');
      if tree != null {
        LeftEvenly(sh1, tree.Sh(), held1, rid);
        CommitKey(kv0, rid, table, toks, bs);
        LocksKeepStamps(old(tree.Sh()), sh1, tree.Sh(), held[rid].path, tree.clock);
      }
      assert UnlockedBy(locks, LockView(), held[rid].path);
      DropTable(rid, table);
      MapDrop(old(nodeOf), rid, node');
    }

    // ------------------------------------------------------------ room

    /** `num_available` counts exactly the blocks the abstract pool can hand out. */
    lemma AvailableIs()
      requires Valid()
      ensures |allocator.free| == |FreeBlocks(View())|
      ensures |allocator.free| + (if tree == null then 0 else tree.numEvictable) == Avail(View())
    {
      hide *;
      IsBalanced();
      CountsAre();
    }

    /** What the source's own invariant check asserts of every node: its blocks share one reference
        count, and that is one if no request uses the node. */
    lemma OneCountPerNode(p: Prefix, q: Prefix)
      requires Valid() && tree != null && p in tree.home && q in tree.home && tree.home[p] == tree.home[q]
      ensures var (c, refs) := (Cached(tree.Sh()), allocator.refs);
        && c[p] < |refs| && c[q] < |refs| && refs[c[p]] == refs[c[q]]
        && (Locks(tree.Sh())[p] == 0 ==> refs[c[p]] == 1)
    {
      hide KvOk, RefsOk, LocksOk, HandlesOk, TreeOk, Injective, UidsOk, RecencyNests, Unlocked, IndexOk, Cached, Locks, EvenlyHeld;
      NodeRefsEqual(tree.Sh(), View(), allocator.refs, p, q);
      if Locks(tree.Sh())[p] == 0 { UnlockedMeansTreeOnly(View(), allocator.refs, LockView(), p); }
    }

    lemma IsBalanced()
      requires Valid()
      ensures Balanced() && TreeSound() && Even()
    {
    }

    lemma CountsAre()
      requires Balanced()
      ensures |allocator.free| == |FreeBlocks(View())|
      ensures |allocator.free| + (if tree == null then 0 else tree.numEvictable) == Avail(View())
    {
      FreeIs(View(), allocator.numBlocks, allocator.free, allocator.refs);
      EvictableIs(View(), LockView());
      if tree != null {
        assert Unlocked(tree.Sh()) == set p | p in LockView() && LockView()[p] == 0;
      }
    }

    method NumAvailable() returns (n: int)
      requires Valid()
      ensures n == Avail(View())
    {
      hide *;
      AvailableIs();
      n := |allocator.free| + if tree == null then 0 else tree.numEvictable;
    }

    /** Evicts `k` blocks: what is locked stays, the least recently used goes first over the whole
        tree, the pool gains what the cache lost, and that is `k` or everything evictable. */
    method EvictShort(k: int)
      requires Valid() && tree != null && k > 0
      modifies allocator, tree
      ensures Valid() && EvictedFrom(old(View()), View()) && LostOldest(old(tree.Sh()), tree.Sh())
      ensures tree.Sh() == Survivors(old(tree.Sh()), k)
      ensures Avail(View()) == old(Avail(View()))
      ensures |allocator.free| >= |old(allocator.free)| + (if k <= old(|Evictable(View())|) then k else old(|Evictable(View())|))
    {
      hide KvOk, RefsOk, LocksOk, HandlesOk, TreeOk, Injective, UidsOk, RecencyNests, Unlocked, IndexOk, Cached, Locks,
           EvictedFrom, Avail, FreeBlocks, Evictable, LocksNest, Survivors, Victims, Spares, LostHolders, LostOldest, EvenlyHeld;
      ghost var kv, refs0, l0, sh := View(), allocator.refs, LockView(), tree.Sh();
      TreeBacked();
      CountsAre();
      NestFromUsers(sh, kv, l0);
      EvictionLosesOldest(sh, k);
      var freed, victims := tree.Evict(k);
      ghost var kv', sh' := View(), tree.Sh();
      EvictionSpares(sh, k);
      EvictionSuffices(sh, k);
      SparedView(sh, sh', kv, kv', l0);
      EvictedCounts(kv, kv', refs0, allocator.refs, l0, LockView());
      SparedHandles(sh, sh', kv, l0, nodeOf);
      SparedEvenly(sh, sh', held);
      EvictionFreesBlocks(kv, kv');
      EvictableIs(kv, l0);
      UnlockedIs(sh);
      SameKeys(sh);
      SameKeys(sh');
      CardOfMaps(kv.cached, sh.home);
      CardOfMaps(kv'.cached, sh'.home);
      CountsAre();
    }

    /** Makes `n` blocks free, evicting from the prefix cache if the free pool alone is short. It
        succeeds exactly when that many blocks are available. */
    method Reserve(n: nat) returns (r: Result<()>)
      requires Valid()
      modifies allocator, tree
      ensures Valid() && EvictedFrom(old(View()), View())
      ensures tree != null ==> LostOldest(old(tree.Sh()), tree.Sh())
      ensures tree != null ==>
        tree.Sh() == var short := n - |old(allocator.free)|; if short > 0 then Survivors(old(tree.Sh()), short) else old(tree.Sh())
      ensures n <= |old(allocator.free)| ==> View() == old(View()) && allocator.free == old(allocator.free)
      ensures n <= old(|FreeBlocks(View())|) ==> View() == old(View())
      ensures r == if n <= |allocator.free| then Ok(()) else Err(OutOfBlocks)
      ensures n <= old(Avail(View())) <==> n <= |allocator.free|
      ensures Avail(View()) == old(Avail(View()))
    {
      hide KvOk, RefsOk, LocksOk, HandlesOk, TreeOk, Injective, UidsOk, RecencyNests, Unlocked, IndexOk, Cached, Locks,
           EvictedFrom, FreeBlocks, LostOldest, Survivors;
      ghost var kv := View();
      AvailableIs();
      var short := n - |allocator.free|;
      if short > 0 && tree != null {
        EvictShort(short);
      } else {
        NothingEvicted(kv);
        if tree != null { NothingLost(tree.Sh()); }
      }
      AvailableIs();
      if n > |allocator.free| { return Err(OutOfBlocks); }
      return Ok(());
    }

    /** Room for `n` more tokens in a live request's table, from free blocks only. */
    method AppendTokens(rid: nat, table: Table, n: nat) returns (r: Result<seq<nat>>)
      requires Valid() && rid in held && held[rid].blocks == table.blocks
      modifies this, allocator
      ensures Valid() && nodeOf == old(nodeOf)
      ensures r.Ok? <==> BlocksNeeded(table, n, allocator.blockSize) <= |old(allocator.free)|
      ensures r.Err? ==> View() == old(View())
      ensures r.Ok? ==>
        && |r.value| == BlocksNeeded(table, n, allocator.blockSize) && Distinct(r.value)
        && (forall b :: b in r.value ==> b in FreeBlocks(old(View())))
        && View() == Grown(old(View()), rid, r.value)
        && |allocator.free| == |old(allocator.free)| - |r.value|
    {
      hide KvOk, RefsOk, LocksOk, HandlesOk, TreeOk, Injective, UidsOk, RecencyNests, Unlocked, IndexOk, Cached, Locks,
           FreeBlocks;
      ghost var kv, refs0, free0 := View(), allocator.refs, allocator.free;
      ghost var path := if tree == null then map[ROOT := []] else tree.path;
      HandleAt(path, held, nodeOf, rid);
      var need := BlocksNeeded(table, n, allocator.blockSize);
      FreeIs(kv, allocator.numBlocks, free0, refs0);
      r := allocator.Allocate(need);
      if r.Ok? {
        PoppedFree(allocator.numBlocks, free0, refs0, need);
        GrowCounts(kv, rid, r.value, refs0, allocator.refs, LockView());
        GrownOk(kv, rid, r.value);
        ghost var h := Hold(held[rid].blocks + r.value, held[rid].path);
        HandleMoved(path, held, nodeOf, rid, h, nodeOf[rid]);
        HandleSame(nodeOf, rid, nodeOf[rid]);
        if tree != null { GrownEvenly(tree.Sh(), kv, rid, r.value); }
        held := held[rid := h];
        assert View() == Grown(kv, rid, r.value);
      }
    }
  }

  lemma MatchedEvenly(a: Shape, b: Shape, kv: Kv, r: nat, n: nat)
    requires TreeOk(a) && TreeOk(b) && HandlesKept(a.path, b.path) && Cached(b) == Cached(a) && EvenlyHeld(a, kv.held)
    requires CachedOk(kv) && kv.cached == Cached(a) && n in b.path && Whole(Cached(b), b.path[n])
    ensures EvenlyHeld(b, Acquired(kv, r, b.path[n]).held)
  {
    hide TreeOk, Cached, EvenlyHeld, HandlesKept, Whole;
    CutEvenly(a, b, kv.held);
    SameKeys(b);
    TakenEvenly(b, kv.held, r, n);
  }

  lemma LeftEvenly(a: Shape, b: Shape, held: map<nat, Hold>, r: nat)
    requires TreeOk(a) && TreeOk(b) && b.path == a.path && Cached(b) == Cached(a) && EvenlyHeld(a, held)
    ensures EvenlyHeld(b, held - {r})
  {
    hide TreeOk, Cached, EvenlyHeld;
    CutEvenly(a, b, held);
    DroppedEvenly(b, held, r);
  }

  lemma PoppedFree(n: nat, free: seq<nat>, refs: seq<nat>, k: nat)
    requires PoolOk(n, free, refs) && k <= |free|
    ensures Distinct(Popped(free, k)) && forall b :: b in Popped(free, k) ==> b in free
  {
    NewBlocks(n, free, refs, [], k);
    assert [] + Popped(free, k) == Popped(free, k);
  }

  lemma CachedOfKv(kv: Kv)
    requires KvOk(kv)
    ensures CachedOk(kv)
  {
  }

  lemma JoinFacts(kv: Kv, r: nat, p: Prefix, refs: seq<nat>, refs': seq<nat>, locks: map<Prefix, nat>, locks': map<Prefix, nat>)
    requires KvOk(kv) && r !in kv.held && Whole(kv.cached, p) && RefsOk(kv, refs) && LocksOk(kv, locks)
    requires |refs'| == |refs| && locks'.Keys == locks.Keys
    requires forall b: nat :: b < |refs| ==> refs'[b] == refs[b] + multiset(PathBlocks(kv.cached, p))[b]
    requires forall q :: q in locks' ==> locks'[q] == locks[q] + if q <= p then 1 else 0
    ensures KvOk(Acquired(kv, r, p)) && RefsOk(Acquired(kv, r, p), refs') && LocksOk(Acquired(kv, r, p), locks')
  {
    hide KvOk, RefsOk, LocksOk;
    AcquiredOk(kv, r, p);
    TakenBlocks(kv, refs, p);
    SumOfMentions(refs, refs', PathBlocks(kv.cached, p));
    JoinCounts(kv, Acquired(kv, r, p), r, refs, refs', locks, locks');
  }

  lemma SameKeys(sh: Shape)
    requires TreeOk(sh)
    ensures sh.path.Keys == sh.nodes.Keys
    ensures Locks(sh).Keys == sh.home.Keys == Cached(sh).Keys
    ensures forall p :: p in Cached(sh) ==> p != []
  {
    forall p | p in sh.home ensures p != [] { LockOfHome(sh, p); }
  }

  ghost predicate UnlockedBy(l0: map<Prefix, nat>, l1: map<Prefix, nat>, p: Prefix) {
    && l1.Keys == l0.Keys
    && forall q :: q in l1 ==> l1[q] + (if q <= p then 1 else 0) == l0[q]
  }

  lemma LeaveFacts(kv: Kv, r: nat, refs: seq<nat>, refs': seq<nat>, l0: map<Prefix, nat>, l1: map<Prefix, nat>)
    requires r in kv.held && RefsOk(kv, refs) && LocksOk(kv, l0) && |refs'| == |refs| && UnlockedBy(l0, l1, kv.held[r].path)
    requires forall b: nat :: b < |refs| ==> refs'[b] + (if b in kv.held[r].blocks then 1 else 0) == refs[b]
    requires KvOk(kv)
    ensures KvOk(Dropped(kv, r)) && RefsOk(Dropped(kv, r), refs') && LocksOk(Dropped(kv, r), l1)
  {
    DroppedOk(kv, r);
    LeaveCounts(kv, r, refs, refs', l0, l1);
  }

  lemma HandleGone(path: map<nat, Prefix>, held: map<nat, Hold>, nodeOf: map<nat, nat>, r: nat)
    requires HandlesOk(path, held, nodeOf)
    ensures HandlesOk(path, held - {r}, nodeOf - {r})
  {
  }

  lemma LockedPath(kv: Kv, locks: map<Prefix, nat>, r: nat)
    requires LocksOk(kv, locks) && r in kv.held
    ensures forall q :: q in kv.cached && q <= kv.held[r].path ==> locks[q] > 0
  {
    forall q | q in kv.cached && q <= kv.held[r].path ensures locks[q] > 0 {
      assert r in Users(kv, q);
    }
  }

  lemma TakenBlocks(kv: Kv, refs: seq<nat>, p: Prefix)
    requires KvOk(kv) && RefsOk(kv, refs) && Whole(kv.cached, p)
    ensures var blocks := PathBlocks(kv.cached, p);
      Distinct(blocks) && IdsOk(|refs|, blocks) && forall b :: b in blocks ==> refs[b] > 0
  {
    PathBlocksDistinct(kv, p);
  }

  lemma HandleAdded(path: map<nat, Prefix>, held: map<nat, Hold>, nodeOf: map<nat, nat>, r: nat, h: Hold, node: nat)
    requires HandlesOk(path, held, nodeOf) && node in path && path[node] == h.path
    ensures HandlesOk(path, held[r := h], nodeOf[r := node])
  {
  }

  // ------------------------------------------------------------ what commit needs and leaves

  /** The table is `r`'s, its full blocks are covered by the tokens, and they extend its path. */
  ghost predicate Committable(kv: Kv, r: nat, table: Table, toks: seq<int>, bs: nat) {
    && bs > 0 && TableOk(table, bs)
    && r in kv.held && kv.held[r].blocks == table.blocks
    && (table.numTokens / bs) * bs <= |toks|
    && kv.held[r].path <= Chunks(toks[..(table.numTokens / bs) * bs], bs)
  }

  ghost function CommittedView(kv: Kv, r: nat, table: Table, toks: seq<int>, bs: nat, radix: bool): Kv
    requires radix ==> Committable(kv, r, table, toks, bs)
  {
    if radix then
      CommitLengths(kv, r, table, toks, bs);
      Committed(kv, r, Chunks(toks[..(table.numTokens / bs) * bs], bs))
    else kv
  }

  lemma CommitLengths(kv: Kv, r: nat, table: Table, toks: seq<int>, bs: nat)
    requires Committable(kv, r, table, toks, bs)
    ensures (table.numTokens / bs) * bs <= |toks|
    ensures |Chunks(toks[..(table.numTokens / bs) * bs], bs)| == table.numTokens / bs <= |kv.held[r].blocks|
  {
    var n := table.numTokens / bs;
    ChunksCount(toks[..n * bs], bs);
    DivUnique(n * bs, n, 0, bs);
    FloorCeil(table.numTokens, bs);
    CeilBound(table.numTokens, |table.blocks|, bs);
  }

  lemma CommitKey(kv: Kv, r: nat, table: Table, toks: seq<int>, bs: nat)
    requires Committable(kv, r, table, toks, bs)
    ensures r in kv.held && kv.held[r].blocks == table.blocks && (table.numTokens / bs) * bs <= |toks|
    ensures |Chunks(toks[..(table.numTokens / bs) * bs], bs)| == table.numTokens / bs <= |kv.held[r].blocks|
    ensures kv.held[r].path <= Chunks(toks[..(table.numTokens / bs) * bs], bs)
    ensures CommittedView(kv, r, table, toks, bs, true) == Committed(kv, r, Chunks(toks[..(table.numTokens / bs) * bs], bs))
  {
    CommitLengths(kv, r, table, toks, bs);
  }

  lemma HandleSame(nodeOf: map<nat, nat>, r: nat, node: nat)
    requires r in nodeOf && nodeOf[r] == node
    ensures nodeOf[r := node] == nodeOf
  {
  }

  lemma CommittedHeld(kv: Kv, r: nat, key: Prefix)
    requires r in kv.held && |key| <= |kv.held[r].blocks|
    ensures Committed(kv, r, key) ==
      Kv(kv.numBlocks, Committed(kv, r, key).cached, kv.held[r := Hold(kv.held[r].blocks, key)])
  {
  }

  lemma HandleAt(path: map<nat, Prefix>, held: map<nat, Hold>, nodeOf: map<nat, nat>, r: nat)
    requires HandlesOk(path, held, nodeOf) && r in held
    ensures r in nodeOf && nodeOf[r] in path && path[nodeOf[r]] == held[r].path
  {
  }

  lemma HandleMoved(path: map<nat, Prefix>, held: map<nat, Hold>, nodeOf: map<nat, nat>, r: nat, h: Hold, node: nat)
    requires HandlesOk(path, held, nodeOf) && node in path && path[node] == h.path
    ensures HandlesOk(path, held[r := h], nodeOf[r := node])
  {
  }

  lemma OwnForInsert(kv: Kv, r: nat, key: Prefix, refs: seq<nat>)
    requires KvOk(kv) && RefsOk(kv, refs) && r in kv.held && kv.held[r].path <= key && |key| <= |kv.held[r].blocks|
    ensures Distinct(kv.held[r].blocks[..|key|])
    ensures OwnSuffix(kv.cached, key, kv.held[r].blocks[..|key|], refs)
  {
    assert HoldOk(kv, kv.held[r]);
    forall p | p != [] && p <= key && p !in kv.cached
      ensures var b := kv.held[r].blocks[..|key|][|p| - 1];
        b < |refs| && refs[b] > 0 && b !in kv.cached.Values
    {
      CommitTakesOwn(kv, r, key, p);
    }
  }

  /** Old prefixes keep their lock counts; new ones start unlocked. */
  ghost predicate LocksAfterInsert(c0: map<Prefix, nat>, c1: map<Prefix, nat>, l0: map<Prefix, nat>, l1: map<Prefix, nat>) {
    && (forall p :: p in c0 ==> p in l0 && p in l1 && l1[p] == l0[p])
    && (forall p :: p in c1 && p !in c0 ==> p in l1 && l1[p] == 0)
  }

  lemma InsertedIsCommit(kv: Kv, r: nat, key: Prefix, c1: map<Prefix, nat>, l0: map<Prefix, nat>, l1: map<Prefix, nat>)
    requires r in kv.held && |key| <= |kv.held[r].blocks|
    requires Inserted(kv.cached, l0, c1, l1, key, kv.held[r].blocks[..|key|])
    ensures c1 == Committed(kv, r, key).cached
    ensures LocksAfterInsert(kv.cached, c1, l0, l1)
  {
  }

  lemma LockedStill(kv: Kv, r: nat, key: Prefix, c1: map<Prefix, nat>, l0: map<Prefix, nat>, l1: map<Prefix, nat>, l2: map<Prefix, nat>)
    requires LocksOk(kv, l0) && r in kv.held && KvOk(kv) && LocksAfterInsert(kv.cached, c1, l0, l1)
    requires c1.Keys == l1.Keys == l2.Keys && (forall p :: p in c1 ==> p != [])
    requires forall p :: p in l2 ==> l2[p] == l1[p] + if p <= key then 1 else 0
    ensures forall p :: p in l2 && p <= kv.held[r].path ==> l2[p] > 0
  {
    forall p | p in l2 && p <= kv.held[r].path ensures l2[p] > 0 {
      assert r in Users(kv, p);
      if p !in kv.cached { UncachedUnused(kv, p); }
    }
  }

  lemma CommitFacts(kv: Kv, r: nat, key: Prefix, refs: seq<nat>, refs': seq<nat>,
                    l0: map<Prefix, nat>, l1: map<Prefix, nat>, l2: map<Prefix, nat>)
    requires KvOk(kv) && r in kv.held && kv.held[r].path <= key && |key| <= |kv.held[r].blocks|
    requires RefsOk(kv, refs) && LocksOk(kv, l0)
    requires var c' := Committed(kv, r, key).cached;
      && l1.Keys == c'.Keys && l2.Keys == c'.Keys && NewHolders(refs, refs', kv.cached.Values, c'.Values)
      && LocksAfterInsert(kv.cached, c', l0, l1)
    requires forall p :: p in l2 ==>
      l2[p] + (if p <= kv.held[r].path then 1 else 0) == l1[p] + if p <= key then 1 else 0
    ensures KvOk(Committed(kv, r, key))
    ensures RefsOk(Committed(kv, r, key), refs') && LocksOk(Committed(kv, r, key), l2)
  {
    hide KvOk, LocksOk;
    CommittedOk(kv, r, key);
    CommitCounts(kv, r, key, refs, refs', l0, l1, l2);
  }

  lemma NoTree(kv: Kv, r: nat, table: Table, toks: seq<int>, bs: nat)
    ensures CommittedView(kv, r, table, toks, bs, false) == kv
  {
  }

  lemma StillHolds(kv: Kv, r: nat, table: Table, toks: seq<int>, bs: nat, radix: bool)
    requires r in kv.held && kv.held[r].blocks == table.blocks && (radix ==> Committable(kv, r, table, toks, bs))
    ensures var kv' := CommittedView(kv, r, table, toks, bs, radix);
      r in kv'.held && kv'.held[r].blocks == table.blocks && kv'.held.Keys == kv.held.Keys
  {
  }

  lemma MapDrop(m: map<nat, nat>, r: nat, x: nat)
    ensures m[r := x] - {r} == m - {r}
  {
  }

  lemma FreeIs(kv: Kv, n: nat, free: seq<nat>, refs: seq<nat>)
    requires PoolOk(n, free, refs) && RefsOk(kv, refs) && kv.numBlocks == n
    ensures |free| == |FreeBlocks(kv)|
    ensures forall b: nat :: b in free <==> b in FreeBlocks(kv)
  {
    forall b: nat ensures b in free <==> b in FreeBlocks(kv) {
      if b < n && refs[b] == 0 {
        assert |Holders(kv, b)| == 0;
      }
    }
    SeqSize(free);
    assert SetOf(free) == FreeBlocks(kv);
  }

  lemma EvictableIs(kv: Kv, locks: map<Prefix, nat>)
    requires LocksOk(kv, locks)
    ensures Evictable(kv) == set p | p in locks && locks[p] == 0
  {
    forall p | p in kv.cached ensures Users(kv, p) == {} <==> locks[p] == 0 {
      if Users(kv, p) == {} { assert |Users(kv, p)| == 0; }
    }
  }

  lemma NothingEvicted(kv: Kv)
    requires KvOk(kv)
    ensures EvictedFrom(kv, kv)
  {
  }

  lemma CardOfMaps(a: map<Prefix, nat>, b: map<Prefix, nat>)
    requires a.Keys == b.Keys
    ensures |a| == |b|
  {
    assert |a| == |a.Keys| && |b| == |b.Keys|;
  }

  lemma UnlockedIs(sh: Shape)
    requires TreeOk(sh)
    ensures Unlocked(sh) == set p | p in Locks(sh) && Locks(sh)[p] == 0
  {
  }

  /** With locks counting users, no node is locked more than its parent. */
  lemma NestFromUsers(sh: Shape, kv: Kv, locks: map<Prefix, nat>)
    requires TreeOk(sh) && kv.cached == Cached(sh) && locks == Locks(sh) && LocksOk(kv, locks)
    ensures LocksNest(sh)
  {
    hide LocksOk;
    forall n | IsNode(sh, n) && IsNode(sh, sh.nodes[n].parent)
      ensures sh.nodes[n].lock <= sh.nodes[sh.nodes[n].parent].lock
    {
      var par := sh.nodes[n].parent;
      PathCovered(sh, n);
      PathCovered(sh, par);
      ChildAbove(sh, n);
      LockOfHome(sh, sh.path[n]);
      LockOfHome(sh, sh.path[par]);
      UsersNest(kv, sh.path[par], sh.path[n]);
      CountOfUsers(kv, locks, sh.path[n]);
      CountOfUsers(kv, locks, sh.path[par]);
    }
  }

  lemma CountOfUsers(kv: Kv, locks: map<Prefix, nat>, p: Prefix)
    requires LocksOk(kv, locks) && p in kv.cached
    ensures p in locks && locks[p] == |Users(kv, p)|
  {
  }

  lemma SparedView(sh: Shape, sh': Shape, kv: Kv, kv': Kv, locks: map<Prefix, nat>)
    requires TreeOk(sh) && TreeOk(sh') && Spares(sh, sh')
    requires kv.cached == Cached(sh) && kv' == kv.(cached := Cached(sh')) && locks == Locks(sh) && LocksOk(kv, locks)
    ensures EvictedFrom(kv, kv')
    ensures forall p :: p in kv'.cached ==> p in kv.cached && Locks(sh')[p] == locks[p]
  {
    forall p | p in kv'.cached ensures Whole(kv'.cached, p) {
      forall i | 0 < i <= |p| ensures p[..i] in sh'.home { AllPrefixes(sh', p, i); }
    }
    hide TreeOk, Cached, Locks;
    forall p | p in kv.cached && p !in kv'.cached ensures p in Evictable(kv) {
      assert locks[p] == 0;
    }
  }

  lemma EvictedCounts(kv: Kv, kv': Kv, refs: seq<nat>, refs': seq<nat>, l0: map<Prefix, nat>, l1: map<Prefix, nat>)
    requires KvOk(kv) && EvictedFrom(kv, kv') && RefsOk(kv, refs) && LocksOk(kv, l0)
    requires LostHolders(refs, refs', kv.cached.Values, kv'.cached.Values)
    requires kv'.cached.Values <= kv.cached.Values
    requires l1.Keys == kv'.cached.Keys && forall p :: p in kv'.cached ==> p in kv.cached && l1[p] == l0[p]
    ensures KvOk(kv') && RefsOk(kv', refs') && LocksOk(kv', l1)
  {
    EvictedOk(kv, kv');
    hide KvOk;
    forall b: nat | b < kv.numBlocks
      ensures refs'[b] == |Holders(kv', b)| + if b in kv'.cached.Values then 1 else 0
    {
      assert Holders(kv', b) == Holders(kv, b);
    }
    forall p | p in kv'.cached ensures l1[p] == |Users(kv', p)| {
      assert Users(kv', p) == Users(kv, p);
    }
  }

  /** A live request's node is locked, so an eviction leaves it in place. */
  lemma SparedHandles(sh: Shape, sh': Shape, kv: Kv, locks: map<Prefix, nat>, nodeOf: map<nat, nat>)
    requires TreeOk(sh) && TreeOk(sh') && Spares(sh, sh') && kv.cached == Cached(sh)
    requires locks == Locks(sh) && LocksOk(kv, locks) && HandlesOk(sh.path, kv.held, nodeOf)
    ensures HandlesOk(sh'.path, kv.held, nodeOf)
  {
    SameKeys(sh);
    SameKeys(sh');
    forall r | r in kv.held ensures nodeOf[r] in sh'.path && sh'.path[nodeOf[r]] == kv.held[r].path {
      var n := nodeOf[r];
      if n != ROOT {
        PathCovered(sh, n);
        LockOfHome(sh, sh.path[n]);
        assert r in Users(kv, sh.path[n]);
      }
      assert SameNode(sh, sh', n);
    }
  }
}

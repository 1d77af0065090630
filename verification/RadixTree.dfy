/** The prefix cache: the radix tree with its allocator, its lock counts, its clock and, in the C++
    form (`indexed`), its ordered eviction index. With `indexed` off this is the Python tree, which
    collects eviction candidates by a full walk. */
module RadixTrees {
  import opened Common
  import opened BlockPool
  import opened TreeShape
  import opened EvictionOrder

  ghost predicate Injective(m: map<Prefix, nat>) {
    forall p, q :: p in m && q in m && m[p] == m[q] ==> p == q
  }

  ghost predicate UidsOk(nodes: map<nat, Node>, nextUid: nat, clock: nat) {
    forall n :: n in nodes ==> n < nextUid && nodes[n].lastAccess <= clock
  }

  /** The index holds exactly the evictable leaves, under their current access times. */
  ghost predicate IndexOk(nodes: map<nat, Node>, index: set<Key>) {
    forall t: nat, n: nat :: (t, n) in index <==> EvictableNode(nodes, n) && nodes[n].lastAccess == t
  }

  /** The same, but the entries of the nodes in `open` may be missing. */
  ghost predicate IndexOkBut(nodes: map<nat, Node>, index: set<Key>, open: set<nat>) {
    && (forall t: nat, n: nat :: n !in open ==>
          ((t, n) in index <==> EvictableNode(nodes, n) && nodes[n].lastAccess == t))
    && (forall t: nat, n: nat :: n in open && (t, n) in index ==> n in nodes && t == nodes[n].lastAccess)
  }

  /** Every old node is still there and spells the same prefix: a held handle survives. */
  ghost predicate HandlesKept(old_: map<nat, Prefix>, new_: map<nat, Prefix>) {
    forall n :: n in old_ ==> n in new_ && new_[n] == old_[n]
  }

  ghost predicate OnPath(sh: Shape, n: nat, p: Prefix) {
    IsNode(sh, n) && n in sh.path && sh.path[n] <= p
  }

  lemma SplitKeepsIndex(sh: Shape, n: nat, m: nat, u: nat, index: set<Key>)
    requires TreeOk(sh) && IsNode(sh, n) && 0 < m < |sh.nodes[n].blocks| && u !in sh.nodes
    requires IndexOk(sh.nodes, index)
    ensures IndexOk(SplitShape(sh, n, m, u).nodes, index)
  {
    assert NodeOk(sh, n);
    var nodes' := SplitShape(sh, n, m, u).nodes;
    hide TreeOk;
    forall x ensures EvictableNode(nodes', x) <==> EvictableNode(sh.nodes, x) {
      var par := sh.nodes[n].parent;
      assert sh.nodes[n].tokens[0] in sh.nodes[par].children && sh.nodes[n].tokens[0] in nodes'[par].children;
      assert sh.nodes[n].tokens[m] in nodes'[u].children;
    }
  }

  lemma SplitKeepsRecency(sh: Shape, n: nat, m: nat, u: nat)
    requires TreeOk(sh) && IsNode(sh, n) && 0 < m < |sh.nodes[n].blocks| && u !in sh.nodes
    requires RecencyNests(sh) && u != ROOT
    ensures RecencyNests(SplitShape(sh, n, m, u))
  {
    assert NodeOk(sh, n);
    var sh' := SplitShape(sh, n, m, u);
    forall x | IsNode(sh', x) && IsNode(sh', sh'.nodes[x].parent)
      ensures sh'.nodes[x].lastAccess <= sh'.nodes[sh'.nodes[x].parent].lastAccess
    {
      if x != u { assert NodeOk(sh, x); }
    }
  }

  /** Equal prefixes and equal lock counts leave both totals as they were. */
  lemma SameTotals(a: Shape, b: Shape)
    requires TreeOk(a) && TreeOk(b) && Locks(a) == Locks(b)
    ensures |a.home| == |b.home| && Unlocked(a) == Unlocked(b)
  {
    hide TreeOk;
    assert a.home.Keys == b.home.Keys;
    assert |a.home| == |a.home.Keys| && |b.home| == |b.home.Keys|;
  }

  /** `pos` is the length of the longest cached prefix of `key`. */
  ghost predicate LongestAt(sh: Shape, key: Prefix, pos: nat) {
    && pos <= |key|
    && (pos == 0 || key[..pos] in sh.home)
    && forall p :: p in sh.home && p <= key ==> |p| <= pos
  }

  /** The nodes on the path to `p` carry time `t`; every other node kept the time it had. */
  ghost predicate Stamped(a: Shape, b: Shape, p: Prefix, t: nat) {
    forall n :: IsNode(b, n) && n in b.path ==>
      if b.path[n] <= p then b.nodes[n].lastAccess == t
      else n in a.nodes ==> b.nodes[n].lastAccess == a.nodes[n].lastAccess
  }

  /** Nothing but lock counts differs. */
  ghost predicate OnlyLocks(a: Shape, b: Shape) {
    && b.path == a.path && b.home == a.home && b.nodes.Keys == a.nodes.Keys
    && forall n :: n in a.nodes ==> b.nodes[n] == a.nodes[n].(lock := b.nodes[n].lock)
  }

  lemma LocksSelf(a: Shape)
    ensures OnlyLocks(a, a)
  {
  }

  lemma LocksFurther(a: Shape, b: Shape, c: Shape)
    requires OnlyLocks(a, b) && OnlyLocks(b, c)
    ensures OnlyLocks(a, c)
  {
  }

  lemma OneLock(a: Shape, b: Shape, n: nat, l: nat)
    requires OnlyLocks(a, b) && n in b.nodes
    ensures OnlyLocks(a, SetLock(b, n, l))
  {
  }

  /** Lock counts aside, the nodes on the path keep their time. */
  lemma LocksKeepStamps(a: Shape, b: Shape, c: Shape, p: Prefix, t: nat)
    requires Stamped(a, b, p, t) && OnlyLocks(b, c)
    ensures Stamped(a, c, p, t)
  {
  }

  /** The new leaf has the time of its path, and is the end of it. */
  lemma LeafStamps(a: Shape, sh: Shape, par: nat, toks: Prefix, blocks: seq<nat>, u: nat, t: nat, key: Prefix)
    requires TreeOk(sh) && par in sh.nodes && par in sh.path && |toks| > 0 && toks[0] !in sh.nodes[par].children
    requires Stamped(a, sh, sh.path[par], t) && a.path.Keys == a.nodes.Keys && HandlesKept(a.path, sh.path)
    requires u !in sh.nodes && key == sh.path[par] + toks
    ensures Stamped(a, LeafShape(sh, par, toks, blocks, u, t), key, t)
  {
    var c := LeafShape(sh, par, toks, blocks, u, t);
    RootFacts(sh);
    forall n | IsNode(c, n) && n in c.path
      ensures if c.path[n] <= key then c.nodes[n].lastAccess == t
              else n in a.nodes ==> c.nodes[n].lastAccess == a.nodes[n].lastAccess
    {
      if n != u {
        NotBelow(sh, par, toks, n);
        BelowIsPrefix(sh.path[n], sh.path[par], key);
      }
    }
  }

  /** Nothing is cached where a new leaf goes. */
  lemma NotBelow(sh: Shape, par: nat, toks: Prefix, n: nat)
    requires TreeOk(sh) && par in sh.nodes && par in sh.path && |toks| > 0 && toks[0] !in sh.nodes[par].children
    requires IsNode(sh, n) && n in sh.path
    ensures sh.path[n] <= sh.path[par] + toks ==> |sh.path[n]| <= |sh.path[par]|
  {
    NewPrefixesAreNew(sh, par, toks);
    PathCovered(sh, n);
  }

  lemma BelowIsPrefix(p: Prefix, q: Prefix, key: Prefix)
    requires q <= key
    ensures p <= key && |p| <= |q| ==> p <= q
    ensures p <= q ==> p <= key
  {
  }

  lemma RootFacts(sh: Shape)
    requires TreeOk(sh)
    ensures sh.nodes.Keys == sh.path.Keys
    ensures ROOT in sh.nodes && ROOT in sh.path && sh.path[ROOT] == []
  {
  }

  lemma ChildFacts(sh: Shape, n: nat, c: Chunk)
    requires TreeOk(sh) && n in sh.nodes && c in sh.nodes[n].children
    ensures var m := sh.nodes[n].children[c];
      && IsNode(sh, m) && m in sh.path && n in sh.path && sh.nodes[m].parent == n
      && |sh.nodes[m].tokens| == |sh.nodes[m].blocks| > 0 && sh.nodes[m].tokens[0] == c
      && sh.path[m] == sh.path[n] + sh.nodes[m].tokens
  {
    assert ChildOk(sh, n, c);
    assert NodeOk(sh, sh.nodes[n].children[c]);
  }

  lemma StopHere(sh: Shape, key: Prefix, pos: nat)
    requires TreeOk(sh) && pos <= |key| && (pos == 0 || key[..pos] in sh.home)
    requires pos == |key| || key[..pos + 1] !in sh.home
    ensures LongestAt(sh, key, pos)
  {
    forall p | p in sh.home && p <= key ensures |p| <= pos {
      if |p| > pos {
        assert p[..pos + 1] == key[..pos + 1];
        AllPrefixes(sh, p, pos + 1);
      }
    }
  }

  /** A match that ends inside an edge cannot be continued anywhere else. */
  lemma MidEdge(sh: Shape, child: nat, key: Prefix, pos: nat, m: nat)
    requires TreeOk(sh) && IsNode(sh, child) && child in sh.path
    requires 0 < m < |sh.nodes[child].tokens| && pos + m <= |key|
    requires sh.nodes[child].parent in sh.path && |Above(sh, child)| == pos
    requires sh.path[child] == key[..pos] + sh.nodes[child].tokens
    requires key[..pos + m] == key[..pos] + sh.nodes[child].tokens[..m]
    requires pos + m < |key| ==> sh.nodes[child].tokens[m] != key[pos + m]
    ensures key[..pos + m] in sh.home
    ensures pos + m < |key| ==> key[..pos + m + 1] !in sh.home
  {
    var q := key[..pos + m];
    assert Covers(sh, child, q);
    if pos + m < |key| && key[..pos + m + 1] in sh.home {
      var p := key[..pos + m + 1];
      var h := sh.home[p];
      assert Covers(sh, h, p) && NodeOk(sh, h);
      assert p[..pos + m] == q;
      assert Covers(sh, h, q) || |Above(sh, h)| >= |q|;
      if |Above(sh, h)| >= |q| {
        assert Above(sh, h) == q;
        PathCovered(sh, sh.nodes[h].parent);
      }
    }
  }

  lemma StampedStart(sh: Shape, t: nat)
    requires TreeOk(sh)
    ensures Stamped(sh, sh, [], t)
  {
    forall n | IsNode(sh, n) && n in sh.path && sh.path[n] <= [] ensures false {
      PathCovered(sh, n);
    }
  }

  lemma TickKeeps(nodes: map<nat, Node>, nextUid: nat, clock: nat)
    requires UidsOk(nodes, nextUid, clock)
    ensures UidsOk(nodes, nextUid, clock + 1)
  {
  }

  lemma FreshUid(nodes: map<nat, Node>, nextUid: nat, clock: nat)
    requires UidsOk(nodes, nextUid, clock)
    ensures nextUid !in nodes
    ensures ROOT in nodes ==> nextUid != ROOT
  {
  }

  lemma SplitUids(sh: Shape, n: nat, m: nat, u: nat, clock: nat)
    requires TreeOk(sh) && IsNode(sh, n) && 0 < m < |sh.nodes[n].blocks|
    requires UidsOk(sh.nodes, u, clock)
    ensures UidsOk(SplitShape(sh, n, m, u).nodes, u + 1, clock)
  {
    assert NodeOk(sh, n);
  }

  lemma SplitValid(sh: Shape, n: nat, m: nat, u: nat, clock: nat, indexed: bool, index: set<Key>)
    requires TreeOk(sh) && IsNode(sh, n) && 0 < m < |sh.nodes[n].blocks|
    requires Injective(Cached(sh)) && UidsOk(sh.nodes, u, clock) && RecencyNests(sh)
    requires if indexed then IndexOk(sh.nodes, index) else index == {}
    ensures u !in sh.nodes && sh.nodes[n].parent in sh.nodes && |sh.nodes[n].tokens| == |sh.nodes[n].blocks|
    ensures var sh' := SplitShape(sh, n, m, u);
      && sh'.nodes == SplitNodes(sh.nodes, n, m, u)
      && TreeOk(sh') && Injective(Cached(sh')) && UidsOk(sh'.nodes, u + 1, clock) && RecencyNests(sh')
      && |sh'.home| == |sh.home| && Unlocked(sh') == Unlocked(sh)
      && (if indexed then IndexOk(sh'.nodes, index) else index == {})
  {
    RootFacts(sh);
    FreshUid(sh.nodes, u, clock);
    NotOwnParent(sh, n);
    SplitKeeps(sh, n, m, u);
    SplitKeepsRecency(sh, n, m, u);
    if indexed { SplitKeepsIndex(sh, n, m, u, index); }
    SplitUids(sh, n, m, u, clock);
    hide TreeOk, Injective, UidsOk, RecencyNests, IndexOk, Unlocked, Cached, Locks, SplitShape;
    SameTotals(sh, SplitShape(sh, n, m, u));
  }

  lemma SplitKeepsStamps(a: Shape, sh: Shape, n: nat, m: nat, u: nat, p: Prefix, t: nat)
    requires TreeOk(sh) && IsNode(sh, n) && 0 < m < |sh.nodes[n].blocks| && u !in sh.nodes
    requires a.path.Keys == a.nodes.Keys && HandlesKept(a.path, sh.path) && Stamped(a, sh, p, t)
    requires sh.nodes[n].parent in sh.path && Above(sh, n) == p
    ensures var sh' := SplitShape(sh, n, m, u);
      && HandlesKept(sh.path, sh'.path) && Stamped(a, sh', p, t)
      && IsNode(sh', u) && u in sh'.path && sh'.nodes[u].parent == sh.nodes[n].parent
      && sh'.nodes[u].parent in sh'.path && Above(sh', u) == p
  {
    var sh' := SplitShape(sh, n, m, u);
    assert NodeOk(sh, n);
    RootFacts(sh);
    hide TreeOk;
    assert u !in a.nodes;
    forall x | IsNode(sh', x) && x in sh'.path
      ensures if sh'.path[x] <= p then sh'.nodes[x].lastAccess == t
              else x in a.nodes ==> sh'.nodes[x].lastAccess == a.nodes[x].lastAccess
    {
      if x == u {
        assert |sh'.path[u]| > |p|;
      } else {
        assert sh'.nodes[x].lastAccess == sh.nodes[x].lastAccess && sh'.path[x] == sh.path[x];
      }
    }
  }

  lemma KeptSelf(a: map<nat, Prefix>)
    ensures HandlesKept(a, a)
  {
  }

  lemma ChildAbove(sh: Shape, n: nat)
    requires TreeOk(sh) && IsNode(sh, n)
    ensures sh.nodes[n].parent in sh.path && n in sh.path
    ensures sh.path[n] == Above(sh, n) + sh.nodes[n].tokens
  {
    assert NodeOk(sh, n);
  }

  /** From the end of `held` up to, but not including, node `n`, every lock count changed by `d`. */
  ghost predicate LockedBelow(a: Shape, b: Shape, n: nat, d: int, held: Prefix)
    requires TreeOk(a) && TreeOk(b)
  {
    && Cached(b) == Cached(a) && OnlyLocks(a, b) && n in b.nodes && n in b.path && b.path[n] <= held
    && forall p :: p in a.home ==>
         Locks(b)[p] == Locks(a)[p] + if p <= held && |b.path[n]| < |p| then d else 0
  }

  lemma LocksFrom(sh: Shape, n: nat, d: int)
    requires TreeOk(sh) && n in sh.path
    ensures LockedBelow(sh, sh, n, d, sh.path[n])
  {
    hide TreeOk, Cached, Locks;
    RootFacts(sh);
    LocksSelf(sh);
    forall p | p in sh.home && p <= sh.path[n] ensures |p| <= |sh.path[n]| {}
  }

  /** One more node on the way up has its lock count changed by `d`. */
  lemma OneNodeUp(a: Shape, b: Shape, n: nat, d: int, held: Prefix)
    requires TreeOk(a) && TreeOk(b) && IsNode(b, n) && b.nodes[n].lock + d >= 0 && LockedBelow(a, b, n, d, held)
    ensures n in b.path && b.nodes[n].parent in b.path && b.nodes[n].parent in b.nodes && |Above(b, n)| < |b.path[n]|
    ensures var c := SetLock(b, n, b.nodes[n].lock + d);
      TreeOk(c) && LockedBelow(a, c, b.nodes[n].parent, d, held)
  {
    hide TreeOk, Cached, Locks, OnlyLocks;
    SetLockTree(b, n, b.nodes[n].lock + d);
    OneLock(a, b, n, b.nodes[n].lock + d);
    PathCovered(b, n);
    ChildAbove(b, n);
    assert b.home.Keys == a.home.Keys;
    forall p | p in b.home
      ensures b.home[p] in b.nodes
      ensures b.home[p] == n <==> p <= held && |Above(b, n)| < |p| <= |b.path[n]|
      ensures Locks(b)[p] == b.nodes[b.home[p]].lock
    {
      EdgeOfPath(b, n, p, held);
      LockOfHome(b, p);
    }
  }

  lemma LockedWhole(a: Shape, b: Shape, d: int, held: Prefix)
    requires TreeOk(a) && TreeOk(b) && LockedBelow(a, b, ROOT, d, held)
    ensures Cached(b) == Cached(a) && OnlyLocks(a, b) && b.home.Keys == a.home.Keys
    ensures forall p :: p in b.home ==> Locks(b)[p] == Locks(a)[p] + if p <= held then d else 0
  {
    hide TreeOk, Cached, Locks, OnlyLocks;
    RootFacts(b);
    NoneEmpty(b);
  }

  lemma NotLocked(a: Shape, b: Shape, n: nat, d: int, held: Prefix)
    requires TreeOk(a) && TreeOk(b) && IsNode(b, n) && LockedBelow(a, b, n, d, held) && b.nodes[n].lock == 0
    ensures n in b.path && b.path[n] in b.home && b.path[n] in a.home && b.path[n] <= held && Locks(a)[b.path[n]] == 0
    ensures Cached(b) == Cached(a) && OnlyLocks(a, b)
  {
    hide TreeOk, Cached, Locks, OnlyLocks;
    PathCovered(b, n);
    LockOfHome(b, b.path[n]);
    assert b.home.Keys == a.home.Keys;
  }

  lemma NoneEmpty(sh: Shape)
    requires TreeOk(sh)
    ensures forall p :: p in sh.home ==> |p| > 0
  {
    forall p | p in sh.home ensures |p| > 0 { LockOfHome(sh, p); }
  }

  lemma KeptFurther(a: map<nat, Prefix>, b: map<nat, Prefix>, c: map<nat, Prefix>)
    requires HandlesKept(a, b) && HandlesKept(b, c)
    ensures HandlesKept(a, c)
  {
  }

  ghost function TouchShape(sh: Shape, n: nat, t: nat): Shape
    requires n in sh.nodes
  {
    sh.(nodes := sh.nodes[n := sh.nodes[n].(lastAccess := t)])
  }

  lemma TouchKeepsTree(sh: Shape, n: nat, t: nat)
    requires TreeOk(sh) && n in sh.nodes
    ensures var c := TouchShape(sh, n, t);
      TreeOk(c) && Cached(c) == Cached(sh) && Locks(c) == Locks(sh) && Unlocked(c) == Unlocked(sh)
  {
    var c := TouchShape(sh, n, t);
    SameTreeOk(sh, c);
    assert forall p :: p in sh.home ==> Locks(c)[p] == Locks(sh)[p];
  }

  lemma TouchKeepsRecency(a: Shape, sh: Shape, n: nat, p: Prefix, t: nat, nextUid: nat)
    requires TreeOk(sh) && IsNode(sh, n) && RecencyNests(sh) && UidsOk(sh.nodes, nextUid, t)
    requires sh.nodes[n].parent in sh.path && Above(sh, n) == p && Stamped(a, sh, p, t)
    ensures RecencyNests(TouchShape(sh, n, t)) && UidsOk(TouchShape(sh, n, t).nodes, nextUid, t)
  {
    var c, par := TouchShape(sh, n, t), sh.nodes[n].parent;
    NotOwnParent(sh, n);
    hide TreeOk;
    assert par == ROOT || sh.nodes[par].lastAccess == t;
  }

  lemma TouchKeepsStamps(a: Shape, sh: Shape, n: nat, p: Prefix, t: nat)
    requires TreeOk(sh) && IsNode(sh, n) && n in sh.path && Stamped(a, sh, p, t)
    requires sh.nodes[n].parent in sh.path && Above(sh, n) == p
    ensures Stamped(a, TouchShape(sh, n, t), sh.path[n], t)
  {
    var c := TouchShape(sh, n, t);
    assert NodeOk(sh, n);
    hide TreeOk;
    forall x | IsNode(c, x) && x in c.path
      ensures if c.path[x] <= c.path[n] then c.nodes[x].lastAccess == t
              else x in a.nodes ==> c.nodes[x].lastAccess == a.nodes[x].lastAccess
    {
      if c.path[x] <= c.path[n] {
        if |c.path[x]| > |p| { EdgeUnique(sh, n, x); } else { assert c.path[x] <= p; }
      } else {
        assert !(c.path[x] <= p);
      }
    }
  }

  lemma LockOfHome(sh: Shape, p: Prefix)
    requires TreeOk(sh) && p in sh.home
    ensures |p| > 0 && IsNode(sh, sh.home[p]) && Locks(sh)[p] == sh.nodes[sh.home[p]].lock
  {
    assert Covers(sh, sh.home[p], p);
  }

  /** A lock count has no part in the order of the tree. */
  lemma SetLockOrder(sh: Shape, n: nat, l: nat, nextUid: nat, clock: nat)
    requires n in sh.nodes
    ensures var c := SetLock(sh, n, l);
      && (RecencyNests(sh) ==> RecencyNests(c))
      && (UidsOk(sh.nodes, nextUid, clock) ==> UidsOk(c.nodes, nextUid, clock))
  {
  }

  /** The blocks offered for the uncached part of `key` belong to the caller alone. */
  ghost predicate OwnSuffix(cached: map<Prefix, nat>, key: Prefix, blocks: seq<nat>, refs: seq<nat>)
    requires |key| == |blocks|
  {
    forall p :: p != [] && p <= key && p !in cached ==>
      blocks[|p| - 1] < |refs| && refs[blocks[|p| - 1]] > 0 && blocks[|p| - 1] !in cached.Values
  }

  /** The first `m` prefixes of `key` are cached, the longer ones are not. */
  ghost predicate CachedUpTo(cached: map<Prefix, nat>, key: Prefix, m: nat) {
    forall p :: p != [] && p <= key ==> (p in cached <==> |p| <= m)
  }

  /** The map after an insertion: the old prefixes as they were, and every missing prefix of `key`
      with its block and no lock. */
  ghost predicate Inserted(c0: map<Prefix, nat>, l0: map<Prefix, nat>, c1: map<Prefix, nat>, l1: map<Prefix, nat>,
                           key: Prefix, blocks: seq<nat>)
  {
    && (forall p :: p in c1 <==> p in c0 || (p <= key && p != []))
    && (forall p :: p in c0 ==> p in c1 && p in l0 && p in l1 && c1[p] == c0[p] && l1[p] == l0[p])
    && (forall p :: p in c1 && p !in c0 ==>
          0 < |p| <= |blocks| && p <= key && p in l1 && c1[p] == blocks[|p| - 1] && l1[p] == 0)
  }

  /** Each block that joined the tree has one holder more. */
  ghost predicate NewHolders(refs0: seq<nat>, refs1: seq<nat>, v0: set<nat>, v1: set<nat>) {
    && |refs1| == |refs0|
    && forall b :: 0 <= b < |refs0| ==> refs1[b] == refs0[b] + if b in v1 && b !in v0 then 1 else 0
  }

  lemma LeafValid(sh: Shape, par: nat, toks: Prefix, blocks: seq<nat>, u: nat, clock: nat)
    requires TreeOk(sh) && par in sh.nodes && |toks| == |blocks| > 0 && toks[0] !in sh.nodes[par].children
    requires Injective(Cached(sh)) && UidsOk(sh.nodes, u, clock) && RecencyNests(sh)
    requires Distinct(blocks) && forall b :: b in blocks ==> b !in Cached(sh).Values
    requires par == ROOT || sh.nodes[par].lastAccess == clock
    ensures u !in sh.nodes && par in sh.path
    ensures var c := LeafShape(sh, par, toks, blocks, u, clock);
      && par in c.nodes && u in c.nodes
      && c.nodes == LeafNodes(sh.nodes, par, toks, blocks, u, clock)
      && TreeOk(c) && UidsOk(c.nodes, u + 1, clock) && RecencyNests(c) && Injective(Cached(c))
      && |c.home| == |sh.home| + |blocks| && |Unlocked(c)| == |Unlocked(sh)| + |blocks|
  {
    RootFacts(sh);
    FreshUid(sh.nodes, u, clock);
    LeafAdds(sh, par, toks, blocks, u, clock);
    LeafOrder(sh, par, toks, blocks, u, clock);
    LeafInjective(sh, par, toks, blocks, u, clock);
    LeafTotals(sh, par, toks, blocks, u, clock);
  }

  lemma LeafOrder(sh: Shape, par: nat, toks: Prefix, blocks: seq<nat>, u: nat, clock: nat)
    requires TreeOk(sh) && par in sh.nodes && |toks| == |blocks| > 0 && u !in sh.nodes
    requires UidsOk(sh.nodes, u, clock) && RecencyNests(sh)
    requires par == ROOT || sh.nodes[par].lastAccess == clock
    ensures par in sh.path
    ensures UidsOk(LeafShape(sh, par, toks, blocks, u, clock).nodes, u + 1, clock)
    ensures RecencyNests(LeafShape(sh, par, toks, blocks, u, clock))
  {
    RootFacts(sh);
    var c := LeafShape(sh, par, toks, blocks, u, clock);
    forall x | IsNode(c, x) && IsNode(c, c.nodes[x].parent)
      ensures c.nodes[x].lastAccess <= c.nodes[c.nodes[x].parent].lastAccess
    {
      if x != u { assert NodeOk(sh, x); }
    }
  }

  lemma LeafInjective(sh: Shape, par: nat, toks: Prefix, blocks: seq<nat>, u: nat, clock: nat)
    requires TreeOk(sh) && par in sh.nodes && |toks| == |blocks| > 0 && toks[0] !in sh.nodes[par].children
    requires u !in sh.nodes && Injective(Cached(sh))
    requires Distinct(blocks) && forall b :: b in blocks ==> b !in Cached(sh).Values
    ensures par in sh.path && TreeOk(LeafShape(sh, par, toks, blocks, u, clock))
    ensures Injective(Cached(LeafShape(sh, par, toks, blocks, u, clock)))
  {
    RootFacts(sh);
    LeafAdds(sh, par, toks, blocks, u, clock);
    hide TreeOk, Cached, Locks, LeafShape;
    var c0, c := Cached(sh), Cached(LeafShape(sh, par, toks, blocks, u, clock));
    forall p, q | p in c && q in c && c[p] == c[q] ensures p == q {
      assert p in c0 ==> c0[p] in c0.Values;
      assert q in c0 ==> c0[q] in c0.Values;
    }
  }

  lemma GrowTotals(a: Shape, b: Shape, added: set<Prefix>)
    requires TreeOk(a) && TreeOk(b)
    requires b.home.Keys == a.home.Keys + added && a.home.Keys !! added
    requires forall p :: p in a.home ==> Locks(b)[p] == Locks(a)[p]
    requires forall p :: p in added ==> Locks(b)[p] == 0
    ensures |b.home| == |a.home| + |added| && |Unlocked(b)| == |Unlocked(a)| + |added|
  {
    hide TreeOk, Locks;
    assert |b.home| == |b.home.Keys| && |a.home| == |a.home.Keys|;
    assert Unlocked(b) == Unlocked(a) + added;
  }

  lemma LeafTotals(sh: Shape, par: nat, toks: Prefix, blocks: seq<nat>, u: nat, clock: nat)
    requires TreeOk(sh) && par in sh.nodes && |toks| == |blocks| > 0 && toks[0] !in sh.nodes[par].children
    requires u !in sh.nodes
    ensures par in sh.path && TreeOk(LeafShape(sh, par, toks, blocks, u, clock))
    ensures var c := LeafShape(sh, par, toks, blocks, u, clock);
      |c.home| == |sh.home| + |blocks| && |Unlocked(c)| == |Unlocked(sh)| + |blocks|
  {
    RootFacts(sh);
    LeafAdds(sh, par, toks, blocks, u, clock);
    NewPrefixesCount(sh.path[par], toks);
    var c := LeafShape(sh, par, toks, blocks, u, clock);
    GrowTotals(sh, c, NewPrefixes(sh.path[par], toks));
  }

  lemma LeafNodesHas(nodes: map<nat, Node>, par: nat, toks: Prefix, blocks: seq<nat>, u: nat, clock: nat)
    requires par in nodes && |toks| > 0 && u !in nodes
    ensures var nodes' := LeafNodes(nodes, par, toks, blocks, u, clock);
      par in nodes' && u in nodes' && nodes'[par].lastAccess == nodes[par].lastAccess
  {
  }

  lemma LeafIndex(nodes: map<nat, Node>, par: nat, toks: Prefix, blocks: seq<nat>, u: nat, clock: nat, index: set<Key>)
    requires par in nodes && |toks| > 0 && u !in nodes
    requires IndexOk(nodes, index)
    ensures IndexOkBut(LeafNodes(nodes, par, toks, blocks, u, clock), index - {KeyOf(nodes, par)}, {par, u})
  {
    var nodes' := LeafNodes(nodes, par, toks, blocks, u, clock);
    forall x | x != par && x != u ensures EvictableNode(nodes', x) <==> EvictableNode(nodes, x) {
    }
  }

  lemma MatchEnds(sh: Shape, node: nat, key: Prefix, matched: nat)
    requires TreeOk(sh) && LongestAt(sh, key, matched) && node in sh.path && sh.path[node] == key[..matched]
    ensures matched < |key| ==> key[matched] !in sh.nodes[node].children
    ensures CachedUpTo(Cached(sh), key, matched)
  {
    if matched < |key| {
      ChildIff(sh, node, key[matched]);
      assert key[..matched + 1] == key[..matched] + [key[matched]];
    }
    forall p | p != [] && p <= key ensures p in sh.home <==> |p| <= matched {
      if |p| <= matched {
        AllPrefixes(sh, key[..matched], |p|);
        assert key[..matched][..|p|] == p;
      }
    }
  }

  lemma SuffixIsOwn(sh: Shape, key: Prefix, blocks: seq<nat>, matched: nat, refs: seq<nat>)
    requires TreeOk(sh) && matched <= |key| == |blocks| && OwnSuffix(Cached(sh), key, blocks, refs) && Distinct(blocks)
    requires CachedUpTo(Cached(sh), key, matched)
    ensures var own := blocks[matched..];
      && Distinct(own) && IdsOk(|refs|, own)
      && (forall b :: b in own ==> refs[b] > 0 && b !in Cached(sh).Values)
  {
    hide TreeOk, Cached;
    forall b | b in blocks[matched..]
      ensures b < |refs| && refs[b] > 0 && b !in Cached(sh).Values
    {
      var j :| 0 <= j < |blocks[matched..]| && blocks[matched..][j] == b;
      var p := key[..matched + j + 1];
      assert p != [] && p <= key && p !in Cached(sh);
    }
  }

  lemma NothingNew(sh: Shape, key: Prefix, blocks: seq<nat>, refs: seq<nat>)
    requires TreeOk(sh) && |key| == |blocks|
    requires CachedUpTo(Cached(sh), key, |key|)
    ensures Inserted(Cached(sh), Locks(sh), Cached(sh), Locks(sh), key, blocks)
    ensures NewHolders(refs, refs, Cached(sh).Values, Cached(sh).Values)
  {
    hide TreeOk, Cached, Locks;
  }

  lemma OnOwnPath(a: Shape, b: Shape, n: nat, t: nat)
    requires n in b.path && n in b.nodes && Stamped(a, b, b.path[n], t)
    ensures n == ROOT || b.nodes[n].lastAccess == t
  {
  }

  lemma CountOnce(s: seq<nat>, b: nat)
    requires Distinct(s)
    ensures multiset(s)[b] == if b in s then 1 else 0
    decreases |s|
  {
    if s != [] {
      var init, last := s[..|s| - 1], s[|s| - 1];
      assert s == init + [last];
      CountOnce(init, b);
    }
  }

  lemma LeafPath(sh: Shape, par: nat, toks: Prefix, blocks: seq<nat>, u: nat, clock: nat)
    requires par in sh.nodes && par in sh.path && u !in sh.path && |toks| > 0
    ensures var c := LeafShape(sh, par, toks, blocks, u, clock);
      u in c.path && c.path[u] == sh.path[par] + toks && HandlesKept(sh.path, c.path)
  {
  }

  lemma HoldersOf(refs0: seq<nat>, refs1: seq<nat>, own: seq<nat>, v0: set<nat>, v1: set<nat>)
    requires |refs1| == |refs0| && Distinct(own)
    requires forall b: nat :: b in own <==> b in v1 && b !in v0
    requires forall b: nat :: b < |refs0| ==> refs1[b] == refs0[b] + multiset(own)[b]
    ensures NewHolders(refs0, refs1, v0, v1)
  {
    forall b: nat | b < |refs0|
      ensures refs1[b] == refs0[b] + if b in v1 && b !in v0 then 1 else 0
    {
      CountOnce(own, b);
    }
  }

  lemma LeafInserts(sh: Shape, par: nat, key: Prefix, matched: nat, blocks: seq<nat>, u: nat, clock: nat)
    requires TreeOk(sh) && par in sh.nodes && par in sh.path && u !in sh.nodes
    requires matched < |key| == |blocks| && sh.path[par] == key[..matched]
    requires key[matched] !in sh.nodes[par].children
    requires CachedUpTo(Cached(sh), key, matched)
    requires forall b :: b in blocks[matched..] ==> b !in Cached(sh).Values
    ensures var c := LeafShape(sh, par, key[matched..], blocks[matched..], u, clock);
      && TreeOk(c)
      && Inserted(Cached(sh), Locks(sh), Cached(c), Locks(c), key, blocks)
      && (forall b: nat :: b in blocks[matched..] <==> b in Cached(c).Values && b !in Cached(sh).Values)
  {
    hide TreeOk, Cached, Locks, LeafShape, NewPrefixes, Inserted, CachedUpTo;
    var toks, own := key[matched..], blocks[matched..];
    var c := LeafShape(sh, par, toks, own, u, clock);
    LeafAdds(sh, par, toks, own, u, clock);
    LeafMap(Cached(sh), Locks(sh), Cached(c), Locks(c), key, matched, blocks);
  }

  lemma LeafMap(c0: map<Prefix, nat>, l0: map<Prefix, nat>, c1: map<Prefix, nat>, l1: map<Prefix, nat>,
                key: Prefix, matched: nat, blocks: seq<nat>)
    requires matched < |key| == |blocks| && c0.Keys == l0.Keys && c1.Keys == l1.Keys
    requires CachedUpTo(c0, key, matched)
    requires c1.Keys == c0.Keys + NewPrefixes(key[..matched], key[matched..])
    requires forall p :: p in c0 ==> c1[p] == c0[p] && l1[p] == l0[p]
    requires forall p :: p in NewPrefixes(key[..matched], key[matched..]) ==>
      p !in c0 && c1[p] == blocks[matched..][|p| - 1 - matched] && l1[p] == 0
    requires forall b :: b in blocks[matched..] ==> b !in c0.Values
    ensures Inserted(c0, l0, c1, l1, key, blocks)
    ensures forall b: nat :: b in blocks[matched..] <==> b in c1.Values && b !in c0.Values
  {
    var added := NewPrefixes(key[..matched], key[matched..]);
    assert key[..matched] + key[matched..] == key;
    forall b: nat ensures b in blocks[matched..] <==> b in c1.Values && b !in c0.Values {
      if b in blocks[matched..] {
        var j :| 0 <= j < |blocks[matched..]| && blocks[matched..][j] == b;
        assert key[..matched + j + 1] in added && c1[key[..matched + j + 1]] == b;
      }
      if b in c1.Values && b !in c0.Values {
        var p :| p in c1 && c1[p] == b;
        if p in c0 { InValues(c0, p); }
      }
    }
  }

  /** Each block that left the tree has one holder less. */
  ghost predicate LostHolders(refs0: seq<nat>, refs1: seq<nat>, v0: set<nat>, v1: set<nat>) {
    && |refs1| == |refs0|
    && forall b: nat :: b < |refs0| ==> refs1[b] + (if b in v0 && b !in v1 then 1 else 0) == refs0[b]
  }

  lemma LostTwice(r0: seq<nat>, r1: seq<nat>, r2: seq<nat>, v0: set<nat>, v1: set<nat>, v2: set<nat>)
    requires LostHolders(r0, r1, v0, v1) && LostHolders(r1, r2, v1, v2) && v2 <= v1 <= v0
    ensures LostHolders(r0, r2, v0, v2)
  {
  }

  /** What removing a leaf means for the cached map: its values lose exactly the leaf's blocks. */
  lemma RemoveValues(sh: Shape, n: nat)
    requires TreeOk(sh) && EvictableNode(sh.nodes, n) && Injective(Cached(sh))
    ensures TreeOk(RemoveShape(sh, n)) && Injective(Cached(RemoveShape(sh, n)))
    ensures Cached(RemoveShape(sh, n)).Values <= Cached(sh).Values
    ensures Distinct(sh.nodes[n].blocks)
    ensures forall b :: b in sh.nodes[n].blocks <==> b in Cached(sh).Values && b !in Cached(RemoveShape(sh, n)).Values
  {
    RemoveForgets(sh, n);
    RootFacts(sh);
    PathCovered(sh, n);
    ChildAbove(sh, n);
    assert NodeOk(sh, n);
    var c0, c1, blocks, up := Cached(sh), Cached(RemoveShape(sh, n)), sh.nodes[n].blocks, |Above(sh, n)|;
    forall i | 0 <= i < |blocks| ensures IsEdgeEntry(c0, c1, sh.path[n], up, blocks, i) { LostEntry(sh, n, i); }
    forall b | b in c0.Values && b !in c1.Values ensures b in blocks { LostBlock(sh, n, b); }
    EdgeLength(sh, n);
    Subset(c0, c1);
    hide TreeOk, Cached, Locks, RemoveShape, IsEdgeEntry;
    EdgeValues(c0, c1, sh.path[n], up, blocks);
  }

  /** Block `i` of the edge belongs to one prefix, which is gone. */
  ghost predicate IsEdgeEntry(c0: map<Prefix, nat>, c1: map<Prefix, nat>, path: Prefix, up: nat, blocks: seq<nat>, i: nat) {
    && up + i < |path| && i < |blocks|
    && path[..up + i + 1] in c0 && path[..up + i + 1] !in c1 && c0[path[..up + i + 1]] == blocks[i]
  }

  lemma LostEntry(sh: Shape, n: nat, i: nat)
    requires TreeOk(sh) && EvictableNode(sh.nodes, n) && n in sh.path && sh.nodes[n].parent in sh.path
    requires TreeOk(RemoveShape(sh, n)) && i < |sh.nodes[n].blocks|
    ensures IsEdgeEntry(Cached(sh), Cached(RemoveShape(sh, n)), sh.path[n], |Above(sh, n)|, sh.nodes[n].blocks, i)
  {
    RemoveForgets(sh, n);
    EdgeLength(sh, n);
    EdgeBlocks(sh, n, |Above(sh, n)| + i);
    hide TreeOk, RemoveShape;
  }

  lemma EdgeLength(sh: Shape, n: nat)
    requires TreeOk(sh) && IsNode(sh, n) && n in sh.path && sh.nodes[n].parent in sh.path
    ensures |sh.path[n]| == |Above(sh, n)| + |sh.nodes[n].blocks|
  {
    assert NodeOk(sh, n);
  }

  lemma Subset(c0: map<Prefix, nat>, c1: map<Prefix, nat>)
    requires forall p :: p in c1 ==> p in c0 && c1[p] == c0[p]
    ensures c1.Values <= c0.Values && (Injective(c0) ==> Injective(c1))
  {
  }

  /** The blocks along an edge: one prefix each, and none of them left. */
  lemma EdgeValues(c0: map<Prefix, nat>, c1: map<Prefix, nat>, path: Prefix, up: nat, blocks: seq<nat>)
    requires up + |blocks| <= |path| && Injective(c0)
    requires forall i {:trigger IsEdgeEntry(c0, c1, path, up, blocks, i)} :: 0 <= i < |blocks| ==> IsEdgeEntry(c0, c1, path, up, blocks, i)
    requires forall p :: p in c1 ==> p in c0 && c1[p] == c0[p]
    ensures Distinct(blocks) && forall b :: b in blocks ==> b in c0.Values && b !in c1.Values
  {
    forall i, j | 0 <= i < j < |blocks| ensures blocks[i] != blocks[j] {
      assert IsEdgeEntry(c0, c1, path, up, blocks, i) && IsEdgeEntry(c0, c1, path, up, blocks, j);
      assert |path[..up + i + 1]| != |path[..up + j + 1]|;
    }
    forall b | b in blocks ensures b in c0.Values && b !in c1.Values {
      var i :| 0 <= i < |blocks| && blocks[i] == b;
      assert IsEdgeEntry(c0, c1, path, up, blocks, i);
      InValues(c0, path[..up + i + 1]);
    }
  }


  lemma NoSuchValue(m: map<Prefix, nat>, p: Prefix, b: nat)
    requires b !in m.Values
    ensures p in m ==> m[p] != b
  {
  }

  lemma LostBlock(sh: Shape, n: nat, b: nat)
    requires TreeOk(sh) && EvictableNode(sh.nodes, n) && n in sh.path && TreeOk(RemoveShape(sh, n))
    requires b in Cached(sh).Values && b !in Cached(RemoveShape(sh, n)).Values
    ensures b in sh.nodes[n].blocks
  {
    RemoveForgets(sh, n);
    var p :| p in Cached(sh) && Cached(sh)[p] == b;
    NoSuchValue(Cached(RemoveShape(sh, n)), p, b);
    EdgeFrom(sh, n, p);
    EdgeBlocks(sh, n, |p| - 1);
  }

  lemma EdgeFrom(sh: Shape, n: nat, p: Prefix)
    requires TreeOk(sh) && IsNode(sh, n) && n in sh.path && p in sh.home && sh.home[p] == n
    ensures sh.nodes[n].parent in sh.path && |Above(sh, n)| < |p| <= |sh.path[n]| && sh.path[n][..|p| - 1 + 1] == p
  {
    assert Covers(sh, n, p);
  }

  lemma RemoveOrder(sh: Shape, n: nat, nextUid: nat, clock: nat)
    requires TreeOk(sh) && EvictableNode(sh.nodes, n)
    ensures var r := RemoveShape(sh, n);
      && (RecencyNests(sh) ==> RecencyNests(r))
      && (UidsOk(sh.nodes, nextUid, clock) ==> UidsOk(r.nodes, nextUid, clock))
      && sh.nodes[n].parent in sh.nodes && sh.nodes[n].parent != n && |sh.nodes[n].tokens| > 0
      && r.nodes == RemoveNodes(sh.nodes, n) && sh.nodes[n].parent in r.nodes
  {
    NotOwnParent(sh, n);
    hide TreeOk;
  }

  lemma RemoveIndex(sh: Shape, n: nat, index: set<Key>)
    requires TreeOk(sh) && EvictableNode(sh.nodes, n) && IndexOk(sh.nodes, index)
    ensures IndexOkBut(RemoveShape(sh, n).nodes, index - {KeyOf(sh.nodes, n)}, {sh.nodes[n].parent})
  {
    NotOwnParent(sh, n);
    hide TreeOk;
  }

  /** The heap after a pop is the heap of the smaller tree, once the parent has had its turn. */
  lemma HeapStep(sh: Shape, n: nat, heap: set<Key>)
    requires TreeOk(sh) && EvictableNode(sh.nodes, n) && IndexOk(sh.nodes, heap)
    ensures var (nodes', par) := (RemoveShape(sh, n).nodes, sh.nodes[n].parent);
      && par in nodes'
      && IndexOk(nodes', heap - {KeyOf(sh.nodes, n)} +
                         if EvictableNode(nodes', par) then {KeyOf(nodes', par)} else {})
  {
    NotOwnParent(sh, n);
    hide TreeOk;
  }

  /** The smallest entry of an exact index is the oldest candidate. */
  lemma SmallestIsOldest(nodes: map<nat, Node>, index: set<Key>, key: Key)
    requires IndexOk(nodes, index) && key in index && forall k :: k in index ==> KeyLe(key, k)
    ensures IsOldest(nodes, key.1) && KeyOf(nodes, key.1) == key
    ensures Candidates(nodes) != {} && Oldest(nodes) == key.1
  {
    assert key == (key.0, key.1);
    forall m | EvictableNode(nodes, m) ensures KeyLe(KeyOf(nodes, key.1), KeyOf(nodes, m)) {
      assert (nodes[m].lastAccess, m) in index;
    }
    assert key.1 in Candidates(nodes);
    OldestIsUnique(nodes, key.1, Oldest(nodes));
  }

  /** One more victim: the eviction's definition, one step unrolled. */
  lemma VictimsStep(sh: Shape, k: int)
    requires TreeOk(sh) && k > 0 && Candidates(sh.nodes) != {}
    ensures var o := Oldest(sh.nodes);
      && EvictableNode(sh.nodes, o) && TreeOk(RemoveShape(sh, o))
      && |RemoveShape(sh, o).nodes| < |sh.nodes|
      && Victims(sh, k) == [o] + Victims(RemoveShape(sh, o), k - |sh.nodes[o].blocks|)
      && Survivors(sh, k) == Survivors(RemoveShape(sh, o), k - |sh.nodes[o].blocks|)
  {
    hide TreeOk;
    assert AfterOldest(sh) == RemoveShape(sh, Oldest(sh.nodes));
  }

  lemma NoMoreVictims(sh: Shape, k: int)
    requires TreeOk(sh) && (k <= 0 || Candidates(sh.nodes) == {})
    ensures Victims(sh, k) == [] && Survivors(sh, k) == sh
  {
  }

  lemma RemoveFacts(sh: Shape, n: nat)
    requires TreeOk(sh) && EvictableNode(sh.nodes, n) && Injective(Cached(sh))
    ensures TreeOk(RemoveShape(sh, n))
    ensures Cached(RemoveShape(sh, n)).Values <= Cached(sh).Values
    ensures Distinct(sh.nodes[n].blocks)
    ensures forall b :: b in sh.nodes[n].blocks <==> b in Cached(sh).Values && b !in Cached(RemoveShape(sh, n)).Values
  {
    hide Injective, Unlocked, TreeOk, Cached, Locks, RemoveShape, Edge;
    RemoveFrees(sh, n);
    RemoveValues(sh, n);
  }

  lemma DetachFacts(sh: Shape, n: nat, nextUid: nat, clock: nat, indexed: bool, index: set<Key>)
    requires TreeOk(sh) && EvictableNode(sh.nodes, n) && Injective(Cached(sh))
    requires UidsOk(sh.nodes, nextUid, clock) && RecencyNests(sh)
    requires if indexed then IndexOk(sh.nodes, index) else index == {}
    ensures sh.nodes[n].parent in sh.nodes && sh.nodes[n].parent != n && |sh.nodes[n].tokens| > 0
    ensures var r := RemoveShape(sh, n);
      && r.nodes == RemoveNodes(sh.nodes, n) && sh.nodes[n].parent in r.nodes
      && TreeOk(r) && Injective(Cached(r)) && UidsOk(r.nodes, nextUid, clock) && RecencyNests(r)
      && |r.home| == |sh.home| - |sh.nodes[n].blocks| && |Unlocked(r)| == |Unlocked(sh)| - |sh.nodes[n].blocks|
      && (if indexed then IndexOkBut(r.nodes, index - {KeyOf(sh.nodes, n)}, {sh.nodes[n].parent}) else index == {})
  {
    hide Injective, UidsOk, RecencyNests, Unlocked, IndexOk, IndexOkBut, TreeOk, Cached, Locks, RemoveShape, RemoveNodes, Edge;
    RemoveFrees(sh, n);
    RemoveValues(sh, n);
    RemoveOrder(sh, n, nextUid, clock);
    if indexed { RemoveIndex(sh, n, index); }
  }

  lemma OwnBlocks(sh: Shape, n: nat, refs: seq<nat>)
    requires TreeOk(sh) && n in sh.nodes && Distinct(sh.nodes[n].blocks)
    requires forall b :: b in sh.nodes[n].blocks ==> b in Cached(sh).Values
    requires forall p :: p in Cached(sh) ==> Cached(sh)[p] < |refs| && refs[Cached(sh)[p]] > 0
    ensures IdsOk(|refs|, sh.nodes[n].blocks) && Droppable(refs, sh.nodes[n].blocks)
  {
    hide TreeOk, Cached;
    forall b | b in sh.nodes[n].blocks
      ensures b < |refs| && multiset(sh.nodes[n].blocks)[b] <= refs[b]
    {
      var p :| p in Cached(sh) && Cached(sh)[p] == b;
      CountOnce(sh.nodes[n].blocks, b);
    }
  }

  lemma LostOnce(refs0: seq<nat>, refs1: seq<nat>, own: seq<nat>, v0: set<nat>, v1: set<nat>)
    requires |refs1| == |refs0| && Distinct(own)
    requires forall b: nat :: b in own <==> b in v0 && b !in v1
    requires forall b: nat :: b < |refs0| ==> refs1[b] + multiset(own)[b] == refs0[b]
    ensures LostHolders(refs0, refs1, v0, v1)
  {
    forall b: nat | b < |refs0|
      ensures refs1[b] + (if b in v0 && b !in v1 then 1 else 0) == refs0[b]
    {
      CountOnce(own, b);
    }
  }

  lemma LostNothing(refs: seq<nat>, v: set<nat>)
    ensures LostHolders(refs, refs, v, v)
  {
  }

  lemma AllChildren(sh: Shape, n: nat)
    requires TreeOk(sh) && n in sh.nodes
    ensures forall m :: m in sh.nodes[n].children.Values <==> IsNode(sh, m) && sh.nodes[m].parent == n
  {
    forall m ensures m in sh.nodes[n].children.Values <==> IsNode(sh, m) && sh.nodes[m].parent == n {
      if m in sh.nodes[n].children.Values {
        var c :| c in sh.nodes[n].children && sh.nodes[n].children[c] == m;
        assert ChildOk(sh, n, c);
      }
      if IsNode(sh, m) && sh.nodes[m].parent == n {
        assert NodeOk(sh, m);
      }
    }
  }

  /** A set closed under taking children reaches every node. */
  lemma {:induction false} SeenAll(sh: Shape, n: nat, seen: set<nat>)
    requires TreeOk(sh) && IsNode(sh, n) && n in sh.path
    requires forall m :: IsNode(sh, m) && (sh.nodes[m].parent == ROOT || sh.nodes[m].parent in seen) ==> m in seen
    ensures n in seen
    decreases |sh.path[n]|
  {
    PathCovered(sh, n);
    RootFacts(sh);
    if sh.nodes[n].parent != ROOT {
      SeenAll(sh, sh.nodes[n].parent, seen);
    }
  }

  lemma EmptyIndex(nodes: map<nat, Node>, index: set<Key>)
    requires IndexOk(nodes, index)
    ensures index == {} <==> Candidates(nodes) == {}
  {
    if index != {} {
      var k :| k in index;
      assert k == (k.0, k.1);
      assert k.1 in Candidates(nodes);
    }
    if Candidates(nodes) != {} {
      var n :| n in Candidates(nodes);
      assert (nodes[n].lastAccess, n) in index;
    }
  }

  lemma {:induction false} SmallestKey(index: set<Key>) returns (key: Key)
    requires index != {}
    ensures key in index && forall k :: k in index ==> KeyLe(key, k)
    decreases |index|
  {
    key :| key in index;
    var rest := index - {key};
    assert rest + {key} == index;
    if rest != {} {
      var other := SmallestKey(rest);
      if KeyLe(other, key) { key := other; }
    }
  }

  class RadixTree {
    const allocator: BlockAllocator
    const indexed: bool
    var nodes: map<nat, Node>
    var clock: nat
    var nextUid: nat
    var numCached: int
    var numEvictable: int
    var index: set<Key>
    ghost var path: map<nat, Prefix>
    ghost var home: map<Prefix, nat>

    ghost function Sh(): Shape
      reads this
    {
      Shape(nodes, path, home)
    }

    ghost predicate Valid()
      reads this
    {
      && TreeOk(Sh())
      && Injective(Cached(Sh()))
      && UidsOk(nodes, nextUid, clock)
      && RecencyNests(Sh())
      && numCached == |home|
      && numEvictable == |Unlocked(Sh())|
      && (if indexed then IndexOk(nodes, index) else index == {})
    }

    /** The tree is a holder of each of its blocks. */
    ghost predicate Backed()
      reads this, allocator
      requires Valid()
    {
      && allocator.Valid()
      && forall p :: p in home ==>
           Cached(Sh())[p] < allocator.numBlocks && allocator.refs[Cached(Sh())[p]] > 0
    }

    constructor (allocator: BlockAllocator, indexed: bool)
      ensures Valid() && this.allocator == allocator && this.indexed == indexed
      ensures home == map[] && path == map[ROOT := []] && numCached == 0 && numEvictable == 0
    {
      this.allocator, this.indexed := allocator, indexed;
      nodes := map[ROOT := Node([], [], map[], ROOT, 1, 0)];
      clock, nextUid, numCached, numEvictable := 0, 1, 0, 0;
      index := {};
      path, home := map[ROOT := []], map[];
      new;
      assert Unlocked(Sh()) == {};
    }

    // ------------------------------------------------------------ the eviction index

    method Unindex(n: nat)
      requires n in nodes
      modifies this`index
      ensures index == old(index) - {KeyOf(nodes, n)}
    {
      index := index - {KeyOf(nodes, n)};
    }

    method Reindex(n: nat, ghost open: set<nat>)
      requires n in nodes && n in open
      requires if indexed then IndexOkBut(nodes, index, open) else index == {}
      modifies this`index
      ensures if indexed then IndexOkBut(nodes, index, open - {n}) else index == {}
      ensures indexed && open == {n} ==> IndexOk(nodes, index)
    {
      if !indexed { return; }
      if EvictableNode(nodes, n) {
        index := index + {KeyOf(nodes, n)};
      } else {
        Unindex(n);
      }
    }

    /** Moves `n` to access time `t`, taking it out of the index before its key changes. */
    method Touch(n: nat, t: nat)
      requires n in nodes
      requires if indexed then IndexOk(nodes, index) else index == {}
      modifies this`nodes, this`index
      ensures nodes == old(nodes)[n := old(nodes)[n].(lastAccess := t)]
      ensures if indexed then IndexOk(nodes, index) else index == {}
    {
      if nodes[n].lastAccess == t { return; }
      Unindex(n);
      nodes := nodes[n := nodes[n].(lastAccess := t)];
      Reindex(n, {n});
    }

    // ------------------------------------------------------------ lookup

    /** How many chunks of `child`'s edge agree with `key` from `pos` on; the first one does. */
    method MatchedBlocks(child: Node, key: Prefix, pos: nat) returns (m: nat)
      requires |child.tokens| > 0 && pos < |key| && child.tokens[0] == key[pos]
      ensures 0 < m <= |child.tokens| && pos + m <= |key|
      ensures child.tokens[..m] == key[pos..pos + m]
      ensures m == |child.tokens| || pos + m == |key| || child.tokens[m] != key[pos + m]
    {
      m := 1;
      while m < |child.tokens| && pos + m + 1 <= |key|
        invariant 0 < m <= |child.tokens| && pos + m <= |key|
        invariant forall i :: 0 <= i < m ==> child.tokens[i] == key[pos + i]
      {
        if child.tokens[m] != key[pos + m] { break; }
        m := m + 1;
      }
    }

    /** Length of the longest cached prefix of `key`; changes nothing. */
    method PrefixLen(key: Prefix) returns (pos: nat)
      requires Valid()
      ensures LongestAt(Sh(), key, pos)
    {
      hide Injective, UidsOk, RecencyNests, Unlocked, IndexOk, LongestAt, NodesOk, HomeOk;
      var node := ROOT;
      pos := 0;
      RootFacts(Sh());
      while pos < |key|
        invariant pos <= |key| && node in nodes && node in path && path[node] == key[..pos]
        decreases |key| - pos
      {
        ChildIff(Sh(), node, key[pos]);
        assert key[..pos + 1] == key[..pos] + [key[pos]];
        if key[pos] !in nodes[node].children { break; }
        var child := nodes[node].children[key[pos]];
        ChildFacts(Sh(), node, key[pos]);
        var m := MatchedBlocks(nodes[child], key, pos);
        assert key[..pos + m] == key[..pos] + nodes[child].tokens[..m];
        if m < |nodes[child].tokens| {
          MidEdge(Sh(), child, key, pos, m);
          pos := pos + m;
          StopHere(Sh(), key, pos);
          return;
        }
        node, pos := child, pos + m;
      }
      if node != ROOT { PathCovered(Sh(), node); }
      StopHere(Sh(), key, pos);
    }

    /** `_split`: cuts `n`'s edge after `m` blocks. The new upper node takes `n`'s place; `n`
        keeps its identity, its lock count and its access time. */
    method Split(n: nat, m: nat) returns (upper: nat)
      requires Valid() && IsNode(Sh(), n) && 0 < m < |nodes[n].blocks|
      modifies this`nodes, this`nextUid, this`path, this`home
      ensures Valid()
      ensures upper == old(nextUid) && upper !in old(nodes)
      ensures Sh() == SplitShape(old(Sh()), n, m, upper)
    {
      hide Injective, UidsOk, RecencyNests, Unlocked, IndexOk, Cached, Locks, TreeOk, SplitShape, SplitNodes;
      ghost var sh := Sh();
      SplitValid(sh, n, m, nextUid, clock, indexed, index);
      ghost var cut := SplitShape(sh, n, m, nextUid);
      upper := nextUid;
      nextUid := nextUid + 1;
      nodes := SplitNodes(nodes, n, m, upper);
      path, home := cut.path, cut.home;
    }

    /** One step of the walk: split if the match ends inside the edge, then stamp. */
    method Descend(ghost sh0: Shape, node: nat, next: nat, m: nat, key: Prefix, pos: nat) returns (child: nat)
      requires Valid() && IsNode(Sh(), next) && node in nodes && nodes[next].parent == node
      requires pos + m <= |key| && path[node] == key[..pos]
      requires 0 < m <= |nodes[next].tokens| == |nodes[next].blocks|
      requires path[next] == key[..pos] + nodes[next].tokens
      requires key[..pos + m] == key[..pos] + nodes[next].tokens[..m]
      requires HandlesKept(sh0.path, path) && Stamped(sh0, Sh(), key[..pos], clock)
      requires sh0.path.Keys == sh0.nodes.Keys
      modifies this`nodes, this`nextUid, this`index, this`path, this`home
      ensures Valid() && child in nodes && child in path && path[child] == key[..pos + m]
      ensures Cached(Sh()) == old(Cached(Sh())) && Locks(Sh()) == old(Locks(Sh()))
      ensures HandlesKept(old(path), path) && Stamped(sh0, Sh(), key[..pos + m], clock)
    {
      hide Injective, UidsOk, RecencyNests, Unlocked, IndexOk, Cached, Locks, HomeOk, NodesOk, HandlesKept, Stamped;
      child := next;
      ghost var sh := Sh();
      RootFacts(sh);
      ChildAbove(sh, next);
      if m < |nodes[next].blocks| {
        child := Split(next, m);
        SplitKeeps(sh, next, m, child);
        SplitKeepsStamps(sh0, sh, next, m, child, key[..pos], clock);
      } else {
        assert nodes[next].tokens[..m] == nodes[next].tokens;
        KeptSelf(path);
      }
      ghost var mid := Sh();
      RootFacts(mid);
      Touch(child, clock);
      TouchKeepsTree(mid, child, clock);
      TouchKeepsRecency(sh0, mid, child, key[..pos], clock, nextUid);
      TouchKeepsStamps(sh0, mid, child, key[..pos], clock);
      assert Sh() == TouchShape(mid, child, clock);
    }

    /** `_walk`: goes down along `key`, splitting the edge a match ends inside, and stamps every
        node on the way with the new time. */
    method Walk(key: Prefix) returns (node: nat, pos: nat)
      requires Valid()
      modifies this`nodes, this`clock, this`nextUid, this`index, this`path, this`home
      ensures Valid()
      ensures Cached(Sh()) == old(Cached(Sh())) && Locks(Sh()) == old(Locks(Sh()))
      ensures HandlesKept(old(path), path)
      ensures pos <= |key| && node in nodes && node in path && path[node] == key[..pos]
      ensures LongestAt(Sh(), key, pos)
      ensures clock == old(clock) + 1
      ensures Stamped(old(Sh()), Sh(), path[node], clock)
    {
      hide Injective, UidsOk, RecencyNests, Unlocked, IndexOk, LongestAt, TreeOk, HandlesKept, Stamped, Cached, Locks;
      ghost var sh0 := Sh();
      clock := clock + 1;
      TickKeeps(nodes, nextUid, clock - 1);
      node, pos := ROOT, 0;
      RootFacts(Sh());
      StampedStart(sh0, clock);
      KeptSelf(path);
      while pos < |key|
        invariant pos <= |key| && node in nodes && node in path && path[node] == key[..pos]
        invariant Valid() && clock == old(clock) + 1
        invariant Cached(Sh()) == Cached(sh0) && Locks(Sh()) == Locks(sh0)
        invariant HandlesKept(sh0.path, path) && Stamped(sh0, Sh(), key[..pos], clock)
        decreases |key| - pos
      {
        ChildIff(Sh(), node, key[pos]);
        assert key[..pos + 1] == key[..pos] + [key[pos]];
        if key[pos] !in nodes[node].children { break; }
        var child := nodes[node].children[key[pos]];
        ChildFacts(Sh(), node, key[pos]);
        var m := MatchedBlocks(nodes[child], key, pos);
        assert key[..pos + m] == key[..pos] + nodes[child].tokens[..m];
        ghost var before := path;
        child := Descend(sh0, node, child, m, key, pos);
        KeptFurther(sh0.path, before, path);
        node, pos := child, pos + m;
      }
      RootFacts(Sh());
      if node != ROOT { PathCovered(Sh(), node); }
      StopHere(Sh(), key, pos);
    }

    /** `_path_blocks`: the blocks from the root down to `node`. */
    method BlocksTo(node: nat) returns (out: seq<nat>)
      requires Valid() && node in path
      ensures Whole(Cached(Sh()), path[node]) && out == PathBlocks(Cached(Sh()), path[node])
    {
      hide Injective, UidsOk, RecencyNests, Unlocked, IndexOk, TreeOk, Cached;
      NodeWhole(Sh(), node);
      RootFacts(Sh());
      out := [];
      var n := node;
      while n != ROOT
        invariant n in nodes && n in path && path[n] <= path[node] && |out| == |path[node]| - |path[n]|
        invariant forall i :: |path[n]| <= i < |path[node]| ==>
          out[i - |path[n]|] == PathBlocks(Cached(Sh()), path[node])[i]
        decreases |path[n]|
      {
        PathCovered(Sh(), n);
        ghost var up := Above(Sh(), n);
        EdgeBlocks(Sh(), n, |up|);
        forall i | |up| <= i < |path[n]|
          ensures nodes[n].blocks[i - |up|] == PathBlocks(Cached(Sh()), path[node])[i]
        {
          EdgeBlocks(Sh(), n, i);
          assert path[n][..i + 1] == path[node][..i + 1];
        }
        ChildAbove(Sh(), n);
        out := nodes[n].blocks + out;
        n := nodes[n].parent;
      }
    }

    /** Longest cached prefix of `key`: its deepest node, whose path is exactly that prefix, and
        its blocks. Nothing cached changes. */
    method Match(key: Prefix) returns (node: nat, blocks: seq<nat>)
      requires Valid()
      modifies this`nodes, this`clock, this`nextUid, this`index, this`path, this`home
      ensures Valid()
      ensures Cached(Sh()) == old(Cached(Sh())) && Locks(Sh()) == old(Locks(Sh()))
      ensures HandlesKept(old(path), path)
      ensures node in path && path[node] <= key && LongestAt(Sh(), key, |path[node]|)
      ensures Whole(Cached(Sh()), path[node]) && blocks == PathBlocks(Cached(Sh()), path[node])
      ensures clock == old(clock) + 1 && Stamped(old(Sh()), Sh(), path[node], clock)
    {
      hide Injective, UidsOk, RecencyNests, Unlocked, IndexOk, LongestAt, TreeOk, HandlesKept, Stamped, Cached, Locks;
      var pos;
      node, pos := Walk(key);
      blocks := BlocksTo(node);
    }

    // ------------------------------------------------------------ locking

    /** Counts one more user on every node from `node` up to the root. */
    method Lock(node: nat)
      requires Valid() && node in path
      modifies this`nodes, this`numEvictable, this`index
      ensures Valid() && Cached(Sh()) == old(Cached(Sh()))
      ensures forall p :: p in home ==> Locks(Sh())[p] == old(Locks(Sh()))[p] + if p <= path[node] then 1 else 0
      ensures OnlyLocks(old(Sh()), Sh())
    {
      hide Injective, UidsOk, RecencyNests, Unlocked, IndexOk, TreeOk, Cached, Locks, OnlyLocks, LockedBelow;
      ghost var sh0 := Sh();
      RootFacts(sh0);
      LocksFrom(sh0, node, 1);
      var n := node;
      while n != ROOT
        invariant n in nodes && n in path && Valid() && LockedBelow(sh0, Sh(), n, 1, sh0.path[node])
        decreases |path[n]|
      {
        OneNodeUp(sh0, Sh(), n, 1, sh0.path[node]);
        var up := nodes[n].parent;
        Recount(n, nodes[n].lock + 1);
        n := up;
      }
      LockedWhole(sh0, Sh(), 1, sh0.path[node]);
    }

    /** Sets one lock count, with the totals and the index that depend on it. */
    method Recount(n: nat, l: nat)
      requires Valid() && IsNode(Sh(), n) && n in path && (l == nodes[n].lock + 1 || l + 1 == nodes[n].lock)
      modifies this`nodes, this`numEvictable, this`index
      ensures Valid() && Sh() == SetLock(old(Sh()), n, l)
      ensures Cached(Sh()) == old(Cached(Sh()))
      ensures forall p :: p in home ==>
        Locks(Sh())[p] == if home[p] == n then l else old(Locks(Sh()))[p]
    {
      hide Injective, UidsOk, RecencyNests, Unlocked, TreeOk, Cached, Locks;
      SetLockFacts(Sh(), n, l);
      SetLockOrder(Sh(), n, l, nextUid, clock);
      if nodes[n].lock == 0 {
        numEvictable := numEvictable - |nodes[n].blocks|;
      } else if l == 0 {
        numEvictable := numEvictable + |nodes[n].blocks|;
      }
      nodes := nodes[n := nodes[n].(lock := l)];
      Reindex(n, {n});
      hide IndexOk;
    }

    /** Takes one user off every node from `node` up; stops with an error at an unlocked one. */
    method Unlock(node: nat) returns (r: Result<()>)
      requires Valid() && node in path
      modifies this`nodes, this`numEvictable, this`index
      ensures Valid() && Cached(Sh()) == old(Cached(Sh()))
      ensures r.Ok? <==> forall p :: p in home && p <= path[node] ==> old(Locks(Sh()))[p] > 0
      ensures r.Err? ==> r.error == ValueError
      ensures r.Ok? ==> forall p :: p in home ==>
        Locks(Sh())[p] == old(Locks(Sh()))[p] - if p <= path[node] then 1 else 0
      ensures OnlyLocks(old(Sh()), Sh())
    {
      hide Injective, UidsOk, RecencyNests, Unlocked, IndexOk, TreeOk, Cached, Locks, OnlyLocks, LockedBelow;
      ghost var sh0 := Sh();
      RootFacts(sh0);
      LocksFrom(sh0, node, -1);
      var n := node;
      while n != ROOT
        invariant n in nodes && n in path && Valid() && LockedBelow(sh0, Sh(), n, -1, sh0.path[node])
        decreases |path[n]|
      {
        if nodes[n].lock == 0 {
          NotLocked(sh0, Sh(), n, -1, sh0.path[node]);
          return Err(ValueError);
        }
        OneNodeUp(sh0, Sh(), n, -1, sh0.path[node]);
        var up := nodes[n].parent;
        Recount(n, nodes[n].lock - 1);
        n := up;
      }
      LockedWhole(sh0, Sh(), -1, sh0.path[node]);
      return Ok(());
    }

    // ------------------------------------------------------------ insertion

    lemma BackedAgain(refs0: seq<nat>, c0: map<Prefix, nat>)
      requires Valid() && allocator.Valid() && |refs0| == allocator.numBlocks
      requires forall p :: p in c0 ==> c0[p] < |refs0| && refs0[c0[p]] > 0
      requires NewHolders(refs0, allocator.refs, c0.Values, Cached(Sh()).Values)
      requires forall v :: v in Cached(Sh()).Values && v !in c0.Values ==> v < |refs0|
      ensures Backed()
    {
      var c := Cached(Sh());
      forall p | p in home ensures c[p] < allocator.numBlocks && allocator.refs[c[p]] > 0 {
        assert c[p] in c.Values;
        if c[p] in c0.Values {
          var q :| q in c0 && c0[q] == c[p];
        }
      }
    }

    /** `par` is about to stop being a leaf; the new leaf joins the index. */
    method IndexLeaf(ghost nodes0: map<nat, Node>, par: nat, leaf: nat, ghost toks: Prefix, ghost blocks: seq<nat>)
      requires par in nodes0 && leaf !in nodes0 && |toks| > 0
      requires nodes == LeafNodes(nodes0, par, toks, blocks, leaf, clock)
      requires if indexed then IndexOk(nodes0, index) else index == {}
      modifies this`index
      ensures if indexed then IndexOk(nodes, index) else index == {}
    {
      hide IndexOk, IndexOkBut, EvictableNode, LeafNodes;
      if indexed { LeafIndex(nodes0, par, toks, blocks, leaf, clock, index); }
      LeafNodesHas(nodes0, par, toks, blocks, leaf, clock);
      Unindex(par);
      Reindex(par, {par, leaf});
      assert {par, leaf} - {par} == {leaf};
      Reindex(leaf, {leaf});
    }

    /** Hangs a new unlocked leaf under `par`; both totals grow by its blocks. */
    method AddLeaf(par: nat, toks: Prefix, blocks: seq<nat>) returns (leaf: nat)
      requires Valid() && par in nodes && |toks| == |blocks| > 0 && toks[0] !in nodes[par].children
      requires Distinct(blocks) && forall b :: b in blocks ==> b !in Cached(Sh()).Values
      requires par == ROOT || nodes[par].lastAccess == clock
      modifies this`nodes, this`nextUid, this`index, this`path, this`home, this`numCached, this`numEvictable
      ensures Valid() && leaf == old(nextUid)
      ensures leaf !in old(nodes) && par in old(path)
      ensures Sh() == LeafShape(old(Sh()), par, toks, blocks, leaf, clock)
    {
      hide Injective, UidsOk, RecencyNests, Unlocked, IndexOk, IndexOkBut, TreeOk, Cached, Locks, LeafShape, LeafNodes, EvictableNode;
      ghost var sh := Sh();
      LeafValid(sh, par, toks, blocks, nextUid, clock);
      ghost var grown := LeafShape(sh, par, toks, blocks, nextUid, clock);
      leaf := nextUid;
      nextUid := nextUid + 1;
      nodes := LeafNodes(nodes, par, toks, blocks, leaf, clock);
      path, home := grown.path, grown.home;
      IndexLeaf(sh.nodes, par, leaf, toks, blocks);
      numCached := numCached + |blocks|;
      numEvictable := numEvictable + |blocks|;
    }

    /** Caches `blocks` as holding `key`. Chunks already cached keep the tree's blocks; the rest
        becomes a new unlocked leaf and the tree takes a reference to each of its blocks.
        The blocks of the uncached part are the caller's own: allocated, and in no tree edge. */
    method Insert(key: Prefix, blocks: seq<nat>) returns (r: Result<nat>)
      requires Valid() && Backed() && Distinct(blocks)
      requires |key| == |blocks| ==> OwnSuffix(Cached(Sh()), key, blocks, allocator.refs)
      modifies this`nodes, this`clock, this`nextUid, this`index, this`path, this`home
      modifies this`numCached, this`numEvictable, allocator
      ensures Valid() && Backed() && HandlesKept(old(path), path)
      ensures allocator.free == old(allocator.free)
      ensures r.Ok? <==> |key| == |blocks|
      ensures r.Err? ==>
        && r.error == ValueError && allocator.refs == old(allocator.refs)
        && Sh() == old(Sh()) && clock == old(clock)
      ensures r.Ok? ==> clock == old(clock) + 1 && Stamped(old(Sh()), Sh(), key, clock)
      ensures r.Ok? ==>
        && r.value in path && path[r.value] == key
        && Inserted(old(Cached(Sh())), old(Locks(Sh())), Cached(Sh()), Locks(Sh()), key, blocks)
        && NewHolders(old(allocator.refs), allocator.refs, old(Cached(Sh())).Values, Cached(Sh()).Values)
    {
      hide Injective, UidsOk, RecencyNests, Unlocked, IndexOk, TreeOk, Cached, Locks, HandlesKept, Stamped,
           LongestAt, Inserted, OwnSuffix, NewHolders;
      if |key| != |blocks| {
        KeptSelf(path);
        return Err(ValueError);
      }
      var node, matched := Walk(key);
      node := AddRest(node, key, matched, blocks, old(Sh()));
      return Ok(node);
    }

    /** What follows the walk of an insertion: a leaf for whatever is not cached yet. */
    method AddRest(node: nat, key: Prefix, matched: nat, blocks: seq<nat>, ghost sh0: Shape) returns (leaf: nat)
      requires Valid() && Backed() && node in nodes && node in path && |key| == |blocks| && Distinct(blocks)
      requires matched <= |key| && path[node] == key[..matched] && LongestAt(Sh(), key, matched)
      requires OwnSuffix(Cached(Sh()), key, blocks, allocator.refs)
      requires TreeOk(sh0) && HandlesKept(sh0.path, path) && Stamped(sh0, Sh(), path[node], clock)
      modifies this`nodes, this`nextUid, this`index, this`path, this`home
      modifies this`numCached, this`numEvictable, allocator
      ensures Valid() && Backed() && HandlesKept(sh0.path, path) && allocator.free == old(allocator.free)
      ensures leaf in path && path[leaf] == key && Stamped(sh0, Sh(), key, clock)
      ensures Inserted(old(Cached(Sh())), old(Locks(Sh())), Cached(Sh()), Locks(Sh()), key, blocks)
      ensures NewHolders(old(allocator.refs), allocator.refs, old(Cached(Sh())).Values, Cached(Sh()).Values)
    {
      hide Injective, UidsOk, RecencyNests, Unlocked, IndexOk, TreeOk, Cached, Locks, HandlesKept, Stamped,
           LongestAt, Inserted, OwnSuffix, NewHolders, CachedUpTo;
      ghost var sh := Sh();
      MatchEnds(sh, node, key, matched);
      SuffixIsOwn(sh, key, blocks, matched, allocator.refs);
      if matched == |blocks| {
        assert key[..matched] == key;
        NothingNew(sh, key, blocks, allocator.refs);
        return node;
      }
      RootFacts(sh0);
      OnOwnPath(sh0, sh, node, clock);
      leaf := Graft(node, key, matched, blocks, sh0);
      KeptFurther(sh0.path, sh.path, path);
    }

    /** The second half of an insertion: references for the new blocks, then the leaf. */
    method Graft(node: nat, key: Prefix, matched: nat, blocks: seq<nat>, ghost sh0: Shape) returns (leaf: nat)
      requires Valid() && Backed() && node in nodes && node in path
      requires matched < |key| == |blocks| && path[node] == key[..matched] && Distinct(blocks)
      requires key[matched] !in nodes[node].children && CachedUpTo(Cached(Sh()), key, matched)
      requires node == ROOT || nodes[node].lastAccess == clock
      requires Stamped(sh0, Sh(), path[node], clock) && sh0.path.Keys == sh0.nodes.Keys && HandlesKept(sh0.path, path)
      requires IdsOk(allocator.numBlocks, blocks[matched..]) && Distinct(blocks[matched..])
      requires forall b :: b in blocks[matched..] ==> allocator.refs[b] > 0 && b !in Cached(Sh()).Values
      modifies this`nodes, this`nextUid, this`index, this`path, this`home
      modifies this`numCached, this`numEvictable, allocator
      ensures Valid() && Backed() && HandlesKept(old(path), path)
      ensures allocator.free == old(allocator.free)
      ensures leaf in path && path[leaf] == key && leaf == old(nextUid) && Stamped(sh0, Sh(), key, clock)
      ensures Inserted(old(Cached(Sh())), old(Locks(Sh())), Cached(Sh()), Locks(Sh()), key, blocks)
      ensures NewHolders(old(allocator.refs), allocator.refs, old(Cached(Sh())).Values, Cached(Sh()).Values)
    {
      hide Injective, UidsOk, RecencyNests, Unlocked, IndexOk, TreeOk, Cached, Locks, HandlesKept, Inserted,
           NewHolders, LeafShape, CachedUpTo, Stamped;
      ghost var sh, refs0 := Sh(), allocator.refs;
      var own := blocks[matched..];
      RootFacts(sh);
      var done := allocator.IncRef(own);
      leaf := AddLeaf(node, key[matched..], own);
      assert key[..matched] + key[matched..] == key;
      LeafPath(sh, node, key[matched..], own, leaf, clock);
      LeafStamps(sh0, sh, node, key[matched..], own, leaf, clock, key);
      LeafInserts(sh, node, key, matched, blocks, leaf, clock);
      HoldersOf(refs0, allocator.refs, own, Cached(sh).Values, Cached(Sh()).Values);
      BackedAgain(refs0, Cached(sh));
    }

    // ------------------------------------------------------------ eviction

    /** Frees an unlocked leaf and detaches it; its parent may now be a candidate. */
    method RemoveLeaf(n: nat)
      requires Valid() && Backed() && EvictableNode(nodes, n)
      modifies this`nodes, this`index, this`path, this`home, this`numCached, this`numEvictable, allocator
      ensures Valid() && Backed()
      ensures Sh() == RemoveShape(old(Sh()), n) && numCached + |old(nodes)[n].blocks| == old(numCached)
      ensures LostHolders(old(allocator.refs), allocator.refs, old(Cached(Sh())).Values, Cached(Sh()).Values)
      ensures Cached(Sh()).Values <= old(Cached(Sh())).Values
    {
      hide Injective, UidsOk, RecencyNests, Unlocked, IndexOk, TreeOk, Cached, RemoveShape, LostHolders;
      ghost var sh, refs0 := Sh(), allocator.refs;
      RemoveFacts(sh, n);
      OwnBlocks(sh, n, refs0);
      var done := allocator.Free(nodes[n].blocks);
      Detach(n);
      LostOnce(refs0, allocator.refs, sh.nodes[n].blocks, Cached(sh).Values, Cached(Sh()).Values);
      BackedStill(refs0, Cached(sh));
    }

    method Detach(n: nat)
      requires Valid() && EvictableNode(nodes, n)
      modifies this`nodes, this`index, this`path, this`home, this`numCached, this`numEvictable
      ensures Valid() && Sh() == RemoveShape(old(Sh()), n)
      ensures numCached + |old(nodes)[n].blocks| == old(numCached)
    {
      hide Injective, UidsOk, RecencyNests, Unlocked, IndexOk, IndexOkBut, TreeOk, Cached, RemoveShape, RemoveNodes;
      DetachFacts(Sh(), n, nextUid, clock, indexed, index);
      ghost var rest := RemoveShape(Sh(), n);
      var par, k := nodes[n].parent, |nodes[n].blocks|;
      Unindex(n);
      nodes := RemoveNodes(nodes, n);
      path, home := rest.path, rest.home;
      numCached, numEvictable := numCached - k, numEvictable - k;
      assert Sh() == rest;
      Reindex(par, {par});
    }

    lemma BackedStill(refs0: seq<nat>, c0: map<Prefix, nat>)
      requires Valid() && allocator.Valid() && |refs0| == allocator.numBlocks
      requires forall p :: p in c0 ==> c0[p] < |refs0| && refs0[c0[p]] > 0
      requires LostHolders(refs0, allocator.refs, c0.Values, Cached(Sh()).Values)
      requires Cached(Sh()).Values <= c0.Values
      ensures Backed()
    {
      var c := Cached(Sh());
      forall p | p in home ensures c[p] < allocator.numBlocks && allocator.refs[c[p]] > 0 {
        InValues(c, p);
        var q :| q in c0 && c0[q] == c[p];
      }
    }

    /** Every node of the tree, by a walk from the root: the eviction heap's first content. */
    method CollectLeaves() returns (heap: set<Key>)
      requires Valid()
      ensures IndexOk(nodes, heap)
    {
      hide Injective, UidsOk, RecencyNests, Unlocked, NodesOk, HomeOk, Cached;
      heap := {};
      RootFacts(Sh());
      var frontier: set<nat> := nodes[ROOT].children.Values;
      ghost var seen: set<nat> := {};
      AllChildren(Sh(), ROOT);
      while frontier != {}
        invariant frontier <= nodes.Keys - {ROOT} && seen <= nodes.Keys - {ROOT} && frontier !! seen
        invariant forall n :: n in frontier || n in seen ==> nodes[n].parent == ROOT || nodes[n].parent in seen
        invariant forall n :: IsNode(Sh(), n) && (nodes[n].parent == ROOT || nodes[n].parent in seen) ==>
          n in frontier || n in seen
        invariant forall t: nat, n: nat :: (t, n) in heap <==>
          n in seen && EvictableNode(nodes, n) && nodes[n].lastAccess == t
        decreases nodes.Keys - seen
      {
        var n :| n in frontier;
        frontier := frontier - {n};
        seen := seen + {n};
        AllChildren(Sh(), n);
        if nodes[n].children == map[] {
          if nodes[n].lock == 0 {
            heap := heap + {KeyOf(nodes, n)};
          }
        } else {
          frontier := frontier + nodes[n].children.Values;
        }
      }
      forall n | IsNode(Sh(), n) ensures n in seen { SeenAll(Sh(), n, seen); }
    }

    /** Where an eviction of `k` blocks from `sh0` stands after `victims`. */
    ghost predicate Evicting(sh0: Shape, refs0: seq<nat>, k: int, freed: nat, victims: seq<nat>)
      reads this, allocator
    {
      && Valid() && Backed() && TreeOk(sh0)
      && victims + Victims(Sh(), k - freed) == Victims(sh0, k)
      && Survivors(Sh(), k - freed) == Survivors(sh0, k)
      && LostHolders(refs0, allocator.refs, Cached(sh0).Values, Cached(Sh()).Values)
      && Cached(Sh()).Values <= Cached(sh0).Values
    }

    method Smallest(keys: set<Key>) returns (key: Key)
      requires keys != {}
      ensures key in keys && forall k :: k in keys ==> KeyLe(key, k)
    {
      ghost var smallest := SmallestKey(keys);
      key :| key in keys && forall k :: k in keys ==> KeyLe(key, k);
    }

    method EvictOne(ghost sh0: Shape, ghost refs0: seq<nat>, ghost k: int, freed: nat, ghost victims: seq<nat>, n: nat)
      returns (freed': nat, ghost victims': seq<nat>)
      requires Evicting(sh0, refs0, k, freed, victims) && freed < k
      requires Candidates(nodes) != {} && n == Oldest(nodes)
      modifies this`nodes, this`index, this`path, this`home, this`numCached, this`numEvictable, allocator
      ensures Evicting(sh0, refs0, k, freed', victims')
      ensures freed' == freed + old(numCached) - numCached && numCached <= old(numCached)
      ensures |nodes| < |old(nodes)|
      ensures TreeOk(old(Sh())) && IsNode(old(Sh()), n) && Sh() == RemoveShape(old(Sh()), n)
    {
      hide Injective, UidsOk, RecencyNests, Unlocked, IndexOk, TreeOk, Cached, Candidates, LostHolders,
           Victims, Survivors, Oldest, RemoveShape, IsOldest;
      VictimsStep(Sh(), k - freed);
      ghost var sh, refs1 := Sh(), allocator.refs;
      freed' := freed + |nodes[n].blocks|;
      victims' := victims + [n];
      RemoveLeaf(n);
      LostTwice(refs0, refs1, allocator.refs, Cached(sh0).Values, Cached(sh).Values, Cached(Sh()).Values);
    }

    /** Frees at least `k` blocks from unlocked leaves, least recently used first, or as many as
        there are. Indexed or by full walk, the victims and their order are the same. */
    method Evict(k: int) returns (freed: nat, ghost victims: seq<nat>)
      requires Valid() && Backed()
      modifies this`nodes, this`index, this`path, this`home, this`numCached, this`numEvictable, allocator
      ensures Valid() && Backed()
      ensures victims == Victims(old(Sh()), k)
      ensures Sh() == Survivors(old(Sh()), k)
      ensures freed == old(numCached) - numCached
      ensures LostHolders(old(allocator.refs), allocator.refs, old(Cached(Sh())).Values, Cached(Sh()).Values)
      ensures Cached(Sh()).Values <= old(Cached(Sh())).Values
    {
      hide Injective, UidsOk, RecencyNests, Unlocked, IndexOk, TreeOk, Cached, EvictableNode, Candidates,
           LostHolders, Oldest, Victims, Survivors;
      ghost var sh0, refs0 := Sh(), allocator.refs;
      LostNothing(refs0, Cached(sh0).Values);
      if indexed {
        freed, victims := EvictIndexed(sh0, refs0, k);
      } else {
        freed, victims := EvictByWalk(sh0, refs0, k);
      }
      NoMoreVictims(Sh(), k - freed);
    }

    /** Takes the smallest entry of the index until enough is free. */
    method EvictIndexed(ghost sh0: Shape, ghost refs0: seq<nat>, k: int) returns (freed: nat, ghost victims: seq<nat>)
      requires indexed && Evicting(sh0, refs0, k, 0, [])
      modifies this`nodes, this`index, this`path, this`home, this`numCached, this`numEvictable, allocator
      ensures Evicting(sh0, refs0, k, freed, victims) && numCached == old(numCached) - freed
      ensures k <= freed || Candidates(nodes) == {}
    {
      hide Injective, UidsOk, RecencyNests, Unlocked, IndexOk, TreeOk, Cached, EvictableNode, Candidates,
           LostHolders, Oldest, IsOldest, Victims, Survivors, RemoveShape;
      freed, victims := 0, [];
      EmptyIndex(nodes, index);
      while freed < k && index != {}
        invariant Evicting(sh0, refs0, k, freed, victims) && numCached == old(numCached) - freed
        invariant index == {} <==> Candidates(nodes) == {}
        decreases |nodes|
      {
        var key := Smallest(index);
        SmallestIsOldest(nodes, index, key);
        freed, victims := EvictOne(sh0, refs0, k, freed, victims, key.1);
        EmptyIndex(nodes, index);
      }
    }

    /** Collects every candidate in a heap first; a parent left as a candidate joins the heap. */
    method EvictByWalk(ghost sh0: Shape, ghost refs0: seq<nat>, k: int) returns (freed: nat, ghost victims: seq<nat>)
      requires Evicting(sh0, refs0, k, 0, [])
      modifies this`nodes, this`index, this`path, this`home, this`numCached, this`numEvictable, allocator
      ensures Evicting(sh0, refs0, k, freed, victims) && numCached == old(numCached) - freed
      ensures k <= freed || Candidates(nodes) == {}
    {
      hide Injective, UidsOk, RecencyNests, Unlocked, IndexOk, TreeOk, Cached, Candidates,
           LostHolders, Oldest, IsOldest, Victims, Survivors, RemoveShape;
      freed, victims := 0, [];
      var heap := CollectLeaves();
      EmptyIndex(nodes, heap);
      while freed < k && heap != {}
        invariant Evicting(sh0, refs0, k, freed, victims) && numCached == old(numCached) - freed
        invariant IndexOk(nodes, heap) && (heap == {} <==> Candidates(nodes) == {})
        decreases |nodes|
      {
        var key := Smallest(heap);
        SmallestIsOldest(nodes, heap, key);
        HeapStep(Sh(), key.1, heap);
        var par := nodes[key.1].parent;
        freed, victims := EvictOne(sh0, refs0, k, freed, victims, key.1);
        heap := heap - {key} + if EvictableNode(nodes, par) then {KeyOf(nodes, par)} else {};
        EmptyIndex(nodes, heap);
      }
    }
  }
}

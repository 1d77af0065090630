/** The radix tree as a value: nodes by uid, and the prefix each of them spells.

    Tokens are cut into whole blocks ("chunks"), the only granularity the tree works at, so an
    edge of `k` blocks is a sequence of `k` chunks. `path` and `home` are what the nodes mean:
    `path[n]` is the whole prefix spelled down to `n`, and `home[p]` is the node whose edge holds
    the last chunk of the cached prefix `p`. */
module TreeShape {
  import opened Common

  type Chunk = seq<int>
  type Prefix = seq<Chunk>

  const ROOT: nat := 0

  datatype Node = Node(
    tokens: Prefix, blocks: seq<nat>, children: map<Chunk, nat>, parent: nat,
    lock: nat, lastAccess: nat)

  datatype Shape = Shape(nodes: map<nat, Node>, path: map<nat, Prefix>, home: map<Prefix, nat>)

  ghost predicate IsNode(sh: Shape, n: nat) {
    n in sh.nodes && n != ROOT
  }

  /** The prefix above `n`'s edge. */
  ghost function Above(sh: Shape, n: nat): Prefix
    requires n in sh.nodes && sh.nodes[n].parent in sh.path
  {
    sh.path[sh.nodes[n].parent]
  }

  ghost predicate NodeOk(sh: Shape, n: nat)
    requires n in sh.nodes && sh.nodes.Keys == sh.path.Keys
  {
    var nd := sh.nodes[n];
    && nd.parent in sh.nodes
    && |nd.tokens| == |nd.blocks| > 0
    && sh.path[n] == sh.path[nd.parent] + nd.tokens
    && nd.tokens[0] in sh.nodes[nd.parent].children
    && sh.nodes[nd.parent].children[nd.tokens[0]] == n
  }

  ghost predicate ChildOk(sh: Shape, n: nat, c: Chunk)
    requires n in sh.nodes && c in sh.nodes[n].children
  {
    var m := sh.nodes[n].children[c];
    && IsNode(sh, m)
    && sh.nodes[m].parent == n
    && |sh.nodes[m].tokens| > 0
    && sh.nodes[m].tokens[0] == c
  }

  ghost predicate NodesOk(sh: Shape) {
    && ROOT in sh.nodes
    && sh.nodes.Keys == sh.path.Keys
    && sh.path[ROOT] == [] && sh.nodes[ROOT].tokens == [] && sh.nodes[ROOT].blocks == []
    && (forall n {:trigger NodeOk(sh, n)} :: IsNode(sh, n) ==> NodeOk(sh, n))
    && (forall n, c {:trigger ChildOk(sh, n, c)} :: n in sh.nodes && c in sh.nodes[n].children ==> ChildOk(sh, n, c))
  }

  /** The edge of `n` holds the last chunk of `p`. */
  ghost predicate Covers(sh: Shape, n: nat, p: Prefix) {
    && IsNode(sh, n) && n in sh.path && sh.nodes[n].parent in sh.path
    && |Above(sh, n)| < |p|
    && p <= sh.path[n]
  }

  ghost predicate HomeOk(sh: Shape) {
    && (forall p {:trigger Covers(sh, sh.home[p], p)} :: p in sh.home ==> Covers(sh, sh.home[p], p))
    && (forall n, p :: Covers(sh, n, p) ==> p in sh.home && sh.home[p] == n)
  }

  ghost predicate TreeOk(sh: Shape) {
    NodesOk(sh) && HomeOk(sh)
  }

  /** The block that holds the last chunk of the cached prefix `p`. */
  ghost function BlockAt(sh: Shape, p: Prefix): nat
    requires TreeOk(sh) && p in sh.home
  {
    assert Covers(sh, sh.home[p], p) && NodeOk(sh, sh.home[p]);
    sh.nodes[sh.home[p]].blocks[|p| - 1 - |Above(sh, sh.home[p])|]
  }

  /** What the tree denotes: block-aligned prefixes and the blocks that hold them. */
  ghost function Cached(sh: Shape): (m: map<Prefix, nat>)
    requires TreeOk(sh)
    ensures m.Keys == sh.home.Keys
  {
    map p | p in sh.home :: BlockAt(sh, p)
  }

  /** How often each cached prefix is locked. */
  ghost function Locks(sh: Shape): (m: map<Prefix, nat>)
    requires TreeOk(sh)
    ensures m.Keys == sh.home.Keys
  {
    map p | p in sh.home :: assert Covers(sh, sh.home[p], p); sh.nodes[sh.home[p]].lock
  }

  // ------------------------------------------------------------ what the invariant gives

  lemma PathCovered(sh: Shape, n: nat)
    requires TreeOk(sh) && IsNode(sh, n)
    ensures Covers(sh, n, sh.path[n]) && sh.path[n] in sh.home && sh.home[sh.path[n]] == n
    ensures sh.nodes[n].parent in sh.nodes && |Above(sh, n)| < |sh.path[n]|
  {
    assert NodeOk(sh, n);
    assert Covers(sh, n, sh.path[n]);
  }

  lemma SamePath(sh: Shape, a: nat, b: nat)
    requires TreeOk(sh) && a in sh.nodes && b in sh.nodes && sh.path[a] == sh.path[b]
    ensures a == b
  {
    if a != ROOT { PathCovered(sh, a); }
    if b != ROOT { PathCovered(sh, b); }
  }

  /** Cached prefixes are closed under taking prefixes. */
  lemma PrefixClosed(sh: Shape, p: Prefix)
    requires TreeOk(sh) && p in sh.home && |p| > 1
    ensures p[..|p| - 1] in sh.home
  {
    var n, q := sh.home[p], p[..|p| - 1];
    assert Covers(sh, n, p) && NodeOk(sh, n);
    if |Above(sh, n)| < |q| {
      assert Covers(sh, n, q);
    } else {
      assert q == sh.path[sh.nodes[n].parent];
      PathCovered(sh, sh.nodes[n].parent);
    }
  }

  lemma {:induction false} AllPrefixes(sh: Shape, p: Prefix, k: nat)
    requires TreeOk(sh) && p in sh.home && 0 < k <= |p|
    ensures p[..k] in sh.home
    decreases |p|
  {
    if k == |p| {
      assert p[..k] == p;
    } else {
      PrefixClosed(sh, p);
      assert p[..|p| - 1][..k] == p[..k];
      AllPrefixes(sh, p[..|p| - 1], k);
    }
  }

  /** A node has a child for chunk `c` exactly when its prefix extended by `c` is cached. */
  lemma ChildIff(sh: Shape, n: nat, c: Chunk)
    requires TreeOk(sh) && n in sh.nodes
    ensures c in sh.nodes[n].children <==> sh.path[n] + [c] in sh.home
    ensures c in sh.nodes[n].children ==> sh.home[sh.path[n] + [c]] == sh.nodes[n].children[c]
  {
    var q := sh.path[n] + [c];
    if c in sh.nodes[n].children {
      var m := sh.nodes[n].children[c];
      assert ChildOk(sh, n, c) && NodeOk(sh, m);
      assert sh.path[m][|sh.path[n]|] == c;
      assert Covers(sh, m, q);
    } else if q in sh.home {
      var m := sh.home[q];
      assert Covers(sh, m, q) && NodeOk(sh, m);
      if |Above(sh, m)| < |sh.path[n]| {
        PathCovered(sh, n);
        assert Covers(sh, m, sh.path[n]);
        assert false;
      } else {
        assert Above(sh, m) == sh.path[n];
        assert sh.nodes[m].tokens[0] == sh.path[m][|sh.path[n]|] == c;
        SamePath(sh, sh.nodes[m].parent, n);
      }
    }
  }

  /** A node that lies below a cached prefix lies below the whole edge that holds it. */
  lemma {:induction false} PassThrough(sh: Shape, p: Prefix, h: nat)
    requires TreeOk(sh) && p in sh.home && h in sh.nodes && p <= sh.path[h]
    ensures sh.home[p] in sh.path && sh.path[sh.home[p]] <= sh.path[h]
    decreases |sh.path[h]|
  {
    assert Covers(sh, sh.home[p], p);
    if h != ROOT {
      PathCovered(sh, h);
      assert NodeOk(sh, h);
      if |Above(sh, h)| < |p| {
        assert Covers(sh, h, p);
      } else {
        assert p <= Above(sh, h);
        PassThrough(sh, p, sh.nodes[h].parent);
      }
    }
  }

  /** A prefix of a held path is on the same edge of the tree as that path, or above it. */
  lemma BelowEdge(sh: Shape, p: Prefix, h: nat)
    requires TreeOk(sh) && p in sh.home && h in sh.nodes
    ensures sh.home[p] in sh.path
    ensures p <= sh.path[h] <==> sh.path[sh.home[p]] <= sh.path[h]
  {
    assert Covers(sh, sh.home[p], p);
    if p <= sh.path[h] {
      PassThrough(sh, p, h);
    }
  }

  // ------------------------------------------------------------ split

  /** `_split`: the first `m` blocks of `n`'s edge move to a new node `u` above it. */
  function SplitNodes(nodes: map<nat, Node>, n: nat, m: nat, u: nat): map<nat, Node>
    requires n in nodes && nodes[n].parent in nodes && 0 < m < |nodes[n].blocks|
    requires |nodes[n].tokens| == |nodes[n].blocks|
  {
    var nd := nodes[n];
    var par := nodes[nd.parent];
    nodes[nd.parent := par.(children := par.children[nd.tokens[0] := u])]
         [n := nd.(tokens := nd.tokens[m..], blocks := nd.blocks[m..], parent := u)]
         [u := Node(nd.tokens[..m], nd.blocks[..m], map[nd.tokens[m] := n], nd.parent, nd.lock, nd.lastAccess)]
  }

  ghost function SplitShape(sh: Shape, n: nat, m: nat, u: nat): Shape
    requires TreeOk(sh) && IsNode(sh, n) && 0 < m < |sh.nodes[n].blocks|
  {
    assert NodeOk(sh, n);
    var cut := |Above(sh, n)| + m;
    Shape(
      SplitNodes(sh.nodes, n, m, u),
      sh.path[u := Above(sh, n) + sh.nodes[n].tokens[..m]],
      map p | p in sh.home :: if sh.home[p] == n && |p| <= cut then u else sh.home[p])
  }

  lemma SplitNodesOk(sh: Shape, n: nat, m: nat, u: nat)
    requires TreeOk(sh) && IsNode(sh, n) && 0 < m < |sh.nodes[n].blocks| && u !in sh.nodes
    ensures NodesOk(SplitShape(sh, n, m, u))
  {
    var sh' := SplitShape(sh, n, m, u);
    var nd := sh.nodes[n];
    assert NodeOk(sh, n);
    PathCovered(sh, n);
    forall x | IsNode(sh', x) ensures NodeOk(sh', x) {
      if x != u { assert NodeOk(sh, x); }
    }
    forall x, c | x in sh'.nodes && c in sh'.nodes[x].children ensures ChildOk(sh', x, c) {
      if x in sh.nodes && c in sh.nodes[x].children {
        assert ChildOk(sh, x, c);
      }
    }
  }

  lemma SplitHomeOk(sh: Shape, n: nat, m: nat, u: nat)
    requires TreeOk(sh) && IsNode(sh, n) && 0 < m < |sh.nodes[n].blocks| && u !in sh.nodes
    ensures HomeOk(SplitShape(sh, n, m, u))
  {
    var sh' := SplitShape(sh, n, m, u);
    var nd := sh.nodes[n];
    assert NodeOk(sh, n);
    PathCovered(sh, n);
    var cut := |Above(sh, n)| + m;
    assert sh'.path[u] <= sh.path[n];
    forall p | p in sh'.home ensures Covers(sh', sh'.home[p], p) {
      assert Covers(sh, sh.home[p], p);
      assert NodeOk(sh, sh.home[p]);
    }
    forall x, p | Covers(sh', x, p) ensures p in sh'.home && sh'.home[p] == x {
      if x == u {
        assert Covers(sh, n, p);
      } else {
        assert NodeOk(sh, x);
        assert Covers(sh, x, p);
      }
    }
  }

  lemma SplitKeepsOne(sh: Shape, n: nat, m: nat, u: nat, p: Prefix)
    requires TreeOk(sh) && IsNode(sh, n) && 0 < m < |sh.nodes[n].blocks| && u !in sh.nodes && p in sh.home
    requires TreeOk(SplitShape(sh, n, m, u))
    ensures var sh' := SplitShape(sh, n, m, u);
      Cached(sh')[p] == Cached(sh)[p] && Locks(sh')[p] == Locks(sh)[p]
  {
    var sh' := SplitShape(sh, n, m, u);
    assert Covers(sh, sh.home[p], p) && Covers(sh', sh'.home[p], p);
    assert NodeOk(sh, n) && NodeOk(sh, sh.home[p]);
    assert BlockAt(sh', p) == BlockAt(sh, p);
  }

  /** Splitting changes no cached prefix, no block, no lock count and no spelled path. */
  lemma SplitKeeps(sh: Shape, n: nat, m: nat, u: nat)
    requires TreeOk(sh) && IsNode(sh, n) && 0 < m < |sh.nodes[n].blocks| && u !in sh.nodes
    ensures var sh' := SplitShape(sh, n, m, u);
      && TreeOk(sh')
      && Cached(sh') == Cached(sh) && Locks(sh') == Locks(sh)
      && (forall x :: x in sh.nodes ==> x in sh'.nodes && sh'.path[x] == sh.path[x])
      && u in sh'.nodes && NodeOk(sh, n) && sh'.path[u] == Above(sh, n) + sh.nodes[n].tokens[..m]
  {
    var sh' := SplitShape(sh, n, m, u);
    SplitNodesOk(sh, n, m, u);
    SplitHomeOk(sh, n, m, u);
    assert NodeOk(sh, n);
    forall p | p in sh.home
      ensures Cached(sh')[p] == Cached(sh)[p] && Locks(sh')[p] == Locks(sh)[p]
    {
      SplitKeepsOne(sh, n, m, u, p);
    }
  }

  // ------------------------------------------------------------ insert a leaf

  /** The prefixes that `toks` adds below `base`. */
  ghost function NewPrefixes(base: Prefix, toks: Prefix): (s: set<Prefix>)
    ensures forall p :: p in s <==> |base| < |p| && p <= base + toks
  {
    var s := set l | |base| < l <= |base| + |toks| :: (base + toks)[..l];
    assert forall p :: |base| < |p| && p <= base + toks ==> p == (base + toks)[..|p|];
    s
  }

  function LeafNodes(nodes: map<nat, Node>, par: nat, toks: Prefix, blocks: seq<nat>, u: nat, clock: nat): map<nat, Node>
    requires par in nodes && |toks| > 0
  {
    nodes[par := nodes[par].(children := nodes[par].children[toks[0] := u])]
         [u := Node(toks, blocks, map[], par, 0, clock)]
  }

  ghost function LeafShape(sh: Shape, par: nat, toks: Prefix, blocks: seq<nat>, u: nat, clock: nat): Shape
    requires par in sh.nodes && par in sh.path && |toks| > 0
  {
    var base := sh.path[par];
    Shape(
      LeafNodes(sh.nodes, par, toks, blocks, u, clock),
      sh.path[u := base + toks],
      map p | p in sh.home.Keys + NewPrefixes(base, toks) :: if p in sh.home then sh.home[p] else u)
  }

  lemma NewPrefixesAreNew(sh: Shape, par: nat, toks: Prefix)
    requires TreeOk(sh) && par in sh.nodes && |toks| > 0 && toks[0] !in sh.nodes[par].children
    ensures forall p :: p in NewPrefixes(sh.path[par], toks) ==> p !in sh.home
  {
    var base := sh.path[par];
    ChildIff(sh, par, toks[0]);
    forall p | p in NewPrefixes(base, toks) ensures p !in sh.home {
      if p in sh.home {
        assert p[..|base| + 1] == base + [toks[0]];
        AllPrefixes(sh, p, |base| + 1);
      }
    }
  }

  lemma LeafNodesOk(sh: Shape, par: nat, toks: Prefix, blocks: seq<nat>, u: nat, clock: nat)
    requires TreeOk(sh) && par in sh.nodes && |toks| == |blocks| > 0 && toks[0] !in sh.nodes[par].children
    requires u !in sh.nodes
    ensures NodesOk(LeafShape(sh, par, toks, blocks, u, clock))
  {
    var sh' := LeafShape(sh, par, toks, blocks, u, clock);
    forall x | IsNode(sh', x) ensures NodeOk(sh', x) {
      if x != u { assert NodeOk(sh, x); }
    }
    forall x, c | x in sh'.nodes && c in sh'.nodes[x].children ensures ChildOk(sh', x, c) {
      if x in sh.nodes && c in sh.nodes[x].children { assert ChildOk(sh, x, c); }
    }
  }

  lemma LeafHomeOk(sh: Shape, par: nat, toks: Prefix, blocks: seq<nat>, u: nat, clock: nat)
    requires TreeOk(sh) && par in sh.nodes && |toks| == |blocks| > 0 && toks[0] !in sh.nodes[par].children
    requires u !in sh.nodes
    ensures HomeOk(LeafShape(sh, par, toks, blocks, u, clock))
  {
    var sh' := LeafShape(sh, par, toks, blocks, u, clock);
    NewPrefixesAreNew(sh, par, toks);
    forall p | p in sh'.home ensures Covers(sh', sh'.home[p], p) {
      if p in sh.home {
        assert Covers(sh, sh.home[p], p) && NodeOk(sh, sh.home[p]);
      }
    }
    forall x, p | Covers(sh', x, p) ensures p in sh'.home && sh'.home[p] == x {
      if x != u {
        assert NodeOk(sh, x);
        assert Covers(sh, x, p);
      }
    }
  }

  lemma LeafKeepsOld(sh: Shape, par: nat, toks: Prefix, blocks: seq<nat>, u: nat, clock: nat, p: Prefix)
    requires TreeOk(sh) && par in sh.nodes && |toks| == |blocks| > 0 && u !in sh.nodes && p in sh.home
    requires TreeOk(LeafShape(sh, par, toks, blocks, u, clock))
    ensures var sh' := LeafShape(sh, par, toks, blocks, u, clock);
      Cached(sh')[p] == Cached(sh)[p] && Locks(sh')[p] == Locks(sh)[p]
  {
    var sh' := LeafShape(sh, par, toks, blocks, u, clock);
    assert Covers(sh, sh.home[p], p) && NodeOk(sh, sh.home[p]);
    assert BlockAt(sh', p) == BlockAt(sh, p);
  }

  lemma LeafHoldsNew(sh: Shape, par: nat, toks: Prefix, blocks: seq<nat>, u: nat, clock: nat, p: Prefix)
    requires TreeOk(sh) && par in sh.nodes && |toks| == |blocks| > 0 && u !in sh.nodes
    requires p in NewPrefixes(sh.path[par], toks) && p !in sh.home
    requires TreeOk(LeafShape(sh, par, toks, blocks, u, clock))
    ensures var sh' := LeafShape(sh, par, toks, blocks, u, clock);
      && p in sh'.home
      && Cached(sh')[p] == blocks[|p| - 1 - |sh.path[par]|] && Locks(sh')[p] == 0
  {
    var sh' := LeafShape(sh, par, toks, blocks, u, clock);
    hide TreeOk;
    assert sh'.home[p] == u;
    assert BlockAt(sh', p) == blocks[|p| - 1 - |sh.path[par]|];
  }

  /** Inserting a leaf adds exactly the prefixes its edge spells, unlocked, and changes nothing else. */
  lemma LeafAdds(sh: Shape, par: nat, toks: Prefix, blocks: seq<nat>, u: nat, clock: nat)
    requires TreeOk(sh) && par in sh.nodes && |toks| == |blocks| > 0 && toks[0] !in sh.nodes[par].children
    requires u !in sh.nodes
    ensures var sh' := LeafShape(sh, par, toks, blocks, u, clock);
      && TreeOk(sh')
      && sh'.home.Keys == sh.home.Keys + NewPrefixes(sh.path[par], toks)
      && sh.home.Keys !! NewPrefixes(sh.path[par], toks)
      && (forall p :: p in sh.home ==> Cached(sh')[p] == Cached(sh)[p] && Locks(sh')[p] == Locks(sh)[p])
      && (forall p :: p in NewPrefixes(sh.path[par], toks) ==>
            Cached(sh')[p] == blocks[|p| - 1 - |sh.path[par]|] && Locks(sh')[p] == 0)
  {
    var sh' := LeafShape(sh, par, toks, blocks, u, clock);
    NewPrefixesAreNew(sh, par, toks);
    LeafNodesOk(sh, par, toks, blocks, u, clock);
    LeafHomeOk(sh, par, toks, blocks, u, clock);
    hide TreeOk;
    forall p | p in sh.home
      ensures Cached(sh')[p] == Cached(sh)[p] && Locks(sh')[p] == Locks(sh)[p]
    {
      LeafKeepsOld(sh, par, toks, blocks, u, clock, p);
    }
    forall p | p in NewPrefixes(sh.path[par], toks)
      ensures Cached(sh')[p] == blocks[|p| - 1 - |sh.path[par]|] && Locks(sh')[p] == 0
    {
      LeafHoldsNew(sh, par, toks, blocks, u, clock, p);
    }
  }

  // ------------------------------------------------------------ remove a leaf

  function RemoveNodes(nodes: map<nat, Node>, n: nat): map<nat, Node>
    requires n in nodes && nodes[n].parent in nodes && nodes[n].parent != n && |nodes[n].tokens| > 0
  {
    var par := nodes[n].parent;
    (nodes - {n})[par := nodes[par].(children := nodes[par].children - {nodes[n].tokens[0]})]
  }

  ghost predicate IsLeaf(sh: Shape, n: nat) {
    IsNode(sh, n) && sh.nodes[n].children == map[]
  }

  lemma NotOwnParent(sh: Shape, n: nat)
    requires TreeOk(sh) && IsNode(sh, n)
    ensures sh.nodes[n].parent in sh.nodes && sh.nodes[n].parent != n && |sh.nodes[n].tokens| > 0
  {
    PathCovered(sh, n);
    assert NodeOk(sh, n);
  }

  ghost function RemoveShape(sh: Shape, n: nat): Shape
    requires TreeOk(sh) && IsNode(sh, n)
  {
    NotOwnParent(sh, n);
    Shape(RemoveNodes(sh.nodes, n), sh.path - {n}, map p | p in sh.home && sh.home[p] != n :: sh.home[p])
  }

  lemma RemoveNodesOk(sh: Shape, n: nat)
    requires TreeOk(sh) && IsLeaf(sh, n)
    ensures NodesOk(RemoveShape(sh, n))
  {
    var sh' := RemoveShape(sh, n);
    NotOwnParent(sh, n);
    assert NodeOk(sh, n);
    forall x | IsNode(sh', x) ensures NodeOk(sh', x) {
      assert NodeOk(sh, x);
      assert sh.nodes[x].parent != n;
    }
    forall x, c | x in sh'.nodes && c in sh'.nodes[x].children ensures ChildOk(sh', x, c) {
      assert ChildOk(sh, x, c);
    }
  }

  lemma RemoveHomeOk(sh: Shape, n: nat)
    requires TreeOk(sh) && IsLeaf(sh, n)
    ensures HomeOk(RemoveShape(sh, n))
  {
    var sh' := RemoveShape(sh, n);
    NotOwnParent(sh, n);
    assert NodeOk(sh, n);
    forall p | p in sh'.home ensures Covers(sh', sh'.home[p], p) {
      assert Covers(sh, sh.home[p], p) && NodeOk(sh, sh.home[p]);
      assert sh.nodes[sh.home[p]].parent != n;
    }
    forall x, p | Covers(sh', x, p) ensures p in sh'.home && sh'.home[p] == x {
      assert NodeOk(sh, x);
      assert Covers(sh, x, p);
    }
  }

  lemma RemoveKeepsOthers(sh: Shape, n: nat, p: Prefix)
    requires TreeOk(sh) && IsLeaf(sh, n) && p in sh.home && sh.home[p] != n
    requires TreeOk(RemoveShape(sh, n))
    ensures var sh' := RemoveShape(sh, n);
      Cached(sh')[p] == Cached(sh)[p] && Locks(sh')[p] == Locks(sh)[p]
  {
    var sh' := RemoveShape(sh, n);
    NotOwnParent(sh, n);
    assert Covers(sh, sh.home[p], p) && NodeOk(sh, sh.home[p]);
    assert BlockAt(sh', p) == BlockAt(sh, p);
  }

  /** Removing a leaf forgets exactly the prefixes on its edge; what is left is closed under
      prefixes, because nothing hangs below them. */
  lemma RemoveForgets(sh: Shape, n: nat)
    requires TreeOk(sh) && IsLeaf(sh, n)
    ensures var sh' := RemoveShape(sh, n);
      && TreeOk(sh')
      && (forall p :: p in sh'.home <==> p in sh.home && sh.home[p] != n)
      && (forall p :: p in sh'.home ==> Cached(sh')[p] == Cached(sh)[p] && Locks(sh')[p] == Locks(sh)[p])
  {
    var sh' := RemoveShape(sh, n);
    RemoveNodesOk(sh, n);
    RemoveHomeOk(sh, n);
    forall p | p in sh'.home
      ensures Cached(sh')[p] == Cached(sh)[p] && Locks(sh')[p] == Locks(sh)[p]
    {
      RemoveKeepsOthers(sh, n, p);
    }
  }

  // ------------------------------------------------------------ lock counts and access times

  /** `a` and `b` differ in lock counts and access times only. */
  ghost predicate SameTree(a: Shape, b: Shape) {
    && a.path == b.path && a.home == b.home && a.nodes.Keys == b.nodes.Keys
    && (forall n :: n in a.nodes ==>
          b.nodes[n] == a.nodes[n].(lock := b.nodes[n].lock, lastAccess := b.nodes[n].lastAccess))
  }

  lemma SameTreeOk(a: Shape, b: Shape)
    requires TreeOk(a) && SameTree(a, b)
    ensures TreeOk(b)
    ensures Cached(b) == Cached(a)
  {
    SameNodesOk(a, b);
    SameHomeOk(a, b);
    hide NodesOk, HomeOk;
    SameBlocks(a, b);
  }

  lemma SameNodesOk(a: Shape, b: Shape)
    requires NodesOk(a) && SameTree(a, b)
    ensures NodesOk(b)
  {
    forall n | IsNode(b, n) ensures NodeOk(b, n) { assert NodeOk(a, n); }
    forall n, c | n in b.nodes && c in b.nodes[n].children ensures ChildOk(b, n, c) { assert ChildOk(a, n, c); }
  }

  lemma SameHomeOk(a: Shape, b: Shape)
    requires TreeOk(a) && SameTree(a, b)
    ensures HomeOk(b)
  {
    forall p | p in b.home ensures Covers(b, b.home[p], p) { assert Covers(a, a.home[p], p); }
    forall n, p | Covers(b, n, p) ensures p in b.home && b.home[p] == n {
      assert NodeOk(a, n);
      assert Covers(a, n, p);
    }
  }

  lemma SameBlocks(a: Shape, b: Shape)
    requires TreeOk(a) && TreeOk(b) && SameTree(a, b)
    ensures Cached(b) == Cached(a)
  {
    forall p | p in a.home ensures BlockAt(b, p) == BlockAt(a, p) {
      assert Covers(a, a.home[p], p) && NodeOk(a, a.home[p]);
    }
  }

  /** Two nodes on one path are told apart by where their edges end. */
  lemma EdgeUnique(sh: Shape, n: nat, x: nat)
    requires TreeOk(sh) && IsNode(sh, n) && IsNode(sh, x) && sh.path[x] <= sh.path[n]
    requires sh.nodes[n].parent in sh.path && |Above(sh, n)| < |sh.path[x]|
    ensures x == n
  {
    PathCovered(sh, x);
    assert Covers(sh, n, sh.path[x]);
  }

  // ------------------------------------------------------------ counting blocks

  /** The prefixes whose last chunk lies on `n`'s edge. */
  ghost function Edge(sh: Shape, n: nat): set<Prefix> {
    set p | p in sh.home && sh.home[p] == n
  }

  lemma {:induction false} NewPrefixesCount(base: Prefix, toks: Prefix)
    ensures |NewPrefixes(base, toks)| == |toks|
  {
    if toks == [] {
      assert NewPrefixes(base, toks) == {};
    } else {
      var init := toks[..|toks| - 1];
      NewPrefixesCount(base, init);
      NewPrefixesGrow(base, toks);
      LongestIsNew(base, init, base + toks);
    }
  }

  lemma LongestIsNew(base: Prefix, init: Prefix, whole: Prefix)
    requires |whole| > |base| + |init|
    ensures whole !in NewPrefixes(base, init)
  {
  }

  lemma NewPrefixesGrow(base: Prefix, toks: Prefix)
    requires toks != []
    ensures NewPrefixes(base, toks) == NewPrefixes(base, toks[..|toks| - 1]) + {base + toks}
  {
    var (init, whole) := (toks[..|toks| - 1], base + toks);
    assert base + init == whole[..|whole| - 1];
  }

  lemma EdgeCount(sh: Shape, n: nat)
    requires TreeOk(sh) && IsNode(sh, n)
    ensures |Edge(sh, n)| == |sh.nodes[n].blocks|
  {
    assert NodeOk(sh, n);
    var base, toks := Above(sh, n), sh.nodes[n].tokens;
    NewPrefixesCount(base, toks);
    forall p ensures p in Edge(sh, n) <==> p in NewPrefixes(base, toks) {
      if p in Edge(sh, n) { assert Covers(sh, n, p); }
      if p in NewPrefixes(base, toks) { assert Covers(sh, n, p); }
    }
    assert Edge(sh, n) == NewPrefixes(base, toks);
  }

  /** Cached prefixes that no request locks: what eviction may free. */
  ghost function Unlocked(sh: Shape): set<Prefix>
    requires TreeOk(sh)
  {
    set p | p in sh.home && Locks(sh)[p] == 0
  }

  // ------------------------------------------------------------ blocks along a path

  lemma InValues(m: map<Prefix, nat>, p: Prefix)
    requires p in m
    ensures m[p] in m.Values
  {
  }

  /** Every prefix of `p` is cached. */
  ghost predicate Whole(cached: map<Prefix, nat>, p: Prefix) {
    forall i :: 0 < i <= |p| ==> p[..i] in cached
  }

  /** The blocks that hold `p`, in order. */
  ghost function PathBlocks(cached: map<Prefix, nat>, p: Prefix): (r: seq<nat>)
    requires Whole(cached, p)
    ensures |r| == |p|
    ensures forall i :: 0 <= i < |p| ==> r[i] == cached[p[..i + 1]]
  {
    seq(|p|, i requires 0 <= i < |p| => assert p[..i + 1] in cached; cached[p[..i + 1]])
  }

  lemma NodeWhole(sh: Shape, n: nat)
    requires TreeOk(sh) && n in sh.path
    ensures Whole(Cached(sh), sh.path[n])
  {
    if n != ROOT {
      PathCovered(sh, n);
      forall i | 0 < i <= |sh.path[n]| ensures sh.path[n][..i] in sh.home {
        AllPrefixes(sh, sh.path[n], i);
      }
    }
  }

  /** Where the blocks of `n`'s edge appear among the cached prefixes. */
  lemma EdgeBlocks(sh: Shape, n: nat, i: nat)
    requires TreeOk(sh) && IsNode(sh, n) && n in sh.path && sh.nodes[n].parent in sh.path
    requires |Above(sh, n)| <= i < |sh.path[n]|
    ensures |sh.path[n]| == |Above(sh, n)| + |sh.nodes[n].blocks|
    ensures sh.path[n][..i + 1] in sh.home && sh.home[sh.path[n][..i + 1]] == n
    ensures Cached(sh)[sh.path[n][..i + 1]] == sh.nodes[n].blocks[i - |Above(sh, n)|]
  {
    assert NodeOk(sh, n);
    var p := sh.path[n][..i + 1];
    assert Covers(sh, n, p);
    assert BlockAt(sh, p) == sh.nodes[n].blocks[i - |Above(sh, n)|];
  }

  // ------------------------------------------------------------ one lock count

  ghost function SetLock(sh: Shape, n: nat, l: nat): Shape
    requires n in sh.nodes
  {
    sh.(nodes := sh.nodes[n := sh.nodes[n].(lock := l)])
  }

  lemma SetLockTree(sh: Shape, n: nat, l: nat)
    requires TreeOk(sh) && IsNode(sh, n)
    ensures var c := SetLock(sh, n, l);
      && TreeOk(c) && Cached(c) == Cached(sh)
      && (forall p :: p in sh.home ==> Locks(c)[p] == if sh.home[p] == n then l else Locks(sh)[p])
      && (forall p :: p in Edge(sh, n) ==> Locks(sh)[p] == sh.nodes[n].lock)
  {
    var c := SetLock(sh, n, l);
    SameTreeOk(sh, c);
    forall p | p in sh.home ensures Locks(c)[p] == if sh.home[p] == n then l else Locks(sh)[p] {
      assert Covers(sh, sh.home[p], p);
    }
  }

  lemma SetLockFacts(sh: Shape, n: nat, l: nat)
    requires TreeOk(sh) && IsNode(sh, n)
    ensures var c := SetLock(sh, n, l);
      && TreeOk(c) && Cached(c) == Cached(sh)
      && (forall p :: p in sh.home ==> Locks(c)[p] == if sh.home[p] == n then l else Locks(sh)[p])
      && (sh.nodes[n].lock == 0 && l > 0 ==> |Unlocked(c)| == |Unlocked(sh)| - |sh.nodes[n].blocks|)
      && (sh.nodes[n].lock > 0 && l == 0 ==> |Unlocked(c)| == |Unlocked(sh)| + |sh.nodes[n].blocks|)
      && (sh.nodes[n].lock > 0 && l > 0 ==> |Unlocked(c)| == |Unlocked(sh)|)
  {
    hide TreeOk, Cached, Locks;
    var c := SetLock(sh, n, l);
    SetLockTree(sh, n, l);
    EdgeCount(sh, n);
    if sh.nodes[n].lock == 0 && l > 0 {
      assert Unlocked(c) == Unlocked(sh) - Edge(sh, n);
    } else if sh.nodes[n].lock > 0 && l == 0 {
      assert Unlocked(c) == Unlocked(sh) + Edge(sh, n);
    } else if sh.nodes[n].lock > 0 {
      assert Unlocked(c) == Unlocked(sh);
    }
  }

  /** Going one node up a held path uncovers exactly that node's edge. */
  lemma EdgeOfPath(sh: Shape, n: nat, p: Prefix, held: Prefix)
    requires TreeOk(sh) && IsNode(sh, n) && n in sh.path && sh.nodes[n].parent in sh.path
    requires sh.path[n] <= held && p in sh.home
    ensures sh.home[p] == n <==> p <= held && |Above(sh, n)| < |p| <= |sh.path[n]|
  {
    if sh.home[p] == n {
      assert Covers(sh, n, p);
    } else if p <= held && |Above(sh, n)| < |p| <= |sh.path[n]| {
      assert p <= sh.path[n];
      assert Covers(sh, n, p);
    }
  }
}

/** Every block of a tree node has the same holders: a request's table lists all of a node's blocks or
    none of them. So the blocks of a node have one reference count. Splits keep it because handles
    survive them; commits keep it because a new leaf is its committer's alone. */
module NodeRefs {
  import opened Common
  import opened TreeShape
  import opened EvictionOrder
  import opened RadixTrees
  import opened KvState

  ghost predicate EvenlyHeld(sh: Shape, held: map<nat, Hold>)
    requires TreeOk(sh)
  {
    forall r, p, q :: r in held && p in sh.home && q in sh.home && sh.home[p] == sh.home[q] ==>
      (Cached(sh)[p] in held[r].blocks <==> Cached(sh)[q] in held[r].blocks)
  }

  /** Two prefixes on one edge: one of them is a prefix of the other, and both of the node's path. */
  lemma OneEdge(sh: Shape, p: Prefix, q: Prefix)
    requires TreeOk(sh) && p in sh.home && q in sh.home && sh.home[p] == sh.home[q]
    ensures p <= q || q <= p
    ensures sh.home[p] in sh.path && p <= sh.path[sh.home[p]] && q <= sh.path[sh.home[p]]
  {
    assert Covers(sh, sh.home[p], p) && Covers(sh, sh.home[q], q);
    assert p == sh.path[sh.home[p]][..|p|] && q == sh.path[sh.home[p]][..|q|];
  }

  /** While handles survive, edges are only cut, never joined: if a prefix was cached before, so was
      every longer one that is on its edge now, and on the same edge. */
  lemma EdgesOnlyCut(a: Shape, b: Shape, p: Prefix, q: Prefix)
    requires TreeOk(a) && TreeOk(b) && HandlesKept(a.path, b.path) && p <= q
    requires p in b.home && q in b.home && b.home[p] == b.home[q] && p in a.home
    ensures q in a.home && a.home[q] == a.home[p]
  {
    var h := a.home[p];
    assert Covers(a, h, p);
    assert a.path.Keys == a.nodes.Keys && b.path.Keys == b.nodes.Keys;
    OneEdge(b, p, q);
    BelowEdge(b, p, h);
    assert q <= a.path[h];
    assert Covers(a, h, q);
  }

  /** Splits and locks keep it. */
  lemma CutEvenly(a: Shape, b: Shape, held: map<nat, Hold>)
    requires TreeOk(a) && TreeOk(b) && HandlesKept(a.path, b.path) && Cached(b) == Cached(a) && EvenlyHeld(a, held)
    ensures EvenlyHeld(b, held)
  {
    hide TreeOk, HandlesKept, Cached;
    forall r, p, q | r in held && p in b.home && q in b.home && b.home[p] == b.home[q]
      ensures Cached(b)[p] in held[r].blocks <==> Cached(b)[q] in held[r].blocks
    {
      OneEdge(b, p, q);
      assert b.home.Keys == Cached(b).Keys == Cached(a).Keys == a.home.Keys;
      if p <= q { EdgesOnlyCut(a, b, p, q); } else { EdgesOnlyCut(a, b, q, p); }
    }
  }

  /** A block of the tree is in the path's blocks exactly if its prefix is on the path. */
  lemma OnPathIff(cached: map<Prefix, nat>, p: Prefix, q: Prefix)
    requires Injective(cached) && Whole(cached, p) && q in cached && q != []
    ensures cached[q] in PathBlocks(cached, p) <==> q <= p
  {
    var blocks := PathBlocks(cached, p);
    if q <= p {
      assert p[..|q| - 1 + 1] == q;
      assert blocks[|q| - 1] == cached[q];
    }
    if cached[q] in blocks {
      var i :| 0 <= i < |blocks| && blocks[i] == cached[q];
      assert cached[p[..i + 1]] == cached[q];
    }
  }

  /** A new table takes the blocks of whole nodes: its path ends where a node ends. */
  lemma TakenEvenly(sh: Shape, held: map<nat, Hold>, r: nat, n: nat)
    requires TreeOk(sh) && Injective(Cached(sh)) && EvenlyHeld(sh, held) && n in sh.nodes && n in sh.path
    requires Whole(Cached(sh), sh.path[n])
    ensures EvenlyHeld(sh, held[r := Hold(PathBlocks(Cached(sh), sh.path[n]), sh.path[n])])
  {
    hide TreeOk, Cached, Injective, Whole;
    var held' := held[r := Hold(PathBlocks(Cached(sh), sh.path[n]), sh.path[n])];
    forall x, p, q | x in held' && p in sh.home && q in sh.home && sh.home[p] == sh.home[q]
      ensures Cached(sh)[p] in held'[x].blocks <==> Cached(sh)[q] in held'[x].blocks
    {
      if x == r {
        BelowEdge(sh, p, n);
        BelowEdge(sh, q, n);
        NotEmpty(sh, p);
        NotEmpty(sh, q);
        OnPathIff(Cached(sh), sh.path[n], p);
        OnPathIff(Cached(sh), sh.path[n], q);
      }
    }
  }

  lemma NotEmpty(sh: Shape, p: Prefix)
    requires TreeOk(sh) && p in sh.home
    ensures p != []
  {
    assert Covers(sh, sh.home[p], p);
  }

  lemma DroppedEvenly(sh: Shape, held: map<nat, Hold>, r: nat)
    requires TreeOk(sh) && EvenlyHeld(sh, held)
    ensures EvenlyHeld(sh, held - {r})
  {
  }

  /** New blocks of a table come from the free stack, not from the tree. */
  lemma GrownEvenly(sh: Shape, kv: Kv, r: nat, news: seq<nat>)
    requires TreeOk(sh) && kv.cached == Cached(sh) && EvenlyHeld(sh, kv.held) && r in kv.held
    requires forall b :: b in news ==> b in FreeBlocks(kv)
    ensures EvenlyHeld(sh, Grown(kv, r, news).held)
  {
    hide TreeOk, Cached;
    var held' := Grown(kv, r, news).held;
    forall x, p, q | x in held' && p in sh.home && q in sh.home && sh.home[p] == sh.home[q]
      ensures Cached(sh)[p] in held'[x].blocks <==> Cached(sh)[q] in held'[x].blocks
    {
      InValues(Cached(sh), p);
      InValues(Cached(sh), q);
    }
  }

  /** A block that enters the tree is in its committer's table and in no other. */
  lemma NewIsOwn(kv: Kv, r: nat, key: Prefix, p: Prefix, x: nat)
    requires KvOk(kv) && r in kv.held && kv.held[r].path <= key && |key| <= |kv.held[r].blocks| && x in kv.held
    requires p in Committed(kv, r, key).cached && p !in kv.cached
    ensures Committed(kv, r, key).cached[p] in kv.held[x].blocks <==> x == r
  {
    hide KvOk;
    CommitTakesOwn(kv, r, key, p);
    var b := kv.held[r].blocks[|p| - 1];
    assert b in kv.held[r].blocks;
    if b in kv.held[x].blocks { IsHolder(kv, x, b); }
  }

  lemma CommittedEvenly(a: Shape, b: Shape, kv: Kv, r: nat, key: Prefix)
    requires TreeOk(a) && TreeOk(b) && HandlesKept(a.path, b.path) && EvenlyHeld(a, kv.held) && KvOk(kv)
    requires r in kv.held && kv.held[r].path <= key && |key| <= |kv.held[r].blocks|
    requires kv.cached == Cached(a) && Committed(kv, r, key).cached == Cached(b)
    ensures EvenlyHeld(b, Committed(kv, r, key).held)
  {
    hide TreeOk, HandlesKept, Cached, KvOk, EvenlyHeld, CommitMap, Holders;
    forall x, p, q | x in kv.held && p in b.home && q in b.home && b.home[p] == b.home[q]
      ensures Cached(b)[p] in kv.held[x].blocks <==> Cached(b)[q] in kv.held[x].blocks
    {
      OneEdge(b, p, q);
      if p <= q { EdgeAfterCommit(a, b, kv, r, key, p, q, x); } else { EdgeAfterCommit(a, b, kv, r, key, q, p, x); }
    }
    SameTables(b, kv.held, Committed(kv, r, key).held);
  }

  lemma SameTables(sh: Shape, held: map<nat, Hold>, held': map<nat, Hold>)
    requires TreeOk(sh) && held'.Keys == held.Keys && forall r :: r in held ==> held'[r].blocks == held[r].blocks
    requires forall x, p, q :: x in held && p in sh.home && q in sh.home && sh.home[p] == sh.home[q] ==>
      (Cached(sh)[p] in held[x].blocks <==> Cached(sh)[q] in held[x].blocks)
    ensures EvenlyHeld(sh, held')
  {
    hide TreeOk, Cached;
  }

  lemma EdgeAfterCommit(a: Shape, b: Shape, kv: Kv, r: nat, key: Prefix, p: Prefix, q: Prefix, x: nat)
    requires TreeOk(a) && TreeOk(b) && HandlesKept(a.path, b.path) && EvenlyHeld(a, kv.held) && KvOk(kv)
    requires r in kv.held && kv.held[r].path <= key && |key| <= |kv.held[r].blocks| && x in kv.held
    requires kv.cached == Cached(a) && Committed(kv, r, key).cached == Cached(b)
    requires p in b.home && q in b.home && b.home[p] == b.home[q] && p <= q
    ensures Cached(b)[p] in kv.held[x].blocks <==> Cached(b)[q] in kv.held[x].blocks
  {
    hide TreeOk, HandlesKept, Cached, KvOk;
    assert Cached(a).Keys == a.home.Keys && Cached(b).Keys == b.home.Keys;
    if p in a.home {
      EdgesOnlyCut(a, b, p, q);
    } else {
      if q in a.home { PrefixCached(a, p, q); }
      NewIsOwn(kv, r, key, p, x);
      NewIsOwn(kv, r, key, q, x);
    }
  }

  lemma PrefixCached(sh: Shape, p: Prefix, q: Prefix)
    requires TreeOk(sh) && q in sh.home && p <= q && p != []
    ensures p in sh.home
  {
    AllPrefixes(sh, q, |p|);
    assert q[..|p|] == p;
  }

  lemma SparedEvenly(a: Shape, b: Shape, held: map<nat, Hold>)
    requires TreeOk(a) && TreeOk(b) && Spares(a, b) && EvenlyHeld(a, held)
    ensures EvenlyHeld(b, held)
  {
    hide TreeOk, Cached;
  }

  // ------------------------------------------------------------ one count per node

  /** `check_invariants`: the blocks of one node have the same reference count. */
  lemma NodeRefsEqual(sh: Shape, kv: Kv, refs: seq<nat>, p: Prefix, q: Prefix)
    requires TreeOk(sh) && kv.cached == Cached(sh) && EvenlyHeld(sh, kv.held) && KvOk(kv) && RefsOk(kv, refs)
    requires p in sh.home && q in sh.home && sh.home[p] == sh.home[q]
    ensures Cached(sh)[p] < |refs| && Cached(sh)[q] < |refs|
    ensures refs[Cached(sh)[p]] == refs[Cached(sh)[q]]
  {
    hide TreeOk, Cached;
    assert CachedOk(kv);
    InValues(kv.cached, p);
    InValues(kv.cached, q);
    assert Holders(kv, kv.cached[p]) == Holders(kv, kv.cached[q]);
  }
}

/** Which leaves an eviction removes, and in which order: always the unlocked leaf least recently
    used, ties by creation. Both evictions of the tree (the full walk with a heap, and the ordered
    index) are proved to follow this one definition; here it is shown to free enough, to free
    nothing that is locked, and to be least-recently-used over the whole tree. */
module EvictionOrder {
  import opened Common
  import opened TreeShape

  type Key = (nat, nat)

  predicate KeyLe(a: Key, b: Key) {
    a.0 < b.0 || (a.0 == b.0 && a.1 <= b.1)
  }

  predicate EvictableNode(nodes: map<nat, Node>, n: nat) {
    n in nodes && n != ROOT && nodes[n].children == map[] && nodes[n].lock == 0
  }

  function KeyOf(nodes: map<nat, Node>, n: nat): Key
    requires n in nodes
  {
    (nodes[n].lastAccess, n)
  }

  ghost function Candidates(nodes: map<nat, Node>): set<nat> {
    set n | n in nodes && EvictableNode(nodes, n)
  }

  ghost predicate IsOldest(nodes: map<nat, Node>, n: nat) {
    EvictableNode(nodes, n)
    && forall m :: EvictableNode(nodes, m) ==> KeyLe(KeyOf(nodes, n), KeyOf(nodes, m))
  }

  lemma OldestIsUnique(nodes: map<nat, Node>, a: nat, b: nat)
    requires IsOldest(nodes, a) && IsOldest(nodes, b)
    ensures a == b
  {
  }

  lemma {:induction false} OldestAmong(nodes: map<nat, Node>, s: set<nat>) returns (n: nat)
    requires s != {} && s <= Candidates(nodes)
    ensures n in s && forall m :: m in s ==> KeyLe(KeyOf(nodes, n), KeyOf(nodes, m))
    decreases |s|
  {
    n :| n in s;
    if s != {n} {
      var rest := s - {n};
      assert rest + {n} == s;
      var m := OldestAmong(nodes, rest);
      if KeyLe(KeyOf(nodes, m), KeyOf(nodes, n)) { n := m; }
    }
  }

  ghost function Oldest(nodes: map<nat, Node>): (n: nat)
    requires Candidates(nodes) != {}
    ensures n in nodes && IsOldest(nodes, n)
  {
    assert exists n :: IsOldest(nodes, n) by {
      var n := OldestAmong(nodes, Candidates(nodes));
      assert IsOldest(nodes, n);
    }
    var n :| IsOldest(nodes, n);
    n
  }

  ghost function AfterOldest(sh: Shape): (r: Shape)
    requires TreeOk(sh) && Candidates(sh.nodes) != {}
    ensures TreeOk(r) && |r.nodes| < |sh.nodes|
  {
    var o := Oldest(sh.nodes);
    RemoveForgets(sh, o);
    NotOwnParent(sh, o);
    var r := RemoveShape(sh, o);
    assert r.nodes.Keys == sh.nodes.Keys - {o};
    assert |r.nodes| == |r.nodes.Keys| && |sh.nodes| == |sh.nodes.Keys|;
    r
  }

  /** The nodes an eviction of at least `k` blocks removes, in order. */
  ghost function Victims(sh: Shape, k: int): seq<nat>
    requires TreeOk(sh)
    decreases |sh.nodes|
  {
    if k <= 0 || Candidates(sh.nodes) == {} then []
    else
      var o := Oldest(sh.nodes);
      [o] + Victims(AfterOldest(sh), k - |sh.nodes[o].blocks|)
  }

  /** The tree such an eviction leaves. */
  ghost function Survivors(sh: Shape, k: int): (r: Shape)
    requires TreeOk(sh)
    ensures TreeOk(r)
    decreases |sh.nodes|
  {
    if k <= 0 || Candidates(sh.nodes) == {} then sh
    else Survivors(AfterOldest(sh), k - |sh.nodes[Oldest(sh.nodes)].blocks|)
  }

  /** No node is locked more often than its parent. */
  ghost predicate LocksNest(sh: Shape) {
    forall n :: IsNode(sh, n) && IsNode(sh, sh.nodes[n].parent) ==>
      sh.nodes[n].lock <= sh.nodes[sh.nodes[n].parent].lock
  }

  /** No node was used more recently than its parent. */
  ghost predicate RecencyNests(sh: Shape) {
    forall n :: IsNode(sh, n) && IsNode(sh, sh.nodes[n].parent) ==>
      sh.nodes[n].lastAccess <= sh.nodes[sh.nodes[n].parent].lastAccess
  }

  lemma RemovalKeepsNesting(sh: Shape)
    requires TreeOk(sh) && Candidates(sh.nodes) != {}
    ensures LocksNest(sh) ==> LocksNest(AfterOldest(sh))
    ensures RecencyNests(sh) ==> RecencyNests(AfterOldest(sh))
  {
  }

  ghost function Deeper(sh: Shape, n: nat): set<nat>
    requires n in sh.path
  {
    set x | x in sh.path && |sh.path[x]| > |sh.path[n]|
  }

  /** Below every unlocked node there is an unlocked leaf, used no more recently. */
  lemma {:induction false} LeafBelow(sh: Shape, n: nat) returns (d: nat)
    requires TreeOk(sh) && IsNode(sh, n) && sh.nodes[n].lock == 0
    requires LocksNest(sh)
    ensures EvictableNode(sh.nodes, d) && d in Candidates(sh.nodes)
    ensures RecencyNests(sh) ==> sh.nodes[d].lastAccess <= sh.nodes[n].lastAccess
    decreases |Deeper(sh, n)|
  {
    if sh.nodes[n].children == map[] {
      d := n;
    } else {
      var c :| c in sh.nodes[n].children;
      var m := sh.nodes[n].children[c];
      assert ChildOk(sh, n, c) && NodeOk(sh, m);
      assert m in Deeper(sh, n) && m !in Deeper(sh, m);
      assert Deeper(sh, m) < Deeper(sh, n);
      SubsetSize(Deeper(sh, m), Deeper(sh, n));
      d := LeafBelow(sh, m);
    }
  }

  lemma SubsetSize<T>(a: set<T>, b: set<T>)
    requires a < b
    ensures |a| < |b|
  {
    assert b == a + (b - a);
    assert b - a != {};
  }

  /** Without candidates left, nothing unlocked is left either. */
  lemma NoCandidates(sh: Shape)
    requires TreeOk(sh) && LocksNest(sh) && Candidates(sh.nodes) == {}
    ensures Unlocked(sh) == {}
  {
    if p :| p in sh.home && Locks(sh)[p] == 0 {
      assert Covers(sh, sh.home[p], p);
      assert sh.nodes[sh.home[p]].lock == 0;
      var d := LeafBelow(sh, sh.home[p]);
    }
  }

  /** Removing an unlocked leaf frees exactly the blocks of its edge. */
  lemma RemoveFrees(sh: Shape, n: nat)
    requires TreeOk(sh) && EvictableNode(sh.nodes, n)
    ensures TreeOk(RemoveShape(sh, n))
    ensures var r := RemoveShape(sh, n);
      && Edge(sh, n) <= Unlocked(sh)
      && Unlocked(r) == Unlocked(sh) - Edge(sh, n)
      && |Unlocked(r)| == |Unlocked(sh)| - |sh.nodes[n].blocks|
      && |r.home| == |sh.home| - |sh.nodes[n].blocks|
  {
    hide TreeOk;
    var r := RemoveShape(sh, n);
    RemoveForgets(sh, n);
    EdgeCount(sh, n);
    EdgeUnlocked(sh, n);
    hide RemoveShape, Unlocked, Edge;
    assert |r.home| == |r.home.Keys| && |sh.home| == |sh.home.Keys|;
  }

  lemma EdgeUnlocked(sh: Shape, n: nat)
    requires TreeOk(sh) && EvictableNode(sh.nodes, n)
    ensures TreeOk(RemoveShape(sh, n))
    ensures var r := RemoveShape(sh, n);
      && Edge(sh, n) <= Unlocked(sh)
      && Unlocked(r) == Unlocked(sh) - Edge(sh, n)
      && r.home.Keys == sh.home.Keys - Edge(sh, n) && Edge(sh, n) <= sh.home.Keys
  {
    var r := RemoveShape(sh, n);
    RemoveForgets(sh, n);
    assert Unlocked(r) == Unlocked(sh) - Edge(sh, n);
    assert r.home.Keys == sh.home.Keys - Edge(sh, n);
  }

  lemma RemovalFrees(sh: Shape)
    requires TreeOk(sh) && Candidates(sh.nodes) != {}
    ensures var (o, r) := (Oldest(sh.nodes), AfterOldest(sh));
      && |Unlocked(r)| == |Unlocked(sh)| - |sh.nodes[o].blocks|
      && |r.home| == |sh.home| - |sh.nodes[o].blocks|
  {
    hide TreeOk, Unlocked;
    RemoveFrees(sh, Oldest(sh.nodes));
  }

  /** An eviction frees at least what it was asked for, or everything that is unlocked. */
  lemma {:induction false} EvictionSuffices(sh: Shape, k: int)
    requires TreeOk(sh) && LocksNest(sh)
    ensures var freed := |Unlocked(sh)| - |Unlocked(Survivors(sh, k))|;
      && freed >= (if k <= |Unlocked(sh)| then k else |Unlocked(sh)|)
      && |sh.home| - |Survivors(sh, k).home| == freed
    decreases |sh.nodes|
  {
    hide TreeOk, LocksNest, RecencyNests, AfterOldest, Edge, Unlocked;
    if k > 0 {
      if Candidates(sh.nodes) == {} {
        NoCandidates(sh);
      } else {
        RemovalFrees(sh);
        RemovalKeepsNesting(sh);
        EvictionSuffices(AfterOldest(sh), k - |sh.nodes[Oldest(sh.nodes)].blocks|);
      }
    }
  }

  /** `r` is part of `sh`, unchanged, and everything that is missing was unlocked. */
  ghost predicate Spares(sh: Shape, r: Shape)
    requires TreeOk(sh) && TreeOk(r)
  {
    && (forall p :: p in r.home ==>
          p in sh.home && r.home[p] == sh.home[p] && Cached(r)[p] == Cached(sh)[p] && Locks(r)[p] == Locks(sh)[p])
    && (forall p :: p in sh.home && Locks(sh)[p] > 0 ==> p in r.home)
    && (forall n :: n in r.nodes ==> SameNode(sh, r, n))
    && (forall n :: n in sh.nodes && sh.nodes[n].lock > 0 ==> n in r.nodes)
    && ROOT in r.nodes
  }

  ghost predicate SameNode(sh: Shape, r: Shape, n: nat) {
    && n in sh.nodes && n in r.nodes && n in sh.path && n in r.path
    && r.path[n] == sh.path[n]
    && r.nodes[n].lock == sh.nodes[n].lock
    && r.nodes[n].lastAccess == sh.nodes[n].lastAccess
  }

  lemma SparesSelf(sh: Shape)
    requires TreeOk(sh)
    ensures Spares(sh, sh)
  {
  }

  lemma SparesTransitive(a: Shape, b: Shape, c: Shape)
    requires TreeOk(a) && TreeOk(b) && TreeOk(c) && Spares(a, b) && Spares(b, c)
    ensures Spares(a, c)
  {
    hide TreeOk;
    forall n | n in c.nodes ensures SameNode(a, c, n) {
      assert SameNode(b, c, n) && SameNode(a, b, n);
    }
  }

  lemma RemovalSpares(sh: Shape)
    requires TreeOk(sh) && Candidates(sh.nodes) != {}
    ensures Spares(sh, AfterOldest(sh))
  {
    RemoveForgets(sh, Oldest(sh.nodes));
    NotOwnParent(sh, Oldest(sh.nodes));
    hide TreeOk;
  }

  /** What survives an eviction is part of the old tree, unchanged; what is gone was unlocked. */
  lemma {:induction false} EvictionSpares(sh: Shape, k: int)
    requires TreeOk(sh)
    ensures Spares(sh, Survivors(sh, k))
    decreases |sh.nodes|, 1
  {
    SparesSelf(sh);
    if k > 0 && Candidates(sh.nodes) != {} {
      SpareOneMore(sh, k);
    }
  }

  lemma {:induction false} SpareOneMore(sh: Shape, k: int)
    requires TreeOk(sh) && k > 0 && Candidates(sh.nodes) != {}
    ensures Spares(sh, Survivors(sh, k))
    decreases |sh.nodes|, 0
  {
    hide TreeOk, Spares, AfterOldest, Oldest, IsOldest, Candidates;
    var r, k' := AfterOldest(sh), k - |sh.nodes[Oldest(sh.nodes)].blocks|;
    RemovalSpares(sh);
    EvictionSpares(r, k');
    SparesTransitive(sh, r, Survivors(r, k'));
  }

  /** Least recently used over the whole tree: no unlocked node that survives was used before a
      node that was evicted. */
  lemma {:induction false} EvictionIsLru(sh: Shape, k: int, e: nat, n: nat)
    requires TreeOk(sh) && LocksNest(sh) && RecencyNests(sh)
    requires e in Victims(sh, k)
    requires IsNode(Survivors(sh, k), n) && Survivors(sh, k).nodes[n].lock == 0
    ensures e in sh.nodes && sh.nodes[e].lock == 0
    ensures n in sh.nodes && sh.nodes[e].lastAccess <= sh.nodes[n].lastAccess
    decreases |sh.nodes|
  {
    hide TreeOk, LocksNest, RecencyNests, AfterOldest, Unlocked;
    EvictionSpares(sh, k);
    assert SameNode(sh, Survivors(sh, k), n);
    var o := Oldest(sh.nodes);
    if e == o {
      var d := LeafBelow(sh, n);
    } else {
      var r := AfterOldest(sh);
      RemovalKeepsNesting(sh);
      EvictionIsLru(r, k - |sh.nodes[o].blocks|, e, n);
      RemovalSpares(sh);
      assert SameNode(sh, r, n) && SameNode(sh, r, e);
    }
  }

  /** The blocks of the nodes in `vs`. */
  ghost function BlocksOf(nodes: map<nat, Node>, vs: seq<nat>): nat {
    if vs == [] then 0
    else (if vs[0] in nodes then |nodes[vs[0]].blocks| else 0) + BlocksOf(nodes, vs[1..])
  }

  /** An eviction takes no victim too many: all but the last would not have been enough. */
  lemma {:induction false} EvictionStops(sh: Shape, k: int)
    requires TreeOk(sh)
    ensures var vs := Victims(sh, k); vs != [] ==> BlocksOf(sh.nodes, vs[..|vs| - 1]) < k
    decreases |sh.nodes|
  {
    hide TreeOk, Oldest, IsOldest, Candidates, AfterOldest;
    if k > 0 && Candidates(sh.nodes) != {} {
      var o := Oldest(sh.nodes);
      var r, k' := AfterOldest(sh), k - |sh.nodes[o].blocks|;
      var rest := Victims(r, k');
      EvictionStops(r, k');
      if rest != [] {
        var front := rest[..|rest| - 1];
        assert Victims(sh, k)[..|rest|] == [o] + front && ([o] + front)[1..] == front;
        LaterVictims(sh, k', front);
      }
    }
  }

  lemma {:induction false} VictimsThere(sh: Shape, k: int)
    requires TreeOk(sh)
    ensures forall v :: v in Victims(sh, k) ==> v in sh.nodes
    decreases |sh.nodes|
  {
    hide TreeOk, Oldest, IsOldest, Candidates;
    if k > 0 && Candidates(sh.nodes) != {} {
      OnlyOldestGoes(sh);
      VictimsThere(AfterOldest(sh), k - |sh.nodes[Oldest(sh.nodes)].blocks|);
    }
  }

  lemma LaterVictims(sh: Shape, k: int, vs: seq<nat>)
    requires TreeOk(sh) && Candidates(sh.nodes) != {} && vs <= Victims(AfterOldest(sh), k)
    ensures BlocksOf(AfterOldest(sh).nodes, vs) == BlocksOf(sh.nodes, vs)
  {
    hide TreeOk, Oldest, IsOldest, Candidates, AfterOldest, Victims, BlocksOf;
    var r := AfterOldest(sh);
    VictimsThere(r, k);
    OnlyOldestGoes(sh);
    forall v | v in vs ensures v in r.nodes && v in sh.nodes && r.nodes[v].blocks == sh.nodes[v].blocks {
      assert v in Victims(r, k);
    }
    SameBlocks(r.nodes, sh.nodes, vs);
  }

  lemma {:induction false} SameBlocks(a: map<nat, Node>, b: map<nat, Node>, vs: seq<nat>)
    requires forall v :: v in vs ==> v in a && v in b && a[v].blocks == b[v].blocks
    ensures BlocksOf(a, vs) == BlocksOf(b, vs)
  {
    if vs != [] { SameBlocks(a, b, vs[1..]); }
  }

  /** What is missing was evicted. */
  lemma {:induction false} MissingWereVictims(sh: Shape, k: int, e: nat)
    requires TreeOk(sh) && e in sh.nodes && e !in Survivors(sh, k).nodes
    ensures e in Victims(sh, k)
    decreases |sh.nodes|
  {
    hide TreeOk, Oldest, IsOldest, Candidates;
    if k > 0 && Candidates(sh.nodes) != {} {
      var o := Oldest(sh.nodes);
      OnlyOldestGoes(sh);
      if e != o { MissingWereVictims(AfterOldest(sh), k - |sh.nodes[o].blocks|, e); }
    }
  }

  lemma OnlyOldestGoes(sh: Shape)
    requires TreeOk(sh) && Candidates(sh.nodes) != {}
    ensures AfterOldest(sh).nodes.Keys == sh.nodes.Keys - {Oldest(sh.nodes)}
    ensures forall n :: n in AfterOldest(sh).nodes ==> AfterOldest(sh).nodes[n].blocks == sh.nodes[n].blocks
  {
    hide TreeOk;
    NotOwnParent(sh, Oldest(sh.nodes));
  }

  /** From `a` to `b` only unlocked nodes were lost, and no unlocked one that stayed was used less
      recently than a lost one. */
  ghost predicate LostOldest(a: Shape, b: Shape) {
    forall e, n :: e in a.nodes && e !in b.nodes && IsNode(b, n) && b.nodes[n].lock == 0 ==>
      a.nodes[e].lock == 0 && n in a.nodes && a.nodes[e].lastAccess <= a.nodes[n].lastAccess
  }

  lemma EvictionLosesOldest(sh: Shape, k: int)
    requires TreeOk(sh) && LocksNest(sh) && RecencyNests(sh)
    ensures LostOldest(sh, Survivors(sh, k))
  {
    hide TreeOk, LocksNest, RecencyNests, Survivors, Victims;
    var r := Survivors(sh, k);
    forall e, n | e in sh.nodes && e !in r.nodes && IsNode(r, n) && r.nodes[n].lock == 0
      ensures sh.nodes[e].lock == 0 && n in sh.nodes && sh.nodes[e].lastAccess <= sh.nodes[n].lastAccess
    {
      MissingWereVictims(sh, k, e);
      EvictionIsLru(sh, k, e, n);
    }
  }

  lemma NothingLost(sh: Shape)
    ensures LostOldest(sh, sh)
  {
  }
}

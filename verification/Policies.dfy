/** Scheduling policies: admission order and the choice of a victim. */
module Policies {
  import opened Common
  import opened BlockTables
  import opened TreeShape
  import opened TokenChunks
  import opened KvState
  import opened Requests
  import opened Machine
  import opened Scheduling
  import opened ScheduleOrder

  datatype PolicyName = Fcfs | ShortestJobFirst | CacheAware

  // ------------------------------------------------------------ a stable sort

  function KeyOf(keys: map<nat, int>, x: nat): int {
    if x in keys then keys[x] else 0
  }

  function InsertBy(x: nat, s: seq<nat>, keys: map<nat, int>): (r: seq<nat>)
    ensures multiset(r) == multiset([x] + s)
  {
    if s == [] || KeyOf(keys, x) <= KeyOf(keys, s[0]) then [x] + s
    else
      assert s == [s[0]] + s[1..];
      [s[0]] + InsertBy(x, s[1..], keys)
  }

  /** `sorted(s, key)`: the smallest key first, ties in their order. */
  function SortBy(s: seq<nat>, keys: map<nat, int>): (r: seq<nat>)
    ensures multiset(r) == multiset(s)
  {
    if s == [] then []
    else
      assert s == [s[0]] + s[1..];
      InsertBy(s[0], SortBy(s[1..], keys), keys)
  }

  predicate SortedBy(s: seq<nat>, keys: map<nat, int>) {
    forall i, j :: 0 <= i < j < |s| ==> KeyOf(keys, s[i]) <= KeyOf(keys, s[j])
  }

  lemma {:induction false} InsertSorted(x: nat, s: seq<nat>, keys: map<nat, int>)
    requires SortedBy(s, keys)
    ensures SortedBy(InsertBy(x, s, keys), keys)
  {
    if s != [] && KeyOf(keys, x) > KeyOf(keys, s[0]) {
      InsertSorted(x, s[1..], keys);
      var rest := InsertBy(x, s[1..], keys);
      forall y | y in rest ensures KeyOf(keys, s[0]) <= KeyOf(keys, y) {
        assert y in multiset(rest);
        assert y == x || y in s[1..];
      }
    }
  }

  lemma {:induction false} SortSorted(s: seq<nat>, keys: map<nat, int>)
    ensures SortedBy(SortBy(s, keys), keys)
  {
    if s != [] {
      SortSorted(s[1..], keys);
      InsertSorted(s[0], SortBy(s[1..], keys), keys);
    }
  }

  lemma {:induction false} InsertStable(x: nat, s: seq<nat>, keys: map<nat, int>, tied: set<nat>)
    requires x in tied ==> forall y :: y in s && y in tied ==> KeyOf(keys, y) == KeyOf(keys, x)
    ensures Only(InsertBy(x, s, keys), tied) == (if x in tied then [x] else []) + Only(s, tied)
  {
    if s != [] && KeyOf(keys, x) > KeyOf(keys, s[0]) {
      hide Only;
      var rest := InsertBy(x, s[1..], keys);
      InsertStable(x, s[1..], keys, tied);
      OnlyCons(s[0], rest, tied);
      OnlyCons(s[0], s[1..], tied);
      assert s == [s[0]] + s[1..];
      Swap(if x in tied then [x] else [], if s[0] in tied then [s[0]] else [], Only(s[1..], tied));
    } else {
      OnlyCons(x, s, tied);
    }
  }

  lemma Swap(a: seq<nat>, b: seq<nat>, c: seq<nat>)
    requires a == [] || b == []
    ensures b + (a + c) == a + (b + c)
  {
    if a == [] { assert a + c == c; } else { assert b + c == c; }
  }

  lemma OnlyCons(x: nat, s: seq<nat>, keep: set<nat>)
    ensures Only([x] + s, keep) == (if x in keep then [x] else []) + Only(s, keep)
  {
    assert ([x] + s)[1..] == s;
  }

  /** Requests with equal keys keep their order. */
  lemma {:induction false} SortStable(s: seq<nat>, keys: map<nat, int>, tied: set<nat>)
    requires forall x, y :: x in s && y in s && x in tied && y in tied ==> KeyOf(keys, x) == KeyOf(keys, y)
    ensures Only(SortBy(s, keys), tied) == Only(s, tied)
  {
    if s != [] {
      SortStable(s[1..], keys, tied);
      forall y | y in SortBy(s[1..], keys) ensures y in s { assert y in multiset(s[1..]); }
      InsertStable(s[0], SortBy(s[1..], keys), keys, tied);
    }
  }

  lemma {:induction false} SortByAgree(s: seq<nat>, a: map<nat, int>, b: map<nat, int>)
    requires forall x :: x in s ==> KeyOf(a, x) == KeyOf(b, x)
    ensures SortBy(s, a) == SortBy(s, b)
  {
    if s != [] {
      SortByAgree(s[1..], a, b);
      forall y | y in SortBy(s[1..], a) ensures y in s { assert y in multiset(s[1..]); }
      InsertAgree(s[0], SortBy(s[1..], a), a, b);
    }
  }

  lemma {:induction false} InsertAgree(x: nat, s: seq<nat>, a: map<nat, int>, b: map<nat, int>)
    requires KeyOf(a, x) == KeyOf(b, x) && forall y :: y in s ==> KeyOf(a, y) == KeyOf(b, y)
    ensures InsertBy(x, s, a) == InsertBy(x, s, b)
  {
    if s != [] { InsertAgree(x, s[1..], a, b); }
  }

  lemma SortMembers(s: seq<nat>, keys: map<nat, int>)
    requires Distinct(s)
    ensures Distinct(SortBy(s, keys)) && forall x :: x in SortBy(s, keys) <==> x in s
  {
    var r := SortBy(s, keys);
    forall x ensures x in r <==> x in s {
      assert x in r <==> x in multiset(r);
      assert x in s <==> x in multiset(s);
    }
    DistinctCount(s);
    CountDistinct(r);
  }

  lemma {:induction false} DistinctCount(s: seq<nat>)
    requires Distinct(s)
    ensures forall x :: multiset(s)[x] <= 1
  {
    if s != [] {
      DistinctCount(s[1..]);
      assert s == [s[0]] + s[1..];
      assert forall i :: 0 < i < |s| ==> s[i] != s[0];
    }
  }

  lemma {:induction false} CountDistinct(s: seq<nat>)
    requires forall x :: multiset(s)[x] <= 1
    ensures Distinct(s)
  {
    if s != [] {
      assert s == [s[0]] + s[1..];
      forall x ensures multiset(s[1..])[x] <= 1 { assert multiset(s)[x] <= 1; }
      CountDistinct(s[1..]);
      assert multiset(s)[s[0]] <= 1;
      assert s[0] !in s[1..];
    }
  }

  // ------------------------------------------------------------ the three policies

  /** Prefill tokens still to compute plus tokens the request may still generate. */
  function RemainingWork(q: Req): int {
    SeqLen(q) - (if q.table.Some? then q.table.value.numTokens else 0) + q.maxNew - |q.output|
  }

  function Works(reqs: map<nat, Req>): map<nat, int> {
    map r | r in reqs :: RemainingWork(reqs[r])
  }

  /** Minus the tokens an admission would find cached. */
  ghost function Uncovered(s: Sys): map<nat, int> {
    map r | r in s.reqs && s.bs > 0 && SeqLen(s.reqs[r]) > 0 ::
      -(|LongestOf(s.kv.cached, LookupKey(s.reqs[r], s.bs))| * s.bs)
  }

  ghost function OrderOf(name: PolicyName, waiting: seq<nat>, s: Sys): seq<nat> {
    match name
    case Fcfs => waiting
    case ShortestJobFirst => SortBy(waiting, Works(s.reqs))
    case CacheAware => if s.radix then SortBy(waiting, Uncovered(s)) else waiting
  }

  /** The last one with the largest key. */
  function LastLargest(pool: seq<nat>, keys: map<nat, int>): (v: nat)
    requires pool != []
    ensures v in pool && forall x :: x in pool ==> KeyOf(keys, x) <= KeyOf(keys, v)
  {
    if |pool| == 1 then pool[0]
    else
      var later := LastLargest(pool[1..], keys);
      if KeyOf(keys, pool[0]) > KeyOf(keys, later) then pool[0] else later
  }

  /** Everything behind the chosen one has strictly less work left: among equals it is the newest. */
  lemma {:induction false} LastLargestIsNewest(pool: seq<nat>, keys: map<nat, int>) returns (i: nat)
    requires pool != []
    ensures i < |pool| && pool[i] == LastLargest(pool, keys)
    ensures forall j :: i < j < |pool| ==> KeyOf(keys, pool[j]) < KeyOf(keys, pool[i])
  {
    i := 0;
    if |pool| > 1 {
      var later := LastLargest(pool[1..], keys);
      if KeyOf(keys, pool[0]) > KeyOf(keys, later) {
        forall j | 0 < j < |pool| ensures KeyOf(keys, pool[j]) < KeyOf(keys, pool[0]) {
          assert pool[j] in pool[1..];
        }
      } else {
        var k := LastLargestIsNewest(pool[1..], keys);
        i := k + 1;
        forall j | i < j < |pool| ensures KeyOf(keys, pool[j]) < KeyOf(keys, pool[i]) {
          assert pool[j] == pool[1..][j - 1];
        }
      }
    }
  }

  function PickOf(name: PolicyName, pool: seq<nat>, reqs: map<nat, Req>): nat {
    if pool == [] then 0
    else if name == ShortestJobFirst then LastLargest(pool, Works(reqs))
    else pool[|pool| - 1]
  }

  ghost function PolicyOf(name: PolicyName): Policy {
    Policy((waiting, s) => OrderOf(name, waiting, s), (pool, reqs) => PickOf(name, pool, reqs))
  }

  /** Each of them orders what waits and picks from what it is offered; so all that is proved of any
      policy holds for it. */
  lemma NamedPolicyOk(name: PolicyName)
    ensures PolicyOk(PolicyOf(name)) && IsFcfs(PolicyOf(Fcfs))
  {
    forall w: seq<nat>, s: Sys | Distinct(w)
      ensures Distinct(PolicyOf(name).order(w, s)) && forall r :: r in PolicyOf(name).order(w, s) <==> r in w
    {
      match name {
        case Fcfs =>
        case ShortestJobFirst => SortMembers(w, Works(s.reqs));
        case CacheAware => SortMembers(w, Uncovered(s));
      }
    }
  }

  /** Blocks of a waiting request that an admission would find cached now. */
  ghost function FoundOf(s: Sys, r: nat): nat
    requires s.bs > 0 && r in s.reqs && SeqLen(s.reqs[r]) > 0
  {
    |LongestOf(s.kv.cached, LookupKey(s.reqs[r], s.bs))|
  }

  /** The cache-aware policy tries the longest cached prefix first, ties in arrival order; without a
      prefix cache it is first come, first served. */
  lemma CacheAwareLongestFirst(waiting: seq<nat>, s: Sys, tied: set<nat>)
    requires s.bs > 0 && forall r :: r in waiting ==> r in s.reqs && SeqLen(s.reqs[r]) > 0
    requires forall x, y :: x in waiting && y in waiting && x in tied && y in tied ==> FoundOf(s, x) == FoundOf(s, y)
    ensures var order := OrderOf(CacheAware, waiting, s);
      if s.radix then
        && (forall r :: r in order ==> r in s.reqs && SeqLen(s.reqs[r]) > 0)
        && (forall i, j :: 0 <= i < j < |order| ==> FoundOf(s, order[i]) >= FoundOf(s, order[j]))
        && Only(order, tied) == Only(waiting, tied)
      else order == waiting
  {
    hide SortBy, Only, LongestOf, LookupKey;
    var (keys, order) := (Uncovered(s), SortBy(waiting, Uncovered(s)));
    assert forall r :: r in waiting ==> r in keys && keys[r] == -(FoundOf(s, r) * s.bs);
    SortSorted(waiting, keys);
    SortStable(waiting, keys, tied);
    SameMembers(order, waiting);
    forall i, j | 0 <= i < j < |order| ensures FoundOf(s, order[i]) >= FoundOf(s, order[j]) {
      assert KeyOf(keys, order[i]) <= KeyOf(keys, order[j]) && order[i] in order && order[j] in order;
      if FoundOf(s, order[i]) < FoundOf(s, order[j]) { MulStrict(FoundOf(s, order[i]), FoundOf(s, order[j]), s.bs); }
    }
  }

  lemma MulStrict(a: nat, b: nat, c: nat)
    requires a < b && c > 0
    ensures a * c < b * c
  {
  }

  /** Shortest job first tries the request with the fewest tokens left to compute and to produce first,
      ties in arrival order. */
  lemma ShortestJobsFirst(waiting: seq<nat>, s: Sys, tied: set<nat>)
    requires forall r :: r in waiting ==> r in s.reqs
    requires forall x, y :: x in waiting && y in waiting && x in tied && y in tied ==> LeftOf(s.reqs[x]) == LeftOf(s.reqs[y])
    ensures var order := OrderOf(ShortestJobFirst, waiting, s);
      && (forall r :: r in order ==> r in s.reqs)
      && (forall i, j :: 0 <= i < j < |order| ==> LeftOf(s.reqs[order[i]]) <= LeftOf(s.reqs[order[j]]))
      && Only(order, tied) == Only(waiting, tied)
  {
    var (keys, order) := (Works(s.reqs), SortBy(waiting, Works(s.reqs)));
    hide SortBy, Only;
    SortSorted(waiting, keys);
    SortStable(waiting, keys, tied);
    SameMembers(order, waiting);
    forall i, j | 0 <= i < j < |order| ensures LeftOf(s.reqs[order[i]]) <= LeftOf(s.reqs[order[j]]) {
      assert KeyOf(keys, order[i]) <= KeyOf(keys, order[j]);
      assert order[i] in order && order[j] in order;
    }
  }

  lemma SameMembers(a: seq<nat>, b: seq<nat>)
    requires multiset(a) == multiset(b)
    ensures forall x :: x in a <==> x in b
  {
    forall x ensures x in a <==> x in b {
      assert x in a <==> x in multiset(a);
      assert x in b <==> x in multiset(b);
    }
  }

  /** Tokens of the sequence not yet in the table, and output tokens not yet produced. */
  function LeftOf(q: Req): int {
    var computed := if q.table.Some? then q.table.value.numTokens else 0;
    (|q.prompt| + |q.output| - computed) + (q.maxNew - |q.output|)
  }

  /** Whom a policy preempts among the candidates, listed in the order of their admission: shortest job
      first the newest of those with the most left, the other policies the newest. */
  lemma PicksMean(name: PolicyName, pool: seq<nat>, reqs: map<nat, Req>) returns (i: nat)
    requires pool != [] && forall r :: r in pool ==> r in reqs
    ensures i < |pool| && PolicyOf(name).pick(pool, reqs) == pool[i]
    ensures name != ShortestJobFirst ==> i == |pool| - 1
    ensures name == ShortestJobFirst ==>
      && (forall j :: 0 <= j < |pool| ==> LeftOf(reqs[pool[j]]) <= LeftOf(reqs[pool[i]]))
      && (forall j :: i < j < |pool| ==> LeftOf(reqs[pool[j]]) < LeftOf(reqs[pool[i]]))
  {
    i := |pool| - 1;
    if name == ShortestJobFirst {
      var keys := Works(reqs);
      i := LastLargestIsNewest(pool, keys);
      forall j | 0 <= j < |pool| ensures LeftOf(reqs[pool[j]]) <= LeftOf(reqs[pool[i]]) { assert pool[j] in pool; }
      forall j | i < j < |pool| ensures LeftOf(reqs[pool[j]]) < LeftOf(reqs[pool[i]]) { assert pool[j] in pool; }
    }
  }
}

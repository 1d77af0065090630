/** The scheduler's queues and loops over a paged KV pool. Its state is a `Sched`, and every method
    does to it what the function of the same name in `Scheduling` says. */
module Schedulers {
  import opened Common
  import opened BlockPool
  import opened BlockTables
  import opened TreeShape
  import opened TokenChunks
  import opened KvState
  import opened KvCache
  import opened Device
  import opened Requests
  import opened Machine
  import opened MachineInv
  import opened MachineSteps
  import opened MachineTheorems
  import opened Scheduling
  import opened ScheduleSafe
  import opened ScheduleRoom
  import opened ScheduleOrder
  import opened Admissions
  import opened Policies

  class Scheduler {
    const kv: KVCacheManager
    const c: Config
    const policy: PolicyName
    var waiting: seq<nat>
    var running: seq<nat>
    var reqs: map<nat, Req>
    var nodes: map<nat, nat>
    /** The whole system: the requests and the pool, with the device and what has left. */
    ghost var sys: Sys

    ghost function View(): Sched
      reads this
    {
      Sched(sys, waiting, running)
    }

    /** The fields are the state of some run. */
    ghost predicate Linked()
      reads this, kv, kv.allocator, kv.tree
    {
      && kv.Valid()
      && sys.reqs == reqs && sys.kv == kv.View() && nodes == kv.nodeOf
      && sys.bs == kv.allocator.blockSize && (sys.radix <==> kv.tree != null)
    }

    ghost predicate Valid()
      reads this, kv, kv.allocator, kv.tree
    {
      Linked() && Good(c, View())
    }

    constructor (kv: KVCacheManager, c: Config, policy: PolicyName, ghost next: Sampler, ghost store: Store)
      requires kv.Valid() && ConfigOk(c) && kv.View() == Kv(kv.allocator.numBlocks, map[], map[])
      requires StoreOk(store, kv.allocator.numBlocks, kv.allocator.blockSize)
      ensures Valid() && this.kv == kv && this.c == c && this.policy == policy
      ensures waiting == [] && running == []
      ensures sys == Sys(kv.allocator.blockSize, next, kv.tree != null, map[], kv.View(), store, map[])
    {
      this.kv, this.c, this.policy := kv, c, policy;
      waiting, running, reqs, nodes := [], [], map[], map[];
      sys := Sys(kv.allocator.blockSize, next, kv.tree != null, map[], kv.View(), store, map[]);
      new;
      StartReachable(sys);
      assert kv.nodeOf == map[];
    }

    /** `_decode_need`. */
    method DecodeNeedOf(rids: seq<nat>) returns (need: int)
      requires Valid() && forall r :: r in rids ==> r in reqs
      ensures sys.bs > 0 && need == Sum(DecodeNeeds(c, sys), rids)
    {
      hide Linked, Good;
      LinkedFacts();
      GoodInv(c, View());
      need := 0;
      for i := 0 to |rids|
        invariant need == Sum(DecodeNeeds(c, sys), rids[..i])
      {
        SumSnoc(DecodeNeeds(c, sys), rids, i);
        need := need + DecodeNeed(c.tps, kv.allocator.blockSize, reqs[rids[i]]);
      }
      assert rids[..|rids|] == rids;
    }

    /** `_outstanding`. */
    method Outstanding() returns (need: int)
      requires Valid()
      ensures QueuesOk(View()) && need == Sum(StepNeeds(c, sys), running)
    {
      hide Linked, Good, Inv, QueuesOk, StepNeed;
      LinkedFacts();
      GoodInv(c, View());
      need := 0;
      for i := 0 to |running|
        invariant need == Sum(StepNeeds(c, sys), running[..i])
      {
        SumSnoc(StepNeeds(c, sys), running, i);
        need := need + StepNeed(c.tps, kv.allocator.blockSize, reqs[running[i]]);
      }
      assert running[..|running|] == running;
    }

    lemma IsLinked()
      requires kv.Valid() && sys.reqs == reqs && sys.kv == kv.View() && nodes == kv.nodeOf
      requires sys.bs == kv.allocator.blockSize && (sys.radix <==> kv.tree != null)
      ensures Linked()
    {
    }

    lemma LinkedFacts()
      requires Linked()
      ensures kv.Valid() && sys.reqs == reqs && sys.kv == kv.View() && nodes == kv.nodeOf
      ensures sys.bs == kv.allocator.blockSize && (sys.radix <==> kv.tree != null)
    {
    }

    // ------------------------------------------------------------ preemption

    /** `_preempt`. */
    method Preempt(v: nat)
      requires Valid() && v in running
      modifies this`waiting, this`running, this`reqs, this`nodes, this`sys, kv, kv.allocator, kv.tree
      ensures Valid()
      ensures QueuesOk(old(View())) && View() == Preempt1(old(View()), v)
    {
      hide Good, QueuesOk, Committable, Released, Linked, KVCacheManager.Valid, KVCacheManager.View, MayRelease,
           Inv, Reachable, CommittedView, Dropped, Preempted, Unheld, SameRequests, Preempt1;
      LinkedFacts();
      ghost var d := View();
      PreemptGood(c, d, v);
      GoodInv(c, d);
      MayPreempt(c, d, v);
      PreemptedIs(d, v);
      kv.NodeOfHeld();
      kv.Sound();
      var q := reqs[v];
      GiveUp(v, q, nodes[v], sys);
      Requeue(v, Unheld(q).(state := WAITING, preemptions := q.preemptions + 1), Preempted(sys, v));
    }

    /** The manager's half of a preemption. */
    method GiveUp(v: nat, q: Req, node: nat, ghost s: Sys)
      requires kv.Valid() && kv.TreeSound() && v in kv.held && v in kv.nodeOf && kv.nodeOf[v] == node
      requires q.table.Some? && kv.held[v].blocks == q.table.value.blocks
      requires s.kv == kv.View() && s.bs == kv.allocator.blockSize && (s.radix <==> kv.tree != null)
      requires s.radix ==> Committable(s.kv, v, q.table.value, Tokens(q), s.bs)
      modifies kv, kv.allocator, kv.tree
      ensures kv.Valid() && kv.TreeSound() && kv.nodeOf == old(kv.nodeOf) - {v}
      ensures kv.View() == Dropped(CommittedView(s.kv, v, q.table.value, Tokens(q), s.bs, s.radix), v)
    {
      hide KVCacheManager.Valid, KVCacheManager.View, Committable, CommittedView, Dropped;
      kv.Release(v, q.table.value, node, Tokens(q));
      kv.Sound();
    }

    /** A spent request, or the policy's choice without the earliest admitted. */
    method PickVictim(pool: seq<nat>) returns (v: Option<nat>)
      requires Valid() && forall r :: r in pool ==> r in running
      ensures PolicyOk(PolicyOf(policy)) && QueuesOk(View()) && v == Victim(PolicyOf(policy), View(), pool)
    {
      hide Good, QueuesOk, Linked;
      LinkedFacts();
      GoodInv(c, View());
      NamedPolicyOk(policy);
      var spent := Only(running, SpentSet(reqs));
      var candidates := NotFirst(running, pool);
      if spent != [] {
        v := Some(spent[|spent| - 1]);
      } else if candidates == [] {
        v := None;
      } else {
        v := Some(PickOf(policy, candidates, reqs));
      }
    }

    /** `_make_room`; false is the failed assertion. */
    method MakeRoomFor(decoding: seq<nat>) returns (ok: bool, rest: seq<nat>, preempted: seq<nat>)
      requires Valid() && QueuesOk(View()) && IsDecoding(View(), decoding) && PolicyOk(PolicyOf(policy))
      modifies this`waiting, this`running, this`reqs, this`nodes, this`sys, kv, kv.allocator, kv.tree
      ensures Valid()
      ensures MakeRoom(c, PolicyOf(policy), old(View()), decoding, []) == if ok then Room(View(), rest, preempted) else NoRoom
    {
      hide Valid, View, QueuesOk, MakeRoom, PolicyOk, PolicyOf, IsDecoding;
      rest, preempted := decoding, [];
      var more := true;
      ok := true;
      while ok && more
        invariant Valid() && QueuesOk(View()) && IsDecoding(View(), rest)
        invariant MakeRoom(c, PolicyOf(policy), old(View()), decoding, []) ==
          if !ok then NoRoom else if !more then Room(View(), rest, preempted)
          else MakeRoom(c, PolicyOf(policy), View(), rest, preempted)
        decreases ok && more, |running|
      {
        ok, more, rest, preempted := MakeRoomOnce(rest, preempted);
      }
    }

    /** One victim, unless the step fits: `more` asks for another look. */
    method MakeRoomOnce(decoding: seq<nat>, preempted: seq<nat>) returns (ok: bool, more: bool, rest: seq<nat>, preempted': seq<nat>)
      requires Valid() && QueuesOk(View()) && IsDecoding(View(), decoding) && PolicyOk(PolicyOf(policy))
      modifies this`waiting, this`running, this`reqs, this`nodes, this`sys, kv, kv.allocator, kv.tree
      ensures Valid() && QueuesOk(View()) && IsDecoding(View(), rest) && (ok && more ==> |running| < |old(running)|)
      ensures MakeRoom(c, PolicyOf(policy), old(View()), decoding, preempted) ==
        if !ok then NoRoom else if !more then Room(View(), rest, preempted')
        else MakeRoom(c, PolicyOf(policy), View(), rest, preempted')
    {
      hide Good, QueuesOk, Linked, Preempt1, Victim, PolicyOk, PolicyOf, IsDecoding;
      LinkedFacts();
      NeedsDefined(c, View());
      DecodingIn(View(), decoding);
      var need := DecodeNeedOf(decoding);
      var room := kv.NumAvailable();
      if need <= room { return true, false, decoding, preempted; }
      var v := PickVictim(decoding);
      if v.None? { return false, true, decoding, preempted; }
      VictimLeaves(PolicyOf(policy), View(), decoding);
      LessRunning(View(), v.value);
      rest := if Spent(reqs[v.value]) then decoding else Remove(decoding, v.value);
      Preempt(v.value);
      ok, more, preempted' := true, true, preempted + [v.value];
    }

    /** `_make_room_chunked`; false is the failed assertion. */
    method MakeRoomForAll() returns (ok: bool, preempted: seq<nat>)
      requires Valid() && QueuesOk(View()) && PolicyOk(PolicyOf(policy))
      modifies this`waiting, this`running, this`reqs, this`nodes, this`sys, kv, kv.allocator, kv.tree
      ensures Valid()
      ensures MakeRoomChunked(c, PolicyOf(policy), old(View()), []) == if ok then Room(View(), [], preempted) else NoRoom
    {
      hide Valid, View, QueuesOk, MakeRoomChunked, PolicyOk, PolicyOf;
      preempted := [];
      var more := true;
      ok := true;
      while ok && more
        invariant Valid() && QueuesOk(View())
        invariant MakeRoomChunked(c, PolicyOf(policy), old(View()), []) ==
          if !ok then NoRoom else if !more then Room(View(), [], preempted)
          else MakeRoomChunked(c, PolicyOf(policy), View(), preempted)
        decreases ok && more, |running|
      {
        ok, more, preempted := MakeRoomForAllOnce(preempted);
      }
    }

    method MakeRoomForAllOnce(preempted: seq<nat>) returns (ok: bool, more: bool, preempted': seq<nat>)
      requires Valid() && QueuesOk(View()) && PolicyOk(PolicyOf(policy))
      modifies this`waiting, this`running, this`reqs, this`nodes, this`sys, kv, kv.allocator, kv.tree
      ensures Valid() && QueuesOk(View()) && (ok && more ==> |running| < |old(running)|)
      ensures MakeRoomChunked(c, PolicyOf(policy), old(View()), preempted) ==
        if !ok then NoRoom else if !more then Room(View(), [], preempted')
        else MakeRoomChunked(c, PolicyOf(policy), View(), preempted')
    {
      hide Good, QueuesOk, Linked, Preempt1, Victim, PolicyOk, PolicyOf, KVCacheManager.Valid;
      LinkedFacts();
      NeedsDefined(c, View());
      var need := Outstanding();
      var room := kv.NumAvailable();
      if need <= room { return true, false, preempted; }
      if |running| <= 1 { return false, true, preempted; }
      var v := PickVictim(running);
      if v.None? { return false, true, preempted; }
      LessRunning(View(), v.value);
      Preempt(v.value);
      ok, more, preempted' := true, true, preempted + [v.value];
    }

    // ------------------------------------------------------------ admission

    /** The waiting requests in the policy's order. */
    method Order() returns (order: seq<nat>)
      requires Valid()
      ensures PolicyOk(PolicyOf(policy)) && QueuesOk(View()) && order == PolicyOf(policy).order(waiting, sys)
      ensures OrderOk(View(), order)
    {
      hide Good, QueuesOk, Linked, Uncovered;
      LinkedFacts();
      GoodInv(c, View());
      NamedPolicyOk(policy);
      match policy {
        case Fcfs => order := waiting;
        case ShortestJobFirst => order := SortBy(waiting, Works(reqs));
        case CacheAware =>
          if kv.tree == null {
            order := waiting;
          } else {
            var keys := CachedLens();
            SortByAgree(waiting, keys, Uncovered(sys));
            order := SortBy(waiting, keys);
          }
      }
      OrderWaits(PolicyOf(policy), View());
    }

    /** `cached_prefix_lens`, negated: the keys of the cache-aware order. */
    method CachedLens() returns (keys: map<nat, int>)
      requires Valid()
      ensures forall r :: r in waiting ==> KeyOf(keys, r) == KeyOf(Uncovered(sys), r)
    {
      hide Valid, Uncovered;
      keys := map[];
      for i := 0 to |waiting|
        invariant forall j :: 0 <= j < i ==> waiting[j] in keys && keys[waiting[j]] == KeyOf(Uncovered(sys), waiting[j])
      {
        var n := CachedLen(waiting[i]);
        keys := keys[waiting[i] := -n];
      }
    }

    method CachedLen(rid: nat) returns (n: int)
      requires Valid() && rid in waiting
      ensures n == -KeyOf(Uncovered(sys), rid)
    {
      hide Good, Linked, LongestOf, Chunks, KVCacheManager.Valid, KVCacheManager.View;
      LinkedFacts();
      GoodInv(c, View());
      WaitingHasNone(c, View(), rid);
      n := kv.CachedPrefixLen(Tokens(reqs[rid])[..SeqLen(reqs[rid]) - 1]);
    }

    /** `rid` was looked up in the cache and holds the prefix found; the queues do not know yet. */
    ghost predicate LookedUp(rid: nat, table: Table, node: nat)
      reads this, kv, kv.allocator, kv.tree
    {
      && QueuesOk(View()) && Good(c, View()) && rid in waiting && rid in reqs && reqs[rid].pending == 0
      && rid !in sys.kv.held && rid !in nodes && kv.Valid() && kv.nodeOf == nodes[rid := node]
      && sys.reqs == reqs && sys.bs == kv.allocator.blockSize && (sys.radix <==> kv.tree != null)
      && kv.View() == Take(View(), rid).sys.kv && Some(table) == Take(View(), rid).sys.reqs[rid].table
    }

    /** What the lookup found: prefill tokens left, blocks needed, and blocks to be had. */
    method Lookup(rid: nat) returns (table: Table, node: nat, n: int, need: int, room: int)
      requires Valid() && QueuesOk(View()) && rid in waiting && reqs[rid].pending == 0
      modifies kv, kv.allocator, kv.tree
      ensures LookedUp(rid, table, node) && rid in Take(View(), rid).sys.reqs
      ensures n == Uncached(Take(View(), rid).sys.reqs[rid]) && need == PrefillNeed(sys.bs, Take(View(), rid).sys.reqs[rid])
      ensures room == Avail(Take(View(), rid).sys.kv)
    {
      hide Good, QueuesOk, Linked, LongestOf, Chunks, KVCacheManager.Valid, KVCacheManager.View, Inv, Reachable,
           CommittedView, SameRequests;
      LinkedFacts();
      ghost var d := View();
      GoodInv(c, d);
      TakeGood(c, d, rid);
      kv.NodeOfHeld();
      WaitingHasNone(c, d, rid);
      var q := reqs[rid];
      table, node := kv.Acquire(rid, Tokens(q)[..SeqLen(q) - 1]);
      n := SeqLen(q) - table.numTokens;
      need := CeilDiv(SeqLen(q) + 1, kv.allocator.blockSize) - |table.blocks|;
      room := kv.NumAvailable();
    }

    /** After a lookup: the request joins the running ones, or gives its prefix back. */
    method FinishLookup(rid: nat, table: Table, node: nat, ok: bool)
      requires LookedUp(rid, table, node)
      modifies this`waiting, this`running, this`reqs, this`nodes, this`sys, kv, kv.allocator, kv.tree
      ensures Valid() && QueuesOk(old(View())) && rid in old(waiting)
      ensures View() == if ok then Take(old(View()), rid) else old(View())
    {
      hide Good, QueuesOk, Linked, LongestOf, Chunks, KVCacheManager.Valid, KVCacheManager.View;
      ghost var d := View();
      GoodInv(c, d);
      TakeGood(c, d, rid);
      TakenHold(d, rid);
      WaitingHasNone(c, d, rid);
      kv.NodeOfHeld();
      if ok {
        Join(rid, reqs[rid].(state := PREFILL, table := Some(table), numCached := table.numTokens, written := table.numTokens),
             node, Admitted(sys, rid));
      } else {
        kv.Abandon(rid, table, node);
        NodesBack(nodes, rid, node);
      }
      IsLinked();
    }

    /** Looks a waiting request up and admits it whole, or undoes the lookup. */
    method TryWhole(rid: nat, base: nat, budget: int, reserved: int) returns (ok: bool, n: int, need: int)
      requires Valid() && QueuesOk(View()) && rid in waiting && reqs[rid].pending == 0 && base <= |running|
      modifies this`waiting, this`running, this`reqs, this`nodes, this`sys, kv, kv.allocator, kv.tree
      ensures Valid()
      ensures ok <==> Fits(c, old(View()), rid, base, budget, reserved)
      ensures ok ==> View() == Take(old(View()), rid)
      ensures var q := Take(old(View()), rid).sys.reqs[rid]; n == Uncached(q) && need == PrefillNeed(old(sys).bs, q)
      ensures !ok ==> View() == old(View())
    {
      hide Valid, LookedUp, Take, QueuesOk;
      ReqsAreSys();
      PrefixRunning(View(), base);
      var decode := DecodeNeedOf(running[..base]);
      var table, node, left, blocks, room := Lookup(rid);
      ok := (|running| == base || left <= budget) && blocks <= room - decode - reserved;
      FinishLookup(rid, table, node, ok);
      n, need := left, blocks;
    }

    lemma ReqsAreSys()
      requires Valid()
      ensures sys.reqs == reqs && sys.bs == kv.allocator.blockSize
    {
    }

    /** The same for a chunked batch: all that runs keeps what it still needs. */
    method TryChunked(rid: nat) returns (ok: bool)
      requires Valid() && QueuesOk(View()) && rid in waiting && reqs[rid].pending == 0
      modifies this`waiting, this`running, this`reqs, this`nodes, this`sys, kv, kv.allocator, kv.tree
      ensures Valid()
      ensures ok <==> FitsChunked(c, old(View()), rid)
      ensures View() == if ok then Take(old(View()), rid) else old(View())
    {
      hide Valid, LookedUp, Take, QueuesOk;
      ReqsAreSys();
      var outstanding := Outstanding();
      var table, node, left, blocks, room := Lookup(rid);
      ok := blocks <= room - outstanding;
      FinishLookup(rid, table, node, ok);
    }

    /** `_admit`: in the policy's order, until one does not fit. */
    method Admit() returns (admitted: seq<nat>)
      requires Valid()
      modifies this`waiting, this`running, this`reqs, this`nodes, this`sys, kv, kv.allocator, kv.tree
      ensures Valid() && PolicyOk(PolicyOf(policy)) && QueuesOk(old(View()))
      ensures OrderOk(old(View()), PolicyOf(policy).order(old(waiting), old(sys)))
      ensures View() == AdmitLoop(c, old(View()), PolicyOf(policy).order(old(waiting), old(sys)), |old(running)|, c.maxPrefill, 0)
      ensures admitted == running[|old(running)|..]
      ensures LetIn(c, old(View()), PolicyOf(policy).order(old(waiting), old(sys)), |admitted|)
    {
      hide Valid, QueuesOk, PolicyOf, PolicyOk, AdmitLoop, OrderOk, Good, LetIn;
      ValidParts();
      var order := Order();
      var base, budget, reserved, i := |running|, c.maxPrefill as int, 0, 0;
      ghost var d0 := View();
      assert order[0..] == order;
      var more := true;
      while more && i < |order|
        invariant 0 <= i <= |order| && base <= |running|
        invariant Valid() && QueuesOk(View()) && (more ==> OrderOk(View(), order[i..]))
        invariant AdmitLoop(c, d0, order, base, c.maxPrefill, 0) ==
          if more then AdmitLoop(c, View(), order[i..], base, budget, reserved) else View()
        decreases more, |order| - i
      {
        more, budget, reserved := AdmitOne(order[i..], base, budget, reserved);
        if more {
          i := i + 1;
          assert order[i - 1..][1..] == order[i..];
        }
      }
      if more { EmptyOrder(c, View(), order[i..], base, budget, reserved); }
      admitted := running[base..];
      ManyLetIn(c, d0, order, View());
    }

    /** The first of `order`, if it may join. */
    method AdmitOne(order: seq<nat>, base: nat, budget: int, reserved: int) returns (more: bool, budget': int, reserved': int)
      requires Valid() && QueuesOk(View()) && OrderOk(View(), order) && order != [] && base <= |running|
      modifies this`waiting, this`running, this`reqs, this`nodes, this`sys, kv, kv.allocator, kv.tree
      ensures Valid() && QueuesOk(View()) && base <= |running| && (more ==> OrderOk(View(), order[1..]))
      ensures AdmitLoop(c, old(View()), order, base, budget, reserved) ==
        if more then AdmitLoop(c, View(), order[1..], base, budget', reserved') else View()
    {
      hide Valid, QueuesOk, Fits, Take;
      ReqsAreSys();
      budget', reserved' := budget, reserved;
      if |running| >= c.maxRunning { return false, budget', reserved'; }
      if reqs[order[0]].pending > 0 { return false, budget', reserved'; }
      OrderTail(View(), order);
      var ok, n, need := TryWhole(order[0], base, budget, reserved);
      if !ok { return false, budget', reserved'; }
      more, budget', reserved' := true, budget - n, reserved + need;
    }

    // ------------------------------------------------------------ chunked prefill

    /** Rows of what already runs: a token for each decode, then prefills that go on. */
    method RowsOfRunning() returns (rows: seq<Work>, numDecode: nat, budget: int)
      requires Valid()
      ensures QueuesOk(View()) && rows == RunningRows(c, View()) && numDecode == |DecodingOf(View())|
      ensures budget == c.chunk - Tokens1(rows)
    {
      hide Valid, QueuesOk, DecodeRows, ContinueRows, Tokens1, Only;
      ReqsAreSys();
      ValidFacts();
      var decodes := RowsOfDecodes();
      DecodeTokens(reqs, DecodingOf(View()));
      numDecode := |decodes|;
      var conts, left := RowsOfPrefills(c.chunk - numDecode);
      Tokens1Append(decodes, conts);
      rows, budget := decodes + conts, left;
    }

    method RowsOfDecodes() returns (rows: seq<Work>)
      requires forall r :: r in running ==> r in reqs
      ensures rows == DecodeRows(reqs, Only(running, DecodingSet(reqs)))
    {
      hide Decodes, DecodeRows, Only;
      rows := [];
      NoDecodeRows(reqs);
      for i := 0 to |running|
        invariant rows == DecodeRows(reqs, Only(running[..i], DecodingSet(reqs)))
      {
        DecodeRowsSnoc(reqs, running, i);
        var r := running[i];
        if Decodes(reqs[r]) { rows := rows + [Work(r, SeqLen(reqs[r]) - 1, 1)]; }
      }
      assert running[..|running|] == running;
    }

    method RowsOfPrefills(budget: int) returns (rows: seq<Work>, left: int)
      requires forall r :: r in running ==> r in reqs
      ensures rows == ContinueRows(reqs, running, budget) && left == budget - Tokens1(rows)
    {
      rows, left := [], budget;
      for i := 0 to |running|
        invariant ContinueRows(reqs, running, budget) == rows + ContinueRows(reqs, running[i..], left)
        invariant left == budget - Tokens1(rows)
      {
        var q := reqs[running[i]];
        assert running[i..][1..] == running[i + 1..];
        if MidPrefill(q) && left > 0 {
          var w := Work(running[i], q.table.value.numTokens, Piece(q, left));
          Tokens1Append(rows, [w]);
          ghost var rest := ContinueRows(reqs, running[i + 1..], left - w.n);
          assert ContinueRows(reqs, running[i..], left) == [w] + rest;
          Reassociated(rows, w, rest);
          rows, left := rows + [w], left - w.n;
        }
      }
    }

    /** Newly admitted requests take what is left of the step's token budget. */
    method AdmitIntoBatch(rows: seq<Work>, budget: int) returns (all: seq<Work>)
      requires Valid()
      modifies this`waiting, this`running, this`reqs, this`nodes, this`sys, kv, kv.allocator, kv.tree
      ensures Valid() && PolicyOk(PolicyOf(policy)) && QueuesOk(old(View()))
      ensures OrderOk(old(View()), PolicyOf(policy).order(old(waiting), old(sys)))
      ensures AdmitChunked(c, old(View()), PolicyOf(policy).order(old(waiting), old(sys)), rows, budget) == Chunked(View(), all)
    {
      hide Valid, QueuesOk, PolicyOf, PolicyOk, AdmitChunked, OrderOk;
      var order := Order();
      var left, i := budget, 0;
      all := rows;
      ghost var d0 := View();
      assert order[0..] == order;
      var more := true;
      while more && i < |order|
        invariant 0 <= i <= |order|
        invariant Valid() && QueuesOk(View()) && (more ==> OrderOk(View(), order[i..]))
        invariant AdmitChunked(c, d0, order, rows, budget) ==
          if more then AdmitChunked(c, View(), order[i..], all, left) else Chunked(View(), all)
        decreases more, |order| - i
      {
        more, all, left := AdmitOneChunked(order[i..], all, left);
        if more {
          i := i + 1;
          assert order[i - 1..][1..] == order[i..];
        }
      }
      if more { EmptyOrderChunked(c, View(), order[i..], all, left); }
    }

    method AdmitOneChunked(order: seq<nat>, rows: seq<Work>, budget: int) returns (more: bool, rows': seq<Work>, budget': int)
      requires Valid() && QueuesOk(View()) && OrderOk(View(), order) && order != []
      modifies this`waiting, this`running, this`reqs, this`nodes, this`sys, kv, kv.allocator, kv.tree
      ensures Valid() && QueuesOk(View()) && (more ==> OrderOk(View(), order[1..]))
      ensures AdmitChunked(c, old(View()), order, rows, budget) ==
        if more then AdmitChunked(c, View(), order[1..], rows', budget') else Chunked(View(), rows')
    {
      hide Valid, QueuesOk, FitsChunked, Take;
      ReqsAreSys();
      rows', budget' := rows, budget;
      if budget <= 0 || |running| >= c.maxRunning { return false, rows', budget'; }
      if reqs[order[0]].pending > 0 { return false, rows', budget'; }
      OrderTail(View(), order);
      var ok := TryChunked(order[0]);
      if !ok { return false, rows', budget'; }
      ReqsAreSys();
      var q := reqs[order[0]];
      var n := Piece(q, budget);
      more, rows', budget' := true, rows + [Work(order[0], q.numCached, n)], budget - n;
    }

    // ------------------------------------------------------------ schedule

    /** Prefills first, whole; otherwise a decode step. */
    method PlanWhole() returns (r: Result<Option<Batch>>)
      requires Valid()
      modifies this`waiting, this`running, this`reqs, this`nodes, this`sys, kv, kv.allocator, kv.tree
      ensures Valid() && PolicyOk(PolicyOf(policy)) && QueuesOk(old(View()))
      ensures match ScheduleWhole(c, PolicyOf(policy), old(View()))
              case Lone => r == Err(AssertionError)
              case Plan(d, batch) => View() == d && r == Ok(batch)
    {
      hide Valid, QueuesOk, PolicyOf, PolicyOk, AdmitLoop, OrderOk, MakeRoom;
      var admitted := Admit();
      ReqsAreSys();
      ValidFacts();
      if admitted != [] {
        return Ok(Some(Batch(PrefillOnly, PrefillRows(reqs, admitted), [], 0)));
      }
      var decoding := Only(running, DecodingSet(reqs));
      DecodingOfOk(View());
      var ok, rest, preempted := MakeRoomFor(decoding);
      if !ok { return Err(AssertionError); }
      ReqsAreSys();
      ValidFacts();
      DecodingIn(View(), rest);
      if rest == [] { return Ok(None); }
      return Ok(Some(Batch(DecodeOnly, DecodeRows(reqs, rest), preempted, |rest|)));
    }

    /** `_schedule_chunked`. */
    method PlanChunked() returns (r: Result<Option<Batch>>)
      requires Valid()
      modifies this`waiting, this`running, this`reqs, this`nodes, this`sys, kv, kv.allocator, kv.tree
      ensures Valid() && PolicyOk(PolicyOf(policy)) && QueuesOk(old(View()))
      ensures match ScheduleChunked(c, PolicyOf(policy), old(View()))
              case Lone => r == Err(AssertionError)
              case Plan(d, batch) => View() == d && r == Ok(batch)
    {
      hide Valid, QueuesOk, PolicyOf, PolicyOk, AdmitChunked, OrderOk, MakeRoomChunked, RunningRows;
      NamedPolicyOk(policy);
      ValidFacts();
      var ok, preempted := MakeRoomForAll();
      if !ok { return Err(AssertionError); }
      var rows, k, budget := RowsOfRunning();
      if budget > 0 { rows := AdmitIntoBatch(rows, budget); }
      if rows == [] { return Ok(None); }
      var phase := if k == |rows| then DecodeOnly else if k == 0 then PrefillOnly else Mixed;
      return Ok(Some(Batch(phase, rows, preempted, k)));
    }

    /** Which requests run next. The only failure is the assertion that a lone request fits. */
    method Schedule() returns (r: Result<Option<Batch>>)
      requires Valid()
      modifies this`waiting, this`running, this`reqs, this`nodes, this`sys, kv, kv.allocator, kv.tree
      ensures Valid() && PolicyOk(PolicyOf(policy)) && QueuesOk(old(View()))
      ensures match Scheduling.Schedule(c, PolicyOf(policy), old(View()))
              case Lone => r == Err(AssertionError)
              case Plan(d, batch) => View() == d && r == Ok(batch)
      ensures c.chunk == 0 && r.Ok? && r.value.Some? && r.value.value.phase == PrefillOnly ==>
        |r.value.value.rows| == 1 || Tokens1(r.value.value.rows) <= c.maxPrefill
    {
      hide Valid, QueuesOk, PolicyOf, PolicyOk, ScheduleWhole, ScheduleChunked, Good;
      ghost var d := View();
      ValidParts();
      NamedPolicyOk(policy);
      if c.chunk == 0 { PrefillBudget(c, PolicyOf(policy), d); }
      if c.chunk > 0 { r := PlanChunked(); } else { r := PlanWhole(); }
    }

    lemma ValidParts()
      requires Valid()
      ensures Linked() && Good(c, View()) && QueuesOk(View())
    {
      GoodInv(c, View());
    }

    lemma ValidFacts()
      requires Valid()
      ensures QueuesOk(View()) && forall r :: r in running || r in waiting ==> r in reqs
    {
      GoodInv(c, View());
    }

    method Join(rid: nat, q: Req, node: nat, ghost s: Sys)
      modifies this`waiting, this`running, this`reqs, this`nodes, this`sys
      ensures reqs == old(reqs)[rid := q] && nodes == old(nodes)[rid := node] && sys == s
      ensures running == old(running) + [rid] && waiting == Remove(old(waiting), rid)
    {
      reqs := reqs[rid := q];
      nodes := nodes[rid := node];
      running := running + [rid];
      waiting := Remove(waiting, rid);
      sys := s;
    }

    /** The victim goes to the front of the queue. */
    method Requeue(v: nat, q: Req, ghost s: Sys)
      requires kv.Valid() && kv.TreeSound() && s.reqs == reqs[v := q] && s.kv == kv.View() && nodes - {v} == kv.nodeOf
      requires s.bs == kv.allocator.blockSize && (s.radix <==> kv.tree != null)
      modifies this`waiting, this`running, this`reqs, this`nodes, this`sys
      ensures Linked() && View() == Sched(s, [v] + old(waiting), Remove(old(running), v))
    {
      hide KVCacheManager.Valid, KVCacheManager.View, KVCacheManager.TreeSound, Remove, Linked;
      MoveToFront(v, q, s);
      IsLinked();
    }

    method MoveToFront(v: nat, q: Req, ghost s: Sys)
      modifies this`waiting, this`running, this`reqs, this`nodes, this`sys
      ensures reqs == old(reqs)[v := q] && nodes == old(nodes) - {v} && sys == s
      ensures running == Remove(old(running), v) && waiting == [v] + old(waiting)
    {
      hide Remove;
      reqs := reqs[v := q];
      nodes := nodes - {v};
      running := Remove(running, v);
      waiting := [v] + waiting;
      sys := s;
    }
  }

  lemma PreemptedIs(d: Sched, v: nat)
    requires QueuesOk(d) && v in d.running
    ensures var (s', q) := (Preempted(d.sys, v), d.sys.reqs[v]);
      && s'.reqs == d.sys.reqs[v := Unheld(q).(state := WAITING, preemptions := q.preemptions + 1)]
      && s'.kv == Released(d.sys, v, q) && s'.bs == d.sys.bs && s'.radix == d.sys.radix
      && Preempt1(d, v) == Sched(s', [v] + d.waiting, Remove(d.running, v))
  {
    hide Released, Unheld;
  }

  lemma MayPreempt(c: Config, d: Sched, v: nat)
    requires Good(c, d) && v in d.running
    ensures v in d.sys.reqs && d.sys.reqs[v].table.Some? && v in d.sys.kv.held
    ensures var q := d.sys.reqs[v];
      && d.sys.kv.held[v].blocks == q.table.value.blocks
      && (d.sys.radix ==> Committable(d.sys.kv, v, q.table.value, Tokens(q), d.sys.bs))
      && Released(d.sys, v, q) == Dropped(CommittedView(d.sys.kv, v, q.table.value, Tokens(q), d.sys.bs, d.sys.radix), v)
  {
    hide Inv, Reachable, Committable;
    GoodInv(c, d);
    GoodReq(c, d, v);
    MayAlwaysRelease(d.sys, v);
  }

  lemma SumSnoc(f: map<nat, int>, s: seq<nat>, i: nat)
    requires i < |s| && forall x :: x in s ==> x in f
    ensures (forall x :: x in s[..i] ==> x in f) && (forall x :: x in s[..i + 1] ==> x in f)
    ensures Sum(f, s[..i + 1]) == Sum(f, s[..i]) + f[s[i]]
  {
    assert s[..i + 1] == s[..i] + [s[i]];
    SumConcat(f, s[..i], [s[i]]);
    assert Sum(f, [s[i]]) == f[s[i]];
  }

  lemma DecodingIn(d: Sched, decoding: seq<nat>)
    requires QueuesOk(d) && IsDecoding(d, decoding)
    ensures forall r :: r in decoding ==> r in d.running && r in d.sys.reqs
  {
  }

  lemma WaitingHasNone(c: Config, d: Sched, r: nat)
    requires Good(c, d) && QueuesOk(d) && r in d.waiting
    ensures r in d.sys.reqs && r !in d.sys.kv.held && SeqLen(d.sys.reqs[r]) > 0
  {
    HeldAreRunning(c, d);
  }

  lemma PrefixRunning(d: Sched, base: nat)
    requires QueuesOk(d) && base <= |d.running|
    ensures forall r :: r in d.running[..base] ==> r in d.running && r in d.sys.reqs
  {
  }

  lemma NodesBack(nodes: map<nat, nat>, r: nat, node: nat)
    requires r !in nodes
    ensures nodes[r := node] - {r} == nodes
  {
  }

  /** The hold of a looked-up request, and what dropping it leaves. */
  lemma TakenHold(d: Sched, r: nat)
    requires QueuesOk(d) && r in d.waiting && r !in d.sys.kv.held
    ensures var d' := Take(d, r);
      && r in d'.sys.kv.held && d'.sys.reqs[r].table.Some? && d'.sys.kv.held[r].blocks == d'.sys.reqs[r].table.value.blocks
      && Dropped(d'.sys.kv, r) == d.sys.kv
  {
    AcquireThenDrop(d.sys.kv, r, LongestOf(d.sys.kv.cached, LookupKey(d.sys.reqs[r], d.sys.bs)));
  }

  lemma ManyLetIn(c: Config, d: Sched, order: seq<nat>, d': Sched)
    requires Good(c, d) && QueuesOk(d) && OrderOk(d, order) && d' == AdmitLoop(c, d, order, |d.running|, c.maxPrefill, 0)
    ensures |d'.running| >= |d.running| && LetIn(c, d, order, |d'.running[|d.running|..]|)
  {
    hide Good, QueuesOk, AdmitLoop, LetIn, OrderOk, Entered;
    var n := AdmissionExactly(c, d, order);
    WelcomeCount(c, d, order, n);
    AddedTail(d.running, order[..n]);
  }

  lemma EmptyOrder(c: Config, d: Sched, order: seq<nat>, base: nat, budget: int, reserved: int)
    requires QueuesOk(d) && base <= |d.running| && OrderOk(d, order) && order == []
    ensures AdmitLoop(c, d, order, base, budget, reserved) == d
  {
  }

  lemma OnlySnoc(s: seq<nat>, i: nat, keep: set<nat>)
    requires i < |s|
    ensures Only(s[..i + 1], keep) == Only(s[..i], keep) + (if s[i] in keep then [s[i]] else [])
  {
    assert s[..i + 1] == s[..i] + [s[i]];
    OnlyConcat(s[..i], [s[i]], keep);
  }

  lemma NoDecodeRows(reqs: map<nat, Req>)
    ensures Only([], DecodingSet(reqs)) == [] && DecodeRows(reqs, []) == []
  {
  }

  lemma DecodeRowsSnoc(reqs: map<nat, Req>, running: seq<nat>, i: nat)
    requires i < |running| && forall r :: r in running ==> r in reqs
    ensures DecodeRows(reqs, Only(running[..i + 1], DecodingSet(reqs))) ==
      DecodeRows(reqs, Only(running[..i], DecodingSet(reqs))) +
      if Decodes(reqs[running[i]]) then [Work(running[i], SeqLen(reqs[running[i]]) - 1, 1)] else []
  {
    hide Only;
    OnlySnoc(running, i, DecodingSet(reqs));
  }

  lemma Reassociated(rows: seq<Work>, w: Work, rest: seq<Work>)
    ensures rows + ([w] + rest) == (rows + [w]) + rest
  {
  }

  lemma EmptyOrderChunked(c: Config, d: Sched, order: seq<nat>, rows: seq<Work>, budget: int)
    requires QueuesOk(d) && OrderOk(d, order) && order == []
    ensures AdmitChunked(c, d, order, rows, budget) == Chunked(d, rows)
  {
  }
}

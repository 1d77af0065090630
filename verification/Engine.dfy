/** The engine loop: schedule, launch, and read back the batch before (or, without overlap, the same
    one). */
module Engines {
  import opened Common
  import opened BlockPool
  import opened BlockTables
  import opened TreeShape
  import opened TokenChunks
  import EvictionOrder
  import opened KvState
  import opened KvCache
  import opened Device
  import opened Requests
  import opened Machine
  import opened MachineInv
  import opened MachineSteps
  import opened MachineTheorems
  import opened Scheduling
  import opened ScheduleSafe
  import opened ScheduleRoom
  import opened ScheduleOrder
  import opened Policies
  import opened Schedulers
  import opened Launching
  import opened ReadingBack
  import opened Inputs
  import opened Passes
  import opened Stepping
  import opened Shaping
  import opened Progress

  class Engine {
    const sched: Scheduler
    const next: Sampler
    const overlap: bool
    /** The KV pool on the device. */
    var store: Store
    /** Launched, not read back yet. */
    var inflight: Option<Flight>
    /** Records of the requests that left. */
    var done: map<nat, Req>
    var nextRid: nat

    /** The fields are the state of some run. */
    ghost predicate Tied()
      reads this, sched, sched.kv, sched.kv.allocator, sched.kv.tree
    {
      && sched.Linked() && QueuesOk(sched.View()) && Reachable(sched.sys)
      && sched.sys.store == store && sched.sys.next == next && sched.sys.done == done
    }

    lemma TiedFacts()
      requires Tied()
      ensures sched.Linked() && QueuesOk(sched.View()) && Reachable(sched.sys)
      ensures sched.sys.store == store && sched.sys.next == next && sched.sys.done == done
      ensures sched.kv.Valid() && sched.sys.reqs == sched.reqs && sched.sys.kv == sched.kv.View() && sched.nodes == sched.kv.nodeOf
      ensures sched.sys.bs == sched.kv.allocator.blockSize > 0 && (sched.sys.radix <==> sched.kv.tree != null)
      ensures sched.sys.kv.numBlocks == sched.kv.allocator.numBlocks
    {
    }

    lemma IsTied()
      requires QueuesOk(sched.View()) && Reachable(sched.sys)
      requires sched.sys.store == store && sched.sys.next == next && sched.sys.done == done
      requires sched.kv.Valid() && sched.sys.reqs == sched.reqs && sched.sys.kv == sched.kv.View() && sched.nodes == sched.kv.nodeOf
      requires sched.sys.bs == sched.kv.allocator.blockSize && (sched.sys.radix <==> sched.kv.tree != null)
      ensures Tied()
    {
    }

    constructor (sched: Scheduler, next: Sampler, overlap: bool, store: Store)
      requires sched.Valid() && sched.sys.next == next && sched.sys.store == store && sched.sys.done == map[]
      ensures Tied() && this.sched == sched && this.next == next && this.overlap == overlap && this.store == store
      ensures inflight == None && done == map[] && nextRid == 0
    {
      this.sched, this.next, this.overlap, this.store := sched, next, overlap, store;
      inflight, done, nextRid := None, map[], 0;
      new;
      GoodInv(sched.c, sched.View());
    }

    /** The state between two steps. */
    ghost predicate Valid()
      reads this, sched, sched.kv, sched.kv.allocator, sched.kv.tree
    {
      && Tied() && Good(sched.c, sched.View()) && Shaped(sched.c, sched.policy, sched.View())
      && FlightOk(inflight, sched.sys.reqs) && (!overlap ==> inflight == None)
      && (forall r :: r in sched.sys.reqs ==> r < nextRid) && (forall r :: r in done ==> r < nextRid)
      && (inflight.Some? ==> forall r :: r in inflight.value.rids ==> r < nextRid)
    }

    /** `has_unfinished`. */
    predicate HasUnfinished()
      reads this, sched
    {
      sched.waiting != [] || sched.running != [] || inflight.Some?
    }

    // ------------------------------------------------------------ reserve

    /** `append_tokens` for one row. */
    method GrowRow(w: Work)
      requires Tied() && CanGrow(sched.sys, w) && GrowNeed(sched.sys, w) <= |sched.kv.allocator.free|
      modifies sched`reqs, sched`sys, sched.kv, sched.kv.allocator
      ensures Tied() && SameRest(old(sched.sys), sched.sys) && w.rid in old(sched.sys).reqs && w.rid in sched.sys.reqs
      ensures sched.sys.reqs == old(sched.sys).reqs[w.rid := sched.sys.reqs[w.rid]]
      ensures RoomFor(sched.sys.bs, old(sched.sys).reqs[w.rid], sched.sys.reqs[w.rid], w)
      ensures |sched.kv.allocator.free| == |old(sched.kv.allocator.free)| - GrowNeed(old(sched.sys), w)
      ensures HoldsGrow(old(sched.sys).kv, sched.sys.kv)
    {
      hide HoldsGrow, Tied, Reachable, KVCacheManager.Valid, KVCacheManager.View, FreeBlocks, QueuesOk, Good;
      TiedFacts();
      ghost var s := sched.sys;
      HoldOfTable(s, w.rid);
      sched.kv.NodeOfHeld();
      var q := sched.reqs[w.rid];
      var t := q.table.value;
      var r := sched.kv.AppendTokens(w.rid, t, w.n);
      GrowStep(s, w, r.value);
      GrownHolds(s.kv, w.rid, r.value);
      QueuesStay(sched.View(), Grew(s, w, r.value), w.rid);
      SetRecord(w.rid, q.(table := Some(Table(t.blocks + r.value, t.numTokens + w.n))), Grew(s, w, r.value));
      IsTied();
    }

    /** Blocks the rows would allocate. */
    method NeedOf(rows: seq<Work>) returns (need: nat)
      requires Tied() && AllGrow(sched.sys, rows)
      ensures need == GrowNeeds(sched.sys, rows)
    {
      hide Tied, Reachable, QueuesOk, GrowNeed;
      TiedFacts();
      need := 0;
      for i := |rows| downto 0
        invariant need == GrowNeeds(sched.sys, rows[i..])
      {
        assert rows[i..][1..] == rows[i + 1..];
        var blocks := NeedOfRow(rows[i]);
        need := need + blocks;
      }
    }

    method NeedOfRow(w: Work) returns (need: nat)
      requires Tied() && CanGrow(sched.sys, w)
      ensures need == GrowNeed(sched.sys, w)
    {
      TiedFacts();
      need := BlocksNeeded(sched.reqs[w.rid].table.value, w.n, sched.kv.allocator.blockSize);
    }

    /** Frees blocks for `need` more, evicting from the prefix cache if the free pool is short. */
    method MakeFree(need: nat) returns (ok: bool)
      requires Tied()
      modifies sched`sys, sched.kv.allocator, sched.kv.tree
      ensures Tied() && SameRest(old(sched.sys), sched.sys) && sched.sys.reqs == old(sched.sys).reqs
      ensures ok <==> need <= Avail(old(sched.sys).kv)
      ensures ok ==> need <= |sched.kv.allocator.free|
      ensures EvictedFrom(old(sched.sys).kv, sched.sys.kv)
      ensures need <= |FreeBlocks(old(sched.sys).kv)| ==> sched.sys.kv == old(sched.sys).kv
    {
      hide FreeBlocks, EvictionOrder.Survivors, Tied, Reachable, KVCacheManager.Valid, KVCacheManager.View, QueuesOk, Avail, EvictedFrom,
           Scheduler.Linked, EvictionOrder.LostOldest, SameRequests;
      TiedFacts();
      ghost var d := sched.View();
      var r := sched.kv.Reserve(need);
      sched.kv.Sound();
      EvictReachable(d.sys, sched.kv.View());
      SetSys(sched.sys.(kv := sched.kv.View()));
      SameQueues(d, sched.sys);
      IsTied();
      ok := r.Ok?;
    }

    method SetSys(ghost s: Sys)
      modifies sched`sys
      ensures sched.sys == s
    {
      sched.sys := s;
    }

    /** `reserve`: room for every row, or nothing changed but the cache. It succeeds exactly when that
        many blocks can be handed out. */
    method Reserve(rows: seq<Work>) returns (ok: bool)
      requires Tied() && AllGrow(sched.sys, rows) && Distinct(Rids(rows))
      modifies sched`reqs, sched`sys, sched.kv, sched.kv.allocator, sched.kv.tree
      ensures Tied() && SameRest(old(sched.sys), sched.sys)
      ensures ok <==> GrowNeeds(old(sched.sys), rows) <= Avail(old(sched.sys).kv)
      ensures if ok then AllRoom(sched.sys.bs, old(sched.sys).reqs, sched.sys.reqs, rows) else sched.sys.reqs == old(sched.sys).reqs
      ensures GrewInto(old(sched.sys).kv, sched.sys.kv, GrowNeeds(old(sched.sys), rows))
    {
      hide Tied, Avail, CanGrow, GrowNeed, AllRoom, RoomFor, Rids, HoldsGrow, EvictedFrom, FreeBlocks;
      ghost var s0 := sched.sys;
      var need := NeedOf(rows);
      ok := MakeFree(need);
      ghost var freed := sched.sys.kv;
      HoldsSame(freed);
      if !ok { return; }
      assert rows[0..] == rows;
      NoRoomYet(sched.sys.bs, s0.reqs);
      for i := 0 to |rows|
        invariant Tied() && SameRest(s0, sched.sys)
        invariant AllRoom(s0.bs, s0.reqs, sched.sys.reqs, rows[..i])
        invariant GrowNeeds(s0, rows[i..]) <= |sched.kv.allocator.free|
        invariant HoldsGrow(freed, sched.sys.kv)
      {
        ghost var (reqs1, kv1) := (sched.sys.reqs, sched.sys.kv);
        GrowNext(s0, sched.sys, rows, i);
        GrowRow(rows[i]);
        HoldsFurther(freed, kv1, sched.sys.kv);
        RoomSnoc(s0.bs, s0.reqs, reqs1, sched.sys.reqs[rows[i].rid], rows, i);
      }
      assert rows[..|rows|] == rows;
    }

    // ------------------------------------------------------------ forward

    /** Input tokens as the host has them. */
    method HostInputs(rows: seq<Work>) returns (ids: seq<int>)
      requires Tied() && AllInput(next, sched.sys.reqs, rows)
      ensures ids == HostIds(next, sched.sys.reqs, rows)
    {
      hide Tied, HostIds, InputRow;
      ids := [];
      EmptyIds(next, sched.sys.reqs);
      for i := 0 to |rows|
        invariant AllInput(next, sched.sys.reqs, rows[..i]) && ids == HostIds(next, sched.sys.reqs, rows[..i])
      {
        HostSnoc(next, sched.sys.reqs, rows, i);
        var row := HostInput(rows[i]);
        ids := ids + row;
      }
      assert rows[..|rows|] == rows;
    }

    method HostInput(w: Work) returns (row: seq<int>)
      requires Tied() && InputRow(next, sched.sys.reqs, w)
      ensures row == HostRow(next, sched.sys.reqs, w)
    {
      TiedFacts();
      row := TokenSlice(sched.reqs[w.rid], w.start, w.n);
      TokenSliceIs(sched.reqs[w.rid], w.start, w.n);
    }

    /** One row of the pass: its tokens' KV is written to its slots, and if the row ends its sequence,
        the next token is sampled. */
    method RunRow(w: Work, ids: seq<int>) returns (tok: nat)
      requires Tied() && RunsNext(sched.sys, w, ids)
      modifies this`store, sched`reqs, sched`sys
      ensures Tied() && w.rid in old(sched.sys).reqs && w.rid in sched.sys.reqs
      ensures sched.sys == old(sched.sys).(reqs := sched.sys.reqs, store := store)
      ensures sched.sys.reqs == old(sched.sys).reqs[w.rid := sched.sys.reqs[w.rid]]
      ensures Computed(old(sched.sys).reqs[w.rid], sched.sys.reqs[w.rid])
      ensures sched.sys.reqs[w.rid].row.Sampled? ==> tok == sched.sys.reqs[w.rid].row.tok
    {
      hide Tied, Reachable, KVCacheManager.Valid, KVCacheManager.View, QueuesOk, Computed, WriteRow, InPool, Read;
      TiedFacts();
      ghost var d := sched.View();
      MayRun(d.sys, w.rid);
      var q := sched.reqs[w.rid];
      var (t, bs) := (q.table.value, sched.kv.allocator.blockSize);
      store := WriteRow(store, t.blocks, q.written, ids, bs);
      tok := next(Read(store, t.blocks, t.numTokens, bs), q.seed, t.numTokens);
      var row := if t.numTokens == SeqLen(q) then Sampled(tok) else Idle;
      SetRecord(w.rid, q.(written := t.numTokens, row := row), Ran(d.sys, w.rid));
      QueuesStay(d, sched.sys, w.rid);
      IsTied();
    }

    /** The pass over the whole batch. */
    method RunRows(ghost reqs0: map<nat, Req>, rows: seq<Work>, ids: seq<int>) returns (toks: seq<nat>)
      requires Tied() && AllInput(next, reqs0, rows) && ids == DeviceIds(next, reqs0, rows) && Distinct(Rids(rows))
      requires AllRoom(sched.sys.bs, reqs0, sched.sys.reqs, rows) && Runnable(reqs0, rows)
      modifies this`store, sched`reqs, sched`sys
      ensures Tied() && sched.sys == old(sched.sys).(reqs := sched.sys.reqs, store := store)
      ensures AllComputed(old(sched.sys).reqs, sched.sys.reqs, rows)
      ensures |toks| == |rows| && TokensOf(sched.sys.reqs, rows, toks)
    {
      hide Tied, AllComputed, RoomFor, Rids, InputRow, Computed, RunsNext, DeviceIds, DeviceRow, TokensOf, AllRoom, Runnable;
      toks := [];
      ghost var s1 := sched.sys;
      NothingRan(next, s1.reqs, reqs0, toks);
      TiedFacts();
      var off := 0;
      for i := 0 to |rows|
        invariant Tied() && sched.sys == s1.(reqs := sched.sys.reqs, store := store)
        invariant AllComputed(s1.reqs, sched.sys.reqs, rows[..i])
        invariant AllInput(next, reqs0, rows[..i]) && off == |DeviceIds(next, reqs0, rows[..i])|
        invariant |toks| == i && TokensOf(sched.sys.reqs, rows[..i], toks)
      {
        ghost var reqs2 := sched.sys.reqs;
        IdsSlice(next, reqs0, rows, i);
        RowAgrees(next, reqs0, rows[i]);
        RunNext(next, s1, reqs0, sched.sys, rows, i);
        assert ids[off..off + rows[i].n] == DeviceRow(next, reqs0, rows[i]);
        var tok := RunRow(rows[i], ids[off..off + rows[i].n]);
        ComputedSnoc(s1.reqs, reqs2, sched.sys.reqs[rows[i].rid], rows, i);
        TokensSnoc(reqs2, sched.sys.reqs, rows, i, toks, tok);
        toks := toks + [tok];
        off := off + rows[i].n;
      }
      assert rows[..|rows|] == rows;
    }

    // ------------------------------------------------------------ after the pass

    /** `kv.commit`: later requests with this prefix can hit now. */
    method Commit(r: nat)
      requires Tied() && r in sched.sys.reqs && Committing(sched.sys.reqs[r])
      modifies sched`nodes, sched`sys, sched.kv, sched.kv.allocator, sched.kv.tree
      ensures Tied() && SameRest(old(sched.sys), sched.sys) && sched.sys.reqs == old(sched.sys).reqs
      ensures MayRelease(old(sched.sys), r, old(sched.sys).reqs[r]) && sched.sys == CommittedAt(old(sched.sys), r)
    {
      hide Tied, Reachable, KVCacheManager.Valid, KVCacheManager.View, QueuesOk, Committable, CommittedView;
      TiedFacts();
      ghost var d := sched.View();
      CommitReachable(d.sys, r);
      sched.kv.NodeOfHeld();
      var q := sched.reqs[r];
      var node := sched.kv.Commit(r, q.table.value, sched.nodes[r], Tokens(q));
      SetNode(r, node, CommittedAt(d.sys, r));
      SameQueues(d, sched.sys);
      IsTied();
    }

    method SetNode(r: nat, node: nat, ghost s: Sys)
      modifies sched`nodes, sched`sys
      ensures sched.nodes == old(sched.nodes)[r := node] && sched.sys == s
    {
      sched.nodes := sched.nodes[r := node];
      sched.sys := s;
    }

    /** A row that completed its sequence gets a placeholder and the slot it stands in. */
    method BookRow(w: Work) returns (slot: Option<nat>)
      requires Tied() && w.rid in sched.sys.reqs && Bookable(sched.sys.reqs[w.rid])
      modifies sched`reqs, sched`nodes, sched`sys, sched.kv, sched.kv.allocator, sched.kv.tree
      ensures Tied() && SameRest(old(sched.sys), sched.sys) && w.rid in old(sched.sys).reqs
      ensures sched.sys.reqs == old(sched.sys).reqs[w.rid := BookedIf(old(sched.sys).reqs[w.rid])]
      ensures slot == if old(sched.sys).reqs[w.rid].row.Sampled? then Some(|old(sched.sys).reqs[w.rid].output|) else None
      ensures CommitsOne(old(sched.sys), sched.sys.kv, w.rid)
    {
      hide Tied, Reachable, QueuesOk, MayRelease, CommitsOne, FullKey, CommittedView;
      TiedFacts();
      ghost var s := sched.sys;
      var q := sched.reqs[w.rid];
      if !q.row.Sampled? {
        slot := None;
        Commit(w.rid);
        SameRecord(sched.sys.reqs, w.rid);
        CommitOfRow(s, s, w.rid);
      } else {
        slot := Some(|q.output|);
        PutPlaceholder(w.rid);
        ghost var s1 := sched.sys;
        if q.state == PREFILL {
          Commit(w.rid);
          CommitOfRow(s, s1, w.rid);
        } else {
          NoCommit(s, w.rid);
        }
      }
    }

    method PutPlaceholder(r: nat)
      requires Tied() && r in sched.sys.reqs && Bookable(sched.sys.reqs[r]) && sched.sys.reqs[r].row.Sampled?
      modifies sched`reqs, sched`sys
      ensures Tied() && SameRest(old(sched.sys), sched.sys) && r in old(sched.sys).reqs && sched.sys.kv == old(sched.sys).kv
      ensures sched.sys.reqs == old(sched.sys).reqs[r := BookedIf(old(sched.sys).reqs[r])]
    {
      hide Tied, Reachable, QueuesOk;
      TiedFacts();
      ghost var d := sched.View();
      BookReachable(d.sys, r);
      SetRecord(r, Booked(sched.reqs[r]), WithReq(d.sys, r, Booked(d.sys.reqs[r])));
      QueuesStay(d, sched.sys, r);
      IsTied();
    }

    /** Slots of the launched rows; prefills that advanced are committed. */
    method BookRows(rows: seq<Work>) returns (slots: seq<Option<nat>>)
      requires Tied() && Distinct(Rids(rows)) && AllBookable(sched.sys.reqs, rows)
      modifies sched`reqs, sched`nodes, sched`sys, sched.kv, sched.kv.allocator, sched.kv.tree
      ensures Tied() && SameRest(old(sched.sys), sched.sys)
      ensures AllBooked(old(sched.sys).reqs, sched.sys.reqs, rows)
      ensures |slots| == |rows| && SlotsOf(old(sched.sys).reqs, rows, slots)
      ensures CommitsMade(old(sched.sys), sched.sys.kv, old(sched.sys).reqs, rows)
    {
      hide Tied, AllBooked, Rids, Bookable, BookedIf, SlotsOf, CommitsMade, CommitsOne;
      ghost var s2 := sched.sys;
      slots := [];
      TiedFacts();
      NoCommits(s2, s2.reqs);
      NothingBooked(s2.reqs, slots);
      for i := 0 to |rows|
        invariant Tied() && SameRest(s2, sched.sys) && AllBooked(s2.reqs, sched.sys.reqs, rows[..i])
        invariant |slots| == i && SlotsOf(s2.reqs, rows[..i], slots)
        invariant CommitsMade(s2, sched.sys.kv, s2.reqs, rows[..i])
      {
        ghost var (s3, reqs3) := (sched.sys, sched.sys.reqs);
        BookNext(s2.reqs, reqs3, rows, i);
        var slot := BookRow(rows[i]);
        CommitsNext(s2, s3, sched.sys.kv, s2.reqs, rows, i);
        BookedSnoc(s2.reqs, reqs3, rows, i);
        SlotsSnoc(s2.reqs, rows, i, slots, slot);
        slots := slots + [slot];
      }
      assert rows[..|rows|] == rows;
    }

    // ------------------------------------------------------------ launch

    /** Whether the batch starts where the tables end. */
    method StartsAgree(rows: seq<Work>) returns (ok: bool)
      requires Tied() && forall w :: w in rows ==> w.rid in sched.sys.reqs && sched.sys.reqs[w.rid].table.Some?
      ensures ok <==> forall w :: w in rows ==> w.start == sched.sys.reqs[w.rid].table.value.numTokens
    {
      hide Tied;
      TiedFacts();
      for i := 0 to |rows|
        invariant forall j :: 0 <= j < i ==> rows[j].start == sched.sys.reqs[rows[j].rid].table.value.numTokens
      {
        assert rows[i] in rows;
        if rows[i].start != sched.reqs[rows[i].rid].table.value.numTokens { return false; }
      }
      return true;
    }

    /** `_launch`: none of its errors can occur. The inputs it computes on are the requests' own
        tokens, unread ones taken from the previous batch on the device. */
    method Launch(b: Batch, prev: Option<Flight>) returns (r: Result<Flight>)
      requires Tied() && Good(sched.c, sched.View()) && BatchOk(sched.c, sched.View(), b) && FlightOk(prev, sched.sys.reqs)
      modifies this`store, sched`reqs, sched`nodes, sched`sys, sched.kv, sched.kv.allocator, sched.kv.tree
      ensures r.Ok? && Tied() && Loose(sched.c, sched.View())
      ensures SameRest(old(sched.sys).(store := store), sched.sys)
      ensures AllLaunched(sched.sys.bs, old(sched.sys).reqs, sched.sys.reqs, b.rows)
      ensures FlightOf(r.value, old(sched.sys).reqs, sched.sys.reqs, b.rows)
      ensures InAir(prev, 0, Some(r.value), sched.sys.reqs) && r.value.rids == Rids(b.rows)
      ensures CacheAfter(old(sched.sys), sched.sys, b.rows)
    {
      hide CacheAfter, CommitsMade, GrewInto, Tied, Good, Loose, BatchOk, FlightOk, AllRoom, AllComputed, AllBooked, AllLaunched, Runnable, AllBookable,
           InAir, TokensOf, SlotsOf, AllInput, AllGrow, Rids, FlightOf, KVCacheManager.Valid, Scheduler.Linked,
           QueuesOk, Reachable;
      ghost var d := sched.View();
      TiedFacts();
      LaunchFacts(sched.c, d, b);
      var ids := HostInputs(b.rows);
      var filled := FillRows(next, d.sys.reqs, b.rows, b.numDecode, ids, prev);
      if filled.Err? { return Err(RuntimeError); }
      var agree := StartsAgree(b.rows);
      if !agree { return Err(RuntimeError); }
      var ok := Reserve(b.rows);
      if !ok { return Err(OutOfBlocks); }
      ghost var s1 := sched.sys;
      var toks := RunRows(d.sys.reqs, b.rows, filled.value);
      ghost var s2 := sched.sys;
      LaunchBookable(sched.c, d, s1.reqs, s2.reqs, b);
      var slots := BookRows(b.rows);
      var f := Flight(Rids(b.rows), toks, slots);
      TiedFacts();
      LaunchDone(sched.c, d, s1.reqs, s2.reqs, sched.View(), b, prev, f);
      LaunchCaches(sched.c, d, s1, s2, sched.sys, b);
      return Ok(f);
    }

    // ------------------------------------------------------------ read back

    /** `_retire`: give up the KV, leave the queues. `q` is the record without late tokens. */
    method Retire(r: nat, q: Req, end: State)
      requires Tied() && r in sched.sys.reqs && MayRelease(sched.sys, r, q) && (q.table.Some? <==> r in sched.sys.kv.held)
      requires Reachable(Left(sched.View(), r, q, end).sys) && QueuesOk(Left(sched.View(), r, q, end))
      modifies this`done, sched`reqs, sched`nodes, sched`sys, sched`waiting, sched`running
      modifies sched.kv, sched.kv.allocator, sched.kv.tree
      ensures Tied() && sched.View() == Left(old(sched.View()), r, q, end)
    {
      hide Tied, Reachable, KVCacheManager.Valid, KVCacheManager.View, QueuesOk, Committable, CommittedView;
      TiedFacts();
      ghost var d := sched.View();
      sched.kv.NodeOfHeld();
      if q.table.Some? {
        sched.kv.Release(r, q.table.value, sched.nodes[r], Tokens(q));
      } else {
        NotThere(sched.nodes, r);
      }
      Leave(r, Unheld(q).(state := end), Left(d, r, q, end).sys);
      IsTied();
    }

    method Leave(r: nat, q: Req, ghost s: Sys)
      modifies this`done, sched`reqs, sched`nodes, sched`sys, sched`waiting, sched`running
      ensures sched.reqs == old(sched.reqs) - {r} && sched.nodes == old(sched.nodes) - {r} && sched.sys == s
      ensures sched.waiting == Remove(old(sched.waiting), r) && sched.running == Remove(old(sched.running), r)
      ensures done == old(done)[r := q]
    {
      sched.reqs := sched.reqs - {r};
      sched.nodes := sched.nodes - {r};
      sched.waiting := Remove(sched.waiting, r);
      sched.running := Remove(sched.running, r);
      done := done[r := q];
      sched.sys := s;
    }

    /** One sampled token replaces its placeholder; the request may end with it. */
    method ReadBackRow(r: nat, slot: nat, tok: nat)
      requires Tied() && Loose(sched.c, sched.View()) && r in sched.sys.reqs && AtHead(sched.sys.reqs[r], slot, tok)
      modifies this`done, sched`reqs, sched`nodes, sched`sys, sched`waiting, sched`running
      modifies sched.kv, sched.kv.allocator, sched.kv.tree
      ensures Tied() && Loose(sched.c, sched.View()) && sched.View() == ReadBackAt(old(sched.View()), r)
    {
      hide Tied, Reachable, Loose, QueuesOk, MayRelease, Left;
      TiedFacts();
      ghost var d := sched.View();
      ReadBackLoose(sched.c, d, r);
      LooseReachable(sched.c, ReadBackAt(d, r));
      var q := sched.reqs[r];
      var q1 := q.(output := q.output[slot := tok], pending := q.pending - 1, unread := q.unread[1..]);
      if slot + 1 >= q.maxNew || tok in q.stops {
        HoldersAgree(sched.c, d, r);
        Retire(r, DropPending(q1), FINISHED);
      } else {
        SetRecord(r, q1, WithReq(d.sys, r, Filled(q)));
        QueuesStay(d, sched.sys, r);
        IsTied();
      }
    }

    /** `_process`: rows of pieces, and of requests that ended before, are passed over. */
    method Process(prev: Flight, ghost cur: Option<Flight>)
      requires Tied() && Loose(sched.c, sched.View()) && InAir(Some(prev), 0, cur, sched.sys.reqs)
      modifies this`done, sched`reqs, sched`nodes, sched`sys, sched`waiting, sched`running
      modifies sched.kv, sched.kv.allocator, sched.kv.tree
      ensures Tied() && Loose(sched.c, sched.View()) && FlightOk(cur, sched.sys.reqs)
      ensures sched.View() == ReadFrom(old(sched.View()), prev, 0)
    {
      hide Tied, Loose, InAir, ReadBackAt;
      ghost var d0 := sched.View();
      AirShape(prev, 0, cur, sched.sys.reqs);
      for i := 0 to |prev.rids|
        invariant Tied() && Loose(sched.c, sched.View()) && InAir(Some(prev), i, cur, sched.sys.reqs)
        invariant ReadFrom(d0, prev, 0) == ReadFrom(sched.View(), prev, i)
      {
        ProcessRow(prev, i, cur);
      }
      AirEmpties(Some(prev), |prev.rids|, cur, sched.sys.reqs);
    }

    method ProcessRow(prev: Flight, i: nat, ghost cur: Option<Flight>)
      requires Tied() && Loose(sched.c, sched.View()) && FlightShape(prev) && i < |prev.rids|
      requires InAir(Some(prev), i, cur, sched.sys.reqs)
      modifies this`done, sched`reqs, sched`nodes, sched`sys, sched`waiting, sched`running
      modifies sched.kv, sched.kv.allocator, sched.kv.tree
      ensures Tied() && Loose(sched.c, sched.View()) && InAir(Some(prev), i + 1, cur, sched.sys.reqs)
      ensures ReadFrom(old(sched.View()), prev, i) == ReadFrom(sched.View(), prev, i + 1)
    {
      hide Tied, Loose, InAir, Left;
      TiedFacts();
      ghost var reqs0 := sched.sys.reqs;
      var r := prev.rids[i];
      AirRow(prev, i, cur, reqs0);
      if prev.slots[i].Some? && r in sched.reqs {
        ReadBackRow(r, prev.slots[i].value, prev.tokens[i]);
        LeftReqs(old(sched.View()), r);
      }
      RowKeepsAir(prev, i, cur, reqs0, sched.sys.reqs);
    }

    // ------------------------------------------------------------ step

    /** The launch half of a step: what was in flight stays to be read back. */
    method LaunchNext(batch: Option<Batch>)
      requires Tied() && Good(sched.c, sched.View()) && FlightOk(inflight, sched.sys.reqs)
      requires batch.Some? ==> BatchOk(sched.c, sched.View(), batch.value)
      modifies this`store, this`inflight, sched`reqs, sched`nodes, sched`sys, sched.kv, sched.kv.allocator, sched.kv.tree
      ensures Tied() && Loose(sched.c, sched.View()) && InAir(old(inflight), 0, inflight, sched.sys.reqs)
      ensures LaunchedAs(Turn(old(sched.View()), batch, sched.View(), inflight))
      ensures sched.sys.reqs.Keys == old(sched.sys).reqs.Keys && sched.sys.done == old(sched.sys).done
      ensures inflight.Some? ==> forall r :: r in inflight.value.rids ==> r in old(sched.sys).reqs
    {
      hide Tied, Good, Loose, BatchOk, FlightOk, Launched, InAir, FlightOf, LaunchedAs, CacheAfter;
      ghost var d := sched.View();
      if batch.Some? {
        BatchRids(sched.c, sched.View(), batch.value);
        var f := Launch(batch.value, inflight);
        SetInflight(Some(f.value));
        LooseReachable(sched.c, sched.View());
        LaunchedBatch(d, sched.View(), batch.value, f.value);
      } else {
        GoodIsLoose(sched.c, sched.View());
        FlightIsAir(inflight, sched.sys.reqs);
        SetInflight(None);
        LaunchedNothing(d);
      }
    }

    /** Launches, and says which flight is to be read back now: the one before, or without overlap the
        one just launched. */
    method LaunchHalf(batch: Option<Batch>) returns (prev: Option<Flight>)
      requires Tied() && Good(sched.c, sched.View()) && FlightOk(inflight, sched.sys.reqs)
      requires batch.Some? ==> BatchOk(sched.c, sched.View(), batch.value)
      requires !overlap ==> inflight == None
      modifies this`store, this`inflight, sched`reqs, sched`nodes, sched`sys, sched.kv, sched.kv.allocator, sched.kv.tree
      ensures Tied() && Loose(sched.c, sched.View()) && InAir(prev, 0, inflight, sched.sys.reqs)
      ensures LaunchedAs(Turn(old(sched.View()), batch, sched.View(), if overlap then inflight else prev))
      ensures (overlap ==> prev == old(inflight)) && (!overlap ==> inflight == None)
      ensures inflight.Some? ==> forall r :: r in inflight.value.rids ==> r in old(sched.sys).reqs
      ensures sched.sys.reqs.Keys == old(sched.sys).reqs.Keys && sched.sys.done == old(sched.sys).done
    {
      hide Tied, Good, FlightOk, InAir, Loose, BatchOk, LaunchedAs;
      prev := inflight;
      LaunchNext(batch);
      if !overlap {
        TurnsAround(inflight, sched.sys.reqs);
        prev := inflight;
        SetInflight(None);
      }
    }

    method SetInflight(f: Option<Flight>)
      requires Tied()
      modifies this`inflight
      ensures Tied() && inflight == f
    {
      inflight := f;
    }

    /** The read-back half: nothing of `prev` is in the air any more. */
    method ReadBackLaunched(prev: Option<Flight>)
      requires Tied() && Loose(sched.c, sched.View()) && InAir(prev, 0, inflight, sched.sys.reqs)
      modifies this`done, sched`reqs, sched`nodes, sched`sys, sched`waiting, sched`running
      modifies sched.kv, sched.kv.allocator, sched.kv.tree
      ensures Tied() && Good(sched.c, sched.View()) && FlightOk(inflight, sched.sys.reqs)
      ensures sched.View() == ReadBackOf(old(sched.View()), prev)
    {
      hide Tied, Loose, FlightOk, InAir, Good;
      if prev.Some? {
        Process(prev.value, inflight);
      } else {
        AirEmpties(prev, 0, inflight, sched.sys.reqs);
      }
      FlightPending(inflight, sched.sys.reqs);
      GoodIsLoose(sched.c, sched.View());
    }

    /** One step. It fails only in the states where a lone request does not fit; otherwise it launches
        the scheduler's batch and reads one flight back, every invariant holds again, every request is
        carried along, and the step made progress. */
    method Step() returns (r: Result<Option<Flight>>)
      requires Valid()
      modifies this`store, this`inflight, this`done, sched`waiting, sched`running, sched`reqs, sched`nodes, sched`sys
      modifies sched.kv, sched.kv.allocator, sched.kv.tree
      ensures PolicyOk(PolicyOf(sched.policy)) && QueuesOk(old(sched.View()))
      ensures r.Err? <==> Cornered(sched.c, PolicyOf(sched.policy), old(sched.View()))
      ensures r.Err? ==> r.error == AssertionError
      ensures r.Ok? ==> exists t ::
        StepVia(sched.c, PolicyOf(sched.policy), overlap, old(sched.View()), old(inflight), t, sched.View(), inflight, r.value)
      ensures r.Ok? ==>
        && Valid() && Carries(old(sched.sys), sched.sys)
        && Advanced(old(sched.View()), sched.View(), old(inflight), inflight, nextRid)
        && OthersWait(old(sched.sys), sched.sys, r.value)
    {
      hide Valid, Tied, Good, Shaped, FlightOk, InAir, Loose, PolicyOk, PolicyOf, Cornered, QueuesOk, BatchOk, Carries, Advanced,
           LaunchedAs, Schedule, ReadFrom, OthersWait;
      ghost var (d, f) := (sched.View(), inflight);
      ValidParts();
      var plan := NextBatch();
      if plan.Err? { return Err(AssertionError); }
      ghost var d1 := sched.View();
      var prev := LaunchHalf(plan.value);
      ghost var t := Turn(d1, plan.value, sched.View(), if overlap then inflight else prev);
      ReadBackLaunched(prev);
      TurnDone(sched.c, sched.policy, d, t, sched.View(), prev, f, inflight, nextRid);
      TurnWaits(sched.c, sched.policy, d, t, sched.View(), prev);
      IsValid(d.sys);
      assert StepVia(sched.c, PolicyOf(sched.policy), overlap, d, f, t, sched.View(), inflight, prev);
      return Ok(prev);
    }

    lemma ValidParts()
      requires Valid()
      ensures Tied() && Good(sched.c, sched.View()) && Shaped(sched.c, sched.policy, sched.View())
      ensures FlightOk(inflight, sched.sys.reqs) && (!overlap ==> inflight == None)
      ensures forall r :: r in sched.sys.reqs ==> r < nextRid
      ensures inflight.Some? ==> forall r :: r in inflight.value.rids ==> r < nextRid
      ensures QueuesOk(sched.View()) && forall r :: r in sched.sys.done ==> r < nextRid
    {
    }

    lemma NextUnused()
      requires Valid()
      ensures nextRid !in sched.sys.reqs
    {
    }

    lemma IsValid(s: Sys)
      requires Tied() && Good(sched.c, sched.View()) && Shaped(sched.c, sched.policy, sched.View())
      requires FlightOk(inflight, sched.sys.reqs) && (!overlap ==> inflight == None)
      requires Carries(s, sched.sys) && (forall r :: r in s.reqs || r in s.done ==> r < nextRid)
      requires inflight.Some? ==> forall r :: r in inflight.value.rids ==> r < nextRid
      ensures Valid()
    {
    }

    /** `schedule`, in the terms of the engine. */
    method NextBatch() returns (r: Result<Option<Batch>>)
      requires Valid()
      modifies sched`waiting, sched`running, sched`reqs, sched`nodes, sched`sys, sched.kv, sched.kv.allocator, sched.kv.tree
      ensures PolicyOk(PolicyOf(sched.policy)) && QueuesOk(old(sched.View()))
      ensures r.Err? <==> Cornered(sched.c, PolicyOf(sched.policy), old(sched.View()))
      ensures r.Ok? ==>
        && Tied() && Good(sched.c, sched.View()) && FlightOk(inflight, sched.sys.reqs)
        && Schedule(sched.c, PolicyOf(sched.policy), old(sched.View())) == Plan(sched.View(), r.value)
        && (r.value.Some? ==> BatchOk(sched.c, sched.View(), r.value.value))
    {
      hide Good, Shaped, FlightOk, PolicyOk, PolicyOf, Cornered, BatchOk, Increasing, Schedule;
      ghost var d := sched.View();
      ShapedLone(sched.c, sched.policy, d);
      GoodInv(sched.c, d);
      NamedPolicyOk(sched.policy);
      LoneExactly(sched.c, PolicyOf(sched.policy), d);
      ScheduleGood(sched.c, PolicyOf(sched.policy), d);
      r := sched.Schedule();
      if r.Ok? {
        FlightSame(inflight, d.sys, sched.sys);
        ScheduledTied(d);
      }
    }

    lemma ScheduledTied(d: Sched)
      requires sched.Valid() && SameRequests(d.sys, sched.sys) && Good(sched.c, sched.View())
      requires d.sys.store == store && d.sys.next == next && d.sys.done == done
      ensures Tied()
    {
      GoodInv(sched.c, sched.View());
    }

    // ------------------------------------------------------------ arrivals and aborts

    /** A request is rejected if it could not fit in the whole pool; nothing else is. */
    method AddRequest(prompt: seq<nat>, maxNew: nat, stops: set<nat>, seed: nat) returns (r: Result<nat>)
      requires Valid()
      modifies this`nextRid, sched`waiting, sched`reqs, sched`sys
      ensures Valid() && nextRid == old(nextRid) + 1
      ensures sched.sys.bs > 0 && ConfigOk(sched.c)
      ensures r == if Admissible(sched.c, sched.sys.bs, sched.sys.kv.numBlocks, prompt, maxNew) then Ok(old(nextRid)) else Err(ValueError)
      ensures r.Err? ==> sched.View() == old(sched.View())
      ensures r.Ok? ==> sched.View() == Arrived(old(sched.View()), old(nextRid), NewReq(prompt, maxNew, stops, seed))
    {
      hide Tied, Good, Shaped, FlightOk, QueuesOk, KVCacheManager.Valid, KVCacheManager.View, Reachable, Increasing;
      TiedFacts();
      GoodInv(sched.c, sched.View());
      ghost var d := sched.View();
      var rid := nextRid;
      Count();
      var peak := |prompt| + maxNew + sched.c.tps - 1;
      if |prompt| == 0 || maxNew == 0 { return Err(ValueError); }
      if CeilDiv(peak, sched.kv.allocator.blockSize) > sched.kv.allocator.numBlocks { return Err(ValueError); }
      var q := NewReq(prompt, maxNew, stops, seed);
      AddGood(sched.c, sched.policy, d, rid, q);
      FlightWith(inflight, d.sys.reqs, rid, q);
      Enqueue(rid, q, Arrived(d, rid, q).sys);
      IsTied();
      return Ok(rid);
    }

    method Count()
      requires Valid()
      modifies this`nextRid
      ensures Valid() && nextRid == old(nextRid) + 1
    {
      nextRid := nextRid + 1;
    }

    method Enqueue(r: nat, q: Req, ghost s: Sys)
      modifies sched`waiting, sched`reqs, sched`sys
      ensures sched.waiting == old(sched.waiting) + [r] && sched.reqs == old(sched.reqs)[r := q] && sched.sys == s
    {
      sched.waiting := sched.waiting + [r];
      sched.reqs := sched.reqs[r := q];
      sched.sys := s;
    }

    /** Ends a request wherever it is; its tokens still on the way are dropped. A request that is not
        there is no error. */
    method Abort(r: nat)
      requires Valid()
      modifies this`done, sched`reqs, sched`nodes, sched`sys, sched`waiting, sched`running
      modifies sched.kv, sched.kv.allocator, sched.kv.tree
      ensures Valid()
      ensures r !in old(sched.sys).reqs ==> sched.View() == old(sched.View())
      ensures r in old(sched.sys).reqs ==>
        && old(sched.sys).reqs[r].pending <= |old(sched.sys).reqs[r].output|
        && sched.View() == Left(old(sched.View()), r, DropPending(old(sched.sys).reqs[r]), ABORTED)
    {
      hide Tied, Good, Shaped, FlightOk, QueuesOk, MayRelease, Left, Reachable, Increasing;
      TiedFacts();
      if r !in sched.reqs { return; }
      ghost var d := sched.View();
      AbortGood(sched.c, sched.policy, d, r);
      var q := DropPending(sched.reqs[r]);
      FlightWithout(inflight, d.sys.reqs, r);
      Retire(r, q, ABORTED);
      LeftRecords(d, r, q, ABORTED);
      TiedFacts();
    }

    // ------------------------------------------------------------ generate

    /** Submits every prompt; stops at the first that is rejected. */
    method AddAll(prompts: seq<seq<nat>>, maxNew: nat, stops: set<nat>, seeds: seq<nat>) returns (ok: bool, rids: seq<nat>)
      requires Valid() && |seeds| == |prompts|
      modifies this`nextRid, sched`waiting, sched`reqs, sched`sys
      ensures Valid() && sched.sys.bs > 0 && ConfigOk(sched.c) && SameSetting(old(sched.sys), sched.sys)
      ensures ok <==> forall i :: 0 <= i < |prompts| ==> Admissible(sched.c, sched.sys.bs, sched.sys.kv.numBlocks, prompts[i], maxNew)
      ensures ok ==> |rids| == |prompts| && forall i :: 0 <= i < |prompts| ==>
        Owned(sched.sys, rids[i], NewReq(prompts[i], maxNew, stops, seeds[i]))
      ensures forall r :: r in old(sched.sys).reqs ==> r in sched.sys.reqs && sched.sys.reqs[r] == old(sched.sys).reqs[r]
      ensures Roomy(sched.c, old(sched.sys)) && (forall i :: 0 <= i < |prompts| ==> FitsTwice(sched.c, old(sched.sys), prompts[i], maxNew)) ==>
        Roomy(sched.c, sched.sys)
    {
      hide Valid, Owned, Roomy, Admissible, FitsTwice;
      SettingFacts();
      rids := [];
      ghost var s0 := sched.sys;
      for i := 0 to |prompts|
        invariant Valid() && SameSetting(s0, sched.sys) && |rids| == i
        invariant forall r :: r in s0.reqs ==> r in sched.sys.reqs && sched.sys.reqs[r] == s0.reqs[r]
        invariant forall j :: 0 <= j < i ==> Admissible(sched.c, sched.sys.bs, sched.sys.kv.numBlocks, prompts[j], maxNew)
        invariant forall j :: 0 <= j < i ==> Owned(sched.sys, rids[j], NewReq(prompts[j], maxNew, stops, seeds[j]))
        invariant Roomy(sched.c, s0) && (forall j :: 0 <= j < i ==> FitsTwice(sched.c, s0, prompts[j], maxNew)) ==> Roomy(sched.c, sched.sys)
      {
        ghost var s := sched.sys;
        SettingFacts();
        var r := AddRequest(prompts[i], maxNew, stops, seeds[i]);
        if r.Err? { return false, rids; }
        OwnedMore(sched.c, s0, s, sched.sys, r.value, NewReq(prompts[i], maxNew, stops, seeds[i]));
        rids := rids + [r.value];
      }
      ok := true;
    }

    lemma SettingFacts()
      requires Valid()
      ensures sched.sys.bs == sched.kv.allocator.blockSize > 0 && ConfigOk(sched.c)
      ensures forall r :: r in sched.sys.reqs || r in sched.sys.done ==> r < nextRid
      ensures sched.sys.next == next && (sched.sys.radix <==> sched.kv.tree != null)
      ensures sched.sys.kv.numBlocks == sched.kv.allocator.numBlocks
      ensures sched.sys.done == done && sched.sys.reqs == sched.reqs && sched.sys.reqs.Keys !! sched.sys.done.Keys
    {
      TiedFacts();
      ReachableInv(sched.sys);
      GoodInv(sched.c, sched.View());
    }

    /** Runs until nothing is unfinished. It always ends. */
    method RunAll() returns (ok: bool)
      requires Valid()
      modifies this`store, this`inflight, this`done, sched`waiting, sched`running, sched`reqs, sched`nodes, sched`sys
      modifies sched.kv, sched.kv.allocator, sched.kv.tree
      ensures ok ==> Valid() && Carries(old(sched.sys), sched.sys) && sched.sys.reqs == map[]
      ensures Roomy(sched.c, old(sched.sys)) ==> ok
    {
      hide Valid, Carries, Roomy, TokensLeft, PrefillLeft;
      ghost var s0 := sched.sys;
      CarriesSelf(s0);
      while HasUnfinished()
        invariant Valid() && Carries(s0, sched.sys) && (Roomy(sched.c, s0) ==> Roomy(sched.c, sched.sys))
        decreases TokensLeft(sched.View(), nextRid), PrefillLeft(sched.View(), nextRid), if inflight.Some? then 1 else 0
      {
        ghost var s := sched.sys;
        ok := StepOnce();
        if !ok { return; }
        CarriesTrans(s0, s, sched.sys);
      }
      NothingLeft();
      ok := true;
    }

    /** One step, as a loop over steps sees it. */
    method StepOnce() returns (ok: bool)
      requires Valid() && HasUnfinished()
      modifies this`store, this`inflight, this`done, sched`waiting, sched`running, sched`reqs, sched`nodes, sched`sys
      modifies sched.kv, sched.kv.allocator, sched.kv.tree
      ensures Roomy(sched.c, old(sched.sys)) ==> ok && Roomy(sched.c, sched.sys)
      ensures ok ==> Valid() && Carries(old(sched.sys), sched.sys)
      ensures ok ==>
        var (t, t') := (TokensLeft(old(sched.View()), nextRid), TokensLeft(sched.View(), nextRid));
        var (p, p') := (PrefillLeft(old(sched.View()), nextRid), PrefillLeft(sched.View(), nextRid));
        t' < t || (t' <= t && p' < p) || (t' <= t && p' <= p && old(inflight).Some? && inflight.None?)
    {
      hide Valid, Carries, Advanced, Roomy, Cornered, PolicyOk, PolicyOf, QueuesOk, TokensLeft, PrefillLeft;
      ghost var (d, f) := (sched.View(), inflight);
      SettingFacts();
      ValidParts();
      RoomyFits(sched.c, sched.policy, d);
      var r := Step();
      if r.Err? { return false; }
      SettingFacts();
      if Roomy(sched.c, d.sys) { RoomyStays(sched.c, d.sys, sched.sys); }
      AdvancedMeans(d, sched.View(), f, inflight, nextRid);
      ok := true;
    }

    lemma NothingLeft()
      requires Valid() && !HasUnfinished()
      ensures sched.sys.reqs == map[]
    {
      TiedFacts();
      assert forall r :: r !in sched.sys.reqs;
    }

    /** `generate`: every prompt's output is the one it gets alone, whatever the policy, the pool, the
        chunks, the cache and the overlap. It ends in every case, and can only fail for a prompt that
        is rejected or, with a prefix cache in a pool too tight for twice a request, on the
        scheduler's assertion. */
    method Generate(prompts: seq<seq<nat>>, maxNew: nat, stops: set<nat>, seeds: seq<nat>) returns (r: Result<seq<seq<int>>>)
      requires Valid() && |seeds| == |prompts|
      modifies this`store, this`inflight, this`done, this`nextRid
      modifies sched`waiting, sched`running, sched`reqs, sched`nodes, sched`sys, sched.kv, sched.kv.allocator, sched.kv.tree
      ensures r.Ok? ==>
        && Valid() && |r.value| == |prompts|
        && forall i :: 0 <= i < |prompts| ==> r.value[i] == Solo(next, prompts[i], seeds[i], maxNew, stops)
      ensures old(sched.sys).bs > 0 && ConfigOk(sched.c)
      ensures (forall i :: 0 <= i < |prompts| ==> Admissible(sched.c, old(sched.sys).bs, old(sched.sys).kv.numBlocks, prompts[i], maxNew))
        && Roomy(sched.c, old(sched.sys)) && (forall i :: 0 <= i < |prompts| ==> FitsTwice(sched.c, old(sched.sys), prompts[i], maxNew))
        ==> r.Ok?
    {
      hide Valid, Carries, Roomy, Admissible, FitsTwice, Owned, Solo;
      var added, rids := AddAll(prompts, maxNew, stops, seeds);
      if !added { return Err(ValueError); }
      ghost var s1 := sched.sys;
      SettingFacts();
      var ran := RunAll();
      if !ran { return Err(AssertionError); }
      SettingFacts();
      var out: seq<seq<int>> := [];
      for i := 0 to |rids|
        modifies {}
        invariant |out| == i && forall j :: 0 <= j < i ==> out[j] == Solo(next, prompts[j], seeds[j], maxNew, stops)
      {
        OwnedCarried(s1, sched.sys, rids[i], NewReq(prompts[i], maxNew, stops, seeds[i]));
        OwnedSolo(rids[i], NewReq(prompts[i], maxNew, stops, seeds[i]));
        out := out + [done[rids[i]].output];
      }
      return Ok(out);
    }

    lemma OwnedSolo(r: nat, q: Req)
      requires Valid() && Owned(sched.sys, r, q) && sched.sys.reqs == map[]
      ensures r in done && done[r].output == Solo(next, q.prompt, q.seed, q.maxNew, q.stops)
    {
      hide Solo;
      TiedFacts();
      DoneIsSolo(sched.sys, r);
    }

    method SetRecord(r: nat, q: Req, ghost s: Sys)
      modifies sched`reqs, sched`sys
      ensures sched.reqs == old(sched.reqs)[r := q] && sched.sys == s
    {
      sched.reqs := sched.reqs[r := q];
      sched.sys := s;
    }
  }

  /** A record that changes and keeps its prompt leaves the queues in order. */
  lemma QueuesStay(d: Sched, s: Sys, r: nat)
    requires QueuesOk(d) && s.bs == d.sys.bs && r in d.sys.reqs && r in s.reqs
    requires s.reqs == d.sys.reqs[r := s.reqs[r]] && s.reqs[r].prompt == d.sys.reqs[r].prompt
    ensures QueuesOk(Sched(s, d.waiting, d.running))
  {
  }

  lemma SameQueues(d: Sched, s: Sys)
    requires QueuesOk(d) && s.bs == d.sys.bs && s.reqs == d.sys.reqs
    ensures QueuesOk(Sched(s, d.waiting, d.running))
  {
  }

  lemma NoRoomYet(bs: nat, reqs: map<nat, Req>)
    ensures AllRoom(bs, reqs, reqs, [])
  {
  }

  /** The next row finds its request as it was. */
  lemma GrowNext(s0: Sys, s: Sys, rows: seq<Work>, i: nat)
    requires AllGrow(s0, rows) && Distinct(Rids(rows)) && i < |rows| && SameRest(s0, s) && AllRoom(s0.bs, s0.reqs, s.reqs, rows[..i])
    ensures CanGrow(s, rows[i]) && CanGrow(s0, rows[i]) && GrowNeed(s, rows[i]) == GrowNeed(s0, rows[i])
    ensures rows[i].rid in s0.reqs && rows[i].rid in s.reqs && s.reqs[rows[i].rid] == s0.reqs[rows[i].rid]
    ensures AllGrow(s0, rows[i..]) && AllGrow(s0, rows[i + 1..])
    ensures GrowNeeds(s0, rows[i..]) == GrowNeed(s0, rows[i]) + GrowNeeds(s0, rows[i + 1..])
  {
    RidsSnoc(rows, i);
    assert rows[i] in rows;
    assert rows[i..][1..] == rows[i + 1..];
  }

  lemma EmptyIds(next: Sampler, reqs: map<nat, Req>)
    ensures HostIds(next, reqs, []) == []
  {
  }

  lemma HostSnoc(next: Sampler, reqs: map<nat, Req>, rows: seq<Work>, i: nat)
    requires AllInput(next, reqs, rows) && i < |rows|
    ensures AllInput(next, reqs, rows[..i]) && AllInput(next, reqs, rows[..i + 1]) && InputRow(next, reqs, rows[i])
    ensures HostIds(next, reqs, rows[..i + 1]) == HostIds(next, reqs, rows[..i]) + HostRow(next, reqs, rows[i])
  {
    assert rows[..i + 1][..i] == rows[..i];
  }

  /** The row of `w` runs next, on these input tokens. */
  ghost predicate RunsNext(s: Sys, w: Work, ids: seq<int>) {
    && w.rid in s.reqs
    && var q := s.reqs[w.rid];
    && q.table.Some? && q.row.Idle? && q.written < q.table.value.numTokens <= SeqLen(q) && !ReachedMax(q)
    && q.pending <= |q.output| && q.table.value.numTokens <= |DeviceTokens(q)| && ids == RowTokens(q)
  }

  /** Every row has new tokens within its sequence, of a request with tokens left to produce. */
  ghost predicate Runnable(reqs: map<nat, Req>, rows: seq<Work>) {
    forall w :: w in rows ==>
      && w.rid in reqs && w.n > 0 && Settled(reqs[w.rid]) && !ReachedMax(reqs[w.rid])
      && w.start == reqs[w.rid].written
  }

  lemma RunNext(next: Sampler, s1: Sys, reqs0: map<nat, Req>, s: Sys, rows: seq<Work>, i: nat)
    requires i < |rows| && Distinct(Rids(rows)) && InputRow(next, reqs0, rows[i]) && Runnable(reqs0, rows)
    requires AllRoom(s1.bs, reqs0, s1.reqs, rows) && AllComputed(s1.reqs, s.reqs, rows[..i])
    ensures rows[i].rid in s1.reqs && rows[i].rid in s.reqs && s.reqs[rows[i].rid] == s1.reqs[rows[i].rid]
    ensures RunsNext(s, rows[i], DeviceRow(next, reqs0, rows[i]))
  {
    hide Computed;
    RidsSnoc(rows, i);
    assert rows[i] in rows;
    TokenCounts(next, reqs0[rows[i].rid]);
    RowInput(next, s1.bs, reqs0, s1.reqs[rows[i].rid], rows[i]);
  }

  /** The token of every row that sampled one. */
  ghost predicate TokensOf(reqs: map<nat, Req>, rows: seq<Work>, toks: seq<nat>) {
    |toks| == |rows| && forall i :: 0 <= i < |rows| ==>
      rows[i].rid in reqs && (reqs[rows[i].rid].row.Sampled? ==> toks[i] == reqs[rows[i].rid].row.tok)
  }

  lemma NothingRan(next: Sampler, reqs: map<nat, Req>, reqs0: map<nat, Req>, toks: seq<nat>)
    requires toks == []
    ensures AllComputed(reqs, reqs, []) && TokensOf(reqs, [], toks) && DeviceIds(next, reqs0, []) == []
  {
  }

  lemma TokensSnoc(a: map<nat, Req>, b: map<nat, Req>, rows: seq<Work>, i: nat, toks: seq<nat>, tok: nat)
    requires i < |rows| && Distinct(Rids(rows)) && TokensOf(a, rows[..i], toks) && rows[i].rid in b
    requires b == a[rows[i].rid := b[rows[i].rid]] && (b[rows[i].rid].row.Sampled? ==> tok == b[rows[i].rid].row.tok)
    ensures TokensOf(b, rows[..i + 1], toks + [tok])
  {
    forall j | 0 <= j < i ensures rows[j].rid != rows[i].rid {
      assert Rids(rows)[j] != Rids(rows)[i];
    }
  }

  ghost predicate Committing(q: Req) {
    q.table.Some? && Settled(q) && q.pending <= 1
  }

  /** The row is done and its result may be booked. */
  ghost predicate Bookable(q: Req) {
    && q.table.Some? && q.written == q.table.value.numTokens && !q.row.Verified?
    && q.pending <= 1 && (q.state == PREFILL ==> q.pending == 0)
  }

  ghost predicate AllBookable(reqs: map<nat, Req>, rows: seq<Work>) {
    forall w :: w in rows ==> w.rid in reqs && Bookable(reqs[w.rid])
  }

  lemma NoCommit(s: Sys, r: nat)
    requires r in s.reqs && !ToCommit(s.reqs[r])
    ensures CommitsOne(s, s.kv, r)
  {
  }

  lemma SameRecord(reqs: map<nat, Req>, r: nat)
    requires r in reqs && !reqs[r].row.Sampled?
    ensures reqs[r := BookedIf(reqs[r])] == reqs
  {
  }

  ghost predicate SlotsOf(reqs: map<nat, Req>, rows: seq<Work>, slots: seq<Option<nat>>) {
    |slots| == |rows| && forall i :: 0 <= i < |rows| ==>
      && rows[i].rid in reqs
      && slots[i] == if reqs[rows[i].rid].row.Sampled? then Some(|reqs[rows[i].rid].output|) else None
  }

  lemma NothingBooked(reqs: map<nat, Req>, slots: seq<Option<nat>>)
    requires slots == []
    ensures AllBooked(reqs, reqs, []) && SlotsOf(reqs, [], slots)
  {
  }

  lemma BookNext(reqs2: map<nat, Req>, reqs: map<nat, Req>, rows: seq<Work>, i: nat)
    requires i < |rows| && Distinct(Rids(rows)) && AllBookable(reqs2, rows) && AllBooked(reqs2, reqs, rows[..i])
    ensures rows[i].rid in reqs2 && rows[i].rid in reqs && reqs[rows[i].rid] == reqs2[rows[i].rid] && Bookable(reqs[rows[i].rid])
  {
    hide Bookable, BookedIf;
    RidsSnoc(rows, i);
    assert rows[i] in rows;
  }

  lemma SlotsSnoc(reqs: map<nat, Req>, rows: seq<Work>, i: nat, slots: seq<Option<nat>>, slot: Option<nat>)
    requires i < |rows| && SlotsOf(reqs, rows[..i], slots) && rows[i].rid in reqs
    requires slot == if reqs[rows[i].rid].row.Sampled? then Some(|reqs[rows[i].rid].output|) else None
    ensures SlotsOf(reqs, rows[..i + 1], slots + [slot])
  {
  }

  // ------------------------------------------------------------ what launching a batch relies on

  lemma LaunchFacts(c: Config, d: Sched, b: Batch)
    requires Good(c, d) && BatchOk(c, d, b)
    ensures AllGrow(d.sys, b.rows) && InputRows(d.sys.next, d.sys.reqs, b.rows, b.numDecode) && Distinct(Rids(b.rows))
    ensures AllInput(d.sys.next, d.sys.reqs, b.rows) && Runnable(d.sys.reqs, b.rows)
    ensures GrowNeeds(d.sys, b.rows) <= Avail(d.sys.kv)
    ensures forall w :: w in b.rows ==>
      && w.rid in d.running && w.rid in d.sys.reqs && d.sys.reqs[w.rid].table.Some?
      && w.start == d.sys.reqs[w.rid].table.value.numTokens
  {
    hide Good, Avail;
    BatchRows(c, d, b.rows, b.numDecode);
    forall w | w in b.rows ensures Settled(d.sys.reqs[w.rid]) && w.rid in d.running && w.n > 0 {
      assert RowFits(d.sys, w);
      GoodReq(c, d, w.rid);
    }
  }

  lemma LaunchBookable(c: Config, d: Sched, reqs1: map<nat, Req>, reqs2: map<nat, Req>, b: Batch)
    requires Good(c, d) && BatchOk(c, d, b) && AllRoom(d.sys.bs, d.sys.reqs, reqs1, b.rows) && AllComputed(reqs1, reqs2, b.rows)
    ensures AllBookable(reqs2, b.rows)
  {
    hide Good, Avail, RowsOk, RowsNeed;
    forall w | w in b.rows ensures Bookable(reqs2[w.rid]) {
      assert RowFits(d.sys, w);
      GoodReq(c, d, w.rid);
      InBatch(c, d, b, w);
      BatchRow(c, d, w);
    }
  }

  lemma InBatch(c: Config, d: Sched, b: Batch, w: Work)
    requires BatchOk(c, d, b) && w in b.rows
    ensures RowFits(d.sys, w) && w.rid in d.running && w.n > 0
  {
    assert RowFits(d.sys, w);
  }

  /** The three phases together, and the flight they leave in the air. */
  lemma LaunchDone(c: Config, d: Sched, reqs1: map<nat, Req>, reqs2: map<nat, Req>, d': Sched, b: Batch,
                   prev: Option<Flight>, f: Flight)
    requires Good(c, d) && BatchOk(c, d, b) && FlightOk(prev, d.sys.reqs) && Reachable(d'.sys)
    requires d'.waiting == d.waiting && d'.running == d.running
    requires d'.sys.bs == d.sys.bs && d'.sys.kv.numBlocks == d.sys.kv.numBlocks
    requires AllRoom(d.sys.bs, d.sys.reqs, reqs1, b.rows) && AllComputed(reqs1, reqs2, b.rows)
    requires AllBooked(reqs2, d'.sys.reqs, b.rows)
    requires f.rids == Rids(b.rows) && TokensOf(reqs2, b.rows, f.tokens) && SlotsOf(reqs2, b.rows, f.slots)
    ensures AllLaunched(d.sys.bs, d.sys.reqs, d'.sys.reqs, b.rows) && Loose(c, d') && InAir(prev, 0, Some(f), d'.sys.reqs)
    ensures FlightOf(f, d.sys.reqs, d'.sys.reqs, b.rows)
  {
    hide Good, BatchOk, Reachable, AllRoom, AllComputed, AllBooked, TokensOf, SlotsOf, FlightOk, FlightOf, Loose, AllLaunched, Rids;
    LaunchFacts(c, d, b);
    forall r | r in d.sys.reqs ensures ReqTokens(d.sys.next, d.sys.reqs[r]) && d.sys.reqs[r].row.Idle? {
      GoodReq(c, d, r);
    }
    LaunchComposes(d.sys.bs, d.sys.reqs, reqs1, reqs2, d'.sys.reqs, b.rows);
    LaunchLoose(c, d, d', b.rows);
    FlightBuilt(d, reqs1, reqs2, d'.sys.reqs, b.rows, f);
    LaunchFlight(d.sys.bs, d.sys.next, prev, f, d.sys.reqs, d'.sys.reqs, b.rows);
  }

  /** A row's request is committed exactly if it was prefilling. */
  lemma RowCommits(c: Config, d: Sched, reqs1: map<nat, Req>, reqs2: map<nat, Req>, reqs3: map<nat, Req>, b: Batch, r: nat)
    requires Good(c, d) && BatchOk(c, d, b) && r in Rids(b.rows)
    requires AllRoom(d.sys.bs, d.sys.reqs, reqs1, b.rows) && AllComputed(reqs1, reqs2, b.rows) && AllBooked(reqs2, reqs3, b.rows)
    ensures r in reqs2 && r in reqs3 && d.sys.bs > 0
    ensures Prefilled(d.sys.reqs, reqs3, b.rows, r) <==> ToCommit(reqs2[r])
    ensures ToCommit(reqs2[r]) ==> reqs3[r].table.Some? && FullKey(reqs3[r], d.sys.bs) == FullKey(reqs2[r], d.sys.bs)
  {
    hide Good, Avail, RowsOk, RowsNeed, FullKey, BlocksNeeded, DecodeNeeds, Sum, InputRow, CanGrow;
    var w := RowOf(b.rows, r);
    InBatch(c, d, b, w);
    BatchRow(c, d, w);
    GoodReq(c, d, r);
    BookedKey(reqs2[r], d.sys.bs);
  }

  lemma RowsCommit(c: Config, d: Sched, reqs1: map<nat, Req>, reqs2: map<nat, Req>, reqs3: map<nat, Req>, b: Batch)
    requires Good(c, d) && BatchOk(c, d, b) && d.sys.bs > 0
    requires AllRoom(d.sys.bs, d.sys.reqs, reqs1, b.rows) && AllComputed(reqs1, reqs2, b.rows) && AllBooked(reqs2, reqs3, b.rows)
    ensures forall r :: r in Rids(b.rows) ==> r in reqs2 && (Prefilled(d.sys.reqs, reqs3, b.rows, r) <==> ToCommit(reqs2[r]))
    ensures forall r :: Prefilled(d.sys.reqs, reqs3, b.rows, r) ==>
      r in reqs2 && ToCommit(reqs2[r]) && FullKey(reqs3[r], d.sys.bs) == FullKey(reqs2[r], d.sys.bs)
    ensures forall p :: NowComputed(d.sys.bs, d.sys.reqs, reqs3, b.rows, p) <==> CommitsIt(d.sys.bs, reqs2, b.rows, p)
  {
    hide Good, BatchOk, AllRoom, AllComputed, AllBooked, FullKey;
    forall r | r in Rids(b.rows)
      ensures r in reqs2 && r in reqs3 && (Prefilled(d.sys.reqs, reqs3, b.rows, r) <==> ToCommit(reqs2[r]))
      ensures ToCommit(reqs2[r]) ==> reqs2[r].table.Some? && reqs3[r].table.Some? && FullKey(reqs3[r], d.sys.bs) == FullKey(reqs2[r], d.sys.bs)
    {
      RowCommits(c, d, reqs1, reqs2, reqs3, b, r);
    }
  }

  /** What the three phases of a launch leave in the cache. */
  lemma LaunchCaches(c: Config, d: Sched, s1: Sys, s2: Sys, s': Sys, b: Batch)
    requires Good(c, d) && BatchOk(c, d, b) && AllGrow(d.sys, b.rows) && GrewInto(d.sys.kv, s1.kv, GrowNeeds(d.sys, b.rows))
    requires AllRoom(d.sys.bs, d.sys.reqs, s1.reqs, b.rows) && AllComputed(s1.reqs, s2.reqs, b.rows) && AllBooked(s2.reqs, s'.reqs, b.rows)
    requires s2.kv == s1.kv && s2.bs == d.sys.bs && s2.radix == d.sys.radix && CommitsMade(s2, s'.kv, s2.reqs, b.rows)
    ensures CacheAfter(d.sys, s', b.rows)
  {
    hide Good, BatchOk, AllRoom, AllComputed, AllBooked, FullKey, ToCommit, NowComputed, CommitsIt, Prefilled, CanGrow, FreeBlocks,
         Evictable, RowsNeed, RowFits;
    CommitsPool(s2, s'.kv, s2.reqs, b.rows);
    RowsCommit(c, d, s1.reqs, s2.reqs, s'.reqs, b);
    EnoughIs(c, d, b);
    var freed :| EvictedFrom(d.sys.kv, freed) && (GrowNeeds(d.sys, b.rows) <= |FreeBlocks(d.sys.kv)| ==> freed == d.sys.kv) && HoldsGrow(freed, s1.kv);
    HeldAfter(d.sys, s1, s2, s', freed, b.rows);
  }

  lemma CommitsPool(s: Sys, kv': Kv, reqs: map<nat, Req>, rows: seq<Work>)
    requires CommitsMade(s, kv', reqs, rows)
    ensures s.bs > 0
  {
  }

  lemma EnoughIs(c: Config, d: Sched, b: Batch)
    requires Good(c, d) && BatchOk(c, d, b) && AllGrow(d.sys, b.rows)
    ensures EnoughFree(d.sys, b.rows) <==> GrowNeeds(d.sys, b.rows) <= |FreeBlocks(d.sys.kv)|
  {
    hide Good, RowsOk, RowFits, FreeBlocks, Avail, Sum;
    BatchRows(c, d, b.rows, b.numDecode);
  }

  lemma HeldAfter(s: Sys, s1: Sys, s2: Sys, s': Sys, freed: Kv, rows: seq<Work>)
    requires EvictedFrom(s.kv, freed) && HoldsGrow(freed, s1.kv) && s2.kv == s1.kv && s2.bs == s.bs && s2.radix == s.radix
    requires CommitsMade(s2, s'.kv, s2.reqs, rows) && s.bs > 0
    requires forall r :: r in Rids(rows) ==> r in s2.reqs && (Prefilled(s.reqs, s'.reqs, rows, r) <==> ToCommit(s2.reqs[r]))
    requires forall r :: Prefilled(s.reqs, s'.reqs, rows, r) ==>
      r in s2.reqs && ToCommit(s2.reqs[r]) && FullKey(s'.reqs[r], s.bs) == FullKey(s2.reqs[r], s.bs)
    ensures s'.kv.held.Keys == s.kv.held.Keys
    ensures forall r :: r in s.kv.held ==>
      && s.kv.held[r].blocks <= s'.kv.held[r].blocks
      && s'.kv.held[r].path ==
           if s.radix && Prefilled(s.reqs, s'.reqs, rows, r) then FullKey(s'.reqs[r], s.bs) else s.kv.held[r].path
  {
    hide FullKey, CommitsIt;
  }

  lemma FlightBuilt(d: Sched, reqs1: map<nat, Req>, reqs2: map<nat, Req>, reqs3: map<nat, Req>, rows: seq<Work>, f: Flight)
    requires AllRoom(d.sys.bs, d.sys.reqs, reqs1, rows) && AllComputed(reqs1, reqs2, rows) && AllBooked(reqs2, reqs3, rows)
    requires Distinct(Rids(rows)) && f.rids == Rids(rows) && TokensOf(reqs2, rows, f.tokens) && SlotsOf(reqs2, rows, f.slots)
    requires forall w :: w in rows ==>
      && w.rid in d.sys.reqs && d.sys.reqs[w.rid].row.Idle? && d.sys.reqs[w.rid].table.Some?
      && w.start == d.sys.reqs[w.rid].table.value.numTokens
    ensures FlightOf(f, d.sys.reqs, reqs3, rows)
  {
    forall i | 0 <= i < |rows| ensures FlightRow(d.sys.reqs, reqs3, rows[i], f.slots[i], f.tokens[i]) {
      assert rows[i] in rows;
    }
  }

  // ------------------------------------------------------------ what reading back relies on

  lemma NotThere(nodes: map<nat, nat>, r: nat)
    requires r !in nodes
    ensures nodes - {r} == nodes
  {
  }

  lemma HoldersAgree(c: Config, d: Sched, r: nat)
    requires Loose(c, d) && r in d.sys.reqs && HasToken(d.sys.reqs[r])
    ensures DropPending(Filled(d.sys.reqs[r])).table.Some? <==> r in d.sys.kv.held
  {
    LooseReq(c, d, r);
  }

  lemma AirShape(prev: Flight, i: nat, cur: Option<Flight>, reqs: map<nat, Req>)
    requires InAir(Some(prev), i, cur, reqs)
    ensures FlightShape(prev)
  {
  }

  lemma AirRow(prev: Flight, i: nat, cur: Option<Flight>, reqs: map<nat, Req>)
    requires FlightShape(prev) && i < |prev.rids| && InAir(Some(prev), i, cur, reqs)
    ensures prev.slots[i].Some? && prev.rids[i] in reqs ==> AtHead(reqs[prev.rids[i]], prev.slots[i].value, prev.tokens[i])
  {
  }

  lemma LeftReqs(d: Sched, r: nat)
    requires r in d.sys.reqs && HasToken(d.sys.reqs[r])
    ensures ReadBackAt(d, r).sys.reqs == if Ends(d.sys.reqs[r]) then d.sys.reqs - {r} else d.sys.reqs[r := Filled(d.sys.reqs[r])]
  {
  }

  // ------------------------------------------------------------ flights across a step

  lemma FlightPending(f: Option<Flight>, reqs: map<nat, Req>)
    requires FlightOk(f, reqs)
    ensures forall r :: r in reqs ==> reqs[r].pending <= 1
  {
    assert forall r :: !SlotFrom(None, r, 0);
  }

  lemma FlightSame(f: Option<Flight>, s: Sys, s': Sys)
    requires FlightOk(f, s.reqs) && SameRequests(s, s')
    ensures FlightOk(f, s'.reqs)
  {
  }

  /** Without overlap the batch just launched is read back at once. */
  lemma TurnsAround(f: Option<Flight>, reqs: map<nat, Req>)
    requires InAir(None, 0, f, reqs)
    ensures InAir(f, 0, None, reqs)
  {
    AirEmpties(None, 0, f, reqs);
    FlightIsAir(f, reqs);
  }

  // ------------------------------------------------------------ a whole step

  lemma ShapedLone(c: Config, name: PolicyName, d: Sched)
    requires Shaped(c, name, d)
    ensures c.chunk == 0 ==> NoPartial(d)
  {
  }

  lemma LaunchedShape(c: Config, name: PolicyName, d: Sched, d1: Sched, d2: Sched, batch: Option<Batch>)
    requires PolicyOk(PolicyOf(name)) && Good(c, d) && QueuesOk(d) && Shaped(c, name, d)
    requires Schedule(c, PolicyOf(name), d) == Plan(d1, batch) && (batch.Some? ==> BatchOk(c, d1, batch.value))
    requires d2.waiting == d1.waiting && d2.running == d1.running
    requires if batch.Some? then AllLaunched(d1.sys.bs, d1.sys.reqs, d2.sys.reqs, batch.value.rows) else d2 == d1
    ensures Shaped(c, name, d2)
  {
    hide Good, QueuesOk, Shaped, Planned, Schedule, PolicyOk, PolicyOf, AllLaunched, BatchOk, SameRequests;
    PlannedShape(c, name, d);
    ScheduleGood(c, PolicyOf(name), d);
    GoodInv(c, d1);
    if batch.Some? {
      LaunchFacts(c, d1, batch.value);
      LaunchShaped(c, name, d1, d2, batch.value.rows);
    } else {
      NothingPlanned(c, name, d1);
    }
  }

  /** With work left the step sampled or computed, or at least nothing is in flight any more. */
  ghost predicate Advanced(d: Sched, d': Sched, f: Option<Flight>, f': Option<Flight>, n: nat) {
    d.waiting != [] || d.running != [] || f.Some? ==>
      Less(d, d', n) || (NoMore(d, d', n) && f.Some? && f'.None?)
  }

  lemma LaunchedBatch(d: Sched, d': Sched, b: Batch, f: Flight)
    requires d'.waiting == d.waiting && d'.running == d.running && d'.sys.bs == d.sys.bs && Reachable(d'.sys)
    requires AllLaunched(d'.sys.bs, d.sys.reqs, d'.sys.reqs, b.rows) && FlightOf(f, d.sys.reqs, d'.sys.reqs, b.rows)
    requires CacheAfter(d.sys, d'.sys, b.rows)
    ensures LaunchedAs(Turn(d, Some(b), d', Some(f)))
  {
    hide Reachable, AllLaunched, FlightOf, CacheAfter;
  }

  lemma LaunchedNothing(d: Sched)
    ensures LaunchedAs(Turn(d, None, d, None))
  {
  }

  lemma LaunchedFacts(t: Turn)
    requires LaunchedAs(t)
    ensures t.after.waiting == t.planned.waiting && t.after.running == t.planned.running
    ensures t.launched.Some? <==> t.batch.Some?
    ensures if t.batch.Some? then AllLaunched(t.planned.sys.bs, t.planned.sys.reqs, t.after.sys.reqs, t.batch.value.rows)
            else t.after == t.planned
    ensures t.batch.Some? ==>
      && t.launched.value.rids == Rids(t.batch.value.rows)
      && FlightOf(t.launched.value, t.planned.sys.reqs, t.after.sys.reqs, t.batch.value.rows)
  {
    hide Reachable, AllLaunched, FlightRow, CacheAfter;
  }

  /** What a step leaves: the shape of the queues, the same requests, and less to do. */
  lemma StepDone(c: Config, name: PolicyName, d: Sched, d1: Sched, d2: Sched, d3: Sched, batch: Option<Batch>,
                 prev: Option<Flight>, f: Option<Flight>, f': Option<Flight>, n: nat)
    requires PolicyOk(PolicyOf(name)) && Good(c, d) && QueuesOk(d) && Shaped(c, name, d) && FlightOk(f, d.sys.reqs)
    requires forall r :: r in d.sys.reqs ==> r < n
    requires Schedule(c, PolicyOf(name), d) == Plan(d1, batch) && (batch.Some? ==> BatchOk(c, d1, batch.value))
    requires d2.waiting == d1.waiting && d2.running == d1.running && d2.sys.done == d1.sys.done && Loose(c, d2)
    requires if batch.Some? then AllLaunched(d1.sys.bs, d1.sys.reqs, d2.sys.reqs, batch.value.rows) else d2 == d1
    requires d3 == ReadBackOf(d2, prev) && (batch.None? ==> f'.None?)
    ensures Shaped(c, name, d3) && Carries(d.sys, d3.sys) && Advanced(d, d3, f, f', n)
  {
    hide Good, QueuesOk, Shaped, Schedule, PolicyOk, PolicyOf, AllLaunched, Loose, SameRequests, BatchOk, ReadFrom, Carries,
         FlightOk, Less, NoMore;
    ScheduleGood(c, PolicyOf(name), d);
    LaunchedShape(c, name, d, d1, d2, batch);
    KeysOf(d.sys, d1.sys);
    StepLess(c, name, d, d2, n);
    ScheduleCarries(d.sys, d1.sys);
    if batch.Some? { LaunchCarries(d1.sys.bs, d1.sys, d2.sys, batch.value.rows); }
    if batch.Some? { CarriesTrans(d.sys, d1.sys, d2.sys); }
    if prev.Some? { ReadBackDone(c, name, d, d2, d3, prev.value, n); }
    if batch.None? && (d.waiting != [] || d.running != [] || f.Some?) { MustBeInFlight(c, name, d, f); }
  }

  lemma TurnDone(c: Config, name: PolicyName, d: Sched, t: Turn, d3: Sched, prev: Option<Flight>,
                 f: Option<Flight>, f': Option<Flight>, n: nat)
    requires PolicyOk(PolicyOf(name)) && Good(c, d) && QueuesOk(d) && Shaped(c, name, d) && FlightOk(f, d.sys.reqs)
    requires forall r :: r in d.sys.reqs ==> r < n
    requires Schedule(c, PolicyOf(name), d) == Plan(t.planned, t.batch)
    requires t.batch.Some? ==> BatchOk(c, t.planned, t.batch.value)
    requires LaunchedAs(t) && t.after.sys.done == t.planned.sys.done && Loose(c, t.after)
    requires d3 == ReadBackOf(t.after, prev) && (f' == None || f' == t.launched)
    ensures Shaped(c, name, d3) && Carries(d.sys, d3.sys) && Advanced(d, d3, f, f', n)
  {
    hide *;
    LaunchedFacts(t);
    StepDone(c, name, d, t.planned, t.after, d3, t.batch, prev, f, f', n);
  }

  lemma ReadBackDone(c: Config, name: PolicyName, d: Sched, d2: Sched, d3: Sched, prev: Flight, n: nat)
    requires Shaped(c, name, d2) && Loose(c, d2) && Carries(d.sys, d2.sys) && d3 == ReadFrom(d2, prev, 0)
    ensures Shaped(c, name, d3) && Carries(d.sys, d3.sys)
    ensures (Less(d, d2, n) ==> Less(d, d3, n)) && (NoMore(d, d2, n) ==> NoMore(d, d3, n))
  {
    hide Shaped, Loose, ReadFrom, Carries, Thinned;
    ReadShaped(c, name, d2, prev, 0);
    ReadThins(d2, prev, 0);
    ThinnedLess(d2.sys.reqs, d3.sys.reqs, n);
    LooseDisjoint(c, d2);
    ReadCarries(d2, prev, 0);
    CarriesTrans(d.sys, d2.sys, d3.sys);
  }

  /** Reading a batch back changes requests of that batch only. */
  lemma OthersStay(d2: Sched, d3: Sched, prev: Option<Flight>)
    requires d3 == ReadBackOf(d2, prev)
    ensures forall x :: x in d2.sys.reqs && (prev.None? || x !in prev.value.rids) ==>
      x in d3.sys.reqs && d3.sys.reqs[x] == d2.sys.reqs[x]
  {
    if prev.Some? {
      forall x | x in d2.sys.reqs && x !in prev.value.rids ensures x in d3.sys.reqs && d3.sys.reqs[x] == d2.sys.reqs[x] {
        ReadKeepsOthers(d2, prev.value, 0, x);
      }
    }
  }

  /** Whoever has no row in the batch read back is still there, with as many tokens read back. */
  ghost predicate OthersWait(s: Sys, s': Sys, back: Option<Flight>) {
    forall x :: x in s.reqs && (back.None? || x !in back.value.rids) ==>
      x in s'.reqs && ReadyCount(s'.reqs[x]) == ReadyCount(s.reqs[x])
  }

  lemma TurnWaits(c: Config, name: PolicyName, d: Sched, t: Turn, d3: Sched, prev: Option<Flight>)
    requires PolicyOk(PolicyOf(name)) && Good(c, d) && QueuesOk(d)
    requires Schedule(c, PolicyOf(name), d) == Plan(t.planned, t.batch) && LaunchedAs(t) && d3 == ReadBackOf(t.after, prev)
    ensures OthersWait(d.sys, d3.sys, prev) && t.planned.sys.reqs.Keys == d.sys.reqs.Keys
  {
    hide Good, QueuesOk, Schedule, PolicyOk, PolicyOf, LaunchedAs, ReadBackOf, AllLaunched;
    SameKeysAs(c, name, d, t.planned);
    LaunchedFacts(t);
    if t.batch.Some? { LaunchReadsNone(t.planned.sys.bs, t.planned.sys.reqs, t.after.sys.reqs, t.batch.value.rows); }
    OthersStay(t.after, d3, prev);
  }

  lemma LooseDisjoint(c: Config, d: Sched)
    requires Loose(c, d)
    ensures d.sys.reqs.Keys !! d.sys.done.Keys
  {
    ReachableInv(d.sys);
  }

  /** Work left and no batch: something is in flight. */
  lemma MustBeInFlight(c: Config, name: PolicyName, d: Sched, f: Option<Flight>)
    requires PolicyOk(PolicyOf(name)) && Good(c, d) && QueuesOk(d) && Shaped(c, name, d) && FlightOk(f, d.sys.reqs)
    requires Schedule(c, PolicyOf(name), d).Plan? && Schedule(c, PolicyOf(name), d).batch.None?
    requires d.waiting != [] || d.running != [] || f.Some?
    ensures f.Some?
  {
    hide Good, QueuesOk, Shaped, Schedule, PolicyOk, PolicyOf;
    if f.None? {
      assert forall r :: !SlotFrom(None, r, 0);
      SomethingRuns(c, name, d);
    }
  }

  // ------------------------------------------------------------ arrivals and aborts

  /** The checks of a submission: not empty, at least one token to produce, and within the pool. */
  predicate Admissible(c: Config, bs: nat, numBlocks: nat, prompt: seq<nat>, maxNew: nat)
    requires bs > 0 && c.tps >= 1
  {
    |prompt| > 0 && maxNew >= 1 && CeilDiv(|prompt| + maxNew + c.tps - 1, bs) <= numBlocks
  }

  ghost function Arrived(d: Sched, r: nat, q: Req): Sched {
    Sched(WithReq(d.sys, r, q), d.waiting + [r], d.running)
  }

  lemma AddGood(c: Config, name: PolicyName, d: Sched, r: nat, q: Req)
    requires Good(c, d) && Shaped(c, name, d) && (forall x :: x in d.sys.reqs || x in d.sys.done ==> x < r) && d.sys.bs > 0 && c.tps >= 1
    requires Admissible(c, d.sys.bs, d.sys.kv.numBlocks, q.prompt, q.maxNew) && q == NewReq(q.prompt, q.maxNew, q.stops, q.seed)
    ensures Good(c, Arrived(d, r, q)) && Shaped(c, name, Arrived(d, r, q)) && Reachable(Arrived(d, r, q).sys)
    ensures QueuesOk(Arrived(d, r, q))
  {
    hide Shaped, Reachable, Resting;
    GoodInv(c, d);
    var d' := Arrived(d, r, q);
    StepReachable(d.sys, Add(r, q), d'.sys);
    AddShaped(c, name, d, r, q);
    NewRests(c, d.sys.kv.numBlocks, d.sys.bs, q);
    forall x | x in d'.sys.reqs ensures Resting(c, d'.sys.kv.numBlocks, d'.sys.bs, d'.sys.reqs[x]) {
      if x != r { assert Resting(c, d.sys.kv.numBlocks, d.sys.bs, d.sys.reqs[x]); }
    }
  }

  lemma NewRests(c: Config, numBlocks: nat, bs: nat, q: Req)
    requires bs > 0 && c.tps >= 1 && Admissible(c, bs, numBlocks, q.prompt, q.maxNew)
    requires q == NewReq(q.prompt, q.maxNew, q.stops, q.seed)
    ensures Resting(c, numBlocks, bs, q)
  {
  }

  /** A new request has no placeholder and no row. */
  lemma FlightWith(f: Option<Flight>, reqs: map<nat, Req>, r: nat, q: Req)
    requires FlightOk(f, reqs) && r !in reqs && q.pending == 0
    ensures (f.Some? ==> r !in f.value.rids) ==> FlightOk(f, reqs[r := q])
  {
  }

  /** An abort is always possible. */
  lemma AbortGood(c: Config, name: PolicyName, d: Sched, r: nat)
    requires Good(c, d) && Shaped(c, name, d) && r in d.sys.reqs
    ensures d.sys.reqs[r].pending <= |d.sys.reqs[r].output|
    ensures var q := DropPending(d.sys.reqs[r]);
      && MayRelease(d.sys, r, q) && (q.table.Some? <==> r in d.sys.kv.held)
      && Reachable(Left(d, r, q, ABORTED).sys) && QueuesOk(Left(d, r, q, ABORTED))
      && Good(c, Left(d, r, q, ABORTED)) && Shaped(c, name, Left(d, r, q, ABORTED))
  {
    hide Shaped, Reachable, Inv, MayRelease, Left, Good, Loose, QueuesOk, ReqTokens, LiveOk;
    GoodInv(c, d);
    GoodReq(c, d, r);
    MayAlwaysRelease(d.sys, r);
    var q := DropPending(d.sys.reqs[r]);
    AbortReachable(d, r);
    GoodIsLoose(c, d);
    LeftLoose(c, d, r, q, ABORTED);
    LooseReachable(c, Left(d, r, q, ABORTED));
    LeftShaped(c, name, d, r, q, ABORTED);
    LeftRecords(d, r, q, ABORTED);
    GoodIsLoose(c, Left(d, r, q, ABORTED));
  }

  lemma LeftRecords(d: Sched, r: nat, q: Req, end: State)
    ensures Left(d, r, q, end).sys.reqs == d.sys.reqs - {r}
    ensures forall x :: x in Left(d, r, q, end).sys.done ==> x == r || x in d.sys.done
  {
  }

  lemma AbortReachable(d: Sched, r: nat)
    requires Reachable(d.sys) && r in d.sys.reqs && Settled(d.sys.reqs[r]) && d.sys.reqs[r].pending <= 1
    requires d.sys.reqs[r].pending <= |d.sys.reqs[r].output| && MayRelease(d.sys, r, DropPending(d.sys.reqs[r]))
    ensures Reachable(Left(d, r, DropPending(d.sys.reqs[r]), ABORTED).sys)
  {
    StepReachable(d.sys, Action.Abort(r), Left(d, r, DropPending(d.sys.reqs[r]), ABORTED).sys);
  }

  lemma BatchRids(c: Config, d: Sched, b: Batch)
    requires BatchOk(c, d, b)
    ensures forall r :: r in Rids(b.rows) ==> r in d.sys.reqs
  {
  }

  lemma SameKeysAs(c: Config, name: PolicyName, d: Sched, d1: Sched)
    requires PolicyOk(PolicyOf(name)) && Good(c, d) && QueuesOk(d)
    requires Schedule(c, PolicyOf(name), d).Plan? && Schedule(c, PolicyOf(name), d).d == d1
    ensures d1.sys.reqs.Keys == d.sys.reqs.Keys && forall r :: r in d.sys.reqs ==> ReadyCount(d1.sys.reqs[r]) == ReadyCount(d.sys.reqs[r])
  {
    hide Good, QueuesOk, Schedule, PolicyOk, PolicyOf;
    ScheduleGood(c, PolicyOf(name), d);
  }

  // ------------------------------------------------------------ generate

  ghost predicate SameSetting(s: Sys, s': Sys) {
    s'.bs == s.bs && s'.next == s.next && s'.radix == s.radix && s'.kv.numBlocks == s.kv.numBlocks
  }

  /** `r` is a request with the job of `q`: waiting to be done, or done. */
  ghost predicate Owned(s: Sys, r: nat, q: Req) {
    (r in s.reqs && SameJob(q, s.reqs[r])) || (r in s.done && SameJob(q, s.done[r]) && s.done[r].state == FINISHED)
  }

  /** The assertion is out of reach: no prefix cache, or a pool of twice what any request can need. */
  ghost predicate Roomy(c: Config, s: Sys) {
    && s.bs > 0 && c.tps >= 1
    && (!s.radix || forall r :: r in s.reqs ==> 2 * PeakBlocks(c, s.bs, s.reqs[r]) <= s.kv.numBlocks)
  }

  predicate FitsTwice(c: Config, s: Sys, prompt: seq<nat>, maxNew: nat) {
    s.bs > 0 && c.tps >= 1 && (!s.radix || 2 * CeilDiv(|prompt| + maxNew + c.tps - 1, s.bs) <= s.kv.numBlocks)
  }

  lemma OwnedMore(c: Config, s0: Sys, s: Sys, s': Sys, r: nat, q: Req)
    requires r !in s.reqs && r !in s.done && s' == WithReq(s, r, q) && SameSetting(s0, s)
    ensures Owned(s', r, q) && forall x, y :: Owned(s, x, y) ==> Owned(s', x, y)
    ensures Roomy(c, s) && FitsTwice(c, s0, q.prompt, q.maxNew) ==> Roomy(c, s')
  {
  }

  lemma OwnedCarried(s: Sys, s': Sys, r: nat, q: Req)
    requires Owned(s, r, q) && Carries(s, s') && s.reqs.Keys !! s.done.Keys
    ensures Owned(s', r, q)
  {
  }

  lemma CarriesSelf(s: Sys)
    ensures Carries(s, s)
  {
  }

  lemma RoomyStays(c: Config, s: Sys, s': Sys)
    requires Roomy(c, s) && Carries(s, s') && SameSetting(s, s')
    ensures Roomy(c, s')
  {
  }

  lemma RoomyFits(c: Config, name: PolicyName, d: Sched)
    requires Good(c, d) && Shaped(c, name, d) && QueuesOk(d)
    ensures PolicyOk(PolicyOf(name))
    ensures Roomy(c, d.sys) ==> !Cornered(c, PolicyOf(name), d)
  {
    hide Good, PolicyOk, PolicyOf, Cornered, PeakBlocks;
    NamedPolicyOk(name);
    GoodInv(c, d);
    ShapedLone(c, name, d);
    if Roomy(c, d.sys) {
      NeverLone(c, PolicyOf(name), d);
      LoneExactly(c, PolicyOf(name), d);
    }
  }

  lemma AdvancedMeans(d: Sched, d': Sched, f: Option<Flight>, f': Option<Flight>, n: nat)
    requires Advanced(d, d', f, f', n) && (d.waiting != [] || d.running != [] || f.Some?)
    ensures Less(d, d', n) || (NoMore(d, d', n) && f.Some? && f'.None?)
  {
  }

  lemma DoneIsSolo(s: Sys, r: nat)
    requires Reachable(s) && r in s.done && s.done[r].state == FINISHED
    ensures s.done[r].output == Solo(s.next, s.done[r].prompt, s.done[r].seed, s.done[r].maxNew, s.done[r].stops)
  {
    hide Solo;
    ReachableInv(s);
    assert DoneOk(s.next, s.done[r]);
  }
}

/** What the invariant means for a reader of the engine: the promises its documentation makes, for
    every run. */
module MachineTheorems {
  import opened Common
  import opened BlockTables
  import opened TreeShape
  import opened TokenChunks
  import opened KvState
  import opened KvCache
  import opened Device
  import opened Requests
  import opened Verification
  import opened Machine
  import opened MachineInv
  import opened MachineSteps

  /** Some run leads here. */
  ghost predicate Reachable(s: Sys) {
    exists run: seq<Sys>, acts: seq<Action> :: IsRun(run, acts) && run[|acts|] == s
  }

  lemma ReachableInv(s: Sys)
    requires Reachable(s)
    ensures Inv(s)
  {
    var run: seq<Sys>, acts: seq<Action> :| IsRun(run, acts) && run[|acts|] == s;
    RunInv(run, acts, |acts|);
  }

  lemma StartReachable(s: Sys)
    requires Init(s)
    ensures Reachable(s)
  {
    assert IsRun([s], []);
  }

  lemma StepReachable(s: Sys, a: Action, s': Sys)
    requires Reachable(s) && Step(s, a, s')
    ensures Reachable(s')
  {
    hide Step, Init;
    var run: seq<Sys>, acts: seq<Action> :| IsRun(run, acts) && run[|acts|] == s;
    var (run', acts') := (run + [s'], acts + [a]);
    forall i | 0 <= i < |acts'| ensures Step(run'[i], acts'[i], run'[i + 1]) {
      if i < |acts| { assert Step(run[i], acts[i], run[i + 1]); }
    }
    assert IsRun(run', acts') && run'[|acts'|] == s';
  }

  // ------------------------------------------------------------ what a request keeps

  /** Same prompt, limits and seed. */
  predicate SameJob(q: Req, q': Req) {
    q'.prompt == q.prompt && q'.maxNew == q.maxNew && q'.stops == q.stops && q'.seed == q.seed
  }

  /** The record of a request, live or gone. */
  ghost function Record(s: Sys, rid: nat): Option<Req> {
    if rid in s.reqs then Some(s.reqs[rid]) else if rid in s.done then Some(s.done[rid]) else None
  }

  lemma LiveStates(s: Sys)
    requires Inv(s)
    ensures StatesOk(s)
  {
    hide KvOk, CacheHolds, LiveOk, ReqTokens, RowOk;
    forall r | r in s.reqs ensures ReqOk(s.next, s.bs, s.store, s.kv.held, r, s.reqs[r]) {
      InvReq(s, r);
    }
  }

  /** Same job, and the state moved along the transition table or not at all. */
  ghost predicate RecordMoves(s: Sys, s': Sys, rid: nat) {
    Record(s, rid).Some? ==>
      && Record(s', rid).Some? && SameJob(Record(s, rid).value, Record(s', rid).value)
      && (Record(s', rid).value.state == Record(s, rid).value.state
          || MayGo(Record(s, rid).value.state, Record(s', rid).value.state))
      && (rid !in s.reqs ==> Record(s', rid) == Record(s, rid))
  }

  /** One step keeps the job of every request and moves its state along the transition table or not
      at all; records of requests that left never change. */
  lemma StepRecords(s: Sys, a: Action, s': Sys, rid: nat)
    requires Inv(s) && Step(s, a, s')
    ensures RecordMoves(s, s', rid)
  {
    hide Inv, RecordMoves;
    LiveStates(s);
    match a {
      case Add(r, q) => QueueRecords(s, a, s', rid);
      case Admit(r) => QueueRecords(s, a, s', rid);
      case Preempt(r) => QueueRecords(s, a, s', rid);
      case Evict => PoolRecords(s, a, s', rid);
      case Reserve(r, n, news) => PoolRecords(s, a, s', rid);
      case Commit(r) => PoolRecords(s, a, s', rid);
      case Run(r) => PassRecords(s, a, s', rid);
      case Verify(r, proposals) => PassRecords(s, a, s', rid);
      case Book(r) => PassRecords(s, a, s', rid);
      case Abort(r) => EndRecords(s, a, s', rid);
      case ReadBack(r) => EndRecords(s, a, s', rid);
      case Settle(r) => EndRecords(s, a, s', rid);
    }
  }

  ghost predicate StatesOk(s: Sys) {
    && s.reqs.Keys !! s.done.Keys
    && forall r :: r in s.reqs ==>
      && var q := s.reqs[r];
      && (q.state == WAITING || q.state == PREFILL || q.state == DECODE)
      && (!q.row.Idle? ==> q.state != WAITING) && (q.state == PREFILL ==> q.pending == 0)
  }

  lemma QueueRecords(s: Sys, a: Action, s': Sys, rid: nat)
    requires StatesOk(s) && Step(s, a, s') && (a.Add? || a.Admit? || a.Preempt?)
    ensures RecordMoves(s, s', rid)
  {
    hide MayRelease, Released, Taken, TakenTable;
  }

  lemma PoolRecords(s: Sys, a: Action, s': Sys, rid: nat)
    requires StatesOk(s) && Step(s, a, s') && (a.Evict? || a.Reserve? || a.Commit?)
    ensures RecordMoves(s, s', rid)
  {
    hide MayRelease, EvictedFrom, Grown, FreeBlocks, BlocksNeeded, CommittedView;
  }

  lemma PassRecords(s: Sys, a: Action, s': Sys, rid: nat)
    requires StatesOk(s) && Step(s, a, s') && (a.Run? || a.Verify? || a.Book?)
    ensures RecordMoves(s, s', rid)
  {
    hide Stored, SampledTok, InPool, WriteRow, Choices, DeviceTokens;
  }

  lemma EndRecords(s: Sys, a: Action, s': Sys, rid: nat)
    requires StatesOk(s) && Step(s, a, s') && (a.Abort? || a.ReadBack? || a.Settle?)
    ensures RecordMoves(s, s', rid)
  {
    hide MayRelease, Retired, AcceptedTokens, Kept, RecordMoves;
    match a {
      case Abort(r) => RetiredRecord(s, r, DropPending(s.reqs[r]), ABORTED, rid);
      case ReadBack(r) =>
        var q := s.reqs[r];
        if Ends(q) { RetiredRecord(s, r, DropPending(Filled(q)), FINISHED, rid); } else { SameStateRecord(s, r, Filled(q), rid); }
      case Settle(r) =>
        var q := s.reqs[r];
        var q' := SettledReq(q, KeepOf(q));
        if RoundEnds(q) { RetiredRecord(s, r, q', FINISHED, rid); } else { SameStateRecord(s, r, q', rid); }
    }
  }

  lemma RetiredRecord(s: Sys, r: nat, q: Req, end: State, rid: nat)
    requires StatesOk(s) && r in s.reqs && SameJob(s.reqs[r], q) && (end == FINISHED || end == ABORTED)
    ensures RecordMoves(s, Retired(s, r, q, end), rid)
  {
    hide Released;
  }

  lemma SameStateRecord(s: Sys, r: nat, q: Req, rid: nat)
    requires StatesOk(s) && r in s.reqs && SameJob(s.reqs[r], q) && q.state == s.reqs[r].state
    ensures RecordMoves(s, WithReq(s, r, q), rid)
  {
  }

  lemma {:induction false} RecordsKept(run: seq<Sys>, acts: seq<Action>, i: nat, j: nat, rid: nat)
    requires IsRun(run, acts) && i <= j < |run| && Record(run[i], rid).Some?
    ensures Record(run[j], rid).Some? && SameJob(Record(run[i], rid).value, Record(run[j], rid).value)
    decreases j - i
  {
    hide Step, Inv, Init, Record;
    if i < j {
      RecordsKept(run, acts, i, j - 1, rid);
      RunInv(run, acts, j - 1);
      assert Step(run[j - 1], acts[j - 1], run[j - 1 + 1]);
      StepRecords(run[j - 1], acts[j - 1], run[j], rid);
    }
  }

  /** The next step of a run is as the run says. */
  lemma AddedRecord(run: seq<Sys>, acts: seq<Action>, i: nat, rid: nat, q: Req)
    requires IsRun(run, acts) && i < |acts| && acts[i] == Add(rid, q)
    ensures Record(run[i + 1], rid) == Some(q)
  {
    assert Step(run[i], acts[i], run[i + 1]);
  }

  // ------------------------------------------------------------ the output

  /** However a run schedules, preempts, shares, evicts, overlaps and speculates: a request that
      reaches FINISHED has exactly the output it gets alone, and one that was aborted has a
      beginning of it. */
  lemma ScheduleIndependence(run: seq<Sys>, acts: seq<Action>, i: nat, rid: nat, q: Req)
    requires IsRun(run, acts) && i < |acts| && acts[i] == Add(rid, q) && rid in run[|acts|].done
    ensures var (s, solo) := (run[|acts|], Solo(run[|acts|].next, q.prompt, q.seed, q.maxNew, q.stops));
      && (s.done[rid].state == FINISHED || s.done[rid].state == ABORTED)
      && (s.done[rid].state == FINISHED ==> s.done[rid].output == solo)
      && s.done[rid].output <= solo
  {
    hide Step, Init, Solo;
    RunInv(run, acts, |acts|);
    AddedRecord(run, acts, i, rid, q);
    RecordsKept(run, acts, i + 1, |acts|, rid);
    assert DoneOk(run[|acts|].next, run[|acts|].done[rid]);
  }

  /** Two runs of one model, with any pools, block sizes, caches and schedules, agree on what the
      same job outputs. */
  lemma RunsAgree(run: seq<Sys>, acts: seq<Action>, i: nat, rid: nat, q: Req,
                  run': seq<Sys>, acts': seq<Action>, i': nat, rid': nat, q': Req)
    requires IsRun(run, acts) && i < |acts| && acts[i] == Add(rid, q) && rid in run[|acts|].done
    requires IsRun(run', acts') && i' < |acts'| && acts'[i'] == Add(rid', q') && rid' in run'[|acts'|].done
    requires run[|acts|].next == run'[|acts'|].next && SameJob(q, q')
    requires run[|acts|].done[rid].state == FINISHED && run'[|acts'|].done[rid'].state == FINISHED
    ensures run[|acts|].done[rid].output == run'[|acts'|].done[rid'].output
  {
    hide Step, Init, Solo;
    ScheduleIndependence(run, acts, i, rid, q);
    ScheduleIndependence(run', acts', i', rid', q');
  }

  /** What has been read back of a live request is a beginning of its solo output without a stop
      token in it, short of its limit; behind it stand placeholders only, one per unread token. */
  lemma LiveOutput(s: Sys, rid: nat)
    requires Reachable(s) && rid in s.reqs
    ensures var q := s.reqs[rid];
      && q.pending <= |q.output| && ReadyIds(q) <= Solo(s.next, q.prompt, q.seed, q.maxNew, q.stops)
      && |ReadyIds(q)| < q.maxNew && (forall t :: t in ReadyIds(q) ==> t !in q.stops)
      && (forall i :: 0 <= i < |q.output| ==> (q.output[i] == PLACEHOLDER <==> i >= ReadyLen(q)))
  {
    hide Solo, Hist, Stream;
    ReachableInv(s);
    InvReq(s, rid);
    var q := s.reqs[rid];
    ReadyBeginsSolo(s.next, q);
    var st := Stream(s.next, q.prompt, q.seed, |q.output|);
    assert forall i :: 0 <= i < ReadyLen(q) ==> q.output[i] == ReadyIds(q)[i] == st[i];
  }

  // ------------------------------------------------------------ the KV pool

  /** Slot `i` of a table holds the KV of token `i` at position `i`, after exactly the request's own
      earlier tokens; it is the token the host has, or the sampled one behind a placeholder. */
  lemma KvContent(s: Sys, rid: nat, i: nat)
    requires Reachable(s) && rid in s.reqs && s.reqs[rid].table.Some? && i < s.reqs[rid].written
    ensures var q := s.reqs[rid];
      && s.bs > 0 && q.pending <= |q.output| && InPool(s.store, q.table.value.blocks, i + 1, s.bs) && i < |DeviceTokens(q)|
      && var entry := ReadAt(s.store, q.table.value.blocks, i, s.bs);
      && entry.token == DeviceTokens(q)[i] && entry.past == Hist(DeviceTokens(q)[..i]) && |entry.past| == i
  {
    hide Stream, SharedOk, Chunks;
    ReachableInv(s);
    InvReq(s, rid);
    var q := s.reqs[rid];
    DeviceMatch(s.next, q);
    EntryIs(s, rid, i);
  }

  lemma EntryIs(s: Sys, rid: nat, i: nat)
    requires rid in s.reqs && ReqOk(s.next, s.bs, s.store, s.kv.held, rid, s.reqs[rid])
    requires s.reqs[rid].table.Some? && i < s.reqs[rid].written
    ensures var (q, full) := (s.reqs[rid], Full(s.next, s.reqs[rid]));
      && s.bs > 0 && InPool(s.store, q.table.value.blocks, i + 1, s.bs) && i < |full|
      && ReadAt(s.store, q.table.value.blocks, i, s.bs) == KV(Hist(full[..i]), full[i])
  {
    hide Stream, Chunks, ReqTokens;
    var q := s.reqs[rid];
    var (full, w) := (Full(s.next, q), WrittenSeq(s.next, q));
    assert Holds(s.store, q.table.value.blocks, w, WrittenLen(q), s.bs);
    assert i < WrittenLen(q) && i < |full|;
    HistAt(w, i);
    assert w[..i] == full[..i];
  }

  /** The block a tree path leads to holds the KV of the path's own last block of tokens, all of
      them real. */
  lemma CacheContent(s: Sys, p: Prefix)
    requires Reachable(s) && p in s.kv.cached
    ensures s.kv.cached[p] < |s.store| && |s.store[s.kv.cached[p]]| == s.bs <= |Flat(p)|
    ensures s.store[s.kv.cached[p]] == Hist(Flat(p))[|Flat(p)| - s.bs..]
    ensures PLACEHOLDER !in Flat(p)
  {
    hide KvOk;
    ReachableInv(s);
    CacheAt(s.store, s.kv.cached, p, s.bs);
  }

  /** Every write of a pass goes to a block that its table alone holds and the tree does not: shared
      blocks are full and never written, so nothing is ever copied on write. */
  lemma NoCopyOnWrite(s: Sys, rid: nat, i: nat)
    requires Reachable(s) && rid in s.reqs && s.reqs[rid].table.Some?
    requires s.reqs[rid].written <= i < s.reqs[rid].table.value.numTokens
    ensures var t := s.reqs[rid].table.value;
      && s.bs > 0 && Blk(i, s.bs) < |t.blocks|
      && t.blocks[Blk(i, s.bs)] !in s.kv.cached.Values && Holders(s.kv, t.blocks[Blk(i, s.bs)]) == {rid}
  {
    hide CacheHolds, Holds, RowOk, KvOk, ReqTokens;
    ReachableInv(s);
    InvReq(s, rid);
    var t := s.reqs[rid].table.value;
    BlkMono(s.reqs[rid].written, i, s.bs);
    PosInTable(t, i, s.bs);
    TailIsOwn(s.kv, rid, Blk(i, s.bs));
  }
}

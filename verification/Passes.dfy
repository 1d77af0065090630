/** The phases of a forward pass as steps of the machine: making room for every row, running every
    row, booking the sampled tokens and committing what was prefilled. */
module Passes {
  import opened Common
  import opened BlockTables
  import opened TreeShape
  import opened TokenChunks
  import opened KvState
  import opened KvCache
  import opened Device
  import opened Requests
  import opened Machine
  import opened MachineInv
  import opened MachineSteps
  import opened MachineTheorems
  import opened Scheduling
  import opened ScheduleSafe
  import opened Launching
  import opened Inputs

  /** Only records and holds of requests differ. */
  ghost predicate SameRest(s: Sys, s': Sys) {
    s' == s.(reqs := s'.reqs, kv := s'.kv) && s'.kv.numBlocks == s.kv.numBlocks
  }

  // ------------------------------------------------------------ room

  /** `w.n` more tokens may be appended to the request's table. */
  ghost predicate CanGrow(s: Sys, w: Work) {
    && s.bs > 0 && w.rid in s.reqs && w.n >= 0
    && var q := s.reqs[w.rid];
    && q.table.Some? && Settled(q)
    && (q.table.value.numTokens + w.n <= SeqLen(q) || (q.state == DECODE && q.pending == 0))
  }

  ghost function GrowNeed(s: Sys, w: Work): nat
    requires CanGrow(s, w)
  {
    BlocksNeeded(s.reqs[w.rid].table.value, w.n, s.bs)
  }

  ghost function GrowNeeds(s: Sys, rows: seq<Work>): nat
    requires forall w :: w in rows ==> CanGrow(s, w)
  {
    if rows == [] then 0 else GrowNeed(s, rows[0]) + GrowNeeds(s, rows[1..])
  }

  ghost function Grew(s: Sys, w: Work, news: seq<nat>): Sys
    requires CanGrow(s, w) && w.rid in s.kv.held
  {
    var q := s.reqs[w.rid];
    var t := q.table.value;
    WithReq(s, w.rid, q.(table := Some(Table(t.blocks + news, t.numTokens + w.n)))).(kv := Grown(s.kv, w.rid, news))
  }

  lemma GrowStep(s: Sys, w: Work, news: seq<nat>)
    requires Reachable(s) && CanGrow(s, w) && w.rid in s.kv.held
    requires |news| == GrowNeed(s, w) && Distinct(news) && forall b :: b in news ==> b in FreeBlocks(s.kv)
    ensures var s' := Grew(s, w, news);
      && Reachable(s') && SameRest(s, s') && s'.reqs == s.reqs[w.rid := s'.reqs[w.rid]]
      && RoomFor(s.bs, s.reqs[w.rid], s'.reqs[w.rid], w)
  {
    hide Reachable, FreeBlocks;
    StepReachable(s, Reserve(w.rid, w.n, news), Grew(s, w, news));
  }

  /** A table and its hold list the same blocks. */
  lemma HoldOfTable(s: Sys, r: nat)
    requires Reachable(s) && r in s.reqs && s.reqs[r].table.Some?
    ensures r in s.kv.held && s.kv.held[r].blocks == s.reqs[r].table.value.blocks
    ensures TableOk(s.reqs[r].table.value, s.bs)
  {
    hide Holds, RowOk, ReqTokens, KvOk, CacheHolds;
    ReachableInv(s);
    InvReq(s, r);
  }

  lemma EvictReachable(s: Sys, kv': Kv)
    requires Reachable(s) && EvictedFrom(s.kv, kv')
    ensures Reachable(s.(kv := kv')) && SameRest(s, s.(kv := kv'))
  {
    StepReachable(s, Evict, s.(kv := kv'));
  }

  /** Tables grew; paths and cache are as they were. */
  ghost predicate HoldsGrow(kv: Kv, kv': Kv) {
    && kv'.cached == kv.cached && kv'.held.Keys == kv.held.Keys
    && forall r :: r in kv.held ==> kv.held[r].blocks <= kv'.held[r].blocks && kv'.held[r].path == kv.held[r].path
  }

  lemma HoldsSame(kv: Kv)
    ensures HoldsGrow(kv, kv)
  {
  }

  lemma HoldsFurther(a: Kv, b: Kv, z: Kv)
    requires HoldsGrow(a, b) && HoldsGrow(b, z)
    ensures HoldsGrow(a, z)
  {
  }

  lemma GrownHolds(kv: Kv, r: nat, news: seq<nat>)
    requires r in kv.held
    ensures HoldsGrow(kv, Grown(kv, r, news))
  {
  }

  /** Room was made for `need` blocks, from the cache if there was none, and tables grew into it. */
  ghost predicate GrewInto(kv: Kv, kv': Kv, need: nat) {
    exists freed :: EvictedFrom(kv, freed) && (need <= |FreeBlocks(kv)| ==> freed == kv) && HoldsGrow(freed, kv')
  }

  // ------------------------------------------------------------ the pass

  /** A row whose table was grown within its sequence may run; its last token is sampled if it ends
      the sequence. */
  lemma MayRun(s: Sys, r: nat)
    requires Reachable(s) && r in s.reqs
    requires var q := s.reqs[r];
      && q.table.Some? && q.row.Idle? && q.written < q.table.value.numTokens <= SeqLen(q)
      && (q.table.value.numTokens == SeqLen(q) ==> !ReachedMax(q))
    ensures CanRun(s, r) && Reachable(Ran(s, r)) && Computed(s.reqs[r], Ran(s, r).reqs[r])
    ensures StoreOk(Ran(s, r).store, s.kv.numBlocks, s.bs)
  {
    hide Reachable, Inv, ReqTable, LiveOk, ReqTokens, KvOk;
    ReachableInv(s);
    InvReq(s, r);
    var q := s.reqs[r];
    DeviceMatch(s.next, q);
    PendingBounds(s.next, q);
    TablePool(s, r);
    StepReachable(s, Run(r), Ran(s, r));
    ReachableInv(Ran(s, r));
    StoreOfInv(Ran(s, r));
  }

  lemma StoreOfInv(s: Sys)
    requires Inv(s)
    ensures StoreOk(s.store, s.kv.numBlocks, s.bs) && s.bs > 0
  {
  }

  lemma TablePool(s: Sys, r: nat)
    requires Inv(s) && r in s.reqs && s.reqs[r].table.Some?
    ensures InPool(s.store, s.reqs[r].table.value.blocks, s.reqs[r].table.value.numTokens, s.bs)
  {
    hide Holds, RowOk, ReqTokens, CacheHolds;
    InvReq(s, r);
    var t := s.reqs[r].table.value;
    assert HoldOk(s.kv, s.kv.held[r]);
    forall i: nat | i < t.numTokens ensures Blk(i, s.bs) < |t.blocks| { PosInTable(t, i, s.bs); }
  }

  // ------------------------------------------------------------ booking and committing

  lemma BookReachable(s: Sys, r: nat)
    requires Reachable(s) && r in s.reqs && s.reqs[r].row.Sampled? && s.reqs[r].pending <= 1
    ensures Reachable(WithReq(s, r, Booked(s.reqs[r])))
  {
    StepReachable(s, Book(r), WithReq(s, r, Booked(s.reqs[r])));
  }

  ghost function CommittedAt(s: Sys, r: nat): Sys
    requires r in s.reqs && s.reqs[r].table.Some? && MayRelease(s, r, s.reqs[r])
  {
    s.(kv := CommittedView(s.kv, r, s.reqs[r].table.value, Tokens(s.reqs[r]), s.bs, s.radix))
  }

  lemma CommitReachable(s: Sys, r: nat)
    requires Reachable(s) && r in s.reqs && s.reqs[r].table.Some? && Settled(s.reqs[r]) && s.reqs[r].pending <= 1
    ensures MayRelease(s, r, s.reqs[r]) && Reachable(CommittedAt(s, r)) && SameRest(s, CommittedAt(s, r))
    ensures r in s.kv.held && s.kv.held[r].blocks == s.reqs[r].table.value.blocks
  {
    hide Reachable, CommittedView, Committable;
    ReachableInv(s);
    MayAlwaysRelease(s, r);
    HoldOfTable(s, r);
    CommittedSize(s.kv, r, s.reqs[r].table.value, Tokens(s.reqs[r]), s.bs, s.radix);
    StepReachable(s, Commit(r), CommittedAt(s, r));
  }

  lemma CommittedSize(kv: Kv, r: nat, table: Table, toks: seq<int>, bs: nat, radix: bool)
    requires radix ==> Committable(kv, r, table, toks, bs)
    ensures CommittedView(kv, r, table, toks, bs, radix).numBlocks == kv.numBlocks
  {
  }

  /** Whoever's row is a piece of a prefill, or ends one, is committed. */
  predicate ToCommit(q: Req) {
    q.table.Some? && (q.state == PREFILL || !q.row.Sampled?)
  }

  /** The requests of `rows` that are to be committed were: their whole blocks are cached, and their
      locks cover them. */
  ghost predicate CommitsMade(s: Sys, kv': Kv, reqs: map<nat, Req>, rows: seq<Work>) {
    && s.bs > 0 && kv'.held.Keys == s.kv.held.Keys
    && (forall r :: r in s.kv.held ==>
          kv'.held[r] == if s.radix && r in Rids(rows) && r in reqs && ToCommit(reqs[r])
                         then Hold(s.kv.held[r].blocks, FullKey(reqs[r], s.bs)) else s.kv.held[r])
    && (forall p :: p in s.kv.cached ==> p in kv'.cached && kv'.cached[p] == s.kv.cached[p])
    && (forall p :: p in kv'.cached <==> p in s.kv.cached || (s.radix && CommitsIt(s.bs, reqs, rows, p)))
  }

  ghost predicate CommitsIt(bs: nat, reqs: map<nat, Req>, rows: seq<Work>, p: Prefix) {
    bs > 0 && p != [] && exists r :: r in Rids(rows) && r in reqs && ToCommit(reqs[r]) && p <= FullKey(reqs[r], bs)
  }

  lemma NoCommits(s: Sys, reqs: map<nat, Req>)
    requires s.bs > 0
    ensures CommitsMade(s, s.kv, reqs, [])
  {
  }

  /** A row whose request is not to be committed. */
  lemma SkipCommit(s: Sys, kv': Kv, reqs: map<nat, Req>, rows: seq<Work>, i: nat)
    requires i < |rows| && Distinct(Rids(rows)) && CommitsMade(s, kv', reqs, rows[..i])
    requires rows[i].rid in reqs && (ToCommit(reqs[rows[i].rid]) ==> !s.radix)
    ensures CommitsMade(s, kv', reqs, rows[..i + 1])
  {
    hide FullKey, ToCommit;
    RidsSnoc(rows, i);
    forall p ensures s.radix && CommitsIt(s.bs, reqs, rows[..i + 1], p) <==> s.radix && CommitsIt(s.bs, reqs, rows[..i], p) {}
  }

  /** What one commit does. */
  lemma CommittedIs(s: Sys, r: nat)
    requires s.bs > 0 && r in s.reqs && s.reqs[r].table.Some? && MayRelease(s, r, s.reqs[r]) && s.radix
    ensures r in s.kv.held
    ensures var (kv, kv', key) := (s.kv, CommittedAt(s, r).kv, FullKey(s.reqs[r], s.bs));
      && kv'.held == kv.held[r := Hold(kv.held[r].blocks, key)]
      && (forall p :: p in kv.cached ==> p in kv'.cached && kv'.cached[p] == kv.cached[p])
      && (forall p :: p in kv'.cached <==> p in kv.cached || (p != [] && p <= key))
  {
    hide Chunks, Committable;
    var q := s.reqs[r];
    CommitKey(s.kv, r, q.table.value, Tokens(q), s.bs);
    FullKeyIs(s.kv, r, q, s.bs);
  }

  /** One commit more. */
  lemma CommitSnoc(s: Sys, kv1: Kv, kv2: Kv, reqs: map<nat, Req>, rows: seq<Work>, i: nat)
    requires i < |rows| && Distinct(Rids(rows)) && CommitsMade(s, kv1, reqs, rows[..i]) && s.radix
    requires var r := rows[i].rid;
      && r in reqs && ToCommit(reqs[r]) && r in kv1.held
      && kv2.held == kv1.held[r := Hold(kv1.held[r].blocks, FullKey(reqs[r], s.bs))]
      && (forall p :: p in kv1.cached ==> p in kv2.cached && kv2.cached[p] == kv1.cached[p])
      && (forall p :: p in kv2.cached <==> p in kv1.cached || (p != [] && p <= FullKey(reqs[r], s.bs)))
    ensures CommitsMade(s, kv2, reqs, rows[..i + 1])
  {
    hide FullKey;
    RidsSnoc(rows, i);
    var r := rows[i].rid;
    forall p ensures CommitsIt(s.bs, reqs, rows[..i + 1], p) <==>
      CommitsIt(s.bs, reqs, rows[..i], p) || (p != [] && p <= FullKey(reqs[r], s.bs))
    {
      if p != [] && p <= FullKey(reqs[r], s.bs) { assert r in Rids(rows[..i + 1]); }
      if CommitsIt(s.bs, reqs, rows[..i], p) {
        var x :| x in Rids(rows[..i]) && x in reqs && ToCommit(reqs[x]) && p <= FullKey(reqs[x], s.bs);
        assert x in Rids(rows[..i + 1]);
      }
    }
  }

  /** The request of one row was committed, if it was to be. */
  ghost predicate CommitsOne(s: Sys, kv': Kv, r: nat)
    requires r in s.reqs
  {
    if s.radix && ToCommit(s.reqs[r]) then
      && s.bs > 0 && r in s.kv.held
      && kv'.held == s.kv.held[r := Hold(s.kv.held[r].blocks, FullKey(s.reqs[r], s.bs))]
      && (forall p :: p in s.kv.cached ==> p in kv'.cached && kv'.cached[p] == s.kv.cached[p])
      && (forall p :: p in kv'.cached <==> p in s.kv.cached || (p != [] && p <= FullKey(s.reqs[r], s.bs)))
    else kv' == s.kv
  }

  lemma CommitsNext(s: Sys, s1: Sys, kv2: Kv, reqs: map<nat, Req>, rows: seq<Work>, i: nat)
    requires i < |rows| && Distinct(Rids(rows)) && CommitsMade(s, s1.kv, reqs, rows[..i])
    requires var r := rows[i].rid;
      && r in reqs && r in s1.reqs && s1.reqs[r] == reqs[r] && s1.bs == s.bs && s1.radix == s.radix && CommitsOne(s1, kv2, r)
    ensures CommitsMade(s, kv2, reqs, rows[..i + 1])
  {
    hide FullKey, ToCommit, CommitsMade;
    if s.radix && ToCommit(reqs[rows[i].rid]) {
      CommitSnoc(s, s1.kv, kv2, reqs, rows, i);
    } else {
      SkipCommit(s, s1.kv, reqs, rows, i);
    }
  }

  lemma CommittedNot(s: Sys, r: nat)
    requires r in s.reqs && s.reqs[r].table.Some? && MayRelease(s, r, s.reqs[r]) && !s.radix
    ensures CommittedAt(s, r).kv == s.kv
  {
  }

  /** A row's commit, after its placeholder if it has one. */
  lemma CommitOfRow(s: Sys, s1: Sys, r: nat)
    requires Reachable(s) && r in s.reqs && r in s1.reqs && s1.reqs[r] == BookedIf(s.reqs[r]) && SameRest(s, s1) && s1.kv == s.kv
    requires ToCommit(s.reqs[r]) && s1.reqs[r].table.Some? && MayRelease(s1, r, s1.reqs[r])
    ensures CommitsOne(s, CommittedAt(s1, r).kv, r)
  {
    hide Reachable, MayRelease, CommittedAt, FullKey, Inv, BookedIf;
    ReachableInv(s);
    RowWithin(s, r);
    if s.radix {
      CommittedIs(s1, r);
      BookedKey(s.reqs[r], s.bs);
    } else {
      CommittedNot(s1, r);
    }
  }

  lemma RowWithin(s: Sys, r: nat)
    requires Inv(s) && r in s.reqs && s.reqs[r].table.Some?
    ensures s.bs > 0
    ensures s.reqs[r].row.Sampled? ==> s.reqs[r].table.value.numTokens <= SeqLen(s.reqs[r])
  {
    hide Holds, ReqTokens, KvOk, CacheHolds;
    InvReq(s, r);
  }

  /** A placeholder changes nothing of what is committed. */
  lemma BookedKey(q: Req, bs: nat)
    requires bs > 0 && q.table.Some? && (q.row.Sampled? ==> q.table.value.numTokens <= SeqLen(q))
    ensures FullKey(BookedIf(q), bs) == FullKey(q, bs)
  {
    hide Chunks;
    FloorCeil(q.table.value.numTokens, bs);
    var n := (q.table.value.numTokens / bs) * bs;
    if q.row.Sampled? { assert Tokens(Booked(q))[..n] == Tokens(q)[..n]; }
  }

  // ------------------------------------------------------------ what a batch brings along

  ghost predicate AllGrow(s: Sys, rows: seq<Work>) {
    forall w :: w in rows ==> CanGrow(s, w)
  }

  lemma BatchRow(c: Config, d: Sched, w: Work)
    requires Good(c, d) && RowFits(d.sys, w) && w.rid in d.running
    ensures CanGrow(d.sys, w) && InputRow(d.sys.next, d.sys.reqs, w) && GrowNeed(d.sys, w) == RowNeed(d.sys, w)
    ensures w.start == d.sys.reqs[w.rid].written
    ensures d.sys.reqs[w.rid].state == PREFILL ==> d.sys.reqs[w.rid].pending == 0
    ensures d.sys.reqs[w.rid].state == DECODE ==> w.start == SeqLen(d.sys.reqs[w.rid]) - 1
    ensures d.sys.reqs[w.rid].state == PREFILL || Decodes(d.sys.reqs[w.rid]) ==> !ReachedMax(d.sys.reqs[w.rid])
  {
    hide Reachable, LiveOk, Stream;
    GoodInv(c, d);
    GoodReq(c, d, w.rid);
  }

  /** The rows of a batch are fit for all phases of a pass. */
  lemma BatchRows(c: Config, d: Sched, rows: seq<Work>, k: nat)
    requires Good(c, d) && RowsOk(d, rows, k)
    ensures AllGrow(d.sys, rows) && InputRows(d.sys.next, d.sys.reqs, rows, k) && Distinct(Rids(rows))
    ensures forall w :: w in rows ==> RowFits(d.sys, w) && w.start == d.sys.reqs[w.rid].written && !ReachedMax(d.sys.reqs[w.rid])
    ensures GrowNeeds(d.sys, rows) == RowsNeed(d.sys, rows)
  {
    hide Good, RowFits, InputRow, CanGrow, GrowNeed, RowNeed;
    forall i | 0 <= i < |rows|
      ensures CanGrow(d.sys, rows[i]) && InputRow(d.sys.next, d.sys.reqs, rows[i]) && RowFits(d.sys, rows[i])
      ensures GrowNeed(d.sys, rows[i]) == RowNeed(d.sys, rows[i])
      ensures rows[i].start == d.sys.reqs[rows[i].rid].written && !ReachedMax(d.sys.reqs[rows[i].rid])
      ensures i < k ==> rows[i].start == SeqLen(d.sys.reqs[rows[i].rid]) - 1
      ensures i >= k ==> d.sys.reqs[rows[i].rid].pending == 0
    {
      assert rows[i] in rows;
      BatchRow(c, d, rows[i]);
      assert i < k ==> Decodes(d.sys.reqs[rows[i].rid]);
    }
    NeedsEqual(d.sys, rows);
  }

  lemma {:induction false} NeedsEqual(s: Sys, rows: seq<Work>)
    requires forall i :: 0 <= i < |rows| ==> CanGrow(s, rows[i]) && RowFits(s, rows[i]) && GrowNeed(s, rows[i]) == RowNeed(s, rows[i])
    ensures GrowNeeds(s, rows) == RowsNeed(s, rows)
  {
    hide CanGrow, RowFits, GrowNeed, RowNeed;
    if rows != [] { NeedsEqual(s, rows[1..]); }
  }

  // ------------------------------------------------------------ slices of the inputs

  /** Row `i`'s tokens stand behind those of the rows before it. */
  lemma IdsSlice(next: Sampler, reqs: map<nat, Req>, rows: seq<Work>, i: nat)
    requires AllInput(next, reqs, rows) && i < |rows|
    ensures AllInput(next, reqs, rows[..i]) && AllInput(next, reqs, rows[..i + 1]) && InputRow(next, reqs, rows[i])
    ensures DeviceIds(next, reqs, rows[..i + 1]) == DeviceIds(next, reqs, rows[..i]) + DeviceRow(next, reqs, rows[i])
    ensures DeviceIds(next, reqs, rows[..i + 1]) <= DeviceIds(next, reqs, rows)
  {
    assert InputRow(next, reqs, rows[i]);
    assert rows[..i + 1][..i] == rows[..i];
    IdsPrefix(next, reqs, rows, i + 1);
  }

  lemma {:induction false} IdsPrefix(next: Sampler, reqs: map<nat, Req>, rows: seq<Work>, k: nat)
    requires AllInput(next, reqs, rows) && k <= |rows|
    ensures AllInput(next, reqs, rows[..k]) && DeviceIds(next, reqs, rows[..k]) <= DeviceIds(next, reqs, rows)
    decreases |rows|
  {
    if k == |rows| {
      assert rows[..k] == rows;
    } else {
      assert rows[..|rows| - 1][..k] == rows[..k];
      assert AllInput(next, reqs, rows[..|rows| - 1]);
      IdsPrefix(next, reqs, rows[..|rows| - 1], k);
    }
  }

  /** A row's input is the same tokens after room was made for it. */
  lemma RowInput(next: Sampler, bs: nat, reqs: map<nat, Req>, q: Req, w: Work)
    requires InputRow(next, reqs, w) && RoomFor(bs, reqs[w.rid], q, w) && Settled(reqs[w.rid])
    requires w.start == reqs[w.rid].written
    ensures q.table.Some? && q.pending <= |q.output| && q.written <= q.table.value.numTokens <= |DeviceTokens(q)|
    ensures RowTokens(q) == DeviceRow(next, reqs, w)
  {
    TokenCounts(next, reqs[w.rid]);
  }
}

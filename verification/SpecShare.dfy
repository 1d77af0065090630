/** How the draft's tables relate to the target's, and which share of the draft pool each request may
    use in a step. */
module SpecShares {
  import opened Common
  import opened BlockTables
  import opened TreeShape
  import opened KvState
  import opened KvCache
  import opened Device
  import opened Requests
  import opened Machine
  import opened MachineInv
  import opened MachineSteps
  import opened MachineTheorems
  import opened Scheduling
  import opened ScheduleSafe
  import opened ScheduleRoom
  import opened ScheduleOrder
  import opened Launching
  import opened ReadingBack
  import opened Passes
  import opened Progress
  import opened SpecRounds
  import D = Drafts

  /** The draft holds no more of any request than the target: fewer tokens and no more blocks. */
  ghost predicate DraftOk(d: Sched, tables: map<nat, Table>) {
    forall r :: r in tables ==> DraftFits(d, tables[r], r)
  }

  ghost predicate DraftFits(d: Sched, t: Table, r: nat) {
    && r in d.running && r in d.sys.reqs
    && var q := d.sys.reqs[r];
    && q.state == DECODE && q.table.Some? && t.numTokens <= SeqLen(q) - 1 && |t.blocks| <= |q.table.value.blocks|
  }

  // ------------------------------------------------------------ shares

  /** Outside a round a request's share is what the target holds for it. */
  lemma PlainShares(c: Config, d: Sched, kv: Kv, tables: map<nat, Table>)
    requires Good(c, d) && !d.sys.radix && DraftOk(d, tables) && kv.numBlocks == d.sys.kv.numBlocks
    requires kv.held.Keys == tables.Keys && forall r :: r in tables ==> kv.held[r].blocks == tables[r].blocks
    ensures D.SharesOk(kv, d.running, HeldSizes(d.sys.kv))
    ensures Sum(HeldSizes(d.sys.kv), d.running) + Avail(d.sys.kv) == d.sys.kv.numBlocks
  {
    hide Good, Inv, KvOk, QueuesOk, Avail, DraftFits, CeilDiv;
    GoodInv(c, d);
    HeldAreRunning(c, d);
    KvOfInv(d.sys);
    DistinctRunning(d);
    HeldConservation(d.sys.kv, d.running);
    forall r | r in tables ensures r in d.sys.kv.held && |tables[r].blocks| <= |d.sys.kv.held[r].blocks| {
      DraftWithin(d, tables, r);
    }
  }

  lemma DraftWithin(d: Sched, tables: map<nat, Table>, r: nat)
    requires Reachable(d.sys) && DraftOk(d, tables) && r in tables
    ensures r in d.sys.kv.held && |tables[r].blocks| <= |d.sys.kv.held[r].blocks|
  {
    hide Reachable, CeilDiv;
    assert DraftFits(d, tables[r], r);
    HoldOfTable(d.sys, r);
  }

  /** In a round it is what the target will hold once it has room for all proposals. */
  ghost function RoundShares(c: Config, s: Sys, rids: seq<nat>): map<nat, int>
    requires s.bs > 0
  {
    map r | r in s.kv.held && r in s.reqs ::
      |s.kv.held[r].blocks| + if r in rids then DecodeNeed(c.tps, s.bs, s.reqs[r]) else 0
  }

  lemma RoundSharesOk(c: Config, d: Sched, b: Batch, kv: Kv, tables: map<nat, Table>)
    requires Good(c, d) && BatchOk(c, d, b) && b.phase == DecodeOnly && !d.sys.radix && DraftOk(d, tables)
    requires kv.numBlocks == d.sys.kv.numBlocks
    requires kv.held.Keys == tables.Keys && forall r :: r in tables ==> kv.held[r].blocks == tables[r].blocks
    ensures d.sys.bs > 0 && D.SharesOk(kv, d.running, RoundShares(c, d.sys, Rids(b.rows)))
  {
    hide Good, BatchOk, Avail, QueuesOk, DecodeNeed, CeilDiv, BlocksNeeded, DraftOk, D.SharesOk;
    PlainShares(c, d, kv, tables);
    NeedsKnownGood(c, d);
    HeldAreRunning(c, d);
    NeedsNonNeg(c, d);
    RoundNeeds(c, d, b);
    var extra := map r | r in d.sys.reqs :: if r in Rids(b.rows) then DecodeNeed(c.tps, d.sys.bs, d.sys.reqs[r]) else 0;
    var shares := RoundShares(c, d.sys, Rids(b.rows));
    SumAdd(HeldSizes(d.sys.kv), extra, shares, d.running);
    MoreShares(kv, d.running, HeldSizes(d.sys.kv), shares);
  }

  /** Larger shares that still add up to no more than the pool. */
  lemma MoreShares(kv: Kv, rids: seq<nat>, a: map<nat, int>, b: map<nat, int>)
    requires D.SharesOk(kv, rids, a) && forall r :: r in rids ==> r in b && a[r] <= b[r]
    requires Sum(b, rids) <= kv.numBlocks
    ensures D.SharesOk(kv, rids, b)
  {
    hide Sum, Distinct;
  }

  lemma {:induction false} SumAdd(f: map<nat, int>, g: map<nat, int>, h: map<nat, int>, s: seq<nat>)
    requires forall x :: x in s ==> x in f && x in g && x in h && h[x] == f[x] + g[x]
    ensures Sum(h, s) == Sum(f, s) + Sum(g, s)
  {
    if s != [] { SumAdd(f, g, h, s[1..]); }
  }

  lemma RoundNeeds(c: Config, d: Sched, b: Batch)
    requires Good(c, d) && BatchOk(c, d, b) && b.phase == DecodeOnly
    ensures d.sys.bs > 0 && forall r :: r in d.running ==> r in d.sys.reqs
    ensures var extra := map r | r in d.sys.reqs :: if r in Rids(b.rows) then DecodeNeed(c.tps, d.sys.bs, d.sys.reqs[r]) else 0;
      Sum(extra, d.running) <= Avail(d.sys.kv)
  {
    hide Good, Avail, QueuesOk, RowFits, RowsNeed, DecodeNeed;
    NeedsKnownGood(c, d);
    NeedsNonNeg(c, d);
    DistinctRunning(d);
    var (rids, keep) := (Rids(b.rows), set r | r in Rids(b.rows));
    var extra := map r | r in d.sys.reqs :: if r in rids then DecodeNeed(c.tps, d.sys.bs, d.sys.reqs[r]) else 0;
    RidsIn(d, b.rows, b.numDecode);
    SumOnly(DecodeNeeds(c, d.sys), extra, d.running, keep);
    OnlyDistinct(d.running, keep);
    SumSubset(DecodeNeeds(c, d.sys), Only(d.running, keep), rids);
  }

  // ------------------------------------------------------------ through a schedule

  /** Who leaves the running requests while a batch is formed is listed as preempted; the others are
      untouched. */
  lemma RoomLists(c: Config, p: Policy, d: Sched, preempted: seq<nat>)
    requires PolicyOk(p) && Good(c, d) && QueuesOk(d)
    ensures var m := MakeRoomChunked(c, p, d, preempted);
      m.Room? ==>
        && (forall r :: r in preempted ==> r in m.preempted)
        && (forall r :: r in d.running ==> r in m.preempted || (r in m.d.running && r in m.d.sys.reqs && r in d.sys.reqs && m.d.sys.reqs[r] == d.sys.reqs[r]))
    decreases |d.running|
  {
    hide Good, Avail, Sum, Victim, Preempted, PolicyOk, QueuesOk;
    NeedsDefined(c, d);
    if Sum(StepNeeds(c, d.sys), d.running) > Avail(d.sys.kv) && |d.running| > 1 {
      var v := Victim(p, d, d.running);
      if v.Some? {
        PreemptGood(c, d, v.value);
        LessRunning(d, v.value);
        RoomLists(c, p, Preempt1(d, v.value), preempted + [v.value]);
      }
    }
  }

  lemma ScheduleLists(c: Config, p: Policy, d: Sched)
    requires PolicyOk(p) && Good(c, d) && QueuesOk(d) && (c.chunk == 0 ==> NoPartial(d))
    ensures var r := Schedule(c, p, d);
      r.Plan? && r.batch.Some? ==> forall x :: x in d.running ==>
        x in r.batch.value.preempted || (x in r.d.running && x in r.d.sys.reqs && x in d.sys.reqs && r.d.sys.reqs[x] == d.sys.reqs[x])
  {
    hide Good, PolicyOk, MakeRoom, MakeRoomChunked, AdmitLoop, AdmitRest, TookFirst, QueuesOk;
    RoomLists(c, p, d, []);
    OrderWaits(p, d);
    NeedsDefined(c, d);
    if c.chunk > 0 {
      var m := MakeRoomChunked(c, p, d, []);
      if m.Room? {
        MakeRoomChunkedGood(c, p, d, []);
        NeedsKnownGood(c, m.d);
        AdmitRestTakes(c, p, m.d);
        OrderWaits(p, m.d);
        var k :| TookFirst(m.d, AdmitRest(c, p, m.d).d, p.order(m.d.waiting, m.d.sys), k);
        TakingKeepsRunning(m.d, AdmitRest(c, p, m.d).d, p.order(m.d.waiting, m.d.sys), k);
      }
    } else {
      WholeRoomIsChunked(c, p, d, []);
      var order := p.order(d.waiting, d.sys);
      var k := AdmitLoopTakes(c, d, order, |d.running|, c.maxPrefill, 0);
      var d1 := AdmitLoop(c, d, order, |d.running|, c.maxPrefill, 0);
      TakingKeepsRunning(d, d1, order, k);
      if d1.running[|d.running|..] == [] { NoneAdmitted(c, d, order, |d.running|, c.maxPrefill, 0); }
    }
  }

  lemma TakingKeepsRunning(d: Sched, d': Sched, order: seq<nat>, k: nat)
    requires TookFirst(d, d', order, k) && QueuesOk(d) && OrderOk(d, order)
    ensures forall r :: r in d.running ==> r in d'.running && r in d'.sys.reqs && r in d.sys.reqs && d'.sys.reqs[r] == d.sys.reqs[r]
  {
    hide FreshPrefill;
    forall r | r in d.running ensures r !in order[..k] {}
  }

  /** After the preempted requests gave up their draft tables the rest still fits. */
  lemma ScheduleKeepsDraft(d: Sched, d': Sched, preempted: seq<nat>, tables: map<nat, Table>)
    requires DraftOk(d, tables)
    requires forall x :: x in d.running ==>
      x in preempted || (x in d'.running && x in d'.sys.reqs && x in d.sys.reqs && d'.sys.reqs[x] == d.sys.reqs[x])
    ensures DraftOk(d', map r | r in tables && r !in preempted :: tables[r])
  {
    forall r | r in tables && r !in preempted ensures DraftFits(d', tables[r], r) {
      assert DraftFits(d, tables[r], r);
    }
  }

  // ------------------------------------------------------------ through a plain step

  /** A step without a round only lets the target's tables and sequences grow. */
  lemma PlainStepKeepsDraft(c: Config, d: Sched, d2: Sched, d3: Sched, rows: seq<Work>, tables: map<nat, Table>)
    requires DraftOk(d, tables) && AllLaunched(d.sys.bs, d.sys.reqs, d2.sys.reqs, rows) && Thinned(d2.sys.reqs, d3.sys.reqs)
    requires Good(c, d3) && forall r :: r in tables ==> r in d3.sys.reqs
    ensures DraftOk(d3, tables)
  {
    hide Good;
    forall r | r in tables ensures DraftFits(d3, tables[r], r) {
      assert DraftFits(d, tables[r], r);
      GoodReq(c, d3, r);
      if r in Rids(rows) { var w := RowOf(rows, r); }
    }
  }

  // ------------------------------------------------------------ through a round

  /** What the draft is fed first: it ends where the target's sequence ends. */
  ghost predicate Feeds(reqs: map<nat, Req>, tables: map<nat, Table>, rids: seq<nat>, rows: seq<D.Row>) {
    && |rows| == |rids|
    && forall i :: 0 <= i < |rids| ==>
      && rids[i] in reqs && rids[i] in tables && rows[i].rid == rids[i]
      && tables[rids[i]].numTokens + rows[i].n == SeqLen(reqs[rids[i]])
  }

  /** Feeding the missing tokens and proposing stays within the shares of the round, although the
      draft is ahead of the target by then. */
  lemma RoundWithin(c: Config, d: Sched, b: Batch, tables: map<nat, Table>, rows: seq<D.Row>)
    requires Good(c, d) && BatchOk(c, d, b) && b.phase == DecodeOnly && c.tps >= 2
    requires Feeds(d.sys.reqs, tables, Rids(b.rows), rows)
    ensures d.sys.bs > 0 && D.Within(tables, D.Longer(rows, c.tps - 2), RoundShares(c, d.sys, Rids(b.rows)), d.sys.bs)
  {
    hide Good, BatchOk, Avail, QueuesOk;
    NeedsKnownGood(c, d);
    var (rids, longer, share) := (Rids(b.rows), D.Longer(rows, c.tps - 2), RoundShares(c, d.sys, Rids(b.rows)));
    BatchDistinct(c, d, b);
    forall i | 0 <= i < |longer|
      ensures longer[i].rid == rids[i] && longer[i].rid in tables && longer[i].rid in share
      ensures CeilDiv(tables[longer[i].rid].numTokens + longer[i].n, d.sys.bs) <= share[longer[i].rid]
    {
      assert rids[i] in rids;
      RoundShareOf(c, d, b, rids[i]);
    }
    forall i, j | 0 <= i < j < |longer| ensures longer[i].rid != longer[j].rid { assert rids[i] != rids[j]; }
  }

  lemma BatchDistinct(c: Config, d: Sched, b: Batch)
    requires BatchOk(c, d, b)
    ensures Distinct(Rids(b.rows))
  {
  }

  /** A request's share of the round covers its whole sequence and all proposals. */
  lemma RoundShareOf(c: Config, d: Sched, b: Batch, r: nat)
    requires Good(c, d) && BatchOk(c, d, b) && b.phase == DecodeOnly && r in Rids(b.rows) && c.tps >= 2
    ensures d.sys.bs > 0 && r in RoundShares(c, d.sys, Rids(b.rows)) && r in d.sys.reqs
    ensures CeilDiv(SeqLen(d.sys.reqs[r]) + c.tps - 2, d.sys.bs) <= RoundShares(c, d.sys, Rids(b.rows))[r]
  {
    hide BatchOk, Avail, QueuesOk, CeilDiv, Reachable;
    NeedsKnownGood(c, d);
    DecodeBatchReqs(c, d, b, r);
    GoodInv(c, d);
    HoldOfTable(d.sys, r);
    var t := d.sys.reqs[r].table.value;
    D.GrownSize(t, c.tps, d.sys.bs);
    CeilMono(t.numTokens + c.tps - 1, t.numTokens + c.tps, d.sys.bs);
  }

  /** Target and draft while requests `rids[k..]` wait to be settled. `d` is the state before any was. */
  ghost predicate Settling(d: Sched, d': Sched, tables: map<nat, Table>, rids: seq<nat>, k: nat) {
    k <= |rids| && forall r :: r in tables ==> SettlingRow(d, d', tables[r], r, k < |rids| && r in rids[k..])
  }

  ghost predicate SettlingRow(d: Sched, d': Sched, t: Table, r: nat, waits: bool) {
    && r in d.sys.reqs && r in d'.sys.reqs
    && var (q, q') := (d.sys.reqs[r], d'.sys.reqs[r]);
    && q'.state == DECODE && q.table.Some? && q'.table.Some? && |q'.table.value.blocks| == |q.table.value.blocks|
    && (waits || t.numTokens <= SeqLen(q') - 1)
  }

  lemma SettlingNext(d: Sched, d1: Sched, d2: Sched, t1: map<nat, Table>, t2: map<nat, Table>, rids: seq<nat>, k: nat)
    requires Settling(d, d1, t1, rids, k) && k < |rids| && Distinct(rids) && rids[k] in d1.sys.reqs
    requires HasVerdict(d1.sys.reqs[rids[k]])
    requires var q := d1.sys.reqs[rids[k]];
      |q.row.proposals| + 1 - KeepOf(q) <= q.table.value.numTokens
    requires var (r, q) := (rids[k], d1.sys.reqs[rids[k]]);
      if RoundEnds(q) then d2.sys.reqs == d1.sys.reqs - {r} && t2 == t1 - {r}
      else
        && d2.sys.reqs == d1.sys.reqs[r := SettledReq(q, KeepOf(q))]
        && t2.Keys == t1.Keys && (forall x :: x in t1 && x != r ==> t2[x] == t1[x])
        && (r in t2 ==> t2[r].numTokens <= SeqLen(d2.sys.reqs[r]) - 1)
    ensures Settling(d, d2, t2, rids, k + 1)
  {
    hide KeepOf, RoundEnds;
    var r0 := rids[k];
    assert rids[k..] == [r0] + rids[k + 1..];
    forall r | r in t2 ensures SettlingRow(d, d2, t2[r], r, k + 1 < |rids| && r in rids[k + 1..]) {
      assert SettlingRow(d, d1, t1[r], r, r in rids[k..]);
      if r == r0 { forall j | k < j < |rids| ensures rids[j] != r0 {} }
    }
  }

  /** The same in terms of the draft's tables. */
  ghost predicate WithinShares(tables: map<nat, Table>, numBlocks: nat, rids: seq<nat>, share: map<nat, int>) {
    && Distinct(rids) && (forall r :: r in rids ==> r in share && share[r] >= 0) && Sum(share, rids) <= numBlocks
    && forall r :: r in tables ==> r in rids && |tables[r].blocks| <= share[r]
  }

  lemma SharesOfTables(kv: Kv, tables: map<nat, Table>, rids: seq<nat>, share: map<nat, int>)
    requires kv.held.Keys == tables.Keys && forall r :: r in tables ==> kv.held[r].blocks == tables[r].blocks
    ensures D.SharesOk(kv, rids, share) <==> WithinShares(tables, kv.numBlocks, rids, share)
  {
    if D.SharesOk(kv, rids, share) {
      forall r | r in tables ensures r in rids && |tables[r].blocks| <= share[r] { assert r in kv.held; }
    }
    if WithinShares(tables, kv.numBlocks, rids, share) {
      forall r | r in kv.held ensures r in rids && |kv.held[r].blocks| <= share[r] { assert r in tables; }
    }
  }

  /** The draft has proposed: it may be ahead of the target for the requests of the round. */
  ghost predicate Ahead(d: Sched, tables: map<nat, Table>, rids: seq<nat>) {
    forall r :: r in tables ==>
      r in d.running && r in d.sys.reqs && d.sys.reqs[r].state == DECODE && (r !in rids ==> DraftFits(d, tables[r], r))
  }

  /** A round's proposals put the draft ahead of the target by `gamma` tokens exactly. */
  lemma DraftLeads(reqs: map<nat, Req>, t0: map<nat, Table>, t1: map<nat, Table>, rids: seq<nat>, rows: seq<D.Row>,
                   gamma: nat, i: nat)
    requires Feeds(reqs, t0, rids, rows) && gamma >= 1 && D.GrewBy(t0, t1, D.Longer(rows, gamma - 1)) && i < |rids|
    requires rids[i] in reqs && reqs[rids[i]].table.Some?
    requires reqs[rids[i]].table.value.numTokens == SeqLen(reqs[rids[i]]) - 1
    ensures rids[i] in t1 && t1[rids[i]].numTokens == reqs[rids[i]].table.value.numTokens + gamma
  {
    D.GrewAt(t0, t1, D.Longer(rows, gamma - 1), i);
  }

  lemma ProposedAhead(d: Sched, t0: map<nat, Table>, t1: map<nat, Table>, rids: seq<nat>, rows: seq<D.Row>)
    requires DraftOk(d, t0) && D.GrewBy(t0, t1, rows) && |rows| == |rids| && forall i :: 0 <= i < |rows| ==> rows[i].rid == rids[i]
    ensures Ahead(d, t1, rids)
  {
    forall r | r in t1 ensures r in d.running && r in d.sys.reqs && d.sys.reqs[r].state == DECODE && (r !in rids ==> t1[r] == t0[r]) {
      assert DraftFits(d, t0[r], r);
      if D.HasRow(rows, r) { var i :| 0 <= i < |rows| && rows[i].rid == r; }
    }
    forall r | r in t1 && r !in rids ensures DraftFits(d, t1[r], r) { assert DraftFits(d, t0[r], r); }
  }

  /** After room and verdicts, before anything is settled. */
  lemma SettlingStarts(c: Config, d: Sched, d2: Sched, tables: map<nat, Table>, rids: seq<nat>)
    requires Ahead(d, tables, rids) && d2.sys.reqs.Keys == d.sys.reqs.Keys
    requires forall r :: r in d.sys.reqs ==> RoundRow(c, d, d2.sys.reqs[r], r) && (r !in rids ==> d2.sys.reqs[r] == d.sys.reqs[r])
    requires forall r :: r in d.running && r in d.sys.reqs ==> d2.sys.reqs[r].table.Some?
    ensures Settling(d2, d2, tables, rids, 0)
  {
    hide AtRest;
    assert rids[0..] == rids;
    forall r | r in tables ensures SettlingRow(d2, d2, tables[r], r, 0 < |rids| && r in rids[0..]) {
      assert RoundRow(c, d, d2.sys.reqs[r], r);
      if r !in rids { assert DraftFits(d, tables[r], r); }
    }
  }

  /** With everything settled the draft fits again: the target kept the blocks of the whole round. */
  lemma SettlingEnds(c: Config, d: Sched, d2: Sched, d3: Sched, tables: map<nat, Table>, rids: seq<nat>, running: seq<nat>, share: map<nat, int>, n: nat)
    requires Settling(d2, d3, tables, rids, |rids|) && WithinShares(tables, n, running, share) && Good(c, d3)
    requires forall r :: r in running && r in d2.sys.reqs && d2.sys.reqs[r].table.Some? ==>
      r in share && share[r] <= |d2.sys.reqs[r].table.value.blocks|
    ensures DraftOk(d3, tables)
  {
    hide Good;
    forall r | r in tables ensures DraftFits(d3, tables[r], r) {
      assert SettlingRow(d2, d3, tables[r], r, false);
      GoodReq(c, d3, r);
    }
  }

  /** The target's tables after it made room for the round are exactly the shares. */
  lemma RoomIsShare(c: Config, d: Sched, b: Batch, reqs1: map<nat, Req>, r: nat)
    requires Good(c, d) && BatchOk(c, d, b) && b.phase == DecodeOnly && r in d.running
    requires forall x :: x in Rids(b.rows) ==> x in d.sys.reqs
    requires AllRoom(d.sys.bs, d.sys.reqs, reqs1, WideRows(d.sys.reqs, Rids(b.rows), c.tps))
    ensures d.sys.bs > 0 && r in RoundShares(c, d.sys, Rids(b.rows)) && r in reqs1 && reqs1[r].table.Some?
    ensures RoundShares(c, d.sys, Rids(b.rows))[r] == |reqs1[r].table.value.blocks|
  {
    hide BatchOk, Avail, Reachable, Good;
    NeedsKnownGood(c, d);
    GoodInv(c, d);
    GoodReq(c, d, r);
    HoldOfTable(d.sys, r);
    if r in Rids(b.rows) {
      DecodeBatchReqs(c, d, b, r);
      var w := RowOf(WideRows(d.sys.reqs, Rids(b.rows), c.tps), r);
    }
  }
}

/** A speculative round as steps of the machine: room for every position, one verify pass over the
    last token and the proposals, and the settlement of each request. */
module SpecRounds {
  import opened Common
  import opened BlockTables
  import opened TreeShape
  import opened TokenChunks
  import opened KvState
  import opened KvCache
  import opened Device
  import opened Requests
  import opened Verification
  import opened Machine
  import opened MachineInv
  import opened MachineSteps
  import opened MachineTheorems
  import opened Scheduling
  import opened ScheduleSafe
  import opened ScheduleRoom
  import opened ScheduleOrder
  import opened Policies
  import opened Launching
  import opened ReadingBack
  import opened Passes
  import opened Shaping
  import opened Progress

  // ------------------------------------------------------------ verify

  /** A verify pass of `g` proposals may run over the request. */
  ghost predicate Verifiable(q: Req, g: nat) {
    && q.table.Some? && q.row.Idle? && q.state == DECODE && q.pending == 0 && |q.output| > 0
    && q.written == SeqLen(q) - 1 && q.table.value.numTokens == SeqLen(q) + g
  }

  lemma MayVerify(s: Sys, r: nat, proposals: seq<nat>)
    requires Reachable(s) && !s.radix && r in s.reqs && Verifiable(s.reqs[r], |proposals|)
    ensures CanVerify(s, r, proposals) && Reachable(Checked(s, r, proposals))
  {
    hide Reachable, Inv;
    ReachableInv(s);
    TablePool(s, r);
    StepReachable(s, Verify(r, proposals), Checked(s, r, proposals));
  }

  // ------------------------------------------------------------ settle

  /** The round of a live request can always be settled, and keeps at least one token. */
  lemma MaySettle(s: Sys, r: nat)
    requires Reachable(s) && !s.radix && r in s.reqs && s.reqs[r].row.Verified?
    ensures CanSettle(s, r) && KeepOf(s.reqs[r]) > 0 && Reachable(SettledSys(s, r))
    ensures var q := s.reqs[r];
      && q.state == DECODE && |q.output| < q.maxNew && q.pending == 0
      && |q.output| + KeepOf(q) <= q.maxNew && q.table.value.numTokens == SeqLen(q) + |q.row.proposals|
  {
    hide Reachable, Inv, LiveOk, ReqTokens, Kept, AcceptedTokens, MayRelease, Released;
    ReachableInv(s);
    InvReq(s, r);
    var q := s.reqs[r];
    TokensLeftOf(s.next, q);
    SettledTokens(s.next, q);
    SettledLive(s.next, s.bs, s.store, s.kv.held[r], q, KeepOf(q));
    SettledTable(s.next, q, KeepOf(q), s.bs);
    ReleaseKeeps(s, r, SettledReq(q, KeepOf(q)));
    StepReachable(s, Action.Settle(r), SettledSys(s, r));
  }

  lemma TokensLeftOf(next: Sampler, q: Req)
    requires ReqTokens(next, q)
    ensures |q.output| <= q.maxNew && (q.pending == 0 ==> |q.output| < q.maxNew)
  {
  }

  /** One request settled: it goes on with more tokens, or leaves. */
  ghost function SettleAt(d: Sched, r: nat): Sched
    requires CanSettle(d.sys, r)
  {
    var q := d.sys.reqs[r];
    if RoundEnds(q) then Left(d, r, SettledReq(q, KeepOf(q)), FINISHED) else d.(sys := SettledSys(d.sys, r))
  }

  /** The record as if no pass were in progress. */
  function Calm(q: Req): Req {
    if q.row.Verified? && q.table.Some? then q.(row := Idle, written := q.table.value.numTokens) else q
  }

  /** Between passes, but for rounds that are verified and not settled. */
  ghost predicate Rounding(c: Config, d: Sched) {
    && ConfigOk(c) && QueuesOk(d) && Reachable(d.sys) && !d.sys.radix
    && (forall r {:trigger AtRest(c, d.sys.kv.numBlocks, d.sys.bs, Calm(d.sys.reqs[r]))} :: r in d.sys.reqs ==>
          AtRest(c, d.sys.kv.numBlocks, d.sys.bs, Calm(d.sys.reqs[r])) && d.sys.reqs[r].pending == 0)
    && (forall r :: r in d.waiting && r in d.sys.reqs ==> d.sys.reqs[r].state == WAITING)
    && (forall r :: r in d.running && r in d.sys.reqs ==> d.sys.reqs[r].state != WAITING)
  }

  /** With every round settled the state is one of a step boundary. */
  lemma RoundingEnds(c: Config, d: Sched)
    requires Rounding(c, d) && forall r :: r in d.sys.reqs ==> !d.sys.reqs[r].row.Verified?
    ensures Good(c, d)
  {
    hide Reachable, AtRest;
    forall r | r in d.sys.reqs ensures Resting(c, d.sys.kv.numBlocks, d.sys.bs, d.sys.reqs[r]) {
      assert AtRest(c, d.sys.kv.numBlocks, d.sys.bs, Calm(d.sys.reqs[r]));
    }
  }

  lemma SettledRests(c: Config, numBlocks: nat, bs: nat, q: Req)
    requires AtRest(c, numBlocks, bs, Calm(q)) && HasVerdict(q) && q.state == DECODE
    requires |q.row.proposals| + 1 - KeepOf(q) <= q.table.value.numTokens
    ensures AtRest(c, numBlocks, bs, Calm(SettledReq(q, KeepOf(q))))
  {
    hide KeepOf, AcceptedTokens;
  }

  /** What settling does to the requests and the queues. */
  lemma SettleEffect(c: Config, d: Sched, r: nat)
    requires Rounding(c, d) && r in d.sys.reqs && d.sys.reqs[r].row.Verified?
    ensures CanSettle(d.sys, r)
    ensures var (reqs', q) := (SettleAt(d, r).sys.reqs, d.sys.reqs[r]);
      && HasVerdict(q) && |q.row.proposals| + 1 - KeepOf(q) <= q.table.value.numTokens
      && (if RoundEnds(q) then reqs' == d.sys.reqs - {r} else reqs' == d.sys.reqs[r := SettledReq(q, KeepOf(q))])
  {
    hide Reachable, AtRest, RoundEnds, KeepOf, Released, MayRelease, AcceptedTokens, QueuesOk;
    MaySettle(d.sys, r);
  }

  lemma SettleReachable(c: Config, d: Sched, r: nat)
    requires Rounding(c, d) && r in d.sys.reqs && d.sys.reqs[r].row.Verified? && CanSettle(d.sys, r)
    ensures var d' := SettleAt(d, r);
      && Reachable(d'.sys) && QueuesOk(d') && d'.sys.radix == d.sys.radix && d'.sys.bs == d.sys.bs
      && d'.sys.kv.numBlocks == d.sys.kv.numBlocks
      && (forall x :: x in d'.waiting ==> x in d.waiting) && (forall x :: x in d'.running ==> x in d.running)
  {
    hide Reachable, AtRest, RoundEnds, KeepOf, Released, MayRelease, AcceptedTokens, QueuesOk, Left;
    MaySettle(d.sys, r);
    var q := d.sys.reqs[r];
    SettledParts(d, r);
    if RoundEnds(q) {
      LeftQueues(d, r, SettledReq(q, KeepOf(q)), FINISHED);
    } else {
      SettledQueues(d, r);
    }
  }

  lemma SettledParts(d: Sched, r: nat)
    requires CanSettle(d.sys, r)
    ensures HasVerdict(d.sys.reqs[r]) && SettleAt(d, r).sys == SettledSys(d.sys, r)
    ensures SettleAt(d, r).sys.radix == d.sys.radix && SettleAt(d, r).sys.bs == d.sys.bs
    ensures SettleAt(d, r).sys.kv.numBlocks == d.sys.kv.numBlocks
  {
    hide RoundEnds, KeepOf, Released, MayRelease, AcceptedTokens;
    ReleasedSize(d.sys, r, SettledReq(d.sys.reqs[r], KeepOf(d.sys.reqs[r])));
  }

  lemma SettledQueues(d: Sched, r: nat)
    requires QueuesOk(d) && CanSettle(d.sys, r) && !RoundEnds(d.sys.reqs[r])
    ensures QueuesOk(SettleAt(d, r))
  {
    hide RoundEnds, KeepOf, Released, MayRelease, AcceptedTokens, Distinct;
  }

  lemma SettleRounding(c: Config, d: Sched, r: nat)
    requires Rounding(c, d) && r in d.sys.reqs && d.sys.reqs[r].row.Verified?
    ensures CanSettle(d.sys, r) && Rounding(c, SettleAt(d, r))
  {
    hide Reachable, AtRest, RoundEnds, KeepOf, CanSettle, AcceptedTokens, SettleAt, QueuesOk;
    MaySettle(d.sys, r);
    SettleEffect(c, d, r);
    SettleReachable(c, d, r);
    var q := d.sys.reqs[r];
    var d' := SettleAt(d, r);
    assert AtRest(c, d.sys.kv.numBlocks, d.sys.bs, Calm(q));
    SettledRests(c, d.sys.kv.numBlocks, d.sys.bs, q);
    forall x | x in d'.sys.reqs
      ensures AtRest(c, d'.sys.kv.numBlocks, d'.sys.bs, Calm(d'.sys.reqs[x])) && d'.sys.reqs[x].pending == 0
    {
      assert AtRest(c, d.sys.kv.numBlocks, d.sys.bs, Calm(d.sys.reqs[x]));
    }
  }

  // ------------------------------------------------------------ all of a round

  /** The requests in `rids` were verified over `g` proposals each; the others did not change. */
  ghost predicate AllChecked(reqs: map<nat, Req>, reqs': map<nat, Req>, rids: seq<nat>) {
    && reqs'.Keys == reqs.Keys
    && (forall r :: r in rids ==> r in reqs && reqs'[r].row.Verified? && reqs'[r] == reqs[r].(row := reqs'[r].row))
    && (forall r :: r in reqs && r !in rids ==> reqs'[r] == reqs[r])
  }

  lemma CheckedSnoc(reqs: map<nat, Req>, a: map<nat, Req>, q: Req, rids: seq<nat>, i: nat)
    requires i < |rids| && Distinct(rids) && AllChecked(reqs, a, rids[..i]) && rids[i] in reqs
    requires q.row.Verified? && q == reqs[rids[i]].(row := q.row)
    ensures AllChecked(reqs, a[rids[i] := q], rids[..i + 1])
  {
    assert rids[..i + 1] == rids[..i] + [rids[i]];
    forall j | 0 <= j < i ensures rids[j] != rids[i] {}
  }

  /** From request `i` on, the round is settled. */
  ghost function SettleFrom(d: Sched, rids: seq<nat>, i: nat): Sched
    decreases |rids| - i
  {
    if i >= |rids| then d
    else SettleFrom(if CanSettle(d.sys, rids[i]) then SettleAt(d, rids[i]) else d, rids, i + 1)
  }

  /** Requests `rids[i..]` wait to be settled, no others. */
  ghost predicate Unsettled(reqs: map<nat, Req>, rids: seq<nat>, i: nat) {
    i <= |rids| && Distinct(rids) && forall r :: r in reqs ==> (reqs[r].row.Verified? <==> r in rids[i..])
  }

  lemma UnsettledNext(reqs: map<nat, Req>, reqs': map<nat, Req>, rids: seq<nat>, i: nat)
    requires Unsettled(reqs, rids, i) && i < |rids| && rids[i] in reqs
    requires reqs' == reqs - {rids[i]} || (rids[i] in reqs' && reqs' == reqs[rids[i] := reqs'[rids[i]]] && !reqs'[rids[i]].row.Verified?)
    ensures Unsettled(reqs', rids, i + 1)
  {
    assert rids[i..] == [rids[i]] + rids[i + 1..];
    forall j | i < j < |rids| ensures rids[j] != rids[i] {}
  }

  // ------------------------------------------------------------ what a round keeps and what it does

  lemma SettleShaped(c: Config, name: PolicyName, d: Sched, r: nat)
    requires Rounding(c, d) && Shaped(c, name, d) && r in d.sys.reqs && d.sys.reqs[r].row.Verified?
    ensures CanSettle(d.sys, r) && Shaped(c, name, SettleAt(d, r))
  {
    hide Reachable, RoundEnds, KeepOf, Left, MayRelease, Shaped, AtRest, AcceptedTokens;
    MaySettle(d.sys, r);
    var q := d.sys.reqs[r];
    if RoundEnds(q) {
      LeftShaped(c, name, d, r, SettledReq(q, KeepOf(q)), FINISHED);
    } else {
      LongerShaped(c, name, d, SettleAt(d, r), r);
    }
  }

  /** A decoding request got longer. */
  lemma LongerShaped(c: Config, name: PolicyName, d: Sched, d': Sched, r: nat)
    requires Shaped(c, name, d) && QueuesOk(d) && r in d.sys.reqs && d'.waiting == d.waiting && d'.running == d.running
    requires r in d'.sys.reqs && d'.sys.reqs == d.sys.reqs[r := d'.sys.reqs[r]]
    requires var (q, q') := (d.sys.reqs[r], d'.sys.reqs[r]);
      q'.state == q.state == DECODE && q'.maxNew == q.maxNew && |q'.output| >= |q.output|
    ensures Shaped(c, name, d')
  {
    hide Increasing, QueuesOk;
    if c.chunk > 0 { CardLe(LiveRunning(d'), LiveRunning(d)); }
    if name == Fcfs { OnlyFewer(d.running + d.waiting, UnspentSet(d.sys.reqs), UnspentSet(d'.sys.reqs)); }
  }

  lemma {:induction false} RoundSettles(c: Config, name: PolicyName, d: Sched, rids: seq<nat>, i: nat, n: nat)
    requires Rounding(c, d) && Shaped(c, name, d) && Unsettled(d.sys.reqs, rids, i)
    requires (forall j :: i <= j < |rids| ==> rids[j] in d.sys.reqs) && (forall r :: r in d.sys.reqs ==> r < n)
    ensures var d' := SettleFrom(d, rids, i);
      && Good(c, d') && Shaped(c, name, d') && Carries(d.sys, d'.sys) && (forall r :: r in d'.sys.reqs ==> d'.sys.reqs[r].pending == 0)
      && TokensLeft(d', n) <= TokensLeft(d, n) && (i < |rids| ==> TokensLeft(d', n) < TokensLeft(d, n))
    decreases |rids| - i
  {
    hide Rounding, Shaped, SettleAt, CanSettle, Good, Carries, TokensLeft;
    if i < |rids| {
      var r := rids[i];
      UnsettledAt(d.sys.reqs, rids, i);
      SettleRounding(c, d, r);
      SettleShaped(c, name, d, r);
      var d1 := SettleAt(d, r);
      SettleFacts(c, d, r, n);
      UnsettledNext(d.sys.reqs, d1.sys.reqs, rids, i);
      forall j | i < j < |rids| ensures rids[j] in d1.sys.reqs { assert rids[j] != r; }
      RoundSettles(c, name, d1, rids, i + 1, n);
      CarriesTrans(d.sys, d1.sys, SettleFrom(d, rids, i).sys);
    } else {
      assert rids[i..] == [];
      RoundingEnds(c, d);
      SelfCarries(d.sys);
      NonePending(c, d);
    }
  }

  lemma UnsettledAt(reqs: map<nat, Req>, rids: seq<nat>, i: nat)
    requires Unsettled(reqs, rids, i) && i < |rids| && rids[i] in reqs
    ensures reqs[rids[i]].row.Verified?
  {
    assert rids[i] == rids[i..][0];
  }

  lemma NonePending(c: Config, d: Sched)
    requires Rounding(c, d)
    ensures forall r :: r in d.sys.reqs ==> d.sys.reqs[r].pending == 0
  {
    forall r | r in d.sys.reqs ensures d.sys.reqs[r].pending == 0 {
      assert AtRest(c, d.sys.kv.numBlocks, d.sys.bs, Calm(d.sys.reqs[r]));
    }
  }

  lemma SelfCarries(s: Sys)
    ensures Carries(s, s)
  {
  }

  /** Settling one request: fewer tokens to sample, everyone is carried along. */
  lemma SettleFacts(c: Config, d: Sched, r: nat, n: nat)
    requires Rounding(c, d) && r in d.sys.reqs && d.sys.reqs[r].row.Verified? && forall x :: x in d.sys.reqs ==> x < n
    ensures CanSettle(d.sys, r)
    ensures var d' := SettleAt(d, r);
      && Carries(d.sys, d'.sys) && TokensLeft(d', n) < TokensLeft(d, n)
      && (forall x :: x in d'.sys.reqs ==> x < n)
      && (d'.sys.reqs == d.sys.reqs - {r} ||
          (r in d'.sys.reqs && d'.sys.reqs == d.sys.reqs[r := d'.sys.reqs[r]] && !d'.sys.reqs[r].row.Verified?))
  {
    hide Rounding, RoundEnds, KeepOf, SettleAt, CanSettle, Carries, AcceptedTokens;
    SettleEffect(c, d, r);
    SettleCarries(c, d, r);
    SettleTokens(c, d, r);
    var d' := SettleAt(d, r);
    TotalLess(Samples(d.sys.reqs), Samples(d'.sys.reqs), n, r);
  }

  lemma SettleCarries(c: Config, d: Sched, r: nat)
    requires Rounding(c, d) && r in d.sys.reqs && d.sys.reqs[r].row.Verified? && CanSettle(d.sys, r)
    ensures Carries(d.sys, SettleAt(d, r).sys)
  {
    hide Rounding, RoundEnds, KeepOf, MayRelease, AcceptedTokens, Released;
    Apart(c, d);
  }

  lemma SettleTokens(c: Config, d: Sched, r: nat)
    requires Rounding(c, d) && r in d.sys.reqs && d.sys.reqs[r].row.Verified? && CanSettle(d.sys, r)
    ensures var (f, g) := (Samples(d.sys.reqs), Samples(SettleAt(d, r).sys.reqs));
      At(g, r) < At(f, r) && forall x: nat :: At(g, x) <= At(f, x)
  {
    hide Reachable, AtRest, RoundEnds, KeepOf, CanSettle, AcceptedTokens, SettleAt, QueuesOk;
    MaySettle(d.sys, r);
    SettleEffect(c, d, r);
  }

  lemma Apart(c: Config, d: Sched)
    requires Rounding(c, d)
    ensures d.sys.reqs.Keys !! d.sys.done.Keys
  {
    ReachableInv(d.sys);
  }

  // ------------------------------------------------------------ a decode batch

  /** Rows of a whole round: `width` new positions for every request of the batch. */
  function WideRows(reqs: map<nat, Req>, rids: seq<nat>, width: nat): (rows: seq<Work>)
    requires forall r :: r in rids ==> r in reqs
    ensures |rows| == |rids| && Rids(rows) == rids
    ensures forall i :: 0 <= i < |rows| ==> rows[i] == Work(rids[i], SeqLen(reqs[rids[i]]) - 1, width)
  {
    var rows := seq(|rids|, i requires 0 <= i < |rids| => Work(rids[i], SeqLen(reqs[rids[i]]) - 1, width));
    assert Rids(rows) == rids;
    rows
  }

  /** A batch of decode rows only: all its requests decode and have every token read back. */
  lemma DecodeBatchReqs(c: Config, d: Sched, b: Batch, r: nat)
    requires Good(c, d) && BatchOk(c, d, b) && b.phase == DecodeOnly && r in Rids(b.rows)
    ensures r in d.sys.reqs && r in d.running && Decodes(d.sys.reqs[r])
    ensures d.sys.reqs[r].table.Some? && d.sys.reqs[r].row.Idle? && |d.sys.reqs[r].output| > 0
    ensures d.sys.reqs[r].written == d.sys.reqs[r].table.value.numTokens == SeqLen(d.sys.reqs[r]) - 1
  {
    hide Reachable, ReqTokens, LiveOk, Avail, RowsNeed;
    var i :| 0 <= i < |b.rows| && Rids(b.rows)[i] == r;
    assert RowFits(d.sys, b.rows[i]);
    GoodInv(c, d);
    GoodReq(c, d, r);
  }

  /** The scheduler took blocks for a whole round of each. */
  lemma WideFits(c: Config, d: Sched, b: Batch)
    requires Good(c, d) && BatchOk(c, d, b) && b.phase == DecodeOnly && forall r :: r in d.sys.reqs ==> d.sys.reqs[r].pending == 0
    ensures forall r :: r in Rids(b.rows) ==> r in d.sys.reqs
    ensures AllGrow(d.sys, WideRows(d.sys.reqs, Rids(b.rows), c.tps)) && Distinct(Rids(b.rows))
    ensures GrowNeeds(d.sys, WideRows(d.sys.reqs, Rids(b.rows), c.tps)) <= Avail(d.sys.kv)
  {
    hide Good, Avail, RowsNeed, QueuesOk;
    var rids := Rids(b.rows);
    var rows := WideRows(d.sys.reqs, rids, c.tps);
    forall i | 0 <= i < |rows| ensures CanGrow(d.sys, rows[i]) && GrowNeed(d.sys, rows[i]) == DecodeNeeds(c, d.sys)[rids[i]] {
      assert rids[i] in rids;
      DecodeBatchReqs(c, d, b, rids[i]);
    }
    NeedsSum(c, d.sys, rids, rows);
  }

  lemma {:induction false} NeedsSum(c: Config, s: Sys, rids: seq<nat>, rows: seq<Work>)
    requires s.bs > 0 && |rows| == |rids| && (forall r :: r in rids ==> r in s.reqs)
    requires forall i :: 0 <= i < |rows| ==> CanGrow(s, rows[i]) && GrowNeed(s, rows[i]) == DecodeNeeds(c, s)[rids[i]]
    ensures GrowNeeds(s, rows) == Sum(DecodeNeeds(c, s), rids)
  {
    hide CanGrow, GrowNeed;
    if rows != [] { NeedsSum(c, s, rids[1..], rows[1..]); }
  }

  /** A batch of decode rows only leaves the shape of a step boundary as it is. */
  lemma DecodeShaped(c: Config, name: PolicyName, d: Sched, b: Batch)
    requires Good(c, d) && BatchOk(c, d, b) && b.phase == DecodeOnly && Planned(c, name, d, b.rows)
    ensures Shaped(c, name, d)
  {
    hide Good, Avail, RowsNeed, LiveRunning, Line;
    forall r | r in d.running && r in d.sys.reqs && RowEnds(d.sys.reqs, b.rows, r) ensures d.sys.reqs[r].state == DECODE {
      var w :| w in b.rows && w.rid == r && Completes(d.sys.reqs, w);
      RidOf(b.rows, w);
      DecodeBatchReqs(c, d, b, r);
    }
  }

  /** After room and verdicts every request of the batch waits to be settled. */
  lemma RoundStarts(c: Config, name: PolicyName, d: Sched, reqs1: map<nat, Req>, d': Sched, b: Batch)
    requires Good(c, d) && BatchOk(c, d, b) && b.phase == DecodeOnly && Planned(c, name, d, b.rows) && !d.sys.radix
    requires (forall r :: r in d.sys.reqs ==> d.sys.reqs[r].pending == 0) && (forall r :: r in Rids(b.rows) ==> r in d.sys.reqs)
    requires AllRoom(d.sys.bs, d.sys.reqs, reqs1, WideRows(d.sys.reqs, Rids(b.rows), c.tps))
    requires AllChecked(reqs1, d'.sys.reqs, Rids(b.rows))
    requires Reachable(d'.sys) && d'.waiting == d.waiting && d'.running == d.running && d'.sys.radix == d.sys.radix
    requires d'.sys.bs == d.sys.bs && d'.sys.kv.numBlocks == d.sys.kv.numBlocks && d'.sys.done == d.sys.done
    ensures Rounding(c, d') && Shaped(c, name, d') && Unsettled(d'.sys.reqs, Rids(b.rows), 0)
    ensures Carries(d.sys, d'.sys) && forall n :: TokensLeft(d', n) == TokensLeft(d, n)
  {
    hide Good, Avail, RowsNeed, Reachable, AtRest, Shaped, Planned, BatchOk, RoomFor, Carries, TokensLeft, Rounding, QueuesOk;
    RoundKeys(c, d, reqs1, d', b);
    BatchApart(c, d, b);
    DecodeShaped(c, name, d, b);
    WideFits(c, d, b);
    forall r | r in d.sys.reqs
      ensures RoundRow(c, d, d'.sys.reqs[r], r) && (d'.sys.reqs[r].row.Verified? <==> r in Rids(b.rows))
    {
      RoundRowOf(c, d, reqs1, d'.sys.reqs, b, r);
    }
    hide AllRoom, AllChecked, RoundRow;
    RoundQueues(c, d, d');
    SameShape(c, name, d, d');
    RoundCarries(c, d, d');
    assert Rids(b.rows)[0..] == Rids(b.rows);
    forall n ensures TokensLeft(d', n) == TokensLeft(d, n) { SameLeft(c, d, d', n); }
  }

  lemma RoundKeys(c: Config, d: Sched, reqs1: map<nat, Req>, d': Sched, b: Batch)
    requires forall r :: r in Rids(b.rows) ==> r in d.sys.reqs
    requires AllRoom(d.sys.bs, d.sys.reqs, reqs1, WideRows(d.sys.reqs, Rids(b.rows), c.tps)) && AllChecked(reqs1, d'.sys.reqs, Rids(b.rows))
    ensures d'.sys.reqs.Keys == d.sys.reqs.Keys
  {
  }

  lemma BatchApart(c: Config, d: Sched, b: Batch)
    requires BatchOk(c, d, b)
    ensures Distinct(Rids(b.rows))
  {
  }

  lemma RoundCarries(c: Config, d: Sched, d': Sched)
    requires d'.sys.reqs.Keys == d.sys.reqs.Keys && d'.sys.done == d.sys.done
    requires forall r :: r in d.sys.reqs ==> RoundRow(c, d, d'.sys.reqs[r], r)
    ensures Carries(d.sys, d'.sys)
  {
    hide AtRest;
    forall r | r in d.sys.reqs ensures Continues(d.sys.reqs[r], d'.sys.reqs[r]) { assert RoundRow(c, d, d'.sys.reqs[r], r); }
  }

  /** What verifying changed of a request: its table and its row. */
  ghost predicate RoundRow(c: Config, d: Sched, q': Req, r: nat)
    requires r in d.sys.reqs
  {
    && AtRest(c, d.sys.kv.numBlocks, d.sys.bs, Calm(q'))
    && q' == d.sys.reqs[r].(table := q'.table, row := q'.row)
  }

  lemma RoomOfOne(bs: nat, reqs: map<nat, Req>, reqs1: map<nat, Req>, rids: seq<nat>, n: nat, r: nat) returns (w: Work)
    requires (forall x :: x in rids ==> x in reqs) && AllRoom(bs, reqs, reqs1, WideRows(reqs, rids, n)) && r in rids
    ensures r in reqs && r in reqs1 && RoomFor(bs, reqs[r], reqs1[r], w)
  {
    hide RoomFor;
    w := RowOf(WideRows(reqs, rids, n), r);
  }

  lemma RoomOfOther(bs: nat, reqs: map<nat, Req>, reqs1: map<nat, Req>, rids: seq<nat>, n: nat, r: nat)
    requires (forall x :: x in rids ==> x in reqs) && AllRoom(bs, reqs, reqs1, WideRows(reqs, rids, n)) && r !in rids && r in reqs
    ensures r in reqs1 && reqs1[r] == reqs[r]
  {
    hide RoomFor;
    assert Rids(WideRows(reqs, rids, n)) == rids;
  }

  lemma CheckedRests(c: Config, numBlocks: nat, bs: nat, q: Req, q1: Req, q2: Req, w: Work)
    requires AtRest(c, numBlocks, bs, q) && q.state == DECODE && RoomFor(bs, q, q1, w)
    requires q2.row.Verified? && q2 == q1.(row := q2.row)
    ensures AtRest(c, numBlocks, bs, Calm(q2)) && q2 == q.(table := q2.table, row := q2.row)
  {
    hide BlocksNeeded;
  }

  lemma RoundRowOf(c: Config, d: Sched, reqs1: map<nat, Req>, reqs2: map<nat, Req>, b: Batch, r: nat)
    requires Good(c, d) && BatchOk(c, d, b) && b.phase == DecodeOnly && r in d.sys.reqs
    requires forall x :: x in Rids(b.rows) ==> x in d.sys.reqs
    requires AllRoom(d.sys.bs, d.sys.reqs, reqs1, WideRows(d.sys.reqs, Rids(b.rows), c.tps)) && AllChecked(reqs1, reqs2, Rids(b.rows))
    ensures r in reqs2 && RoundRow(c, d, reqs2[r], r) && (reqs2[r].row.Verified? <==> r in Rids(b.rows))
  {
    hide Good, BatchOk, AllRoom, RoomFor, WideRows, ReqOk, CeilDiv;
    GoodReq(c, d, r);
    if r in Rids(b.rows) {
      hide AtRest;
      DecodeBatchReqs(c, d, b, r);
      var w := RoomOfOne(d.sys.bs, d.sys.reqs, reqs1, Rids(b.rows), c.tps, r);
      CheckedRests(c, d.sys.kv.numBlocks, d.sys.bs, d.sys.reqs[r], reqs1[r], reqs2[r], w);
    } else {
      RoomOfOther(d.sys.bs, d.sys.reqs, reqs1, Rids(b.rows), c.tps, r);
    }
  }

  lemma RoundQueues(c: Config, d: Sched, d': Sched)
    requires Good(c, d) && d'.waiting == d.waiting && d'.running == d.running && d'.sys.bs == d.sys.bs
    requires d'.sys.kv.numBlocks == d.sys.kv.numBlocks && Reachable(d'.sys) && !d'.sys.radix && d'.sys.reqs.Keys == d.sys.reqs.Keys
    requires forall r :: r in d.sys.reqs ==> RoundRow(c, d, d'.sys.reqs[r], r) && d.sys.reqs[r].pending == 0
    ensures Rounding(c, d')
  {
    hide Reachable, AtRest;
    forall r | r in d'.sys.reqs
      ensures AtRest(c, d'.sys.kv.numBlocks, d'.sys.bs, Calm(d'.sys.reqs[r])) && d'.sys.reqs[r].pending == 0
      ensures d'.sys.reqs[r].state == d.sys.reqs[r].state && d'.sys.reqs[r].prompt == d.sys.reqs[r].prompt
    {
      assert RoundRow(c, d, d'.sys.reqs[r], r);
    }
  }

  lemma SameShape(c: Config, name: PolicyName, d: Sched, d': Sched)
    requires Shaped(c, name, d) && d'.waiting == d.waiting && d'.running == d.running && d'.sys.reqs.Keys == d.sys.reqs.Keys
    requires forall r :: r in d.sys.reqs ==> RoundRow(c, d, d'.sys.reqs[r], r)
    ensures Shaped(c, name, d')
  {
    hide AtRest, Increasing;
    forall r | r in d.sys.reqs
      ensures d'.sys.reqs[r].state == d.sys.reqs[r].state && d'.sys.reqs[r].output == d.sys.reqs[r].output
      ensures d'.sys.reqs[r].maxNew == d.sys.reqs[r].maxNew
    {
      assert RoundRow(c, d, d'.sys.reqs[r], r);
    }
    assert LiveRunning(d') == LiveRunning(d);
    assert UnspentSet(d'.sys.reqs) == UnspentSet(d.sys.reqs);
  }

  lemma SameLeft(c: Config, d: Sched, d': Sched, n: nat)
    requires d'.sys.reqs.Keys == d.sys.reqs.Keys && forall r :: r in d.sys.reqs ==> RoundRow(c, d, d'.sys.reqs[r], r)
    ensures TokensLeft(d', n) == TokensLeft(d, n)
  {
    hide AtRest;
    forall r: nat ensures At(Samples(d'.sys.reqs), r) == At(Samples(d.sys.reqs), r) {
      if r in d.sys.reqs { assert RoundRow(c, d, d'.sys.reqs[r], r); }
    }
    TotalLe(Samples(d.sys.reqs), Samples(d'.sys.reqs), n);
    TotalLe(Samples(d'.sys.reqs), Samples(d.sys.reqs), n);
  }
}

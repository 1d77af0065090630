/** What every schedule keeps: it only takes steps of the machine, and the batch it returns fits in
    the pool. */
module ScheduleSafe {
  import opened Common
  import opened BlockTables
  import opened TreeShape
  import opened TokenChunks
  import opened KvState
  import opened KvCache
  import opened Device
  import opened Requests
  import opened Machine
  import opened MachineInv
  import opened MachineSteps
  import opened MachineTheorems
  import opened Scheduling

  /** Between two passes: everything in the table is computed. The pool can hold the request whole:
      `add` sees to that. */
  ghost predicate AtRest(c: Config, numBlocks: nat, bs: nat, q: Req) {
    && bs > 0 && Settled(q) && |q.prompt| > 0
    && (q.state == PREFILL ==> q.table.Some? && |q.table.value.blocks| == CeilDiv(q.table.value.numTokens, bs))
    && CeilDiv(|q.prompt| + q.maxNew + c.tps - 1, bs) <= numBlocks
  }

  /** What a request is like between two steps. */
  ghost predicate Resting(c: Config, numBlocks: nat, bs: nat, q: Req) {
    AtRest(c, numBlocks, bs, q) && q.pending <= 1
  }

  ghost predicate AllRest(c: Config, d: Sched) {
    && (forall r {:trigger Resting(c, d.sys.kv.numBlocks, d.sys.bs, d.sys.reqs[r])} :: r in d.sys.reqs ==>
          Resting(c, d.sys.kv.numBlocks, d.sys.bs, d.sys.reqs[r]))
    && (forall r :: r in d.waiting && r in d.sys.reqs ==> d.sys.reqs[r].state == WAITING)
    && (forall r :: r in d.running && r in d.sys.reqs ==> d.sys.reqs[r].state != WAITING)
  }

  /** The state between two steps of some run. */
  ghost predicate Good(c: Config, d: Sched) {
    ConfigOk(c) && QueuesOk(d) && AllRest(c, d) && Reachable(d.sys)
  }

  lemma GoodInv(c: Config, d: Sched)
    requires Good(c, d)
    ensures Inv(d.sys) && QueuesOk(d) && ConfigOk(c) && Reachable(d.sys)
    ensures forall r :: r in d.waiting || r in d.running ==> r in d.sys.reqs
  {
    ReachableInv(d.sys);
  }

  lemma GoodReq(c: Config, d: Sched, r: nat)
    requires Good(c, d) && r in d.sys.reqs
    ensures Resting(c, d.sys.kv.numBlocks, d.sys.bs, d.sys.reqs[r])
    ensures r in d.running <==> d.sys.reqs[r].state != WAITING
    ensures r in d.running ==> d.sys.reqs[r].table.Some? && r in d.sys.kv.held
    ensures r in d.running ==> d.sys.reqs[r].state == PREFILL || d.sys.reqs[r].state == DECODE
    ensures ReqOk(d.sys.next, d.sys.bs, d.sys.store, d.sys.kv.held, r, d.sys.reqs[r])
  {
    hide Inv, ReqTokens, LiveOk, Resting, Reachable, RowOk;
    GoodInv(c, d);
    InvReq(d.sys, r);
  }

  // ------------------------------------------------------------ a schedule touches KV, not tokens

  predicate SameTokens(q: Req, q': Req) {
    SameJob(q, q') && q'.output == q.output && q'.pending == q.pending && q'.unread == q.unread && q'.row == q.row
  }

  /** The same requests, the same tokens and device; holds and states may differ. */
  ghost predicate SameRequests(s: Sys, s': Sys) {
    && s' == s.(reqs := s'.reqs, kv := s'.kv)
    && s'.reqs.Keys == s.reqs.Keys && s'.kv.numBlocks == s.kv.numBlocks
    && forall r :: r in s.reqs ==> SameTokens(s.reqs[r], s'.reqs[r])
  }

  lemma SameRequestsSelf(s: Sys)
    ensures SameRequests(s, s)
  {
  }

  lemma SameRequestsTrans(s: Sys, t: Sys, u: Sys)
    requires SameRequests(s, t) && SameRequests(t, u)
    ensures SameRequests(s, u)
  {
  }

  // ------------------------------------------------------------ preemption and admission are steps

  /** One request changed queue and hold. */
  lemma GoodMove(c: Config, d: Sched, d': Sched, v: nat)
    requires Good(c, d) && QueuesOk(d') && Reachable(d'.sys) && v in d.sys.reqs && v in d'.sys.reqs
    requires d'.sys == d.sys.(reqs := d'.sys.reqs, kv := d'.sys.kv) && d'.sys.kv.numBlocks == d.sys.kv.numBlocks
    requires d'.sys.reqs == d.sys.reqs[v := d'.sys.reqs[v]] && SameTokens(d.sys.reqs[v], d'.sys.reqs[v])
    requires Resting(c, d.sys.kv.numBlocks, d.sys.bs, d'.sys.reqs[v])
    requires v in d'.waiting <==> d'.sys.reqs[v].state == WAITING
    requires forall r :: r in d'.waiting && r != v ==> r in d.waiting
    requires forall r :: r in d'.running && r != v ==> r in d.running
    ensures Good(c, d') && SameRequests(d.sys, d'.sys)
  {
    hide Reachable, Resting;
    assert forall r :: r in d.sys.reqs ==> Resting(c, d.sys.kv.numBlocks, d.sys.bs, d.sys.reqs[r]);
  }

  lemma PreemptGood(c: Config, d: Sched, v: nat)
    requires Good(c, d) && v in d.running
    ensures v in d.sys.reqs && Good(c, Preempt1(d, v)) && SameRequests(d.sys, Preempt1(d, v).sys)
    ensures Preempt1(d, v).sys.reqs == d.sys.reqs[v := Preempt1(d, v).sys.reqs[v]]
  {
    hide Inv, ReqOk, Reachable, MayRelease, Released, Good, QueuesOk;
    GoodInv(c, d);
    GoodReq(c, d, v);
    MayAlwaysRelease(d.sys, v);
    var d' := Preempt1(d, v);
    assert Step(d.sys, Preempt(v), d'.sys);
    StepReachable(d.sys, Preempt(v), d'.sys);
    ReleasedSize(d.sys, v, d.sys.reqs[v]);
    RemoveDistinct(d.running, v);
    GoodMove(c, d, d', v);
  }

  lemma ReleasedSize(s: Sys, rid: nat, q: Req)
    ensures Released(s, rid, q).numBlocks == s.kv.numBlocks
  {
  }

  lemma TakeGood(c: Config, d: Sched, r: nat)
    requires Good(c, d) && r in d.waiting && d.sys.reqs[r].pending == 0
    ensures Good(c, Take(d, r)) && SameRequests(d.sys, Take(d, r).sys)
    ensures Take(d, r).sys.reqs == d.sys.reqs[r := Take(d, r).sys.reqs[r]]
    ensures var q := Take(d, r).sys.reqs[r];
      && q.state == PREFILL && q.table.Some? && q.numCached == q.table.value.numTokens < SeqLen(q)
  {
    hide Inv, ReqOk, Reachable, LongestOf, Avail, Good, QueuesOk;
    GoodInv(c, d);
    GoodReq(c, d, r);
    var d' := Take(d, r);
    assert Step(d.sys, Admit(r), d'.sys);
    StepReachable(d.sys, Admit(r), d'.sys);
    var t := d'.sys.reqs[r].table.value;
    CeilOfWhole(|t.blocks|, d.sys.bs);
    RemoveDistinct(d.waiting, r);
    GoodMove(c, d, d', r);
  }

  lemma CeilOfWhole(k: nat, bs: nat)
    requires bs > 0
    ensures CeilDiv(k * bs, bs) == k
  {
    CeilBound(k * bs, k, bs);
    if k > 0 {
      CeilBound(k * bs, k - 1, bs);
      assert k * bs == (k - 1) * bs + bs;
    }
  }

  // ------------------------------------------------------------ making room

  /** Blocks a resting request may need are never negative. */
  lemma NeedsNonNeg(c: Config, d: Sched)
    requires Good(c, d)
    ensures forall r :: r in d.sys.reqs ==>
      DecodeNeed(c.tps, d.sys.bs, d.sys.reqs[r]) >= 0 && StepNeed(c.tps, d.sys.bs, d.sys.reqs[r]) >= 0
  {
    forall r | r in d.sys.reqs ensures StepNeed(c.tps, d.sys.bs, d.sys.reqs[r]) >= 0 {
      GoodReq(c, d, r);
      PrefillNeedNonNeg(c, d.sys.kv.numBlocks, d.sys.bs, d.sys.next, d.sys.reqs[r]);
    }
  }

  lemma PrefillNeedNonNeg(c: Config, numBlocks: nat, bs: nat, next: Sampler, q: Req)
    requires Resting(c, numBlocks, bs, q) && ReqTable(next, q, bs)
    ensures PrefillNeed(bs, q) >= 0
    ensures q.state == PREFILL ==> q.table.Some? && q.table.value.numTokens < SeqLen(q)
  {
    if q.state == PREFILL {
      CeilMono(q.table.value.numTokens, SeqLen(q) + 1, bs);
    }
  }

  /** The victim leaves the decoding requests, unless it was a spent one and not among them. */
  lemma VictimLeaves(p: Policy, d: Sched, decoding: seq<nat>)
    requires PolicyOk(p) && QueuesOk(d) && IsDecoding(d, decoding) && Victim(p, d, decoding).Some?
    ensures var v := Victim(p, d, decoding).value;
      && v in d.running && v in d.sys.reqs
      && IsDecoding(Preempt1(d, v), if Spent(d.sys.reqs[v]) then decoding else Remove(decoding, v))
  {
    hide PolicyOk, Preempt1, Victim;
    var v := Victim(p, d, decoding).value;
    RemoveDistinct(decoding, v);
    OthersDecode(d, v, decoding, if Spent(d.sys.reqs[v]) then decoding else Remove(decoding, v));
  }

  lemma OthersDecode(d: Sched, v: nat, decoding: seq<nat>, rest: seq<nat>)
    requires QueuesOk(d) && v in d.running && IsDecoding(d, decoding)
    requires Distinct(rest) && forall r :: r in rest ==> r in decoding && r != v
    ensures IsDecoding(Preempt1(d, v), rest)
  {
    hide Distinct, Released;
  }

  lemma MakeRoomGood(c: Config, p: Policy, d: Sched, decoding: seq<nat>, preempted: seq<nat>)
    requires PolicyOk(p) && Good(c, d) && IsDecoding(d, decoding)
    ensures var r := MakeRoom(c, p, d, decoding, preempted);
      r.Room? ==>
        && Good(c, r.d) && SameRequests(d.sys, r.d.sys) && IsDecoding(r.d, r.decoding)
        && Sum(DecodeNeeds(c, r.d.sys), r.decoding) <= Avail(r.d.sys.kv)
    decreases |d.running|
  {
    hide Avail, Good, PolicyOk, SameRequests, SameTokens, QueuesOk, Sum, Victim;
    GoodInv(c, d);
    SameRequestsSelf(d.sys);
    if Sum(DecodeNeeds(c, d.sys), decoding) > Avail(d.sys.kv) {
      var v := Victim(p, d, decoding);
      if v.Some? {
        PreemptGood(c, d, v.value);
        RemoveDistinct(decoding, v.value);
        VictimLeaves(p, d, decoding);
        var rest := if Spent(d.sys.reqs[v.value]) then decoding else Remove(decoding, v.value);
        MakeRoomGood(c, p, Preempt1(d, v.value), rest, preempted + [v.value]);
        GoodInv(c, Preempt1(d, v.value));
        if MakeRoom(c, p, d, decoding, preempted).Room? {
          SameRequestsTrans(d.sys, Preempt1(d, v.value).sys, MakeRoom(c, p, d, decoding, preempted).d.sys);
        }
      }
    }
  }

  lemma MakeRoomChunkedGood(c: Config, p: Policy, d: Sched, preempted: seq<nat>)
    requires PolicyOk(p) && Good(c, d)
    ensures var r := MakeRoomChunked(c, p, d, preempted);
      r.Room? ==>
        && Good(c, r.d) && SameRequests(d.sys, r.d.sys)
        && Sum(StepNeeds(c, r.d.sys), r.d.running) <= Avail(r.d.sys.kv)
    decreases |d.running|
  {
    hide Avail, Good, PolicyOk, SameRequests, SameTokens, QueuesOk, Sum, Victim;
    GoodInv(c, d);
    SameRequestsSelf(d.sys);
    if Sum(StepNeeds(c, d.sys), d.running) > Avail(d.sys.kv) && |d.running| > 1 {
      var v := Victim(p, d, d.running);
      if v.Some? {
        PreemptGood(c, d, v.value);
        MakeRoomChunkedGood(c, p, Preempt1(d, v.value), preempted + [v.value]);
        var r := MakeRoomChunked(c, p, d, preempted);
        if r.Room? { SameRequestsTrans(d.sys, Preempt1(d, v.value).sys, r.d.sys); }
      }
    }
  }

  // ------------------------------------------------------------ the batch fits in the pool

  /** A row the batch may carry: the request runs, the row starts where its table ends, and it stays
      inside the sequence. */
  ghost predicate RowFits(s: Sys, w: Work) {
    && w.rid in s.reqs && s.bs > 0
    && var q := s.reqs[w.rid];
    && q.state != WAITING && q.table.Some?
    && w.start == q.table.value.numTokens && w.n >= 0 && w.start + w.n <= SeqLen(q)
  }

  /** Blocks a row allocates. */
  ghost function RowNeed(s: Sys, w: Work): nat
    requires RowFits(s, w)
  {
    BlocksNeeded(s.reqs[w.rid].table.value, w.n, s.bs)
  }

  ghost function RowsNeed(s: Sys, rows: seq<Work>): nat
    requires forall w :: w in rows ==> RowFits(s, w)
  {
    if rows == [] then 0 else RowNeed(s, rows[0]) + RowsNeed(s, rows[1..])
  }

  function Rids(rows: seq<Work>): (r: seq<nat>)
    ensures |r| == |rows| && forall i :: 0 <= i < |rows| ==> r[i] == rows[i].rid
  {
    seq(|rows|, i requires 0 <= i < |rows| => rows[i].rid)
  }

  /** Rows of distinct requests need no more than what is set aside for those requests. */
  lemma {:induction false} RowsBelow(s: Sys, rows: seq<Work>, f: map<nat, int>)
    requires forall w :: w in rows ==> RowFits(s, w) && w.rid in f && RowNeed(s, w) <= f[w.rid]
    ensures forall r :: r in Rids(rows) ==> r in f
    ensures RowsNeed(s, rows) <= Sum(f, Rids(rows))
  {
    if rows != [] {
      assert Rids(rows)[1..] == Rids(rows[1..]);
      RowsBelow(s, rows[1..], f);
    }
  }

  /** A row needs no more than its request's share: one token of a decode, or part of the rest of a
      prefill. */
  lemma RowWithinNeed(c: Config, d: Sched, w: Work)
    requires Good(c, d) && RowFits(d.sys, w) && w.rid in d.running
    requires (Decodes(d.sys.reqs[w.rid]) && w.n <= c.tps) || d.sys.reqs[w.rid].state == PREFILL
    ensures RowNeed(d.sys, w) <= StepNeed(c.tps, d.sys.bs, d.sys.reqs[w.rid])
  {
    hide Good, Resting, ReqTable, LiveOk, ReqTokens, RowOk, StepNeed, BlocksNeeded, PrefillNeed, Inv;
    GoodReq(c, d, w.rid);
    PrefillNeedNonNeg(c, d.sys.kv.numBlocks, d.sys.bs, d.sys.next, d.sys.reqs[w.rid]);
    PartWithinNeed(c.tps, d.sys.bs, d.sys.reqs[w.rid], w.n);
  }

  lemma PartWithinNeed(tps: nat, bs: nat, q: Req, n: nat)
    requires bs > 0 && q.table.Some? && q.table.value.numTokens + n <= SeqLen(q)
    requires (Decodes(q) && n <= tps) || (q.state == PREFILL && PrefillNeed(bs, q) >= 0)
    ensures BlocksNeeded(q.table.value, n, bs) <= StepNeed(tps, bs, q)
  {
    hide CeilDiv;
    CeilMono(q.table.value.numTokens + n, if q.state == PREFILL then SeqLen(q) + 1 else q.table.value.numTokens + tps, bs);
  }

  /** Rows `[0, k)` are decode rows of one token each, the others pieces of prefills; no request has
      two. */
  ghost predicate RowsOk(d: Sched, rows: seq<Work>, k: nat) {
    && k <= |rows| && Distinct(Rids(rows))
    && (forall w {:trigger RowFits(d.sys, w)} :: w in rows ==> RowFits(d.sys, w) && w.rid in d.running && w.n > 0)
    && (forall i :: 0 <= i < k ==> rows[i].rid in d.sys.reqs && Decodes(d.sys.reqs[rows[i].rid]) && rows[i].n == 1)
    && (forall i :: k <= i < |rows| ==> rows[i].rid in d.sys.reqs && d.sys.reqs[rows[i].rid].state == PREFILL)
  }

  /** What running requests still need fits, so any rows of theirs do. */
  lemma RowsFitPool(c: Config, d: Sched, rows: seq<Work>, k: nat)
    requires Good(c, d) && RowsOk(d, rows, k)
    requires Sum(StepNeeds(c, d.sys), d.running) <= Avail(d.sys.kv)
    ensures (forall w :: w in rows ==> RowFits(d.sys, w)) && RowsNeed(d.sys, rows) <= Avail(d.sys.kv)
  {
    hide Avail, Good, QueuesOk, RowFits, RowNeed, StepNeed, Decodes;
    RowsBelowStep(c, d, rows, k);
    NeedsNonNeg(c, d);
    GoodInv(c, d);
    RidsIn(d, rows, k);
    DistinctRunning(d);
    SumSubset(StepNeeds(c, d.sys), Rids(rows), d.running);
  }

  lemma DistinctRunning(d: Sched)
    requires QueuesOk(d)
    ensures Distinct(d.running)
  {
  }

  lemma RidsIn(d: Sched, rows: seq<Work>, k: nat)
    requires RowsOk(d, rows, k)
    ensures Distinct(Rids(rows)) && forall r :: r in Rids(rows) ==> r in d.running
  {
    forall r | r in Rids(rows) ensures r in d.running {
      var i :| 0 <= i < |rows| && rows[i].rid == r;
      assert RowFits(d.sys, rows[i]);
    }
  }

  lemma RowsBelowStep(c: Config, d: Sched, rows: seq<Work>, k: nat)
    requires Good(c, d) && RowsOk(d, rows, k)
    ensures (forall w :: w in rows ==> RowFits(d.sys, w)) && (forall r :: r in Rids(rows) ==> r in d.sys.reqs)
    ensures RowsNeed(d.sys, rows) <= Sum(StepNeeds(c, d.sys), Rids(rows))
  {
    hide Avail, Good, QueuesOk, RowNeed, StepNeed, Decodes;
    GoodInv(c, d);
    forall w | w in rows ensures RowFits(d.sys, w) && RowNeed(d.sys, w) <= StepNeed(c.tps, d.sys.bs, d.sys.reqs[w.rid]) {
      var i :| 0 <= i < |rows| && rows[i] == w;
      assert RowFits(d.sys, w);
      RowWithinNeed(c, d, w);
    }
    RowsBelow(d.sys, rows, StepNeeds(c, d.sys));
  }

  // ------------------------------------------------------------ admission, whole prefills

  /** The requests admitted in this call, from `base` on, and what was promised to them. */
  ghost predicate Promised(c: Config, d: Sched, base: nat, reserved: int) {
    && d.sys.bs > 0 && base <= |d.running| && (forall r :: r in d.running ==> r in d.sys.reqs)
    && (forall i :: base <= i < |d.running| ==> FreshPrefill(d.sys.reqs[d.running[i]]))
    && reserved == Sum(StepNeeds(c, d.sys), d.running[base..])
    && (base < |d.running| ==> reserved + Sum(DecodeNeeds(c, d.sys), d.running[..base]) <= Avail(d.sys.kv))
  }

  /** Admitted and nothing computed yet beyond the cached prefix. */
  ghost predicate FreshPrefill(q: Req) {
    q.state == PREFILL && q.table.Some? && q.numCached == q.table.value.numTokens < SeqLen(q)
  }

  /** An admission leaves the needs of the requests before it as they were. */
  lemma TakeSums(c: Config, d: Sched, r: nat, rids: seq<nat>)
    requires Good(c, d) && r in d.waiting && d.sys.reqs[r].pending == 0 && forall x :: x in rids ==> x in d.running
    ensures d.sys.bs > 0 && (forall x :: x in rids + [r] ==> x in d.sys.reqs && x in Take(d, r).sys.reqs)
    ensures Sum(DecodeNeeds(c, Take(d, r).sys), rids) == Sum(DecodeNeeds(c, d.sys), rids)
    ensures Sum(StepNeeds(c, Take(d, r).sys), rids + [r])
      == Sum(StepNeeds(c, d.sys), rids) + PrefillNeed(d.sys.bs, Take(d, r).sys.reqs[r])
  {
    hide Good, Sum, PrefillNeed, DecodeNeeds, StepNeeds, Take;
    NeedsKnownGood(c, d);
    TakeGood(c, d, r);
    WaitsNot(d, r);
    hide QueuesOk;
    SumsMove(c, d.sys, Take(d, r).sys, rids, r);
  }

  lemma SumsMove(c: Config, s: Sys, s': Sys, rids: seq<nat>, r: nat)
    requires s.bs > 0 && s'.bs == s.bs && r in s'.reqs && s'.reqs[r].state == PREFILL
    requires forall x :: x in rids ==> x in s.reqs && x in s'.reqs && s'.reqs[x] == s.reqs[x]
    ensures Sum(DecodeNeeds(c, s'), rids) == Sum(DecodeNeeds(c, s), rids)
    ensures Sum(StepNeeds(c, s'), rids + [r]) == Sum(StepNeeds(c, s), rids) + PrefillNeed(s.bs, s'.reqs[r])
  {
    hide PrefillNeed, DecodeNeed;
    SumSame(DecodeNeeds(c, s), DecodeNeeds(c, s'), rids);
    SumSame(StepNeeds(c, s), StepNeeds(c, s'), rids);
    SumConcat(StepNeeds(c, s'), rids, [r]);
    assert Sum(StepNeeds(c, s'), [r]) == PrefillNeed(s.bs, s'.reqs[r]);
  }

  lemma PromisedTake(c: Config, d: Sched, r: nat, base: nat, budget: int, reserved: int)
    requires Good(c, d) && r in d.waiting && d.sys.reqs[r].pending == 0 && Promised(c, d, base, reserved)
    requires Fits(c, d, r, base, budget, reserved)
    ensures Promised(c, Take(d, r), base, reserved + PrefillNeed(d.sys.bs, Take(d, r).sys.reqs[r]))
  {
    hide Avail, Good, PrefillNeed, DecodeNeeds, StepNeeds, Sum;
    NeedsKnownGood(c, d);
    TakeGood(c, d, r);
    TakeSums(c, d, r, d.running[..base]);
    TakeSums(c, d, r, d.running[base..]);
    TakePromise(c, d, Take(d, r), r, base, reserved);
  }

  /** The sums of a promise with one more request in it. */
  lemma TakePromise(c: Config, d: Sched, d': Sched, r: nat, base: nat, reserved: int)
    requires Promised(c, d, base, reserved) && d'.running == d.running + [r] && d'.sys.bs == d.sys.bs
    requires r in d'.sys.reqs && r !in d.running && FreshPrefill(d'.sys.reqs[r])
    requires forall x :: x in d.running ==> x in d'.sys.reqs && d'.sys.reqs[x] == d.sys.reqs[x]
    requires var need := PrefillNeed(d.sys.bs, d'.sys.reqs[r]);
      && Sum(DecodeNeeds(c, d'.sys), d.running[..base]) == Sum(DecodeNeeds(c, d.sys), d.running[..base])
      && Sum(StepNeeds(c, d'.sys), d.running[base..] + [r]) == Sum(StepNeeds(c, d.sys), d.running[base..]) + need
      && need <= Avail(d'.sys.kv) - Sum(DecodeNeeds(c, d.sys), d.running[..base]) - reserved
    ensures Promised(c, d', base, reserved + PrefillNeed(d.sys.bs, d'.sys.reqs[r]))
  {
    hide Avail, PrefillNeed, DecodeNeed, StepNeed, Sum, FreshPrefill;
    assert d'.running[..base] == d.running[..base] && d'.running[base..] == d.running[base..] + [r];
    forall i | base <= i < |d'.running| ensures d'.running[i] in d'.sys.reqs && FreshPrefill(d'.sys.reqs[d'.running[i]]) {
      if i < |d.running| { assert d'.running[i] == d.running[i] && d.running[i] in d.running; }
    }
  }

  lemma AdmitLoopGood(c: Config, d: Sched, order: seq<nat>, base: nat, budget: int, reserved: int)
    requires Good(c, d) && OrderOk(d, order) && Promised(c, d, base, reserved)
    ensures var d' := AdmitLoop(c, d, order, base, budget, reserved);
      && Good(c, d') && SameRequests(d.sys, d'.sys)
      && exists promised :: Promised(c, d', base, promised)
    decreases |order|
  {
    hide Avail, Good, Promised, Fits, SameRequests, Take, QueuesOk;
    GoodInv(c, d);
    SameRequestsSelf(d.sys);
    PromisedBase(c, d, base, reserved);
    if order != [] && |d.running| < c.maxRunning && d.sys.reqs[order[0]].pending == 0 {
      OrderTail(d, order);
      var d1 := Take(d, order[0]);
      if Fits(c, d, order[0], base, budget, reserved) {
        PromisedTake(c, d, order[0], base, budget, reserved);
        TakeGood(c, d, order[0]);
        var q := d1.sys.reqs[order[0]];
        var (b1, r1) := (budget - Uncached(q), reserved + PrefillNeed(d.sys.bs, q));
        AdmitLoopGood(c, d1, order[1..], base, b1, r1);
        SameRequestsTrans(d.sys, d1.sys, AdmitLoop(c, d, order, base, budget, reserved).sys);
      }
    }
  }

  lemma PromisedBase(c: Config, d: Sched, base: nat, reserved: int)
    requires Promised(c, d, base, reserved)
    ensures base <= |d.running|
  {
  }

  // ------------------------------------------------------------ the rows of a batch

  lemma DecodeRowFits(c: Config, d: Sched, r: nat)
    requires Good(c, d) && r in d.running && r in d.sys.reqs && Decodes(d.sys.reqs[r])
    ensures RowFits(d.sys, Work(r, SeqLen(d.sys.reqs[r]) - 1, 1))
  {
    hide Reachable, ReqTokens, LiveOk;
    GoodInv(c, d);
    GoodReq(c, d, r);
  }

  lemma DecodeRowsOk(c: Config, d: Sched, rids: seq<nat>)
    requires Good(c, d) && IsDecoding(d, rids)
    ensures RowsOk(d, DecodeRows(d.sys.reqs, rids), |rids|)
    ensures Rids(DecodeRows(d.sys.reqs, rids)) == rids
  {
    hide Good, RowFits, Decodes;
    var rows := DecodeRows(d.sys.reqs, rids);
    assert Rids(rows) == rids;
    forall w | w in rows ensures RowFits(d.sys, w) && w.rid in d.running && w.n > 0 {
      var i :| 0 <= i < |rows| && rows[i] == w;
      assert rids[i] in rids;
      DecodeRowFits(c, d, rids[i]);
    }
  }

  lemma PrefillRowsOk(c: Config, d: Sched, base: nat, promised: int)
    requires Good(c, d) && Promised(c, d, base, promised) && base < |d.running|
    ensures var rows := PrefillRows(d.sys.reqs, d.running[base..]);
      && RowsOk(d, rows, 0) && (forall w :: w in rows ==> RowFits(d.sys, w))
      && RowsNeed(d.sys, rows) <= Avail(d.sys.kv)
      && (forall w :: w in rows ==> w.start + w.n == SeqLen(d.sys.reqs[w.rid]))
  {
    hide Good, Avail, StepNeeds, DecodeNeeds, QueuesOk, RowsOk, RowsNeed, Sum;
    NeedsKnownGood(c, d);
    var rows := PrefillRows(d.sys.reqs, d.running[base..]);
    FreshRows(d, base);
    RowsBelowStep(c, d, rows, 0);
    DecodesNonNeg(c, d, d.running[..base]);
  }

  lemma DecodesNonNeg(c: Config, d: Sched, rids: seq<nat>)
    requires Good(c, d) && forall r :: r in rids ==> r in d.sys.reqs
    ensures d.sys.bs > 0 && Sum(DecodeNeeds(c, d.sys), rids) >= 0
  {
    hide Good;
    NeedsKnownGood(c, d);
    NeedsNonNeg(c, d);
    SumNonNeg(DecodeNeeds(c, d.sys), rids);
  }

  lemma FreshRows(d: Sched, base: nat)
    requires QueuesOk(d) && base <= |d.running|
    requires forall i :: base <= i < |d.running| ==> d.running[i] in d.sys.reqs && FreshPrefill(d.sys.reqs[d.running[i]])
    ensures forall r :: r in d.running[base..] ==> r in d.sys.reqs
    ensures var rows := PrefillRows(d.sys.reqs, d.running[base..]);
      && RowsOk(d, rows, 0) && Rids(rows) == d.running[base..]
      && forall w :: w in rows ==> w.rid in d.sys.reqs && w.start + w.n == SeqLen(d.sys.reqs[w.rid])
  {
    var rids := d.running[base..];
    var rows := PrefillRows(d.sys.reqs, rids);
    assert Rids(rows) == rids;
    forall i | 0 <= i < |rows|
      ensures RowFits(d.sys, rows[i]) && rows[i].rid in d.running && rows[i].n > 0
    {
      assert rids[i] == d.running[base + i];
    }
  }

  /** The pieces of prefills that go on: at most the budget, and all that are part-way, whole, unless
      the budget is used up. */
  ghost predicate Continued(d: Sched, rids: seq<nat>, rows: seq<Work>, budget: int) {
    && RowsOk(d, rows, 0) && (forall r :: r in Rids(rows) ==> r in rids)
    && 0 <= Tokens1(rows) && (Tokens1(rows) <= budget || rows == [])
    && (Tokens1(rows) < budget ==> forall r :: r in rids && r in d.sys.reqs && d.sys.reqs[r].state == PREFILL ==> r in Rids(rows))
    && (Tokens1(rows) < budget ==> forall w :: w in rows ==> Completes(d.sys.reqs, w))
  }

  /** The row reaches the end of its sequence. */
  predicate Completes(reqs: map<nat, Req>, w: Work) {
    w.rid in reqs && w.start + w.n == SeqLen(reqs[w.rid])
  }

  lemma {:induction false} ContinueRowsOk(c: Config, d: Sched, rids: seq<nat>, budget: int)
    requires Good(c, d) && Distinct(rids) && forall r :: r in rids ==> r in d.running && r in d.sys.reqs
    ensures Continued(d, rids, ContinueRows(d.sys.reqs, rids, budget), budget)
  {
    hide Good, Continued, RowFits;
    NoRows(d);
    if rids == [] {
      NoneContinued(d, budget);
    } else {
      var q := d.sys.reqs[rids[0]];
      assert forall i :: 0 < i < |rids| ==> rids[i] != rids[0];
      if MidPrefill(q) && budget > 0 {
        var n := Piece(q, budget);
        PieceFits(c, d, rids[0], budget);
        ContinueRowsOk(c, d, rids[1..], budget - n);
        ContinuedCons(d, rids, Work(rids[0], q.table.value.numTokens, n), ContinueRows(d.sys.reqs, rids[1..], budget - n), budget);
      } else {
        if q.state == PREFILL { GoodReq(c, d, rids[0]); }
        ContinueRowsOk(c, d, rids[1..], budget);
        ContinuedSkip(d, rids, ContinueRows(d.sys.reqs, rids[1..], budget), budget);
      }
    }
  }

  lemma NoneContinued(d: Sched, budget: int)
    ensures Continued(d, [], [], budget)
  {
  }

  lemma ContinuedCons(d: Sched, rids: seq<nat>, w: Work, rows: seq<Work>, budget: int)
    requires rids != [] && w.rid == rids[0] && rids[0] !in rids[1..] && w.rid in d.sys.reqs
    requires Continued(d, rids[1..], rows, budget - w.n)
    requires RowFits(d.sys, w) && w.rid in d.running && 0 < w.n <= budget && d.sys.reqs[w.rid].state == PREFILL
    requires w.n < budget ==> Completes(d.sys.reqs, w)
    ensures Continued(d, rids, [w] + rows, budget)
  {
    hide RowsOk, RowFits;
    ConsRow(d, w, rows);
    assert ([w] + rows)[1..] == rows;
  }

  lemma ContinuedSkip(d: Sched, rids: seq<nat>, rows: seq<Work>, budget: int)
    requires rids != [] && rids[0] in d.sys.reqs
    requires Continued(d, rids[1..], rows, budget) && (d.sys.reqs[rids[0]].state == PREFILL ==> budget <= 0)
    ensures Continued(d, rids, rows, budget)
  {
    hide RowsOk;
  }

  lemma PieceFits(c: Config, d: Sched, r: nat, budget: int)
    requires Good(c, d) && r in d.running && r in d.sys.reqs && d.sys.reqs[r].state == PREFILL && budget > 0
    ensures d.sys.reqs[r].table.Some?
    ensures var q := d.sys.reqs[r]; RowFits(d.sys, Work(r, q.table.value.numTokens, Piece(q, budget))) && Piece(q, budget) > 0
  {
    GoodInv(c, d);
    GoodReq(c, d, r);
    PrefillNeedNonNeg(c, d.sys.kv.numBlocks, d.sys.bs, d.sys.next, d.sys.reqs[r]);
  }

  lemma NoRows(d: Sched)
    ensures RowsOk(d, [], 0)
  {
  }

  lemma ConsRow(d: Sched, w: Work, rows: seq<Work>)
    requires RowsOk(d, rows, 0) && w.rid !in Rids(rows) && w.rid in d.sys.reqs
    requires RowFits(d.sys, w) && w.rid in d.running && w.n > 0 && d.sys.reqs[w.rid].state == PREFILL
    ensures RowsOk(d, [w] + rows, 0)
    ensures Rids([w] + rows) == [w.rid] + Rids(rows)
  {
    hide RowFits;
    var all := [w] + rows;
    assert Rids(all) == [w.rid] + Rids(rows);
    DistinctCons(w.rid, Rids(rows));
    forall x | x in all ensures RowFits(d.sys, x) && x.rid in d.running && x.n > 0 {
      assert x == w || x in rows;
    }
    forall i | 0 <= i < |all| ensures all[i].rid in d.sys.reqs && d.sys.reqs[all[i].rid].state == PREFILL {
      if i > 0 { assert all[i] == rows[i - 1]; }
    }
  }

  // ------------------------------------------------------------ admission, chunked

  /** The row of a request that was just admitted joins the others. */
  lemma TakeRow(c: Config, d: Sched, r: nat, rows: seq<Work>, k: nat, n: int)
    requires Good(c, d) && r in d.waiting && d.sys.reqs[r].pending == 0 && RowsOk(d, rows, k)
    requires var q := Take(d, r).sys.reqs[r]; 0 < n <= Uncached(q)
    ensures RowsOk(Take(d, r), rows + [Work(r, Take(d, r).sys.reqs[r].numCached, n)], k)
  {
    hide Good, Reachable, LongestOf, QueuesOk, Take, RowsOk;
    GoodInv(c, d);
    TakeGood(c, d, r);
    RidsIn(d, rows, k);
    WaitsNot(d, r);
    assert Take(d, r).running == d.running + [r];
    SnocRow(d, Take(d, r), rows, k, Work(r, Take(d, r).sys.reqs[r].numCached, n));
  }

  lemma WaitsNot(d: Sched, r: nat)
    requires QueuesOk(d) && r in d.waiting
    ensures r !in d.running
  {
  }

  lemma SnocRow(d: Sched, d': Sched, rows: seq<Work>, k: nat, w: Work)
    requires RowsOk(d, rows, k) && d'.sys.bs == d.sys.bs && w.rid !in Rids(rows)
    requires w.rid in d'.sys.reqs && w.rid in d.sys.reqs && d'.sys.reqs == d.sys.reqs[w.rid := d'.sys.reqs[w.rid]]
    requires d'.running == d.running + [w.rid]
    requires RowFits(d'.sys, w) && w.n > 0 && d'.sys.reqs[w.rid].state == PREFILL
    ensures RowsOk(d', rows + [w], k)
  {
    var all := rows + [w];
    assert Rids(all) == Rids(rows) + [w.rid];
    forall x | x in all ensures RowFits(d'.sys, x) && x.rid in d'.running && x.n > 0 {
      if x in rows {
        var i :| 0 <= i < |rows| && rows[i] == x;
        assert Rids(rows)[i] == x.rid && RowFits(d.sys, x);
      }
    }
    forall i | 0 <= i < |rows| ensures all[i] == rows[i] && d'.sys.reqs[rows[i].rid] == d.sys.reqs[rows[i].rid] {
      assert Rids(rows)[i] in Rids(rows);
    }
  }

  /** What an admission into a chunked batch is promised, fits. */
  lemma TakeFits(c: Config, d: Sched, r: nat)
    requires Good(c, d) && r in d.waiting && d.sys.reqs[r].pending == 0 && FitsChunked(c, d, r)
    ensures Good(c, Take(d, r)) && (forall x :: x in Take(d, r).running ==> x in Take(d, r).sys.reqs)
    ensures Sum(StepNeeds(c, Take(d, r).sys), Take(d, r).running) <= Avail(Take(d, r).sys.kv)
  {
    hide Avail, Good, PrefillNeed, StepNeeds, DecodeNeeds, Sum;
    GoodInv(c, d);
    TakeGood(c, d, r);
    TakeSums(c, d, r, d.running);
  }

  lemma {:induction false} Tokens1Append(rows: seq<Work>, more: seq<Work>)
    ensures Tokens1(rows + more) == Tokens1(rows) + Tokens1(more)
  {
    if rows == [] {
      assert rows + more == more;
    } else {
      assert (rows + more)[1..] == rows[1..] + more;
      Tokens1Append(rows[1..], more);
    }
  }

  /** What admission into a chunked batch leaves: the same requests, rows to which the older ones are
      a prefix, and room for all that runs. */
  ghost predicate AdmittedOk(c: Config, d: Sched, rows: seq<Work>, k: nat, r: Chunked) {
    && Good(c, r.d) && QueuesOk(r.d) && SameRequests(d.sys, r.d.sys) && RowsOk(r.d, r.rows, k) && rows <= r.rows
    && Sum(StepNeeds(c, r.d.sys), r.d.running) <= Avail(r.d.sys.kv)
  }

  lemma AdmitNone(c: Config, d: Sched, rows: seq<Work>, k: nat)
    requires Good(c, d) && RowsOk(d, rows, k) && QueuesOk(d) && Sum(StepNeeds(c, d.sys), d.running) <= Avail(d.sys.kv)
    ensures AdmittedOk(c, d, rows, k, Chunked(d, rows))
  {
    hide Good, RowsOk, Avail, QueuesOk;
    NeedsKnown(d);
  }

  lemma NeedsKnownGood(c: Config, d: Sched)
    requires Good(c, d)
    ensures QueuesOk(d) && d.sys.bs > 0 && forall r :: r in d.running ==> r in d.sys.reqs
  {
  }

  lemma NeedsKnown(d: Sched)
    requires QueuesOk(d)
    ensures d.sys.bs > 0 && forall r :: r in d.running ==> r in d.sys.reqs
  {
  }

  lemma AdmitMore(c: Config, d: Sched, d1: Sched, rows: seq<Work>, rows1: seq<Work>, k: nat, r: Chunked)
    requires SameRequests(d.sys, d1.sys) && rows <= rows1 && AdmittedOk(c, d1, rows1, k, r)
    ensures AdmittedOk(c, d, rows, k, r)
  {
    hide Good, RowsOk, Avail, QueuesOk;
    SameRequestsTrans(d.sys, d1.sys, r.d.sys);
  }

  lemma AdmitChunkedOk(c: Config, d: Sched, order: seq<nat>, rows: seq<Work>, k: nat, budget: int)
    requires Good(c, d) && OrderOk(d, order) && RowsOk(d, rows, k)
    requires Sum(StepNeeds(c, d.sys), d.running) <= Avail(d.sys.kv)
    ensures AdmittedOk(c, d, rows, k, AdmitChunked(c, d, order, rows, budget))
    decreases |order|
  {
    hide Avail, Good, FitsChunked, SameRequests, Take, QueuesOk, RowsOk, Sum, AdmittedOk;
    GoodInv(c, d);
    AdmitNone(c, d, rows, k);
    if order != [] && budget > 0 && |d.running| < c.maxRunning && d.sys.reqs[order[0]].pending == 0 {
      OrderTail(d, order);
      var d1 := Take(d, order[0]);
      if FitsChunked(c, d, order[0]) {
        TakeGood(c, d, order[0]);
        TakeFits(c, d, order[0]);
        var q := d1.sys.reqs[order[0]];
        var n := Piece(q, budget);
        TakeRow(c, d, order[0], rows, k, n);
        AdmitChunkedOk(c, d1, order[1..], rows + [Work(order[0], q.numCached, n)], k, budget - n);
        AdmitMore(c, d, d1, rows, rows + [Work(order[0], q.numCached, n)], k, AdmitChunked(c, d, order, rows, budget));
      }
    }
  }

  // ------------------------------------------------------------ schedule

  /** What the engine may rely on in a batch. `reserve` will find the blocks of its rows, and of a
      whole decode step of `tps` tokens each if it has decode rows only. */
  ghost predicate BatchOk(c: Config, d: Sched, b: Batch) {
    && b.rows != [] && RowsOk(d, b.rows, b.numDecode)
    && (forall w :: w in b.rows ==> RowFits(d.sys, w)) && RowsNeed(d.sys, b.rows) <= Avail(d.sys.kv)
    && (b.phase == DecodeOnly <==> b.numDecode == |b.rows|) && (b.phase == PrefillOnly <==> b.numDecode == 0)
    && d.sys.bs > 0 && (forall r :: r in Rids(b.rows) ==> r in d.sys.reqs)
    && (b.phase == DecodeOnly ==> Sum(DecodeNeeds(c, d.sys), Rids(b.rows)) <= Avail(d.sys.kv))
    && (c.chunk == 0 ==> forall w :: w in b.rows ==> Completes(d.sys.reqs, w))
  }

  lemma DecodeBatch(c: Config, d: Sched, rids: seq<nat>, preempted: seq<nat>)
    requires Good(c, d) && IsDecoding(d, rids) && rids != [] && Sum(DecodeNeeds(c, d.sys), rids) <= Avail(d.sys.kv)
    ensures BatchOk(c, d, Batch(DecodeOnly, DecodeRows(d.sys.reqs, rids), preempted, |rids|))
  {
    hide Good, Avail, QueuesOk, RowsOk, RowFits, RowsNeed, DecodeNeeds, StepNeeds, Sum, Completes;
    GoodInv(c, d);
    DecodeRowsOk(c, d, rids);
    DecodeStepNeed(c, d, rids);
    DecodesComplete(d, rids);
  }

  /** Decode rows need no more than the whole decode step of the same requests. */
  lemma DecodeStepNeed(c: Config, d: Sched, rids: seq<nat>)
    requires Good(c, d) && IsDecoding(d, rids)
    ensures d.sys.bs > 0 && (forall r :: r in rids ==> r in d.sys.reqs)
    ensures forall w :: w in DecodeRows(d.sys.reqs, rids) ==> RowFits(d.sys, w)
    ensures RowsNeed(d.sys, DecodeRows(d.sys.reqs, rids)) <= Sum(DecodeNeeds(c, d.sys), rids)
  {
    hide Good, QueuesOk, RowsOk, RowFits, RowsNeed, DecodeNeed;
    GoodInv(c, d);
    DecodeRowsOk(c, d, rids);
    RowsBelowStep(c, d, DecodeRows(d.sys.reqs, rids), |rids|);
    SumSame(StepNeeds(c, d.sys), DecodeNeeds(c, d.sys), rids);
  }

  lemma DecodesComplete(d: Sched, rids: seq<nat>)
    requires forall r :: r in rids ==> r in d.sys.reqs
    ensures forall w :: w in DecodeRows(d.sys.reqs, rids) ==> Completes(d.sys.reqs, w)
  {
    var rows := DecodeRows(d.sys.reqs, rids);
    forall w | w in rows ensures Completes(d.sys.reqs, w) {
      var i :| 0 <= i < |rows| && rows[i] == w;
      assert rids[i] in rids;
    }
  }

  lemma PrefillBatch(c: Config, d: Sched, base: nat, promised: int)
    requires Good(c, d) && Promised(c, d, base, promised) && base < |d.running|
    ensures BatchOk(c, d, Batch(PrefillOnly, PrefillRows(d.sys.reqs, d.running[base..]), [], 0))
  {
    hide Good, Avail, QueuesOk, Promised;
    GoodInv(c, d);
    PrefillRowsOk(c, d, base, promised);
    RidsIn(d, PrefillRows(d.sys.reqs, d.running[base..]), 0);
  }

  lemma ScheduleWholeGood(c: Config, p: Policy, d: Sched)
    requires PolicyOk(p) && Good(c, d) && c.chunk == 0
    ensures var r := ScheduleWhole(c, p, d);
      r.Plan? ==>
        && Good(c, r.d) && SameRequests(d.sys, r.d.sys)
        && (r.batch.Some? ==> BatchOk(c, r.d, r.batch.value))
  {
    hide Avail, Good, SameRequests, BatchOk, Promised;
    GoodInv(c, d);
    var order := p.order(d.waiting, d.sys);
    OrderWaits(p, d);
    assert d.running[|d.running|..] == [];
    FirstPromise(c, d);
    AdmitLoopGood(c, d, order, |d.running|, c.maxPrefill, 0);
    var d1 := AdmitLoop(c, d, order, |d.running|, c.maxPrefill, 0);
    if d1.running[|d.running|..] != [] {
      var promised :| Promised(c, d1, |d.running|, promised);
      PrefillBatch(c, d1, |d.running|, promised);
    } else {
      var decoding := Only(d1.running, DecodingSet(d1.sys.reqs));
      GoodInv(c, d1);
      OnlyDistinct(d1.running, DecodingSet(d1.sys.reqs));
      MakeRoomGood(c, p, d1, decoding, []);
      var r := MakeRoom(c, p, d1, decoding, []);
      if r.Room? {
        SameRequestsTrans(d.sys, d1.sys, r.d.sys);
        if r.decoding != [] { DecodeBatch(c, r.d, r.decoding, r.preempted); }
      }
    }
  }

  lemma FirstPromise(c: Config, d: Sched)
    requires QueuesOk(d)
    ensures Promised(c, d, |d.running|, 0)
  {
    assert d.running[|d.running|..] == [];
  }

  lemma OrderWaits(p: Policy, d: Sched)
    requires PolicyOk(p) && QueuesOk(d)
    ensures OrderOk(d, p.order(d.waiting, d.sys))
  {
  }

  lemma JoinRows(d: Sched, decodes: seq<Work>, conts: seq<Work>)
    requires RowsOk(d, decodes, |decodes|) && RowsOk(d, conts, 0)
    ensures RowsOk(d, decodes + conts, |decodes|)
  {
    hide RowFits, Distinct, Rids;
    JoinedDistinct(d, decodes, conts);
    var all := decodes + conts;
    forall w | w in all ensures RowFits(d.sys, w) && w.rid in d.running && w.n > 0 {
      assert w in decodes || w in conts;
    }
    forall i | |decodes| <= i < |all| ensures all[i].rid in d.sys.reqs && d.sys.reqs[all[i].rid].state == PREFILL {
      assert all[i] == conts[i - |decodes|];
    }
    forall i | 0 <= i < |decodes| ensures all[i].rid in d.sys.reqs && Decodes(d.sys.reqs[all[i].rid]) && all[i].n == 1 {
      assert all[i] == decodes[i];
    }
  }

  /** A request does not decode and prefill at once, so no row is for a request of another row. */
  lemma JoinedDistinct(d: Sched, decodes: seq<Work>, conts: seq<Work>)
    requires RowsOk(d, decodes, |decodes|) && RowsOk(d, conts, 0)
    ensures Distinct(Rids(decodes + conts))
  {
    hide RowFits;
    var (a, b, all) := (Rids(decodes), Rids(conts), Rids(decodes + conts));
    forall i, j | 0 <= i < |a| && 0 <= j < |b| ensures a[i] != b[j] {
      var (w, x) := (decodes[i], conts[j]);
      assert a[i] == w.rid && b[j] == x.rid;
      assert Decodes(d.sys.reqs[w.rid]) && d.sys.reqs[x.rid].state == PREFILL;
    }
    assert all == a + b;
    DistinctConcat(a, b);
  }

  lemma DistinctConcat(a: seq<nat>, b: seq<nat>)
    requires Distinct(a) && Distinct(b) && forall i, j :: 0 <= i < |a| && 0 <= j < |b| ==> a[i] != b[j]
    ensures Distinct(a + b)
  {
    var all := a + b;
    forall i, j | 0 <= i < j < |all| ensures all[i] != all[j] {
      if j < |a| {
        assert a[i] != a[j];
      } else if i < |a| {
        assert a[i] != b[j - |a|];
      } else {
        assert b[i - |a|] != b[j - |a|];
      }
    }
  }

  lemma RunningRowsOk(c: Config, d: Sched)
    requires Good(c, d)
    ensures QueuesOk(d) && RowsOk(d, RunningRows(c, d), |Only(d.running, DecodingSet(d.sys.reqs))|)
  {
    hide Good, RowsOk;
    GoodInv(c, d);
    var rids := Only(d.running, DecodingSet(d.sys.reqs));
    OnlyDistinct(d.running, DecodingSet(d.sys.reqs));
    DecodeRowsOk(c, d, rids);
    ContinueRowsOk(c, d, d.running, c.chunk - |rids|);
    JoinRows(d, DecodeRows(d.sys.reqs, rids), ContinueRows(d.sys.reqs, d.running, c.chunk - |rids|));
  }

  /** A chunked batch of decode rows only has a row for every decoding request, so the room made for
      them all is room for a whole step of each. */
  lemma ChunkedBatchOk(c: Config, d: Sched, rows: seq<Work>, k: nat, phase: Phase, preempted: seq<nat>)
    requires Good(c, d) && RowsOk(d, rows, k) && rows != [] && c.chunk > 0
    requires Sum(StepNeeds(c, d.sys), d.running) <= Avail(d.sys.kv)
    requires phase == if k == |rows| then DecodeOnly else if k == 0 then PrefillOnly else Mixed
    ensures BatchOk(c, d, Batch(phase, rows, preempted, k))
  {
    hide Good, Avail, QueuesOk, RowFits, RowsNeed, DecodeNeed;
    GoodInv(c, d);
    RowsFitPool(c, d, rows, k);
    RidsIn(d, rows, k);
    if k == |rows| {
      var rids := Rids(rows);
      NeedsNonNeg(c, d);
      DistinctRunning(d);
      SumSubset(StepNeeds(c, d.sys), rids, d.running);
      forall r | r in rids ensures Decodes(d.sys.reqs[r]) {
        var i :| 0 <= i < |rows| && rows[i].rid == r;
      }
      SumSame(StepNeeds(c, d.sys), DecodeNeeds(c, d.sys), rids);
    }
  }

  lemma AdmitRestGood(c: Config, p: Policy, d: Sched)
    requires PolicyOk(p) && Good(c, d) && Sum(StepNeeds(c, d.sys), d.running) <= Avail(d.sys.kv)
    ensures QueuesOk(d)
    ensures AdmittedOk(c, d, RunningRows(c, d), |Only(d.running, DecodingSet(d.sys.reqs))|, AdmitRest(c, p, d))
  {
    hide Avail, Good, RowsOk, Sum, RunningRows, QueuesOk, AdmittedOk, SameRequests, AdmitChunked, PolicyOk,
         Tokens1, Only, DecodingSet, OrderOk;
    NeedsKnownGood(c, d);
    RunningRowsOk(c, d);
    OrderWaits(p, d);
    var rows := RunningRows(c, d);
    AdmitNone(c, d, rows, |Only(d.running, DecodingSet(d.sys.reqs))|);
    if c.chunk > Tokens1(rows) {
      AdmitChunkedOk(c, d, p.order(d.waiting, d.sys), rows, |Only(d.running, DecodingSet(d.sys.reqs))|, c.chunk - Tokens1(rows));
    }
  }

  lemma ScheduleChunkedGood(c: Config, p: Policy, d: Sched)
    requires PolicyOk(p) && Good(c, d) && c.chunk > 0
    ensures QueuesOk(d)
    ensures var r := ScheduleChunked(c, p, d);
      r.Plan? ==>
        && Good(c, r.d) && SameRequests(d.sys, r.d.sys)
        && (r.batch.Some? ==> BatchOk(c, r.d, r.batch.value))
  {
    hide Avail, Good, SameRequests, BatchOk, RowsOk, Sum, AdmitRest, QueuesOk, RunningRows;
    GoodInv(c, d);
    MakeRoomChunkedGood(c, p, d, []);
    var m := MakeRoomChunked(c, p, d, []);
    if m.Room? {
      AdmitRestGood(c, p, m.d);
      var r := AdmitRest(c, p, m.d);
      SameRequestsTrans(d.sys, m.d.sys, r.d.sys);
      if r.rows != [] {
        var b := ScheduleChunked(c, p, d).batch.value;
        ChunkedBatchOk(c, r.d, r.rows, b.numDecode, b.phase, b.preempted);
      }
    }
  }

  /** Whatever the policy, a schedule is a sequence of preemptions and admissions of the machine, the
      tokens of every request stay as they are, and whenever it returns a batch, the blocks its rows
      need can be handed out: `reserve` cannot fail. */
  lemma ScheduleGood(c: Config, p: Policy, d: Sched)
    requires PolicyOk(p) && Good(c, d)
    ensures QueuesOk(d)
    ensures var r := Schedule(c, p, d);
      r.Plan? ==>
        && Good(c, r.d) && SameRequests(d.sys, r.d.sys)
        && (r.batch.Some? ==> BatchOk(c, r.d, r.batch.value))
  {
    hide Good, SameRequests, BatchOk;
    GoodInv(c, d);
    if c.chunk > 0 { ScheduleChunkedGood(c, p, d); } else { ScheduleWholeGood(c, p, d); }
  }
}

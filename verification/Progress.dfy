/** Progress. Every step that does not fail an assertion samples a token, or else computes part of a
    prefill without undoing any other, or else reads back the last batch in flight. */
module Progress {
  import opened Common
  import opened BlockTables
  import opened TreeShape
  import opened TokenChunks
  import opened KvState
  import opened KvCache
  import opened Device
  import opened Requests
  import opened Machine
  import opened MachineInv
  import opened MachineSteps
  import opened MachineTheorems
  import opened Scheduling
  import opened ScheduleSafe
  import opened ScheduleRoom
  import opened ScheduleOrder
  import opened Policies
  import opened Launching
  import opened ReadingBack
  import opened Shaping
  import opened Passes

  // ------------------------------------------------------------ the measure

  function At(f: map<nat, nat>, r: nat): nat {
    if r in f then f[r] else 0
  }

  /** The sum over all request ids below `n`. */
  function Total(f: map<nat, nat>, n: nat): nat {
    if n == 0 then 0 else Total(f, n - 1) + At(f, n - 1)
  }

  lemma {:induction false} TotalLe(f: map<nat, nat>, g: map<nat, nat>, n: nat)
    requires forall r: nat :: r < n ==> At(g, r) <= At(f, r)
    ensures Total(g, n) <= Total(f, n)
  {
    if n > 0 { TotalLe(f, g, n - 1); }
  }

  lemma {:induction false} TotalLess(f: map<nat, nat>, g: map<nat, nat>, n: nat, r: nat)
    requires r < n && At(g, r) < At(f, r) && forall x: nat :: x < n ==> At(g, x) <= At(f, x)
    ensures Total(g, n) < Total(f, n)
  {
    if r == n - 1 { TotalLe(f, g, n - 1); } else { TotalLess(f, g, n - 1, r); }
  }

  /** Tokens a request may still sample. */
  function ToSample(q: Req): nat {
    if ReachedMax(q) then 0 else q.maxNew - |q.output|
  }

  /** Positions of its sequence that are not in its table; none once it has sampled its last token. */
  function ToCompute(q: Req): nat {
    var have := if q.table.Some? then q.table.value.numTokens else 0;
    if ReachedMax(q) || have > SeqLen(q) then 0 else SeqLen(q) - have
  }

  function Samples(reqs: map<nat, Req>): map<nat, nat> {
    map r | r in reqs :: ToSample(reqs[r])
  }

  function Prefills(reqs: map<nat, Req>): map<nat, nat> {
    map r | r in reqs :: ToCompute(reqs[r])
  }

  // ------------------------------------------------------------ a schedule that computes no end

  /** Unspent requests that are not `f` and run: there are none. */
  ghost predicate OnlyFirstLive(d: Sched, f: nat) {
    forall r :: r in d.running && r in d.sys.reqs && r != f ==> Spent(d.sys.reqs[r])
  }

  /** Making room then only preempts spent requests. */
  lemma SparesUnspent(c: Config, p: Policy, d: Sched, f: nat, preempted: seq<nat>)
    requires PolicyOk(p) && Good(c, d) && QueuesOk(d) && FirstLive(d) == Some(f) && OnlyFirstLive(d, f)
    ensures var m := MakeRoomChunked(c, p, d, preempted);
      m.Room? ==>
        && m.d.sys.reqs.Keys == d.sys.reqs.Keys
        && forall r :: r in d.sys.reqs && !ReachedMax(d.sys.reqs[r]) ==> m.d.sys.reqs[r] == d.sys.reqs[r]
    decreases |d.running|
  {
    hide Good, Avail, Sum, Victim, Preempt1, PolicyOk, FirstLive, PinnedBy, QueuesOk, OnlyFirstLive;
    NeedsDefined(c, d);
    if Sum(StepNeeds(c, d.sys), d.running) > Avail(d.sys.kv) && |d.running| > 1 {
      var v := Victim(p, d, d.running);
      if v.Some? {
        var d' := Preempt1(d, v.value);
        PreemptGood(c, d, v.value);
        VictimNotFirst(p, d, d.running);
        FirstStays(c, p, d, d.running);
        LessRunning(d, v.value);
        SpentLeaves(c, d, f, v.value);
        SparesUnspent(c, p, d', f, preempted + [v.value]);
      }
    }
  }

  lemma SpentLeaves(c: Config, d: Sched, f: nat, v: nat)
    requires Good(c, d) && QueuesOk(d) && OnlyFirstLive(d, f) && v in d.running && v != f
    ensures OnlyFirstLive(Preempt1(d, v), f)
    ensures forall r :: r in d.sys.reqs && !ReachedMax(d.sys.reqs[r]) ==>
      r in Preempt1(d, v).sys.reqs && Preempt1(d, v).sys.reqs[r] == d.sys.reqs[r]
    ensures Preempt1(d, v).sys.reqs.Keys == d.sys.reqs.Keys
  {
    hide Good;
    RemoveDistinct(d.running, v);
  }

  /** With nothing unspent running nobody is preempted. */
  lemma NoNeedNoVictim(c: Config, p: Policy, d: Sched, preempted: seq<nat>)
    requires PolicyOk(p) && Good(c, d) && QueuesOk(d) && FirstLive(d) == None
    ensures MakeRoomChunked(c, p, d, preempted) == Room(d, [], preempted)
  {
    hide Good, PolicyOk, Avail, Sum;
    NeedsDefined(c, d);
    if Sum(StepNeeds(c, d.sys), d.running) > Avail(d.sys.kv) { NoneLeft(c, p, d); }
  }

  /** The first live request is part-way through its prefill, and then nobody else is live: it is the
      last admitted. */
  lemma PartialFirstIsOnly(c: Config, d: Sched, f: nat)
    requires QueuesOk(d) && ChunkOk(c, d) && FirstLive(d) == Some(f) && d.sys.reqs[f].state == PREFILL
    ensures OnlyFirstLive(d, f)
  {
    var live := LiveSet(d.sys.reqs);
    assert f in Only(d.running, live);
    forall r | r in d.running && r != f ensures Spent(d.sys.reqs[r]) {
      HeadIsLast(d.running, live, r);
    }
  }

  lemma {:induction false} HeadIsLast(s: seq<nat>, keep: set<nat>, r: nat)
    requires Distinct(s) && s != [] && Only(s, keep) != [] && Only(s, keep)[0] == s[|s| - 1] && r in s && r != s[|s| - 1]
    ensures r !in keep
  {
    if s[0] !in keep && r != s[0] { HeadIsLast(s[1..], keep, r); }
  }

  /** The prefill that is left never grows. */
  ghost predicate NoMoreToCompute(reqs: map<nat, Req>, reqs': map<nat, Req>) {
    reqs'.Keys == reqs.Keys && forall r :: r in reqs ==> ToCompute(reqs'[r]) <= ToCompute(reqs[r])
  }

  lemma TakingComputesLess(c: Config, d: Sched, d': Sched, order: seq<nat>, k: nat)
    requires Good(c, d) && QueuesOk(d) && OrderOk(d, order) && TookFirst(d, d', order, k) && SameRequests(d.sys, d'.sys)
    ensures NoMoreToCompute(d.sys.reqs, d'.sys.reqs)
  {
    hide Good;
    forall r | r in d.sys.reqs ensures ToCompute(d'.sys.reqs[r]) <= ToCompute(d.sys.reqs[r]) {
      if r in order[..k] {
        assert r in d.waiting;
        GoodReq(c, d, r);
        WaitingHasNoTable(c, d, r);
      }
    }
  }

  lemma WaitingHasNoTable(c: Config, d: Sched, r: nat)
    requires Good(c, d) && QueuesOk(d) && r in d.waiting
    ensures r in d.sys.reqs && d.sys.reqs[r].table.None?
  {
    GoodReq(c, d, r);
  }

  lemma SparedComputesLess(c: Config, d: Sched, d': Sched)
    requires Good(c, d) && Good(c, d') && SameRequests(d.sys, d'.sys)
    requires forall r :: r in d.sys.reqs && !ReachedMax(d.sys.reqs[r]) ==> d'.sys.reqs[r] == d.sys.reqs[r]
    ensures NoMoreToCompute(d.sys.reqs, d'.sys.reqs)
  {
    hide Good;
  }

  /** If no row of the step's batch ends a sequence, no unspent request was preempted for it. */
  lemma QuietChunked(c: Config, p: Policy, d: Sched)
    requires PolicyOk(p) && Good(c, d) && QueuesOk(d) && c.chunk > 0 && ChunkOk(c, d)
    ensures var r := Schedule(c, p, d);
      r.Plan? && (r.batch.Some? ==> forall w :: w in r.batch.value.rows ==> !Completes(r.d.sys.reqs, w)) ==>
        NoMoreToCompute(d.sys.reqs, r.d.sys.reqs)
  {
    hide Good, PolicyOk, MakeRoomChunked, AdmitRest, QueuesOk, FirstLive, TookFirst, NoMoreToCompute, ToCompute, Completes;
    var m := MakeRoomChunked(c, p, d, []);
    if m.Room? && (forall w :: w in AdmitRest(c, p, m.d).rows ==> !Completes(AdmitRest(c, p, m.d).d.sys.reqs, w)) {
      QuietRoom(c, p, d);
      MakeRoomChunkedGood(c, p, d, []);
      SparedComputesLess(c, d, m.d);
      AdmitRestTakes(c, p, m.d);
      AdmitRestGood(c, p, m.d);
      OrderWaits(p, m.d);
      var k :| TookFirst(m.d, AdmitRest(c, p, m.d).d, p.order(m.d.waiting, m.d.sys), k);
      TakingComputesLess(c, m.d, AdmitRest(c, p, m.d).d, p.order(m.d.waiting, m.d.sys), k);
      ComputeTrans(d.sys.reqs, m.d.sys.reqs, AdmitRest(c, p, m.d).d.sys.reqs);
    }
  }

  lemma ComputeTrans(a: map<nat, Req>, b: map<nat, Req>, z: map<nat, Req>)
    requires NoMoreToCompute(a, b) && NoMoreToCompute(b, z)
    ensures NoMoreToCompute(a, z)
  {
  }

  lemma QuietRoom(c: Config, p: Policy, d: Sched)
    requires PolicyOk(p) && Good(c, d) && QueuesOk(d) && c.chunk > 0 && ChunkOk(c, d)
    requires MakeRoomChunked(c, p, d, []).Room?
    requires var m := MakeRoomChunked(c, p, d, []);
      forall w :: w in AdmitRest(c, p, m.d).rows ==> !Completes(AdmitRest(c, p, m.d).d.sys.reqs, w)
    ensures var m := MakeRoomChunked(c, p, d, []);
      forall r :: r in d.sys.reqs && !ReachedMax(d.sys.reqs[r]) ==> r in m.d.sys.reqs && m.d.sys.reqs[r] == d.sys.reqs[r]
  {
    hide Good, PolicyOk, MakeRoomChunked, AdmitRest, QueuesOk, FirstLive, Completes;
    var m := MakeRoomChunked(c, p, d, []);
    if FirstLive(d).None? {
      NoNeedNoVictim(c, p, d, []);
    } else {
      var f := FirstLive(d).value;
      RoomKeepsFirst(c, p, d, []);
      MakeRoomChunkedGood(c, p, d, []);
      FirstNotDecoding(c, p, m.d, f);
      FirstIn(d, f);
      FirstIn(m.d, f);
      GoodReq(c, m.d, f);
      FirstUnchanged(c, p, d, [], f);
      PartialFirstIsOnly(c, d, f);
      SparesUnspent(c, p, d, f, []);
    }
  }

  lemma FirstIn(d: Sched, f: nat)
    requires FirstLive(d) == Some(f) && QueuesOk(d)
    ensures f in d.running && f in d.sys.reqs && !Spent(d.sys.reqs[f])
  {
    assert f in Only(d.running, LiveSet(d.sys.reqs));
  }

  lemma FirstUnchanged(c: Config, p: Policy, d: Sched, preempted: seq<nat>, f: nat)
    requires PolicyOk(p) && Good(c, d) && QueuesOk(d) && FirstLive(d) == Some(f)
    ensures var m := MakeRoomChunked(c, p, d, preempted);
      m.Room? ==> f in d.sys.reqs && f in m.d.sys.reqs && m.d.sys.reqs[f] == d.sys.reqs[f]
    decreases |d.running|
  {
    hide Good, Avail, Sum, Victim, Preempt1, PolicyOk, FirstLive;
    NeedsDefined(c, d);
    FirstIn(d, f);
    if Sum(StepNeeds(c, d.sys), d.running) > Avail(d.sys.kv) && |d.running| > 1 {
      var v := Victim(p, d, d.running);
      if v.Some? {
        PreemptGood(c, d, v.value);
        FirstStays(c, p, d, d.running);
        LessRunning(d, v.value);
        FirstUnchanged(c, p, Preempt1(d, v.value), preempted + [v.value], f);
      }
    }
  }

  /** A first request that decodes has a row, and a decode row ends its sequence. */
  lemma FirstNotDecoding(c: Config, p: Policy, d: Sched, f: nat)
    requires PolicyOk(p) && Good(c, d) && QueuesOk(d) && FirstLive(d) == Some(f)
    requires Sum(StepNeeds(c, d.sys), d.running) <= Avail(d.sys.kv)
    requires forall w :: w in AdmitRest(c, p, d).rows ==> !Completes(AdmitRest(c, p, d).d.sys.reqs, w)
    ensures f in d.sys.reqs && !Decodes(d.sys.reqs[f])
  {
    hide Good, PolicyOk, AdmitRest, QueuesOk, FirstLive, Avail, Sum, SameRequests;
    FirstIn(d, f);
    AdmitRestGood(c, p, d);
    NeedsDefined(c, d);
    if Decodes(d.sys.reqs[f]) {
      var rids := Only(d.running, DecodingSet(d.sys.reqs));
      assert f in rids;
      var i :| 0 <= i < |rids| && rids[i] == f;
      var w := Work(f, SeqLen(d.sys.reqs[f]) - 1, 1);
      assert DecodeRows(d.sys.reqs, rids)[i] == w;
      assert RunningRows(c, d)[i] == w;
      var r := AdmitRest(c, p, d);
      assert r.rows[i] == w && w in r.rows;
      SameLen(d.sys, r.d.sys, f);
    }
  }

  lemma SameLen(s: Sys, s': Sys, r: nat)
    requires SameRequests(s, s') && r in s.reqs
    ensures r in s'.reqs && SeqLen(s'.reqs[r]) == SeqLen(s.reqs[r])
  {
  }

  /** Without chunks a step that forms no batch preempts and admits nobody. */
  lemma QuietWhole(c: Config, p: Policy, d: Sched)
    requires PolicyOk(p) && Good(c, d) && QueuesOk(d) && c.chunk == 0 && NoPartial(d)
    ensures var r := Schedule(c, p, d);
      r.Plan? && r.batch.None? ==> r.d == d && DecodingOf(d) == []
  {
    hide Good, PolicyOk, MakeRoom, MakeRoomChunked, AdmitLoop, QueuesOk, FirstLive, NoPartial;
    var order := p.order(d.waiting, d.sys);
    OrderWaits(p, d);
    WholeRoomIsChunked(c, p, d, []);
    var d1 := AdmitLoop(c, d, order, |d.running|, c.maxPrefill, 0);
    if d1.running[|d.running|..] == [] {
      NoneAdmitted(c, d, order, |d.running|, c.maxPrefill, 0);
      var m := MakeRoomChunked(c, p, d, []);
      if m.Room? && DecodingOf(m.d) == [] {
        if FirstLive(d).Some? {
          RoomKeepsFirst(c, p, d, []);
          MakeRoomChunkedGood(c, p, d, []);
          NoneDecodes(c, m.d);
        }
        NoNeedNoVictim(c, p, d, []);
      }
    }
  }

  lemma NoneDecodes(c: Config, d: Sched)
    requires Good(c, d) && QueuesOk(d) && NoPartial(d) && DecodingOf(d) == []
    ensures FirstLive(d) == None
  {
    hide Good;
    var live := Only(d.running, LiveSet(d.sys.reqs));
    if live != [] {
      assert live[0] in live;
      OnlyMember(d.running, DecodingSet(d.sys.reqs), live[0]);
    }
  }

  lemma OnlyMember(s: seq<nat>, keep: set<nat>, r: nat)
    requires r in s && r in keep
    ensures Only(s, keep) != []
  {
    assert r in Only(s, keep);
  }

  // ------------------------------------------------------------ an idle pool always admits

  /** Nothing is in flight and nothing runs: the first waiting request fits, whatever is cached. */
  lemma IdleFits(c: Config, d: Sched, r: nat)
    requires Good(c, d) && QueuesOk(d) && d.running == [] && r in d.waiting && d.sys.reqs[r].pending == 0
    ensures Fits(c, d, r, 0, c.maxPrefill, 0) && FitsChunked(c, d, r)
  {
    hide Good, Avail, Pinned, PinnedBy, LongestOf, Inv, KvOk, CeilDiv, QueuesOk;
    TakeGood(c, d, r);
    var d' := Take(d, r);
    GoodInv(c, d');
    HeldAreRunning(c, d');
    KvOfInv(d'.sys);
    AvailIsUnpinned(d'.sys.kv);
    assert d'.running == [r];
    PinnedHas(d'.sys.kv, r);
    FreshPinsItsTable(c, d, r);
    GoodReq(c, d', r);
    TakenNeed(c, d, r);
    assert d.running[..0] == [];
  }

  lemma TakenNeed(c: Config, d: Sched, r: nat)
    requires Good(c, d) && QueuesOk(d) && r in d.waiting && d.sys.reqs[r].pending == 0
    ensures var q := Take(d, r).sys.reqs[r];
      q.table.Some? && PrefillNeed(d.sys.bs, q) + |q.table.value.blocks| <= d.sys.kv.numBlocks
  {
    hide Reachable, LongestOf, LiveOk, CeilDiv;
    TakeGood(c, d, r);
    GoodReq(c, d, r);
    var q := d.sys.reqs[r];
    PendingBounds(d.sys.next, q);
    CeilMono(SeqLen(q) + 1, |q.prompt| + q.maxNew + c.tps - 1, d.sys.bs);
  }

  lemma OnPath(kv: Kv, p: Prefix)
    requires CachedOk(kv) && Whole(kv.cached, p)
    ensures forall q :: q in kv.cached && q <= p ==> kv.cached[q] in PathBlocks(kv.cached, p)
  {
    forall q | q in kv.cached && q <= p ensures kv.cached[q] in PathBlocks(kv.cached, p) {
      assert PathBlocks(kv.cached, p)[|q| - 1] == kv.cached[p[..|q| - 1 + 1]] && p[..|q| - 1 + 1] == q;
    }
  }

  /** A prefix just taken is all tree blocks: the request pins no duplicates. */
  lemma FreshPinsItsTable(c: Config, d: Sched, r: nat)
    requires Good(c, d) && QueuesOk(d) && r in d.waiting
    ensures var d' := Take(d, r);
      && r in d'.sys.kv.held && d'.sys.reqs[r].table.Some?
      && |PinnedBy(d'.sys.kv, r)| <= |d'.sys.reqs[r].table.value.blocks|
  {
    hide Reachable, LongestOf, QueuesOk;
    GoodInv(c, d);
    KvOfInv(d.sys);
    var (kv, kv') := (d.sys.kv, Take(d, r).sys.kv);
    var p := LongestOf(kv.cached, LookupKey(d.sys.reqs[r], d.sys.bs));
    var blocks := PathBlocks(kv.cached, p);
    assert kv'.held[r] == Hold(blocks, p) && kv'.cached == kv.cached;
    assert CachedOk(kv);
    PathBlocksDistinct(kv, p);
    SeqSize(blocks);
    OnPath(kv, p);
    assert PinnedBy(kv', r) <= SetOf(blocks);
    CardLe(PinnedBy(kv', r), SetOf(blocks));
  }

  // ------------------------------------------------------------ something always runs

  lemma {:induction false} ContinueSome(reqs: map<nat, Req>, rids: seq<nat>, budget: int, r: nat)
    requires (forall x :: x in rids ==> x in reqs) && r in rids && MidPrefill(reqs[r]) && budget > 0
    ensures ContinueRows(reqs, rids, budget) != []
  {
    if rids[0] != r { ContinueSome(reqs, rids[1..], budget, r); }
  }

  /** If any unspent request runs, the batch of a chunked step is not empty. */
  lemma LiveRuns(c: Config, d: Sched, f: nat)
    requires Good(c, d) && QueuesOk(d) && c.chunk > 0 && f in d.running && f in d.sys.reqs && !Spent(d.sys.reqs[f])
    ensures RunningRows(c, d) != []
  {
    hide Good;
    GoodReq(c, d, f);
    var rids := Only(d.running, DecodingSet(d.sys.reqs));
    if rids == [] {
      assert f in DecodingSet(d.sys.reqs) ==> f in rids;
      ContinueSome(d.sys.reqs, d.running, c.chunk, f);
    }
  }

  lemma AllLive(c: Config, d: Sched, r: nat)
    requires Good(c, d) && QueuesOk(d) && r in d.sys.reqs && d.sys.reqs[r].pending == 0
    ensures !ReachedMax(d.sys.reqs[r])
  {
    GoodReq(c, d, r);
  }

  lemma FirstOfRunning(d: Sched)
    requires QueuesOk(d) && d.running != [] && forall r :: r in d.running ==> !Spent(d.sys.reqs[r])
    ensures FirstLive(d) == Some(d.running[0])
  {
    OnlyAll(d.running, LiveSet(d.sys.reqs));
  }

  lemma ChunkedRuns(c: Config, p: Policy, d: Sched)
    requires PolicyOk(p) && Good(c, d) && QueuesOk(d) && c.chunk > 0
    requires (forall r :: r in d.sys.reqs ==> d.sys.reqs[r].pending == 0) && (d.running != [] || d.waiting != [])
    ensures var r := Schedule(c, p, d); r.Plan? ==> r.batch.Some?
  {
    hide Good, PolicyOk, MakeRoomChunked, AdmitChunked, QueuesOk, FirstLive, RunningRows, Fits, FitsChunked, Take;
    NeedsDefined(c, d);
    forall r | r in d.running ensures !Spent(d.sys.reqs[r]) { AllLive(c, d, r); }
    var m := MakeRoomChunked(c, p, d, []);
    if m.Room? {
      MakeRoomChunkedGood(c, p, d, []);
      AdmitRestKeepsRows(c, p, m.d);
      if d.running != [] {
        FirstOfRunning(d);
        RoomKeepsFirst(c, p, d, []);
        FirstIn(m.d, d.running[0]);
        LiveRuns(c, m.d, d.running[0]);
      } else {
        NoneRunning(d);
        NoNeedNoVictim(c, p, d, []);
        IdleAdmits(c, p, d);
      }
    }
  }

  lemma NoneRunning(d: Sched)
    requires d.running == []
    ensures FirstLive(d) == None
  {
  }

  lemma AdmitRestKeepsRows(c: Config, p: Policy, d: Sched)
    requires PolicyOk(p) && Good(c, d) && QueuesOk(d)
    ensures |AdmitRest(c, p, d).rows| >= |RunningRows(c, d)|
  {
    hide Good, PolicyOk, AdmitChunked, RunningRows, QueuesOk;
    OrderWaits(p, d);
    var rows := RunningRows(c, d);
    if c.chunk > Tokens1(rows) {
      var k := AdmitChunkedTakes(c, d, p.order(d.waiting, d.sys), rows, c.chunk - Tokens1(rows));
    }
  }

  lemma IdleAdmits(c: Config, p: Policy, d: Sched)
    requires PolicyOk(p) && Good(c, d) && QueuesOk(d) && d.running == [] && d.waiting != []
    requires forall r :: r in d.sys.reqs ==> d.sys.reqs[r].pending == 0
    ensures c.chunk > 0 ==> AdmitRest(c, p, d).rows != []
    ensures OrderOk(d, p.order(d.waiting, d.sys))
    ensures AdmitLoop(c, d, p.order(d.waiting, d.sys), 0, c.maxPrefill, 0).running != []
  {
    hide Good, QueuesOk, Fits, FitsChunked, AdmitLoop, AdmitChunked, PolicyOk;
    var order := p.order(d.waiting, d.sys);
    OrderWaits(p, d);
    FirstInOrder(p, d);
    WaitingKnown(d, order[0]);
    IdleAdmitsWhole(c, d, order);
    NothingYet(c, d);
    if c.chunk > 0 { IdleAdmitsChunk(c, d, order); }
  }

  lemma FirstInOrder(p: Policy, d: Sched)
    requires PolicyOk(p) && QueuesOk(d) && d.waiting != []
    ensures p.order(d.waiting, d.sys) != [] && p.order(d.waiting, d.sys)[0] in d.waiting
  {
    assert d.waiting[0] in p.order(d.waiting, d.sys);
  }

  lemma WaitingKnown(d: Sched, r: nat)
    requires QueuesOk(d) && r in d.waiting
    ensures r in d.sys.reqs
  {
  }

  lemma IdleAdmitsWhole(c: Config, d: Sched, order: seq<nat>)
    requires Good(c, d) && QueuesOk(d) && d.running == [] && OrderOk(d, order) && order != []
    requires order[0] in d.sys.reqs && d.sys.reqs[order[0]].pending == 0
    ensures AdmitLoop(c, d, order, 0, c.maxPrefill, 0).running != []
  {
    hide Good, QueuesOk, Fits, Take;
    GoodInv(c, d);
    IdleFits(c, d, order[0]);
    OrderTail(d, order);
    TakeGood(c, d, order[0]);
    assert Take(d, order[0]).running == [order[0]];
  }

  lemma IdleAdmitsChunk(c: Config, d: Sched, order: seq<nat>)
    requires Good(c, d) && QueuesOk(d) && d.running == [] && OrderOk(d, order) && order != [] && c.chunk > 0
    requires order[0] in d.sys.reqs && d.sys.reqs[order[0]].pending == 0
    ensures AdmitChunked(c, d, order, [], c.chunk).rows != []
  {
    hide Good, QueuesOk, FitsChunked, Take, AdmitChunked;
    var r := order[0];
    IdleFits(c, d, r);
    OrderTail(d, order);
    TakeGood(c, d, r);
    GoodInv(c, d);
    FirstJoins(c, d, order);
    var q := Take(d, r).sys.reqs[r];
    var k := AdmitChunkedTakes(c, Take(d, r), order[1..], [Work(r, q.numCached, Piece(q, c.chunk))], c.chunk - Piece(q, c.chunk));
  }

  lemma FirstJoins(c: Config, d: Sched, order: seq<nat>)
    requires QueuesOk(d) && d.running == [] && OrderOk(d, order) && order != [] && c.chunk > 0 && c.maxRunning >= 1
    requires order[0] in d.sys.reqs && d.sys.reqs[order[0]].pending == 0
    requires order[0] in d.waiting && FitsChunked(c, d, order[0]) && OrderOk(Take(d, order[0]), order[1..])
    ensures var q := Take(d, order[0]).sys.reqs[order[0]];
      AdmitChunked(c, d, order, [], c.chunk) ==
      AdmitChunked(c, Take(d, order[0]), order[1..], [Work(order[0], q.numCached, Piece(q, c.chunk))], c.chunk - Piece(q, c.chunk))
  {
    hide QueuesOk, FitsChunked, Take;
    var q := Take(d, order[0]).sys.reqs[order[0]];
    var w := Work(order[0], q.numCached, Piece(q, c.chunk));
    assert [] + [w] == [w];
  }

  lemma NothingYet(c: Config, d: Sched)
    requires QueuesOk(d) && d.running == []
    ensures RunningRows(c, d) == []
  {
  }

  lemma WholeRuns(c: Config, p: Policy, d: Sched)
    requires PolicyOk(p) && Good(c, d) && QueuesOk(d) && c.chunk == 0 && NoPartial(d)
    requires (forall r :: r in d.sys.reqs ==> d.sys.reqs[r].pending == 0) && (d.running != [] || d.waiting != [])
    ensures var r := Schedule(c, p, d); r.Plan? ==> r.batch.Some?
  {
    hide Good, PolicyOk, MakeRoom, AdmitLoop, QueuesOk, FirstLive;
    NeedsDefined(c, d);
    QuietWhole(c, p, d);
    if d.running != [] {
      AllLive(c, d, d.running[0]);
      OnlyMember(d.running, DecodingSet(d.sys.reqs), d.running[0]);
    } else {
      IdleAdmits(c, p, d);
    }
  }

  /** With work left and nothing in flight, a step that does not fail runs something. */
  lemma SomethingRuns(c: Config, name: PolicyName, d: Sched)
    requires PolicyOk(PolicyOf(name)) && Good(c, d) && QueuesOk(d) && Shaped(c, name, d)
    requires (forall r :: r in d.sys.reqs ==> d.sys.reqs[r].pending == 0) && (d.running != [] || d.waiting != [])
    ensures var r := Schedule(c, PolicyOf(name), d); r.Plan? ==> r.batch.Some?
  {
    hide Good, PolicyOk, PolicyOf, QueuesOk, Schedule, NoPartial, ChunkOk;
    if c.chunk > 0 { ChunkedRuns(c, PolicyOf(name), d); } else { WholeRuns(c, PolicyOf(name), d); }
  }

  // ------------------------------------------------------------ launch and read-back

  /** What reading back leaves: some requests, with as many tokens and as much computed. */
  ghost predicate Thinned(reqs: map<nat, Req>, reqs': map<nat, Req>) {
    forall r :: r in reqs' ==>
      && r in reqs && |reqs'[r].output| == |reqs[r].output| && reqs'[r].maxNew == reqs[r].maxNew
      && reqs'[r].prompt == reqs[r].prompt && reqs'[r].table == reqs[r].table && reqs'[r].state == reqs[r].state
  }

  lemma {:induction false} ReadThins(d: Sched, prev: Flight, i: nat)
    ensures Thinned(d.sys.reqs, ReadFrom(d, prev, i).sys.reqs)
    decreases |prev.rids| - i
  {
    if i < |prev.rids| && i < |prev.slots| {
      var r := prev.rids[i];
      if prev.slots[i].Some? && r in d.sys.reqs && HasToken(d.sys.reqs[r]) {
        ReadThins(ReadBackAt(d, r), prev, i + 1);
      } else {
        ReadThins(d, prev, i + 1);
      }
    }
  }

  lemma ThinnedLess(reqs: map<nat, Req>, reqs': map<nat, Req>, n: nat)
    requires Thinned(reqs, reqs')
    ensures Total(Samples(reqs'), n) <= Total(Samples(reqs), n) && Total(Prefills(reqs'), n) <= Total(Prefills(reqs), n)
  {
    forall r: nat ensures At(Samples(reqs'), r) <= At(Samples(reqs), r) && At(Prefills(reqs'), r) <= At(Prefills(reqs), r) {
    }
    TotalLe(Samples(reqs), Samples(reqs'), n);
    TotalLe(Prefills(reqs), Prefills(reqs'), n);
  }

  lemma LaunchedLess(bs: nat, q: Req, q': Req, w: Work)
    requires Launched(bs, q, q', w) && !ReachedMax(q) && w.n > 0 && q.table.value.numTokens + w.n <= SeqLen(q)
    ensures ToSample(q') == ToSample(q) - One(q.table.value.numTokens + w.n == SeqLen(q))
    ensures q.table.value.numTokens + w.n < SeqLen(q) ==> ToCompute(q') < ToCompute(q)
  {
  }

  ghost predicate RunnableRows(reqs: map<nat, Req>, rows: seq<Work>) {
    forall w :: w in rows ==>
      && w.rid in reqs && reqs[w.rid].table.Some? && !ReachedMax(reqs[w.rid]) && w.n > 0
      && w.start == reqs[w.rid].table.value.numTokens && w.start + w.n <= SeqLen(reqs[w.rid])
  }

  /** A launch that ends some sequence samples; one that ends none computes. */
  lemma LaunchLess(bs: nat, reqs: map<nat, Req>, reqs': map<nat, Req>, rows: seq<Work>, n: nat)
    requires AllLaunched(bs, reqs, reqs', rows) && RunnableRows(reqs, rows) && rows != [] && forall r :: r in reqs ==> r < n
    ensures Total(Samples(reqs'), n) <= Total(Samples(reqs), n)
    ensures if exists w :: w in rows && Completes(reqs, w) then Total(Samples(reqs'), n) < Total(Samples(reqs), n)
            else Total(Prefills(reqs'), n) < Total(Prefills(reqs), n)
  {
    hide Launched, ToSample, ToCompute;
    forall r: nat
      ensures At(Samples(reqs'), r) <= At(Samples(reqs), r)
      ensures (forall w :: w in rows ==> !Completes(reqs, w)) ==> At(Prefills(reqs'), r) <= At(Prefills(reqs), r)
    {
      if r in Rids(rows) {
        var w := RowOf(rows, r);
        LaunchedLess(bs, reqs[r], reqs'[r], w);
      }
    }
    TotalLe(Samples(reqs), Samples(reqs'), n);
    if w :| w in rows && Completes(reqs, w) {
      LaunchedLess(bs, reqs[w.rid], reqs'[w.rid], w);
      TotalLess(Samples(reqs), Samples(reqs'), n, w.rid);
    } else {
      assert forall x :: x in rows ==> !Completes(reqs, x);
      var w := rows[0];
      assert w in rows;
      LaunchedLess(bs, reqs[w.rid], reqs'[w.rid], w);
      TotalLess(Prefills(reqs), Prefills(reqs'), n, w.rid);
    }
  }

  // ------------------------------------------------------------ one step

  lemma SameSamples(s: Sys, s': Sys, n: nat)
    requires SameRequests(s, s')
    ensures Total(Samples(s'.reqs), n) == Total(Samples(s.reqs), n)
  {
    forall r: nat ensures At(Samples(s'.reqs), r) == At(Samples(s.reqs), r) {
    }
    TotalLe(Samples(s.reqs), Samples(s'.reqs), n);
    TotalLe(Samples(s'.reqs), Samples(s.reqs), n);
  }

  lemma LessToCompute(reqs: map<nat, Req>, reqs': map<nat, Req>, n: nat)
    requires NoMoreToCompute(reqs, reqs')
    ensures Total(Prefills(reqs'), n) <= Total(Prefills(reqs), n)
  {
    hide ToCompute;
    TotalLe(Prefills(reqs), Prefills(reqs'), n);
  }

  ghost function TokensLeft(d: Sched, n: nat): nat {
    Total(Samples(d.sys.reqs), n)
  }

  ghost function PrefillLeft(d: Sched, n: nat): nat {
    Total(Prefills(d.sys.reqs), n)
  }

  /** Fewer tokens to sample, or as many and less to compute. */
  ghost predicate Less(d: Sched, d': Sched, n: nat) {
    TokensLeft(d', n) < TokensLeft(d, n) || (TokensLeft(d', n) <= TokensLeft(d, n) && PrefillLeft(d', n) < PrefillLeft(d, n))
  }

  ghost predicate NoMore(d: Sched, d': Sched, n: nat) {
    TokensLeft(d', n) <= TokensLeft(d, n) && PrefillLeft(d', n) <= PrefillLeft(d, n)
  }

  lemma BatchRunnable(c: Config, d: Sched, b: Batch)
    requires Good(c, d) && BatchOk(c, d, b)
    ensures RunnableRows(d.sys.reqs, b.rows)
  {
    hide Good, Avail, RowsNeed;
    BatchRows(c, d, b.rows, b.numDecode);
    forall w | w in b.rows ensures w.n > 0 && d.sys.reqs[w.rid].table.Some? {
      assert RowFits(d.sys, w);
    }
  }

  /** A schedule whose batch ends no sequence leaves no more to compute than before. */
  lemma QuietSchedule(c: Config, name: PolicyName, d: Sched)
    requires PolicyOk(PolicyOf(name)) && Good(c, d) && QueuesOk(d) && Shaped(c, name, d)
    ensures var r := Schedule(c, PolicyOf(name), d);
      r.Plan? && (r.batch.Some? ==> forall w :: w in r.batch.value.rows ==> !Completes(r.d.sys.reqs, w)) ==>
        NoMoreToCompute(d.sys.reqs, r.d.sys.reqs)
  {
    hide Good, PolicyOk, PolicyOf, QueuesOk, NoPartial, ChunkOk, RowsOk, RowFits, RowsNeed;
    ScheduleGood(c, PolicyOf(name), d);
    if c.chunk > 0 {
      QuietChunked(c, PolicyOf(name), d);
    } else {
      QuietWhole(c, PolicyOf(name), d);
      var r := Schedule(c, PolicyOf(name), d);
      if r.Plan? && r.batch.Some? { assert r.batch.value.rows[0] in r.batch.value.rows; }
    }
  }

  /** One step, batch and all: it samples, or it computes; without a batch it does at least no harm. */
  lemma StepLess(c: Config, name: PolicyName, d: Sched, d2: Sched, n: nat)
    requires PolicyOk(PolicyOf(name)) && Good(c, d) && QueuesOk(d) && Shaped(c, name, d) && forall r :: r in d.sys.reqs ==> r < n
    requires Schedule(c, PolicyOf(name), d).Plan?
    requires var r := Schedule(c, PolicyOf(name), d);
      if r.batch.Some? then AllLaunched(d.sys.bs, r.d.sys.reqs, d2.sys.reqs, r.batch.value.rows) else d2 == r.d
    ensures if Schedule(c, PolicyOf(name), d).batch.Some? then Less(d, d2, n) else NoMore(d, d2, n)
  {
    hide Good, PolicyOk, PolicyOf, QueuesOk, Schedule, Shaped, AllLaunched, BatchOk, SameRequests, RunnableRows, NoMoreToCompute, Completes;
    var r := Schedule(c, PolicyOf(name), d);
    ScheduleGood(c, PolicyOf(name), d);
    QuietSchedule(c, name, d);
    SameSamples(d.sys, r.d.sys, n);
    if r.batch.Some? {
      var rows := r.batch.value.rows;
      BatchRunnable(c, r.d, r.batch.value);
      BatchNonEmpty(c, r.d, r.batch.value);
      KeysOf(d.sys, r.d.sys);
      LaunchLess(d.sys.bs, r.d.sys.reqs, d2.sys.reqs, rows, n);
      if forall w :: w in rows ==> !Completes(r.d.sys.reqs, w) { LessToCompute(d.sys.reqs, r.d.sys.reqs, n); }
    } else {
      LessToCompute(d.sys.reqs, r.d.sys.reqs, n);
    }
  }

  lemma BatchNonEmpty(c: Config, d: Sched, b: Batch)
    requires BatchOk(c, d, b)
    ensures b.rows != []
  {
  }

  lemma KeysOf(s: Sys, s': Sys)
    requires SameRequests(s, s')
    ensures s'.reqs.Keys == s.reqs.Keys && s'.bs == s.bs
  {
  }
}

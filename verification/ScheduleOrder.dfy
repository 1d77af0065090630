/** Order and step size. Under any policy the earliest unspent running request keeps running; under
    first come, first served no unspent request ever overtakes another; with chunked prefill no step
    computes more than its budget of tokens. */
module ScheduleOrder {
  import opened Common
  import opened BlockTables
  import opened TreeShape
  import opened KvState
  import opened KvCache
  import opened TokenChunks
  import opened Device
  import opened Requests
  import opened Machine
  import opened MachineInv
  import opened MachineSteps
  import opened MachineTheorems
  import opened Scheduling
  import opened ScheduleSafe
  import opened ScheduleRoom

  // ------------------------------------------------------------ admission takes a prefix

  /** The first `k` of `order` moved behind the running requests; nobody else changed, and nobody was
      skipped. */
  ghost predicate TookFirst(d: Sched, d': Sched, order: seq<nat>, k: nat) {
    && k <= |order| && d'.running == d.running + order[..k]
    && d'.sys.reqs.Keys == d.sys.reqs.Keys
    && (forall r :: r in d.sys.reqs && r !in order[..k] ==> d'.sys.reqs[r] == d.sys.reqs[r])
    && (forall r :: r in order[..k] ==> r in d.sys.reqs && d.sys.reqs[r].pending == 0 && FreshPrefill(d'.sys.reqs[r]))
    && (order == d.waiting ==> d'.waiting == d.waiting[k..])
  }

  lemma TookNone(d: Sched, order: seq<nat>)
    ensures TookFirst(d, d, order, 0)
  {
  }

  lemma TookMore(c: Config, d: Sched, d': Sched, order: seq<nat>, k: nat)
    requires Good(c, d) && OrderOk(d, order) && order != [] && d.sys.reqs[order[0]].pending == 0
    requires QueuesOk(d) && TookFirst(Take(d, order[0]), d', order[1..], k)
    ensures TookFirst(d, d', order, k + 1)
  {
    hide Good, LongestOf, Inv, ReqOk, FreshPrefill, TookFirst;
    TakeGood(c, d, order[0]);
    FreshTake(c, d, order[0]);
    TookOneMore(d, Take(d, order[0]), d', order, k);
  }

  lemma TookOneMore(d: Sched, d1: Sched, d': Sched, order: seq<nat>, k: nat)
    requires order != [] && Distinct(order) && TookFirst(d1, d', order[1..], k)
    requires order[0] in d.sys.reqs && order[0] in d1.sys.reqs && d.sys.reqs[order[0]].pending == 0
    requires d1.sys.reqs == d.sys.reqs[order[0] := d1.sys.reqs[order[0]]] && FreshPrefill(d1.sys.reqs[order[0]])
    requires d1.running == d.running + [order[0]] && d1.waiting == Remove(d.waiting, order[0])
    ensures TookFirst(d, d', order, k + 1)
  {
    hide FreshPrefill;
    var (r, first) := (order[0], order[1..][..k]);
    assert order[..k + 1] == [r] + first;
    assert forall i :: 0 < i < |order| ==> order[i] != r;
    assert r !in first;
    if order == d.waiting { assert d.waiting[1..][k..] == d.waiting[k + 1..]; }
  }

  lemma FreshTake(c: Config, d: Sched, r: nat)
    requires Good(c, d) && r in d.waiting && QueuesOk(d) && d.sys.reqs[r].pending == 0
    ensures r in Take(d, r).sys.reqs && FreshPrefill(Take(d, r).sys.reqs[r])
  {
    TakeGood(c, d, r);
  }

  lemma AdmitLoopTakes(c: Config, d: Sched, order: seq<nat>, base: nat, budget: int, reserved: int) returns (k: nat)
    requires Good(c, d) && QueuesOk(d) && OrderOk(d, order) && base <= |d.running|
    ensures TookFirst(d, AdmitLoop(c, d, order, base, budget, reserved), order, k)
    decreases |order|
  {
    hide Good, TookFirst, Fits, Take, QueuesOk;
    TookNone(d, order);
    k := 0;
    if order != [] && |d.running| < c.maxRunning && d.sys.reqs[order[0]].pending == 0 {
      OrderTail(d, order);
      NeedsDefined(c, d);
      if Fits(c, d, order[0], base, budget, reserved) {
        var d1 := Take(d, order[0]);
        TakeGood(c, d, order[0]);
        var q := d1.sys.reqs[order[0]];
        var n := AdmitLoopTakes(c, d1, order[1..], base, budget - Uncached(q), reserved + PrefillNeed(d.sys.bs, q));
        TookMore(c, d, AdmitLoop(c, d, order, base, budget, reserved), order, n);
        k := n + 1;
      }
    }
  }

  lemma AdmitChunkedTakes(c: Config, d: Sched, order: seq<nat>, rows: seq<Work>, budget: int) returns (k: nat)
    requires Good(c, d) && QueuesOk(d) && OrderOk(d, order)
    ensures TookFirst(d, AdmitChunked(c, d, order, rows, budget).d, order, k)
    ensures |AdmitChunked(c, d, order, rows, budget).rows| == |rows| + k
    decreases |order|
  {
    hide Good, TookFirst, FitsChunked, Take, QueuesOk;
    TookNone(d, order);
    k := 0;
    if order != [] && budget > 0 && |d.running| < c.maxRunning && d.sys.reqs[order[0]].pending == 0 {
      OrderTail(d, order);
      if FitsChunked(c, d, order[0]) {
        var d1 := Take(d, order[0]);
        TakeGood(c, d, order[0]);
        var q := d1.sys.reqs[order[0]];
        var n := Piece(q, budget);
        var m := AdmitChunkedTakes(c, d1, order[1..], rows + [Work(order[0], q.numCached, n)], budget - n);
        TookMore(c, d, AdmitChunked(c, d, order, rows, budget).d, order, m);
        k := m + 1;
      }
    }
  }

  // ------------------------------------------------------------ the earliest request keeps running

  lemma RoomKeepsFirst(c: Config, p: Policy, d: Sched, preempted: seq<nat>)
    requires PolicyOk(p) && Good(c, d) && QueuesOk(d) && FirstLive(d).Some?
    ensures var m := MakeRoomChunked(c, p, d, preempted);
      m.Room? ==>
        && FirstLive(m.d) == FirstLive(d)
        && (FirstLive(d).value in m.preempted ==> FirstLive(d).value in preempted)
    decreases |d.running|
  {
    hide Good, Avail, Sum, Victim, Preempt1, FirstLive, PinnedBy, PolicyOk;
    NeedsDefined(c, d);
    if Sum(StepNeeds(c, d.sys), d.running) > Avail(d.sys.kv) && |d.running| > 1 {
      var v := Victim(p, d, d.running);
      if v.Some? {
        PreemptGood(c, d, v.value);
        VictimNotFirst(p, d, d.running);
        FirstStays(c, p, d, d.running);
        LessRunning(d, v.value);
        RoomKeepsFirst(c, p, Preempt1(d, v.value), preempted + [v.value]);
      }
    }
  }

  lemma TakingKeepsFirst(d: Sched, d': Sched, order: seq<nat>, k: nat)
    requires TookFirst(d, d', order, k) && QueuesOk(d) && FirstLive(d).Some? && OrderOk(d, order)
    ensures FirstLive(d') == FirstLive(d)
  {
    hide FreshPrefill;
    OnlyConcat(d.running, order[..k], LiveSet(d'.sys.reqs));
    forall r | r in d.running ensures r in LiveSet(d.sys.reqs) <==> r in LiveSet(d'.sys.reqs) {
      assert r !in order[..k];
    }
    OnlySame(d.running, LiveSet(d.sys.reqs), LiveSet(d'.sys.reqs));
  }

  /** The batch is formed without preempting the earliest unspent running request, whatever the
      policy: it runs on. */
  lemma FirstKeepsRunning(c: Config, p: Policy, d: Sched)
    requires PolicyOk(p) && Good(c, d) && QueuesOk(d) && (c.chunk == 0 ==> NoPartial(d)) && FirstLive(d).Some?
    ensures var r := Schedule(c, p, d);
      r.Plan? ==>
        && FirstLive(r.d) == FirstLive(d)
        && (r.batch.Some? ==> FirstLive(d).value !in r.batch.value.preempted)
  {
    hide Good, PolicyOk, MakeRoom, MakeRoomChunked, AdmitLoop, AdmitChunked, FirstLive, TookFirst, RunningRows, QueuesOk;
    GoodInv(c, d);
    RoomKeepsFirst(c, p, d, []);
    OrderWaits(p, d);
    if c.chunk > 0 {
      var m := MakeRoomChunked(c, p, d, []);
      if m.Room? {
        MakeRoomChunkedGood(c, p, d, []);
        AdmitRestTakes(c, p, m.d);
      }
    } else {
      WholeRoomIsChunked(c, p, d, []);
      var order := p.order(d.waiting, d.sys);
      var k := AdmitLoopTakes(c, d, order, |d.running|, c.maxPrefill, 0);
      var d1 := AdmitLoop(c, d, order, |d.running|, c.maxPrefill, 0);
      TakingKeepsFirst(d, d1, order, k);
      if d1.running[|d.running|..] == [] { NoneAdmitted(c, d, order, |d.running|, c.maxPrefill, 0); }
    }
  }

  lemma AdmitRestTakes(c: Config, p: Policy, d: Sched)
    requires PolicyOk(p) && Good(c, d) && QueuesOk(d)
    ensures exists k :: TookFirst(d, AdmitRest(c, p, d).d, p.order(d.waiting, d.sys), k)
    ensures FirstLive(d).Some? ==> FirstLive(AdmitRest(c, p, d).d) == FirstLive(d)
  {
    hide Good, PolicyOk, AdmitChunked, FirstLive, TookFirst, RunningRows, QueuesOk;
    OrderWaits(p, d);
    var order := p.order(d.waiting, d.sys);
    var rows := RunningRows(c, d);
    var d' := AdmitRest(c, p, d).d;
    if c.chunk <= Tokens1(rows) {
      TookNone(d, order);
      assert TookFirst(d, d', order, 0);
    } else {
      var k := AdmitChunkedTakes(c, d, order, rows, c.chunk - Tokens1(rows));
      assert TookFirst(d, d', order, k);
      if FirstLive(d).Some? { TakingKeepsFirst(d, AdmitRest(c, p, d).d, order, k); }
    }
  }

  // ------------------------------------------------------------ first come, first served

  /** Queue order, and the most recently admitted is preempted. */
  ghost predicate IsFcfs(p: Policy) {
    && (forall w: seq<nat>, s :: p.order(w, s) == w)
    && (forall pool: seq<nat>, reqs :: pool != [] ==> p.pick(pool, reqs) == pool[|pool| - 1])
  }

  ghost function UnspentSet(reqs: map<nat, Req>): set<nat> {
    set r | r in reqs && !ReachedMax(reqs[r])
  }

  /** The unspent requests, running before waiting. */
  ghost function Line(d: Sched): seq<nat> {
    Only(d.running + d.waiting, UnspentSet(d.sys.reqs))
  }

  lemma SameUnspent(s: Sys, s': Sys)
    requires SameRequests(s, s')
    ensures UnspentSet(s'.reqs) == UnspentSet(s.reqs)
  {
  }

  lemma NotFirstIsTail(s: seq<nat>)
    requires Distinct(s) && s != []
    ensures NotFirst(s, s) == s[1..]
  {
    var keep := set r | r in s && (s == [] || r != s[0]);
    assert forall i :: 0 < i < |s| ==> s[i] != s[0];
    OnlyAll(s[1..], keep);
    assert Only(s, keep) == Only(s[1..], keep);
  }

  /** Moving a member that the filter drops, or the last one, to the front of the queue behind. */
  lemma LineMove(running: seq<nat>, waiting: seq<nat>, v: nat, u: set<nat>)
    requires Distinct(running) && running != [] && (v !in u || v == running[|running| - 1])
    ensures Only(Remove(running, v) + ([v] + waiting), u) == Only(running + waiting, u)
  {
    if v !in u { DroppedMove(running, waiting, v, u); } else { LastMove(running, waiting); }
  }

  lemma LastMove(running: seq<nat>, waiting: seq<nat>)
    requires Distinct(running) && running != []
    ensures Remove(running, running[|running| - 1]) + ([running[|running| - 1]] + waiting) == running + waiting
  {
    hide Distinct, Remove;
    RemoveLast(running);
    MoveAcross(running, waiting, |running| - 1);
  }

  lemma MoveAcross(s: seq<nat>, t: seq<nat>, n: nat)
    requires n == |s| - 1
    ensures s[..n] + ([s[n]] + t) == s + t
  {
  }

  lemma DroppedMove(running: seq<nat>, waiting: seq<nat>, v: nat, u: set<nat>)
    requires v !in u
    ensures Only(Remove(running, v) + ([v] + waiting), u) == Only(running + waiting, u)
  {
    OnlyConcat(Remove(running, v), [v] + waiting, u);
    OnlyConcat([v], waiting, u);
    OnlyConcat(running, waiting, u);
    OnlyRemove(running, v, u);
    assert Only([v], u) == [];
    hide Only, Remove;
    assert Only([v] + waiting, u) == Only(waiting, u);
  }

  /** Preempting the newest puts it in front of the queue: nobody passes anybody. */
  lemma PreemptKeepsLine(c: Config, p: Policy, d: Sched)
    requires PolicyOk(p) && IsFcfs(p) && Good(c, d) && QueuesOk(d) && Victim(p, d, d.running).Some?
    ensures Line(Preempt1(d, Victim(p, d, d.running).value)) == Line(d)
  {
    hide PolicyOk, Good, SameRequests, Victim, IsFcfs;
    var v := Victim(p, d, d.running).value;
    FcfsVictim(p, d);
    PreemptGood(c, d, v);
    SameUnspent(d.sys, Preempt1(d, v).sys);
    LineMove(d.running, d.waiting, v, UnspentSet(d.sys.reqs));
  }

  lemma FcfsVictim(p: Policy, d: Sched)
    requires PolicyOk(p) && IsFcfs(p) && QueuesOk(d) && Victim(p, d, d.running).Some?
    ensures var v := Victim(p, d, d.running).value;
      v in d.running && (v !in UnspentSet(d.sys.reqs) || v == d.running[|d.running| - 1])
  {
    NotFirstIsTail(d.running);
  }

  lemma RoomKeepsLine(c: Config, p: Policy, d: Sched, preempted: seq<nat>)
    requires PolicyOk(p) && IsFcfs(p) && Good(c, d) && QueuesOk(d)
    ensures var m := MakeRoomChunked(c, p, d, preempted); m.Room? ==> Line(m.d) == Line(d)
    decreases |d.running|
  {
    hide Good, Avail, Sum, Victim, Preempt1, PolicyOk, IsFcfs, Line;
    NeedsDefined(c, d);
    if Sum(StepNeeds(c, d.sys), d.running) > Avail(d.sys.kv) && |d.running| > 1 {
      var v := Victim(p, d, d.running);
      if v.Some? {
        PreemptGood(c, d, v.value);
        PreemptKeepsLine(c, p, d);
        LessRunning(d, v.value);
        RoomKeepsLine(c, p, Preempt1(d, v.value), preempted + [v.value]);
      }
    }
  }

  lemma TakingKeepsLine(d: Sched, d': Sched, k: nat)
    requires TookFirst(d, d', d.waiting, k) && SameRequests(d.sys, d'.sys)
    ensures Line(d') == Line(d)
  {
    SameUnspent(d.sys, d'.sys);
    assert d.waiting == d.waiting[..k] + d.waiting[k..];
    assert d'.running + d'.waiting == d.running + d.waiting;
  }

  /** FCFS never overtakes: a schedule, with all its admissions and preemptions, leaves the unspent
      requests in the same line. */
  lemma FcfsNeverOvertakes(c: Config, p: Policy, d: Sched)
    requires PolicyOk(p) && IsFcfs(p) && Good(c, d) && QueuesOk(d) && (c.chunk == 0 ==> NoPartial(d))
    ensures var r := Schedule(c, p, d); r.Plan? ==> Line(r.d) == Line(d)
  {
    hide Good, PolicyOk, MakeRoom, MakeRoomChunked, AdmitLoop, AdmitChunked, Line, TookFirst, RunningRows, QueuesOk;
    RoomKeepsLine(c, p, d, []);
    OrderWaits(p, d);
    if c.chunk > 0 {
      var m := MakeRoomChunked(c, p, d, []);
      if m.Room? {
        MakeRoomChunkedGood(c, p, d, []);
        AdmitRestTakes(c, p, m.d);
        AdmitRestGood(c, p, m.d);
        var k :| TookFirst(m.d, AdmitRest(c, p, m.d).d, p.order(m.d.waiting, m.d.sys), k);
        TakingKeepsLine(m.d, AdmitRest(c, p, m.d).d, k);
      }
    } else {
      WholeRoomIsChunked(c, p, d, []);
      var order := p.order(d.waiting, d.sys);
      var k := AdmitLoopTakes(c, d, order, |d.running|, c.maxPrefill, 0);
      FirstPromise(c, d);
      AdmitLoopGood(c, d, order, |d.running|, c.maxPrefill, 0);
      var d1 := AdmitLoop(c, d, order, |d.running|, c.maxPrefill, 0);
      TakingKeepsLine(d, d1, k);
      if d1.running[|d.running|..] == [] { NoneAdmitted(c, d, order, |d.running|, c.maxPrefill, 0); }
    }
  }

  // ------------------------------------------------------------ the step's token budget

  ghost function LiveRunning(d: Sched): set<nat> {
    set r | r in d.running && r in d.sys.reqs && !Spent(d.sys.reqs[r])
  }

  /** Between steps: no more unspent requests run than a step has tokens, and only the last admitted
      can be part-way through its prefill. */
  ghost predicate ChunkOk(c: Config, d: Sched) {
    && |LiveRunning(d)| <= c.chunk
    && forall r :: r in d.running && r in d.sys.reqs && d.sys.reqs[r].state == PREFILL ==> r == d.running[|d.running| - 1]
  }

  /** The batch computes the end of `r`'s prefill. */
  ghost predicate RowEnds(reqs: map<nat, Req>, rows: seq<Work>, r: nat) {
    exists w :: w in rows && w.rid == r && Completes(reqs, w)
  }

  /** The same while a batch is formed: it stays within the budget, and every prefill but the last
      admitted one is computed to its end. */
  ghost predicate StepOk(c: Config, d: Sched, rows: seq<Work>) {
    && Tokens1(rows) <= c.chunk && |LiveRunning(d)| <= c.chunk
    && forall r :: r in d.running && r in d.sys.reqs && d.sys.reqs[r].state == PREFILL ==>
         r == d.running[|d.running| - 1] || RowEnds(d.sys.reqs, rows, r)
  }

  lemma {:induction false} RemoveKeepsLast(s: seq<nat>, x: nat)
    requires Distinct(s) && s != [] && x != s[|s| - 1]
    ensures Remove(s, x) != [] && Remove(s, x)[|Remove(s, x)| - 1] == s[|s| - 1]
  {
    if s[0] != x && |s| > 1 {
      RemoveKeepsLast(s[1..], x);
    }
  }

  lemma PreemptKeepsChunkOk(c: Config, d: Sched, v: nat)
    requires Good(c, d) && QueuesOk(d) && ChunkOk(c, d) && v in d.running
    ensures ChunkOk(c, Preempt1(d, v))
  {
    hide Good, SameRequests;
    var d' := Preempt1(d, v);
    PreemptGood(c, d, v);
    RemoveDistinct(d.running, v);
    hide QueuesOk;
    CardLe(LiveRunning(d'), LiveRunning(d));
    if v != d.running[|d.running| - 1] { RemoveKeepsLast(d.running, v); }
  }

  lemma RoomKeepsChunkOk(c: Config, p: Policy, d: Sched, preempted: seq<nat>)
    requires PolicyOk(p) && Good(c, d) && QueuesOk(d) && ChunkOk(c, d)
    ensures var m := MakeRoomChunked(c, p, d, preempted); m.Room? ==> ChunkOk(c, m.d)
    decreases |d.running|
  {
    hide Good, Avail, Sum, Victim, Preempt1, PolicyOk, ChunkOk;
    NeedsDefined(c, d);
    if Sum(StepNeeds(c, d.sys), d.running) > Avail(d.sys.kv) && |d.running| > 1 {
      var v := Victim(p, d, d.running);
      if v.Some? {
        PreemptGood(c, d, v.value);
        PreemptKeepsChunkOk(c, d, v.value);
        LessRunning(d, v.value);
        RoomKeepsChunkOk(c, p, Preempt1(d, v.value), preempted + [v.value]);
      }
    }
  }

  /** Every running unspent request has a row, and all prefills end in this step, as long as budget is
      left over. */
  ghost predicate AllServed(d: Sched, rows: seq<Work>) {
    && (forall r :: r in LiveRunning(d) ==> r in Rids(rows))
    && (forall r :: r in d.running && r in d.sys.reqs && d.sys.reqs[r].state == PREFILL ==> RowEnds(d.sys.reqs, rows, r))
  }

  lemma RidOf(rows: seq<Work>, w: Work)
    requires w in rows
    ensures w.rid in Rids(rows)
  {
    var i :| 0 <= i < |rows| && rows[i] == w;
    assert Rids(rows)[i] == w.rid;
  }

  lemma {:induction false} RowsCount(rows: seq<Work>)
    requires forall w :: w in rows ==> w.n > 0
    ensures |rows| <= Tokens1(rows)
  {
    if rows != [] { RowsCount(rows[1..]); }
  }

  /** As many unspent requests run as the batch has rows for them, at most one per token. */
  lemma ServedCount(c: Config, d: Sched, rows: seq<Work>, k: nat)
    requires RowsOk(d, rows, k) && Tokens1(rows) <= c.chunk && forall r :: r in LiveRunning(d) ==> r in Rids(rows)
    ensures |LiveRunning(d)| <= c.chunk
  {
    hide RowFits;
    forall w | w in rows ensures w.n > 0 { assert RowFits(d.sys, w); }
    RowsCount(rows);
    SeqSize(Rids(rows));
    CardLe(LiveRunning(d), SetOf(Rids(rows)));
  }

  /** The rows of the running requests, before any admission. */
  lemma RunningRowsServe(c: Config, d: Sched)
    requires Good(c, d) && QueuesOk(d) && ChunkOk(c, d)
    ensures StepOk(c, d, RunningRows(c, d))
    ensures Tokens1(RunningRows(c, d)) < c.chunk ==> AllServed(d, RunningRows(c, d))
  {
    hide Good, Continued, LiveRunning, AllServed, QueuesOk, Completes;
    var rids := DecodingOf(d);
    NeedsDefined(c, d);
    var conts := ContinueRows(d.sys.reqs, d.running, c.chunk - |rids|);
    DistinctRunning(d);
    ContinueRowsOk(c, d, d.running, c.chunk - |rids|);
    ContinuedTokens(d, conts, c.chunk - |rids|);
    Tokens1Append(DecodeRows(d.sys.reqs, rids), conts);
    DecodeTokens(d.sys.reqs, rids);
    DecodingAreLive(d);
    if Tokens1(RunningRows(c, d)) < c.chunk { ContsServe(c, d, rids, conts); }
  }

  lemma ContinuedTokens(d: Sched, conts: seq<Work>, budget: int)
    requires Continued(d, d.running, conts, budget)
    ensures 0 <= Tokens1(conts) && (Tokens1(conts) <= budget || Tokens1(conts) == 0)
  {
  }

  lemma DecodingAreLive(d: Sched)
    requires QueuesOk(d)
    ensures |DecodingOf(d)| <= |LiveRunning(d)|
  {
    OnlyDistinct(d.running, DecodingSet(d.sys.reqs));
    SeqSize(DecodingOf(d));
    CardLe(SetOf(DecodingOf(d)), LiveRunning(d));
  }

  lemma {:induction false} DecodeTokens(reqs: map<nat, Req>, rids: seq<nat>)
    requires forall r :: r in rids ==> r in reqs
    ensures Tokens1(DecodeRows(reqs, rids)) == |rids|
  {
    if rids != [] {
      DecodeTokens(reqs, rids[1..]);
      assert DecodeRows(reqs, rids)[1..] == DecodeRows(reqs, rids[1..]);
    }
  }

  lemma ContsServe(c: Config, d: Sched, rids: seq<nat>, conts: seq<Work>)
    requires Good(c, d) && QueuesOk(d) && rids == DecodingOf(d) && Continued(d, d.running, conts, c.chunk - |rids|)
    requires Tokens1(conts) < c.chunk - |rids|
    ensures AllServed(d, DecodeRows(d.sys.reqs, rids) + conts)
  {
    hide Good, RowsOk;
    var rows := DecodeRows(d.sys.reqs, rids) + conts;
    forall r | r in d.running && d.sys.reqs[r].state == PREFILL ensures RowEnds(d.sys.reqs, rows, r) {
      assert r in Rids(conts);
      var i :| 0 <= i < |conts| && conts[i].rid == r;
      assert conts[i] in rows;
    }
    forall r | r in LiveRunning(d) ensures r in Rids(rows) {
      GoodReq(c, d, r);
      if d.sys.reqs[r].state == PREFILL {
        var w :| w in rows && w.rid == r && Completes(d.sys.reqs, w);
        RidOf(rows, w);
      } else {
        assert r in rids;
        var i :| 0 <= i < |rids| && rids[i] == r;
        RidOf(rows, rows[i]);
      }
    }
  }

  lemma TakeServes(c: Config, d: Sched, r: nat, rows: seq<Work>, k: nat, budget: int)
    requires Good(c, d) && QueuesOk(d) && r in d.waiting && d.sys.reqs[r].pending == 0 && RowsOk(d, rows, k)
    requires AllServed(d, rows) && budget == c.chunk - Tokens1(rows) > 0
    ensures Take(d, r).sys.reqs[r].table.Some?
    ensures var q := Take(d, r).sys.reqs[r];
      var rows' := rows + [Work(r, q.numCached, Piece(q, budget))];
      && RowsOk(Take(d, r), rows', k) && StepOk(c, Take(d, r), rows') && Tokens1(rows') == Tokens1(rows) + Piece(q, budget)
      && (Tokens1(rows') < c.chunk ==> AllServed(Take(d, r), rows'))
  {
    hide Good, QueuesOk, RowsOk, LongestOf, Take, RowEnds, LiveRunning;
    GoodInv(c, d);
    TakeGood(c, d, r);
    var d' := Take(d, r);
    var q := d'.sys.reqs[r];
    var w := Work(r, q.numCached, Piece(q, budget));
    var rows' := rows + [w];
    TakeRow(c, d, r, rows, k, w.n);
    Tokens1Append(rows, [w]);
    WaitsNot(d, r);
    TakeKeepsServed(c, d, d', r, rows, w);
    ServedCount(c, d', rows', k);
    if w.n < budget { NewRowEnds(d'.sys.reqs, rows, w); }
  }

  lemma NewRowEnds(reqs: map<nat, Req>, rows: seq<Work>, w: Work)
    requires Completes(reqs, w)
    ensures RowEnds(reqs, rows + [w], w.rid)
  {
    assert w in rows + [w];
  }

  /** With a row for the newcomer, whoever has tokens left has a row, and older prefills end. */
  lemma TakeKeepsServed(c: Config, d: Sched, d': Sched, r: nat, rows: seq<Work>, w: Work)
    requires AllServed(d, rows) && d'.running == d.running + [r] && r !in d.running && w.rid == r && d'.sys.bs == d.sys.bs
    requires r in d'.sys.reqs && d'.sys.reqs == d.sys.reqs[r := d'.sys.reqs[r]]
    ensures forall x :: x in d.running && x in d'.sys.reqs && d'.sys.reqs[x].state == PREFILL ==> RowEnds(d'.sys.reqs, rows + [w], x)
    ensures forall x :: x in LiveRunning(d') ==> x in Rids(rows + [w])
  {
    var rows' := rows + [w];
    forall x | x in d.running && x in d'.sys.reqs && d'.sys.reqs[x].state == PREFILL ensures RowEnds(d'.sys.reqs, rows', x) {
      var y :| y in rows && y.rid == x && Completes(d.sys.reqs, y);
      assert y in rows' && Completes(d'.sys.reqs, y);
    }
    assert Rids(rows') == Rids(rows) + [r];
  }

  lemma AdmitChunkedServes(c: Config, d: Sched, order: seq<nat>, rows: seq<Work>, k: nat)
    requires Good(c, d) && QueuesOk(d) && OrderOk(d, order) && RowsOk(d, rows, k) && StepOk(c, d, rows)
    requires Tokens1(rows) < c.chunk ==> AllServed(d, rows)
    ensures var r := AdmitChunked(c, d, order, rows, c.chunk - Tokens1(rows));
      StepOk(c, r.d, r.rows)
    decreases |order|
  {
    hide Good, FitsChunked, Take, QueuesOk, RowsOk, StepOk, AllServed;
    NeedsDefined(c, d);
    var budget := c.chunk - Tokens1(rows);
    if order != [] && budget > 0 && |d.running| < c.maxRunning && d.sys.reqs[order[0]].pending == 0 {
      OrderTail(d, order);
      if FitsChunked(c, d, order[0]) {
        TakeGood(c, d, order[0]);
        TakeServes(c, d, order[0], rows, k, budget);
        var q := Take(d, order[0]).sys.reqs[order[0]];
        AdmitChunkedServes(c, Take(d, order[0]), order[1..], rows + [Work(order[0], q.numCached, Piece(q, budget))], k);
      }
    }
  }

  /** With a token budget `C` every batch computes at most `C` tokens, decode rows included; and the
      step leaves at most one request part-way through its prefill, the last admitted. */
  lemma StepBudget(c: Config, p: Policy, d: Sched)
    requires PolicyOk(p) && Good(c, d) && QueuesOk(d) && c.chunk > 0 && ChunkOk(c, d)
    ensures var r := Schedule(c, p, d);
      r.Plan? ==>
        && (r.batch.Some? ==> StepOk(c, r.d, r.batch.value.rows))
        && (r.batch.None? ==> StepOk(c, r.d, []))
  {
    hide Good, PolicyOk, MakeRoomChunked, AdmitChunked, ChunkOk, StepOk, AllServed, QueuesOk, RunningRows, RowsOk;
    RoomKeepsChunkOk(c, p, d, []);
    MakeRoomChunkedGood(c, p, d, []);
    var m := MakeRoomChunked(c, p, d, []);
    if m.Room? {
      RunningRowsServe(c, m.d);
      RunningRowsOk(c, m.d);
      OrderWaits(p, m.d);
      AdmitChunkedServes(c, m.d, p.order(m.d.waiting, m.d.sys), RunningRows(c, m.d), |DecodingOf(m.d)|);
    }
  }
}

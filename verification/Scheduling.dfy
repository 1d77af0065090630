/** Which requests run in the next step, as functions on the state of the queues and the pool. The
    `Scheduler` class computes them; what is promised of a schedule is proved of these. */
module Scheduling {
  import opened Common
  import opened BlockTables
  import opened TreeShape
  import opened TokenChunks
  import opened KvState
  import opened KvCache
  import opened Device
  import opened Requests
  import opened Machine
  import opened MachineInv
  import opened MachineSteps
  import opened MachineTheorems

  /** `chunk` 0 keeps prefills whole; `tps` is the tokens a decode step may append. */
  datatype Config = Config(maxRunning: nat, maxPrefill: nat, chunk: nat, tps: nat)

  predicate ConfigOk(c: Config) {
    c.maxRunning >= 1 && c.maxPrefill >= 1 && c.tps >= 1
  }

  /** The queues: `waiting` front first, `running` in admission order. */
  datatype Sched = Sched(sys: Sys, waiting: seq<nat>, running: seq<nat>)

  /** In which order admission tries the waiting requests, and which of some running ones to
      preempt. */
  datatype Policy = Policy(order: (seq<nat>, Sys) -> seq<nat>, pick: (seq<nat>, map<nat, Req>) -> nat)

  ghost predicate PolicyOk(p: Policy) {
    && (forall w: seq<nat>, s :: Distinct(w) ==> Distinct(p.order(w, s)) && forall r :: r in p.order(w, s) <==> r in w)
    && (forall pool: seq<nat>, reqs :: pool != [] ==> p.pick(pool, reqs) in pool)
  }

  datatype Phase = PrefillOnly | DecodeOnly | Mixed

  /** A row of the batch: `n` new tokens from position `start` on. */
  datatype Work = Work(rid: nat, start: int, n: int)

  datatype Batch = Batch(phase: Phase, rows: seq<Work>, preempted: seq<nat>, numDecode: nat)

  ghost predicate QueuesOk(d: Sched) {
    && d.sys.bs > 0
    && Distinct(d.waiting) && Distinct(d.running)
    && (forall r :: r in d.sys.reqs <==> r in d.waiting || r in d.running)
    && (forall r :: r in d.waiting ==> r !in d.running)
    && (forall r :: r in d.sys.reqs ==> |d.sys.reqs[r].prompt| > 0)
  }

  // ------------------------------------------------------------ needs

  /** Blocks the next decode step of a request would allocate. */
  function DecodeNeed(tps: nat, bs: nat, q: Req): int
    requires bs > 0
  {
    if Decodes(q) && q.table.Some? then BlocksNeeded(q.table.value, tps, bs) else 0
  }

  /** Blocks for the rest of a prefill and one more token. */
  function PrefillNeed(bs: nat, q: Req): int
    requires bs > 0
  {
    if q.state == PREFILL && q.table.Some? then CeilDiv(SeqLen(q) + 1, bs) - |q.table.value.blocks| else 0
  }

  /** What a running request may still allocate before any of them finishes. */
  function StepNeed(tps: nat, bs: nat, q: Req): int
    requires bs > 0
  {
    if Decodes(q) then DecodeNeed(tps, bs, q) else PrefillNeed(bs, q)
  }

  ghost function DecodeNeeds(c: Config, s: Sys): map<nat, int>
    requires s.bs > 0
  {
    map r | r in s.reqs :: DecodeNeed(c.tps, s.bs, s.reqs[r])
  }

  ghost function StepNeeds(c: Config, s: Sys): map<nat, int>
    requires s.bs > 0
  {
    map r | r in s.reqs :: StepNeed(c.tps, s.bs, s.reqs[r])
  }

  function DecodingSet(reqs: map<nat, Req>): set<nat> {
    set r | r in reqs && Decodes(reqs[r])
  }

  function SpentSet(reqs: map<nat, Req>): set<nat> {
    set r | r in reqs && Spent(reqs[r])
  }

  // ------------------------------------------------------------ preemption

  ghost function Preempt1(d: Sched, v: nat): (d': Sched)
    requires QueuesOk(d) && v in d.running
    ensures QueuesOk(d')
  {
    RemoveDistinct(d.running, v);
    Sched(Preempted(d.sys, v), [v] + d.waiting, Remove(d.running, v))
  }

  function NotFirst(running: seq<nat>, pool: seq<nat>): seq<nat> {
    Only(pool, set r | r in pool && (running == [] || r != running[0]))
  }

  /** A spent request if there is one, the newest first; otherwise the policy's choice among `pool`
      without the earliest admitted. */
  ghost function Victim(p: Policy, d: Sched, pool: seq<nat>): (v: Option<nat>)
    requires PolicyOk(p) && QueuesOk(d) && forall r :: r in pool ==> r in d.running
    ensures v.Some? ==> v.value in d.running
    ensures v.Some? && !Spent(d.sys.reqs[v.value]) ==> v.value in pool && v.value != d.running[0]
  {
    var spent := Only(d.running, SpentSet(d.sys.reqs));
    var candidates := NotFirst(d.running, pool);
    if spent != [] then
      assert spent[|spent| - 1] in spent;
      Some(spent[|spent| - 1])
    else if candidates == [] then None
    else
      assert p.pick(candidates, d.sys.reqs) in candidates;
      Some(p.pick(candidates, d.sys.reqs))
  }

  datatype Room = Room(d: Sched, decoding: seq<nat>, preempted: seq<nat>) | NoRoom

  ghost predicate IsDecoding(d: Sched, decoding: seq<nat>) {
    Distinct(decoding) && forall r :: r in decoding ==> r in d.running && r in d.sys.reqs && Decodes(d.sys.reqs[r])
  }

  /** `_make_room`: preempt until one more decode step of `decoding` fits in the pool. */
  ghost function MakeRoom(c: Config, p: Policy, d: Sched, decoding: seq<nat>, preempted: seq<nat>): (r: Room)
    requires PolicyOk(p) && QueuesOk(d) && IsDecoding(d, decoding)
    ensures r.Room? ==> QueuesOk(r.d) && IsDecoding(r.d, r.decoding)
    decreases |d.running|
  {
    if Sum(DecodeNeeds(c, d.sys), decoding) <= Avail(d.sys.kv) then Room(d, decoding, preempted)
    else match Victim(p, d, decoding)
      case None => NoRoom
      case Some(v) =>
        RemoveDistinct(decoding, v);
        var rest := if Spent(d.sys.reqs[v]) then decoding else Remove(decoding, v);
        MakeRoom(c, p, Preempt1(d, v), rest, preempted + [v])
  }

  /** `_make_room_chunked`: preempt until what the running requests still need fits. */
  ghost function MakeRoomChunked(c: Config, p: Policy, d: Sched, preempted: seq<nat>): (r: Room)
    requires PolicyOk(p) && QueuesOk(d)
    ensures r.Room? ==> QueuesOk(r.d)
    decreases |d.running|
  {
    if Sum(StepNeeds(c, d.sys), d.running) <= Avail(d.sys.kv) then Room(d, [], preempted)
    else if |d.running| <= 1 then NoRoom
    else match Victim(p, d, d.running)
      case None => NoRoom
      case Some(v) => MakeRoomChunked(c, p, Preempt1(d, v), preempted + [v])
  }

  // ------------------------------------------------------------ admission

  /** `rid` moves from waiting to running with its cached prefix. */
  ghost function Take(d: Sched, rid: nat): (d': Sched)
    requires QueuesOk(d) && rid in d.waiting
    ensures QueuesOk(d') && rid in d'.sys.reqs && d'.running == d.running + [rid]
    ensures var q := d'.sys.reqs[rid];
      q.table.Some? && q.numCached == q.table.value.numTokens < SeqLen(q)
  {
    RemoveDistinct(d.waiting, rid);
    Sched(Admitted(d.sys, rid), Remove(d.waiting, rid), d.running + [rid])
  }

  /** Prefill tokens of an admitted request that its cache did not have. */
  function Uncached(q: Req): int {
    SeqLen(q) - q.numCached
  }

  /** Whether `rid` may join: after its lookup the rest of its prefill and a token must fit beside
      the next decode step and what this call promised already. The first one may exceed the token
      budget. `base` requests ran before this call. */
  ghost predicate Fits(c: Config, d: Sched, rid: nat, base: nat, budget: int, reserved: int)
    requires QueuesOk(d) && rid in d.waiting && base <= |d.running|
  {
    var d' := Take(d, rid);
    var q := d'.sys.reqs[rid];
    && (|d.running| == base || Uncached(q) <= budget)
    && PrefillNeed(d.sys.bs, q) <= Avail(d'.sys.kv) - Sum(DecodeNeeds(c, d.sys), d.running[..base]) - reserved
  }

  /** What is still to be tried waits. */
  ghost predicate OrderOk(d: Sched, order: seq<nat>) {
    Distinct(order) && forall r :: r in order ==> r in d.waiting && r in d.sys.reqs
  }

  lemma OrderTail(d: Sched, order: seq<nat>)
    requires QueuesOk(d) && OrderOk(d, order) && order != []
    ensures order[0] in d.waiting && OrderOk(Take(d, order[0]), order[1..])
  {
    assert forall i :: 0 < i < |order| ==> order[i] != order[0];
  }

  /** `_admit`: requests in the policy's order until one does not fit. */
  ghost function AdmitLoop(c: Config, d: Sched, order: seq<nat>, base: nat, budget: int, reserved: int): (d': Sched)
    requires QueuesOk(d) && base <= |d.running|
    requires OrderOk(d, order)
    ensures QueuesOk(d') && d.running <= d'.running
    decreases |order|
  {
    if order == [] || |d.running| >= c.maxRunning || d.sys.reqs[order[0]].pending > 0 then d
    else if !Fits(c, d, order[0], base, budget, reserved) then d
    else
      var d1 := Take(d, order[0]);
      var q := d1.sys.reqs[order[0]];
      OrderTail(d, order);
      AdmitLoop(c, d1, order[1..], base, budget - Uncached(q), reserved + PrefillNeed(d.sys.bs, q))
  }

  function DecodeRows(reqs: map<nat, Req>, rids: seq<nat>): (rows: seq<Work>)
    requires forall r :: r in rids ==> r in reqs
    ensures |rows| == |rids| && forall i :: 0 <= i < |rows| ==> rows[i] == Work(rids[i], SeqLen(reqs[rids[i]]) - 1, 1)
  {
    seq(|rids|, i requires 0 <= i < |rids| => Work(rids[i], SeqLen(reqs[rids[i]]) - 1, 1))
  }

  function PrefillRows(reqs: map<nat, Req>, rids: seq<nat>): (rows: seq<Work>)
    requires forall r :: r in rids ==> r in reqs
    ensures |rows| == |rids|
    ensures forall i :: 0 <= i < |rows| ==>
      var q := reqs[rids[i]]; rows[i] == Work(rids[i], q.numCached, SeqLen(q) - q.numCached)
  {
    seq(|rids|, i requires 0 <= i < |rids| =>
      Work(rids[i], reqs[rids[i]].numCached, SeqLen(reqs[rids[i]]) - reqs[rids[i]].numCached))
  }

  /** Tokens of the rest of `q`'s prefill that fit in the step. */
  function Piece(q: Req, budget: int): int
    requires q.table.Some?
  {
    var left := SeqLen(q) - q.table.value.numTokens;
    if left <= budget then left else budget
  }

  predicate MidPrefill(q: Req) {
    q.state == PREFILL && q.table.Some?
  }

  /** Prefills that are part-way go on, in admission order, while the budget lasts. */
  function ContinueRows(reqs: map<nat, Req>, rids: seq<nat>, budget: int): (rows: seq<Work>)
    requires forall r :: r in rids ==> r in reqs
  {
    if rids == [] then []
    else if MidPrefill(reqs[rids[0]]) && budget > 0 then
      var q := reqs[rids[0]];
      var n := Piece(q, budget);
      [Work(rids[0], q.table.value.numTokens, n)] + ContinueRows(reqs, rids[1..], budget - n)
    else ContinueRows(reqs, rids[1..], budget)
  }

  function Tokens1(rows: seq<Work>): int {
    if rows == [] then 0 else rows[0].n + Tokens1(rows[1..])
  }

  datatype Chunked = Chunked(d: Sched, rows: seq<Work>)

  ghost predicate FitsChunked(c: Config, d: Sched, rid: nat)
    requires QueuesOk(d) && rid in d.waiting
  {
    var d' := Take(d, rid);
    PrefillNeed(d.sys.bs, d'.sys.reqs[rid]) <= Avail(d'.sys.kv) - Sum(StepNeeds(c, d.sys), d.running)
  }

  /** Newly admitted requests take what is left of the step's token budget. */
  ghost function AdmitChunked(c: Config, d: Sched, order: seq<nat>, rows: seq<Work>, budget: int): (r: Chunked)
    requires QueuesOk(d)
    requires OrderOk(d, order)
    ensures QueuesOk(r.d) && d.running <= r.d.running
    decreases |order|
  {
    if order == [] || budget <= 0 || |d.running| >= c.maxRunning || d.sys.reqs[order[0]].pending > 0 then Chunked(d, rows)
    else if !FitsChunked(c, d, order[0]) then Chunked(d, rows)
    else
      var d1 := Take(d, order[0]);
      var q := d1.sys.reqs[order[0]];
      var n := Piece(q, budget);
      OrderTail(d, order);
      AdmitChunked(c, d1, order[1..], rows + [Work(order[0], q.numCached, n)], budget - n)
  }

  // ------------------------------------------------------------ schedule

  /** `Lone` is the failed assertion that a lone request does not fit in the pool. */
  datatype Plan = Plan(d: Sched, batch: Option<Batch>) | Lone

  /** Prefills first, whole, as many as fit; otherwise one token for every decoding request. */
  ghost function ScheduleWhole(c: Config, p: Policy, d: Sched): Plan
    requires PolicyOk(p) && QueuesOk(d)
  {
    assert d.running[..|d.running|] == d.running;
    var d1 := AdmitLoop(c, d, p.order(d.waiting, d.sys), |d.running|, c.maxPrefill, 0);
    var admitted := d1.running[|d.running|..];
    if admitted != [] then
      Plan(d1, Some(Batch(PrefillOnly, PrefillRows(d1.sys.reqs, admitted), [], 0)))
    else
      var decoding := Only(d1.running, DecodingSet(d1.sys.reqs));
      OnlyDistinct(d1.running, DecodingSet(d1.sys.reqs));
      match MakeRoom(c, p, d1, decoding, [])
      case NoRoom => Lone
      case Room(d2, rest, preempted) =>
        Plan(d2, if rest == [] then None
                 else Some(Batch(DecodeOnly, DecodeRows(d2.sys.reqs, rest), preempted, |rest|)))
  }

  /** The rows before any admission: every decoding request, then prefills that go on. */
  ghost function RunningRows(c: Config, d: Sched): seq<Work>
    requires QueuesOk(d)
  {
    var decodes := DecodeRows(d.sys.reqs, Only(d.running, DecodingSet(d.sys.reqs)));
    decodes + ContinueRows(d.sys.reqs, d.running, c.chunk - |decodes|)
  }

  /** Admission with what those rows leave of the step's tokens. */
  ghost function AdmitRest(c: Config, p: Policy, d: Sched): (r: Chunked)
    requires PolicyOk(p) && QueuesOk(d)
    ensures QueuesOk(r.d)
  {
    var rows := RunningRows(c, d);
    var budget := c.chunk - Tokens1(rows);
    if budget > 0 then AdmitChunked(c, d, p.order(d.waiting, d.sys), rows, budget) else Chunked(d, rows)
  }

  /** Decodes first, then pieces of prefills while the step's token budget lasts. */
  ghost function ScheduleChunked(c: Config, p: Policy, d: Sched): Plan
    requires PolicyOk(p) && QueuesOk(d)
  {
    match MakeRoomChunked(c, p, d, [])
    case NoRoom => Lone
    case Room(d1, _, preempted) =>
      var k := |Only(d1.running, DecodingSet(d1.sys.reqs))|;
      var r := AdmitRest(c, p, d1);
      var phase := if k == |r.rows| then DecodeOnly else if k == 0 then PrefillOnly else Mixed;
      Plan(r.d, if r.rows == [] then None else Some(Batch(phase, r.rows, preempted, k)))
  }

  ghost function Schedule(c: Config, p: Policy, d: Sched): Plan
    requires PolicyOk(p) && QueuesOk(d)
  {
    if c.chunk > 0 then ScheduleChunked(c, p, d) else ScheduleWhole(c, p, d)
  }
}

/** What launching a batch does to the requests: room for the new tokens, one pass, and a placeholder
    for each sequence that reached its end; and which launched rows are still to be read back. */
module Launching {
  import opened Common
  import opened BlockTables
  import opened TreeShape
  import opened TokenChunks
  import opened KvState
  import opened KvCache
  import opened Device
  import opened Requests
  import opened Machine
  import opened MachineInv
  import opened MachineSteps
  import opened MachineTheorems
  import opened Scheduling
  import opened ScheduleSafe
  import opened ScheduleRoom
  import opened ScheduleOrder

  // ------------------------------------------------------------ one row

  /** The table has room for the row's new tokens; they are not computed yet. */
  ghost predicate RoomFor(bs: nat, q: Req, q': Req, w: Work) {
    && bs > 0 && q.table.Some? && q'.table.Some? && w.n >= 0
    && q' == q.(table := q'.table)
    && q'.table.value.numTokens == q.table.value.numTokens + w.n
    && |q'.table.value.blocks| == |q.table.value.blocks| + BlocksNeeded(q.table.value, w.n, bs)
  }

  /** The pass ran: all of the table is computed, and a row that ends its sequence has a token. */
  ghost predicate Computed(q: Req, q': Req) {
    && q.table.Some?
    && q' == q.(written := q.table.value.numTokens, row := q'.row)
    && (if q.table.value.numTokens == SeqLen(q) then q'.row.Sampled? else q'.row.Idle?)
  }

  /** The whole of it: `n` more tokens in the table, all computed; if they reach the end of the
      sequence, one more placeholder with its token on the device, and the request decodes. */
  ghost predicate Launched(bs: nat, q: Req, q': Req, w: Work) {
    && bs > 0 && q.table.Some? && q'.table.Some? && w.n >= 0
    && var (t, t', ends) := (q.table.value, q'.table.value, q.table.value.numTokens + w.n == SeqLen(q));
    && t'.numTokens == t.numTokens + w.n && |t'.blocks| == |t.blocks| + BlocksNeeded(t, w.n, bs)
    && |q'.unread| == |q.unread| + (if ends then 1 else 0) && q.unread <= q'.unread
    && q' == q.(table := q'.table, written := t'.numTokens, unread := q'.unread,
                output := q.output + (if ends then [PLACEHOLDER] else []),
                pending := q.pending + (if ends then 1 else 0),
                state := if ends then DECODE else q.state)
  }

  function BookedIf(q: Req): Req {
    if q.row.Sampled? then Booked(q) else q
  }

  lemma RowLaunched(bs: nat, q: Req, q1: Req, q2: Req, w: Work)
    requires q.row.Idle? && RoomFor(bs, q, q1, w) && Computed(q1, q2)
    ensures Launched(bs, q, BookedIf(q2), w)
  {
  }

  // ------------------------------------------------------------ all rows

  /** The requests of `rows` changed as `w` says, the others not at all. */
  ghost predicate AllRoom(bs: nat, reqs: map<nat, Req>, reqs': map<nat, Req>, rows: seq<Work>) {
    && reqs'.Keys == reqs.Keys
    && (forall w :: w in rows ==> w.rid in reqs && RoomFor(bs, reqs[w.rid], reqs'[w.rid], w))
    && (forall r :: r in reqs && r !in Rids(rows) ==> reqs'[r] == reqs[r])
  }

  ghost predicate AllComputed(reqs: map<nat, Req>, reqs': map<nat, Req>, rows: seq<Work>) {
    && reqs'.Keys == reqs.Keys
    && (forall w :: w in rows ==> w.rid in reqs && Computed(reqs[w.rid], reqs'[w.rid]))
    && (forall r :: r in reqs && r !in Rids(rows) ==> reqs'[r] == reqs[r])
  }

  ghost predicate AllBooked(reqs: map<nat, Req>, reqs': map<nat, Req>, rows: seq<Work>) {
    && reqs'.Keys == reqs.Keys
    && (forall w :: w in rows ==> w.rid in reqs && reqs'[w.rid] == BookedIf(reqs[w.rid]))
    && (forall r :: r in reqs && r !in Rids(rows) ==> reqs'[r] == reqs[r])
  }

  ghost predicate AllLaunched(bs: nat, reqs: map<nat, Req>, reqs': map<nat, Req>, rows: seq<Work>) {
    && reqs'.Keys == reqs.Keys
    && (forall w :: w in rows ==> w.rid in reqs && Launched(bs, reqs[w.rid], reqs'[w.rid], w))
    && (forall r :: r in reqs && r !in Rids(rows) ==> reqs'[r] == reqs[r])
  }

  lemma LaunchComposes(bs: nat, reqs: map<nat, Req>, a: map<nat, Req>, b: map<nat, Req>, z: map<nat, Req>, rows: seq<Work>)
    requires AllRoom(bs, reqs, a, rows) && AllComputed(a, b, rows) && AllBooked(b, z, rows)
    requires forall w :: w in rows && w.rid in reqs ==> reqs[w.rid].row.Idle?
    ensures AllLaunched(bs, reqs, z, rows)
  {
    hide RoomFor, Computed, Launched, BookedIf;
    forall w | w in rows ensures Launched(bs, reqs[w.rid], z[w.rid], w) {
      RowLaunched(bs, reqs[w.rid], a[w.rid], b[w.rid], w);
    }
  }

  lemma RidsSnoc(rows: seq<Work>, i: nat)
    requires i < |rows| && Distinct(Rids(rows))
    ensures Rids(rows[..i + 1]) == Rids(rows[..i]) + [rows[i].rid] && rows[i].rid !in Rids(rows[..i])
    ensures forall w :: w in rows[..i + 1] <==> w in rows[..i] || w == rows[i]
    ensures forall w :: w in rows[..i] ==> w.rid in Rids(rows[..i])
  {
    assert rows[..i + 1] == rows[..i] + [rows[i]];
    forall j | 0 <= j < i ensures Rids(rows[..i])[j] == Rids(rows)[j] {}
    forall w | w in rows[..i] ensures w.rid in Rids(rows[..i]) { RidOf(rows[..i], w); }
  }

  lemma RoomSnoc(bs: nat, reqs: map<nat, Req>, a: map<nat, Req>, q: Req, rows: seq<Work>, i: nat)
    requires i < |rows| && Distinct(Rids(rows)) && AllRoom(bs, reqs, a, rows[..i]) && rows[i].rid in reqs
    requires RoomFor(bs, reqs[rows[i].rid], q, rows[i])
    ensures AllRoom(bs, reqs, a[rows[i].rid := q], rows[..i + 1])
  {
    hide RoomFor;
    RidsSnoc(rows, i);
  }

  lemma ComputedSnoc(reqs: map<nat, Req>, a: map<nat, Req>, q: Req, rows: seq<Work>, i: nat)
    requires i < |rows| && Distinct(Rids(rows)) && AllComputed(reqs, a, rows[..i]) && rows[i].rid in reqs
    requires Computed(reqs[rows[i].rid], q)
    ensures AllComputed(reqs, a[rows[i].rid := q], rows[..i + 1])
  {
    hide Computed;
    RidsSnoc(rows, i);
  }

  lemma BookedSnoc(reqs: map<nat, Req>, a: map<nat, Req>, rows: seq<Work>, i: nat)
    requires i < |rows| && Distinct(Rids(rows)) && AllBooked(reqs, a, rows[..i]) && rows[i].rid in reqs
    ensures AllBooked(reqs, a[rows[i].rid := BookedIf(reqs[rows[i].rid])], rows[..i + 1])
  {
    hide BookedIf;
    RidsSnoc(rows, i);
  }

  // ------------------------------------------------------------ what a launch leaves cached

  /** `r` was prefilling, and has a row. */
  ghost predicate Prefilled(reqs: map<nat, Req>, reqs': map<nat, Req>, rows: seq<Work>, r: nat) {
    && r in Rids(rows) && r in reqs && r in reqs'
    && reqs[r].state == PREFILL && reqs'[r].table.Some?
  }

  /** `p` is whole blocks that a prefill row has computed, from the start of its sequence. */
  ghost predicate NowComputed(bs: nat, reqs: map<nat, Req>, reqs': map<nat, Req>, rows: seq<Work>, p: Prefix) {
    bs > 0 && p != [] && exists r :: Prefilled(reqs, reqs', rows, r) && p <= FullKey(reqs'[r], bs)
  }

  /** The rows' new blocks are free as it is. */
  ghost predicate EnoughFree(s: Sys, rows: seq<Work>) {
    (forall w :: w in rows ==> RowFits(s, w)) && RowsNeed(s, rows) <= |FreeBlocks(s.kv)|
  }

  /** With a prefix cache, all that prefill rows have computed in whole blocks is cached, and locked by
      them, and nothing else that was not; what was cached stays cached unless it was evictable and
      blocks were short. */
  ghost predicate CacheAfter(s: Sys, s': Sys, rows: seq<Work>) {
    && s.bs > 0 && s'.kv.held.Keys == s.kv.held.Keys
    && (forall r :: r in s.kv.held ==>
          && s.kv.held[r].blocks <= s'.kv.held[r].blocks
          && s'.kv.held[r].path ==
               if s.radix && Prefilled(s.reqs, s'.reqs, rows, r) then FullKey(s'.reqs[r], s.bs) else s.kv.held[r].path)
    && (forall p :: s.radix && NowComputed(s.bs, s.reqs, s'.reqs, rows, p) ==> p in s'.kv.cached)
    && (forall p :: p in s'.kv.cached ==> p in s.kv.cached || (s.radix && NowComputed(s.bs, s.reqs, s'.reqs, rows, p)))
    && (forall p :: p in s.kv.cached && (p !in Evictable(s.kv) || EnoughFree(s, rows)) ==>
          p in s'.kv.cached && s'.kv.cached[p] == s.kv.cached[p])
  }

  // ------------------------------------------------------------ rows in flight

  /** A launched batch: its requests, the tokens sampled, and which output slot each goes to (none
      for a piece of a prefill). */
  datatype Flight = Flight(rids: seq<nat>, tokens: seq<nat>, slots: seq<Option<nat>>)

  ghost predicate FlightShape(f: Flight) {
    |f.rids| == |f.tokens| == |f.slots| && Distinct(f.rids)
  }

  /** Output slot `k` of `q` holds its first placeholder, and the token behind it is `tok`. */
  predicate AtHead(q: Req, k: nat, tok: nat) {
    && 0 < q.pending <= |q.output| && |q.unread| == q.pending
    && k == ReadyLen(q) && q.unread[0] == tok
  }

  /** The same for its last placeholder. */
  predicate AtTail(q: Req, k: nat, tok: nat) {
    && 0 < q.pending <= |q.output| && |q.unread| == q.pending
    && k == |q.output| - 1 && q.unread[q.pending - 1] == tok
  }

  /** From row `from` on, the slot of every request still there is its first placeholder. */
  ghost predicate Heads(f: Option<Flight>, reqs: map<nat, Req>, from: nat) {
    f.Some? ==>
      && FlightShape(f.value)
      && forall i :: from <= i < |f.value.rids| && f.value.slots[i].Some? && f.value.rids[i] in reqs ==>
           AtHead(reqs[f.value.rids[i]], f.value.slots[i].value, f.value.tokens[i])
  }

  /** The slot of every request still there is its last placeholder. */
  ghost predicate Tails(f: Option<Flight>, reqs: map<nat, Req>) {
    f.Some? ==>
      && FlightShape(f.value)
      && forall i :: 0 <= i < |f.value.rids| && f.value.slots[i].Some? && f.value.rids[i] in reqs ==>
           AtTail(reqs[f.value.rids[i]], f.value.slots[i].value, f.value.tokens[i])
  }

  /** `r` has a row that sampled, at `from` or later. */
  ghost predicate SlotFrom(f: Option<Flight>, r: nat, from: nat) {
    f.Some? && exists i :: from <= i < |f.value.rids| && i < |f.value.slots| && f.value.rids[i] == r && f.value.slots[i].Some?
  }

  function One(b: bool): nat {
    if b then 1 else 0
  }

  /** Every request has one placeholder for its row in `prev` that was not read back yet, and one for
      its row in `cur`. */
  ghost predicate Counted(prev: Option<Flight>, from: nat, cur: Option<Flight>, reqs: map<nat, Req>) {
    forall r :: r in reqs ==> reqs[r].pending == One(SlotFrom(prev, r, from)) + One(SlotFrom(cur, r, 0))
  }

  /** At a step boundary: a request has a placeholder exactly if it has a row in flight that sampled,
      never more than one, and the row's token belongs there. */
  ghost predicate FlightOk(f: Option<Flight>, reqs: map<nat, Req>) {
    Heads(f, reqs, 0) && Counted(f, 0, None, reqs)
  }

  /** The flight of a batch whose launch took `reqs` to `reqs'`. */
  ghost predicate FlightOf(f: Flight, reqs: map<nat, Req>, reqs': map<nat, Req>, rows: seq<Work>) {
    && FlightShape(f) && f.rids == Rids(rows)
    && forall i :: 0 <= i < |rows| ==> FlightRow(reqs, reqs', rows[i], f.slots[i], f.tokens[i])
  }

  ghost predicate FlightRow(reqs: map<nat, Req>, reqs': map<nat, Req>, w: Work, slot: Option<nat>, tok: nat) {
    && w.rid in reqs && w.rid in reqs' && (slot.Some? <==> Completes(reqs, w))
    && (slot.Some? ==>
         && slot.value == |reqs[w.rid].output| && reqs'[w.rid].unread != []
         && tok == reqs'[w.rid].unread[|reqs'[w.rid].unread| - 1])
  }

  // ------------------------------------------------------------ between launch and read-back

  /** As at a step boundary, but for tokens of two launches being unread. */
  ghost predicate Loose(c: Config, d: Sched) {
    && ConfigOk(c) && QueuesOk(d) && Reachable(d.sys)
    && (forall r {:trigger AtRest(c, d.sys.kv.numBlocks, d.sys.bs, d.sys.reqs[r])} :: r in d.sys.reqs ==>
          AtRest(c, d.sys.kv.numBlocks, d.sys.bs, d.sys.reqs[r]))
    && (forall r :: r in d.waiting && r in d.sys.reqs ==> d.sys.reqs[r].state == WAITING)
    && (forall r :: r in d.running && r in d.sys.reqs ==> d.sys.reqs[r].state != WAITING)
  }

  lemma GoodIsLoose(c: Config, d: Sched)
    ensures Good(c, d) <==> Loose(c, d) && forall r :: r in d.sys.reqs ==> d.sys.reqs[r].pending <= 1
  {
    hide Reachable, AtRest;
    if Good(c, d) {
      forall r | r in d.sys.reqs ensures AtRest(c, d.sys.kv.numBlocks, d.sys.bs, d.sys.reqs[r]) && d.sys.reqs[r].pending <= 1 {
        assert Resting(c, d.sys.kv.numBlocks, d.sys.bs, d.sys.reqs[r]);
      }
    }
    if Loose(c, d) && forall r :: r in d.sys.reqs ==> d.sys.reqs[r].pending <= 1 {
      forall r | r in d.sys.reqs ensures Resting(c, d.sys.kv.numBlocks, d.sys.bs, d.sys.reqs[r]) {
        assert AtRest(c, d.sys.kv.numBlocks, d.sys.bs, d.sys.reqs[r]);
      }
    }
  }

  lemma RowOf(rows: seq<Work>, r: nat) returns (w: Work)
    requires r in Rids(rows)
    ensures w in rows && w.rid == r
  {
    var i :| 0 <= i < |rows| && Rids(rows)[i] == r;
    w := rows[i];
  }

  /** A launched row is at rest again. */
  lemma LaunchedRests(c: Config, numBlocks: nat, bs: nat, q: Req, q': Req, w: Work)
    requires AtRest(c, numBlocks, bs, q) && Launched(bs, q, q', w)
    ensures AtRest(c, numBlocks, bs, q')
  {
    if q.state == PREFILL { CeilMono(q.table.value.numTokens, q.table.value.numTokens + w.n, bs); }
  }

  lemma LaunchLoose(c: Config, d: Sched, d': Sched, rows: seq<Work>)
    requires Good(c, d) && Reachable(d'.sys) && d'.waiting == d.waiting && d'.running == d.running
    requires d'.sys.bs == d.sys.bs && d'.sys.kv.numBlocks == d.sys.kv.numBlocks
    requires AllLaunched(d.sys.bs, d.sys.reqs, d'.sys.reqs, rows) && forall w :: w in rows ==> w.rid in d.running
    ensures Loose(c, d')
  {
    hide Reachable, AtRest, Launched, Good;
    GoodInv(c, d);
    GoodIsLoose(c, d);
    forall r | r in d'.sys.reqs ensures AtRest(c, d'.sys.kv.numBlocks, d'.sys.bs, d'.sys.reqs[r]) {
      assert AtRest(c, d.sys.kv.numBlocks, d.sys.bs, d.sys.reqs[r]);
      if r in Rids(rows) {
        var w := RowOf(rows, r);
        LaunchedRests(c, d.sys.kv.numBlocks, d.sys.bs, d.sys.reqs[r], d'.sys.reqs[r], w);
      }
    }
    LaunchStates(d, d', rows);
  }

  lemma LaunchStates(d: Sched, d': Sched, rows: seq<Work>)
    requires QueuesOk(d) && d'.waiting == d.waiting && d'.running == d.running && d'.sys.bs == d.sys.bs
    requires AllLaunched(d.sys.bs, d.sys.reqs, d'.sys.reqs, rows) && forall w :: w in rows ==> w.rid in d.running
    ensures QueuesOk(d')
    ensures forall r :: r in d.waiting ==> d'.sys.reqs[r] == d.sys.reqs[r]
    ensures forall r :: r in d.running && d.sys.reqs[r].state != WAITING ==> d'.sys.reqs[r].state != WAITING
  {
    forall r | r in d.sys.reqs
      ensures d'.sys.reqs[r].prompt == d.sys.reqs[r].prompt
      ensures d.sys.reqs[r].state != WAITING ==> d'.sys.reqs[r].state != WAITING
    {
      if r in Rids(rows) { var w := RowOf(rows, r); }
    }
    forall r | r in d.waiting ensures r !in Rids(rows) {
      if r in Rids(rows) { var w := RowOf(rows, r); }
    }
  }

  /** After a launch every request has its older placeholder first, if any, and the new one last. */
  lemma LaunchFlight(bs: nat, next: Sampler, prev: Option<Flight>, f: Flight, reqs: map<nat, Req>, reqs': map<nat, Req>, rows: seq<Work>)
    requires FlightOk(prev, reqs) && AllLaunched(bs, reqs, reqs', rows) && FlightOf(f, reqs, reqs', rows)
    requires forall r :: r in reqs ==> ReqTokens(next, reqs[r])
    requires forall w :: w in rows ==> w.rid in reqs && reqs[w.rid].table.Some? && w.start == reqs[w.rid].table.value.numTokens
    ensures Heads(prev, reqs', 0) && Tails(Some(f), reqs') && Counted(prev, 0, Some(f), reqs')
  {
    hide ReqTokens, FlightShape, Launched, AtTail, AtHead, FlightRow;
    assert |f.rids| == |rows| == |f.slots| == |f.tokens| by { ShapeOf(f); }
    forall i | 0 <= i < |rows|
      ensures rows[i].rid in reqs && reqs'[rows[i].rid].pending == reqs[rows[i].rid].pending + One(f.slots[i].Some?)
      ensures AtHeadKept(reqs[rows[i].rid], reqs'[rows[i].rid])
      ensures f.slots[i].Some? ==> AtTail(reqs'[rows[i].rid], f.slots[i].value, f.tokens[i])
    {
      assert rows[i] in rows;
      RowTokensLaunched(bs, next, reqs, reqs', rows[i], f.slots[i], f.tokens[i]);
    }
    forall r | r in reqs
      ensures reqs'[r].pending == reqs[r].pending + One(SlotFrom(Some(f), r, 0)) && AtHeadKept(reqs[r], reqs'[r])
    {
      if r in Rids(rows) {
        var i :| 0 <= i < |rows| && Rids(rows)[i] == r;
        RowSlot(f, i);
      }
    }
    HeadsKept(prev, reqs, reqs');
    assert Tails(Some(f), reqs');
  }

  lemma HeadsKept(prev: Option<Flight>, reqs: map<nat, Req>, reqs': map<nat, Req>)
    requires Heads(prev, reqs, 0) && reqs'.Keys == reqs.Keys && forall r :: r in reqs ==> AtHeadKept(reqs[r], reqs'[r])
    ensures Heads(prev, reqs', 0)
  {
    hide AtHead;
  }

  lemma ShapeOf(f: Flight)
    requires FlightShape(f)
    ensures |f.rids| == |f.tokens| == |f.slots|
  {
  }

  lemma RowTokensLaunched(bs: nat, next: Sampler, reqs: map<nat, Req>, reqs': map<nat, Req>, w: Work, slot: Option<nat>, tok: nat)
    requires FlightRow(reqs, reqs', w, slot, tok) && ReqTokens(next, reqs[w.rid])
    requires Launched(bs, reqs[w.rid], reqs'[w.rid], w) && w.start == reqs[w.rid].table.value.numTokens
    ensures reqs'[w.rid].pending == reqs[w.rid].pending + One(slot.Some?)
    ensures AtHeadKept(reqs[w.rid], reqs'[w.rid])
    ensures slot.Some? ==> AtTail(reqs'[w.rid], slot.value, tok)
  {
    hide Stream;
  }

  /** The first placeholder, if there is one, stays where it is. */
  ghost predicate AtHeadKept(q: Req, q': Req) {
    forall k, tok :: AtHead(q, k, tok) ==> AtHead(q', k, tok)
  }

  lemma RowSlot(f: Flight, i: nat)
    requires FlightShape(f) && i < |f.rids|
    ensures SlotFrom(Some(f), f.rids[i], 0) <==> f.slots[i].Some?
  {
  }
}

/** The engine as a state machine over its smallest steps, in any order a scheduler, an overlapping
    loop or a speculating loop may take them. Everything a policy decides (who is admitted, who is
    preempted, how prefills are cut, when the cache is evicted, when tokens are read back, what a
    draft proposes) is nondeterministic here, so what holds of every run of this machine holds for
    every policy, pool size, chunk size and pipeline setting. */
module Machine {
  import opened Common
  import opened BlockTables
  import opened TreeShape
  import opened TokenChunks
  import opened KvState
  import opened KvCache
  import opened Device
  import opened Requests
  import opened Verification

  datatype Sys = Sys(
    bs: nat, next: Sampler, radix: bool,
    reqs: map<nat, Req>, kv: Kv, store: Store, done: map<nat, Req>)

  datatype Action =
    | Add(rid: nat, q: Req)
    | Abort(rid: nat)
    | Admit(rid: nat)
    | Preempt(rid: nat)
    | Evict
    | Reserve(rid: nat, n: nat, news: seq<nat>)
    | Run(rid: nat)
    | Book(rid: nat)
    | Commit(rid: nat)
    | ReadBack(rid: nat)
    | Verify(rid: nat, proposals: seq<nat>)
    | Settle(rid: nat)

  /** Nothing of the request is half done: no row in progress, every appended token computed. */
  predicate Settled(q: Req) {
    q.row.Idle? && (q.table.Some? ==> q.written == q.table.value.numTokens)
  }

  ghost function WithReq(s: Sys, rid: nat, q: Req): Sys {
    s.(reqs := s.reqs[rid := q])
  }

  // ------------------------------------------------------------ holding and giving up KV

  /** The tokens a lookup may match: all but the last, whose logits the prefill must compute. */
  function LookupKey(q: Req, bs: nat): Prefix
    requires bs > 0 && SeqLen(q) > 0
  {
    Chunks(Tokens(q)[..SeqLen(q) - 1], bs)
  }

  /** A lookup never covers the whole sequence. */
  lemma LookupShort(q: Req, p: Prefix, bs: nat)
    requires bs > 0 && SeqLen(q) > 0 && p <= LookupKey(q, bs)
    ensures |p| * bs < SeqLen(q)
  {
    var n: nat := SeqLen(q) - 1;
    ChunksCount(Tokens(q)[..n], bs);
    FloorCeil(n, bs);
    MulMono(|p|, n / bs, bs);
  }

  /** The request as an admission leaves it: its table starts with its longest cached prefix. */
  ghost function AdmittedReq(s: Sys, q: Req): (q': Req)
    requires s.bs > 0 && SeqLen(q) > 0
    ensures q'.table.Some? && q'.numCached == q'.table.value.numTokens < SeqLen(q')
  {
    LookupShort(q, LongestOf(s.kv.cached, LookupKey(q, s.bs)), s.bs);
    var t := TakenTable(s.kv, LookupKey(q, s.bs), s.bs);
    q.(state := PREFILL, table := Some(t), numCached := t.numTokens, written := t.numTokens)
  }

  ghost function Admitted(s: Sys, rid: nat): Sys
    requires s.bs > 0 && rid in s.reqs && SeqLen(s.reqs[rid]) > 0
  {
    WithReq(s, rid, AdmittedReq(s, s.reqs[rid])).(kv := Taken(s.kv, rid, LookupKey(s.reqs[rid], s.bs)))
  }

  /** The whole blocks that `q`'s table has computed. */
  function FullKey(q: Req, bs: nat): Prefix
    requires bs > 0 && q.table.Some?
  {
    var n := (q.table.value.numTokens / bs) * bs;
    if 0 <= n <= SeqLen(q) then Chunks(Tokens(q)[..n], bs) else []
  }

  lemma FullKeyIs(kv: Kv, r: nat, q: Req, bs: nat)
    requires q.table.Some? && Committable(kv, r, q.table.value, Tokens(q), bs)
    ensures 0 <= (q.table.value.numTokens / bs) * bs <= SeqLen(q)
    ensures FullKey(q, bs) == Chunks(Tokens(q)[..(q.table.value.numTokens / bs) * bs], bs)
  {
    hide Chunks;
  }

  /** The table is `rid`'s own, and with a prefix cache its tokens may be committed. */
  ghost predicate MayRelease(s: Sys, rid: nat, q: Req) {
    q.table.Some? ==>
      && rid in s.kv.held && s.kv.held[rid].blocks == q.table.value.blocks
      && (s.radix ==> Committable(s.kv, rid, q.table.value, Tokens(q), s.bs))
  }

  /** (A request that does not hold what its record says keeps it; there is none.) */
  ghost function Released(s: Sys, rid: nat, q: Req): Kv {
    if q.table.None? || !MayRelease(s, rid, q) then s.kv
    else Dropped(CommittedView(s.kv, rid, q.table.value, Tokens(q), s.bs, s.radix), rid)
  }

  function Unheld(q: Req): Req {
    q.(table := None, written := 0, row := Idle)
  }

  ghost function Preempted(s: Sys, rid: nat): Sys
    requires rid in s.reqs
  {
    var q := s.reqs[rid];
    WithReq(s, rid, Unheld(q).(state := WAITING, preemptions := q.preemptions + 1)).(kv := Released(s, rid, q))
  }

  /** `_retire`: drop late tokens, give up the KV, leave the queues. */
  ghost function Retired(s: Sys, rid: nat, q: Req, end: State): Sys {
    s.(reqs := s.reqs - {rid}, kv := Released(s, rid, q), done := s.done[rid := Unheld(q).(state := end)])
  }

  // ------------------------------------------------------------ the steps

  ghost predicate AddStep(s: Sys, rid: nat, q: Req, s': Sys) {
    && rid !in s.reqs && rid !in s.done
    && |q.prompt| > 0 && q.maxNew >= 1
    && q == NewReq(q.prompt, q.maxNew, q.stops, q.seed)
    && s' == WithReq(s, rid, q)
  }

  ghost predicate AbortStep(s: Sys, rid: nat, s': Sys) {
    && rid in s.reqs
    && var q := s.reqs[rid];
    && Settled(q) && q.pending <= 1 && q.pending <= |q.output|
    && MayRelease(s, rid, DropPending(q))
    && s' == Retired(s, rid, DropPending(q), ABORTED)
  }

  ghost predicate AdmitStep(s: Sys, rid: nat, s': Sys) {
    && rid in s.reqs && s.bs > 0
    && var q := s.reqs[rid];
    && q.state == WAITING && q.pending == 0 && SeqLen(q) > 0
    && s' == Admitted(s, rid)
  }

  ghost predicate PreemptStep(s: Sys, rid: nat, s': Sys) {
    && rid in s.reqs
    && var q := s.reqs[rid];
    && (q.state == PREFILL || q.state == DECODE) && Settled(q) && q.pending <= 1
    && MayRelease(s, rid, q)
    && s' == Preempted(s, rid)
  }

  ghost predicate EvictStep(s: Sys, s': Sys) {
    EvictedFrom(s.kv, s'.kv) && s' == s.(kv := s'.kv)
  }

  /** Room for `n` more tokens: within the sequence, or for a round of proposals past its end. */
  ghost predicate ReserveStep(s: Sys, rid: nat, n: nat, news: seq<nat>, s': Sys) {
    && rid in s.reqs && rid in s.kv.held && s.bs > 0
    && var q := s.reqs[rid];
    && q.table.Some? && Settled(q)
    && var t := q.table.value;
    && (t.numTokens + n <= SeqLen(q) || (q.state == DECODE && q.pending == 0))
    && |news| == BlocksNeeded(t, n, s.bs)
    && Distinct(news) && (forall b :: b in news ==> b in FreeBlocks(s.kv))
    && s' == WithReq(s, rid, q.(table := Some(Table(t.blocks + news, t.numTokens + n)))).(kv := Grown(s.kv, rid, news))
  }

  /** A row may run: its table was grown past what is computed, within the sequence. */
  ghost predicate CanRun(s: Sys, rid: nat) {
    && rid in s.reqs
    && var q := s.reqs[rid];
    && q.table.Some? && q.row.Idle? && q.pending <= |q.output|
    && var t := q.table.value;
    && q.written < t.numTokens <= SeqLen(q) == |DeviceTokens(q)|
    && (t.numTokens == SeqLen(q) ==> !ReachedMax(q))
    && InPool(s.store, t.blocks, t.numTokens, s.bs)
  }

  /** The row's input tokens. */
  function RowTokens(q: Req): seq<int>
    requires q.table.Some? && q.pending <= |q.output| && q.written <= q.table.value.numTokens <= |DeviceTokens(q)|
  {
    DeviceTokens(q)[q.written..q.table.value.numTokens]
  }

  /** The store after a pass over one row. */
  function Stored(store: Store, q: Req, bs: nat): (r: Store)
    requires q.table.Some? && q.pending <= |q.output| && q.written <= q.table.value.numTokens <= |DeviceTokens(q)|
    requires InPool(store, q.table.value.blocks, q.table.value.numTokens, bs)
    ensures InPool(r, q.table.value.blocks, q.table.value.numTokens, bs)
  {
    WriteRow(store, q.table.value.blocks, q.written, RowTokens(q), bs)
  }

  /** The token sampled from the row's last position, from the KV its table now holds. */
  function SampledTok(store: Store, next: Sampler, q: Req, bs: nat): nat
    requires q.table.Some? && InPool(store, q.table.value.blocks, q.table.value.numTokens, bs)
  {
    next(Read(store, q.table.value.blocks, q.table.value.numTokens, bs), q.seed, q.table.value.numTokens)
  }

  /** One row of a forward pass, and the sampling of its last position if it ends the sequence. */
  ghost function Ran(s: Sys, rid: nat): Sys
    requires CanRun(s, rid)
  {
    var q := s.reqs[rid];
    var store := Stored(s.store, q, s.bs);
    var n := q.table.value.numTokens;
    WithReq(s, rid, q.(written := n, row := if n == SeqLen(q) then Sampled(SampledTok(store, s.next, q, s.bs)) else Idle))
      .(store := store)
  }

  ghost predicate RunStep(s: Sys, rid: nat, s': Sys) {
    CanRun(s, rid) && s' == Ran(s, rid)
  }

  /** The sampled token gets a placeholder on the host; its value stays on the device. */
  function Booked(q: Req): Req
    requires q.row.Sampled?
  {
    q.(output := q.output + [PLACEHOLDER], pending := q.pending + 1, unread := q.unread + [q.row.tok],
       row := Idle, state := DECODE)
  }

  ghost predicate BookStep(s: Sys, rid: nat, s': Sys) {
    && rid in s.reqs
    && s.reqs[rid].row.Sampled? && s.reqs[rid].pending <= 1
    && s' == WithReq(s, rid, Booked(s.reqs[rid]))
  }

  ghost predicate CommitStep(s: Sys, rid: nat, s': Sys) {
    && rid in s.reqs
    && var q := s.reqs[rid];
    && q.table.Some? && Settled(q) && q.pending <= 1 && MayRelease(s, rid, q)
    && s' == s.(kv := CommittedView(s.kv, rid, q.table.value, Tokens(q), s.bs, s.radix))
  }

  /** The oldest unread token in its placeholder's place. */
  function Filled(q: Req): Req
    requires 0 < q.pending <= |q.output| && |q.unread| == q.pending
  {
    q.(output := q.output[ReadyLen(q) := q.unread[0] as int], pending := q.pending - 1, unread := q.unread[1..])
  }

  /** Whether that token ends the request. */
  predicate Ends(q: Req)
    requires 0 < q.pending <= |q.output| && |q.unread| == q.pending
  {
    ReadyLen(q) + 1 >= q.maxNew || q.unread[0] in q.stops
  }

  ghost predicate ReadBackStep(s: Sys, rid: nat, s': Sys) {
    && rid in s.reqs
    && var q := s.reqs[rid];
    && Settled(q) && 0 < q.pending <= |q.output| && |q.unread| == q.pending
    && if Ends(q) then
         && MayRelease(s, rid, DropPending(Filled(q)))
         && s' == Retired(s, rid, DropPending(Filled(q)), FINISHED)
       else s' == WithReq(s, rid, Filled(q))
  }

  /** What the target chooses after each verified position. */
  function Choices(store: Store, blocks: seq<nat>, bs: nat, next: Sampler, seed: nat, len: nat, n: nat): (r: seq<nat>)
    requires InPool(store, blocks, len + n, bs)
    ensures |r| == n + 1
    ensures forall j :: 0 <= j <= n ==> r[j] == next(Read(store, blocks, len + n, bs)[..len + j], seed, len + j)
  {
    seq<nat>(n + 1, j requires 0 <= j <= n => next(Read(store, blocks, len + n, bs)[..len + j], seed, len + j))
  }

  /** A verify pass runs over the last token and the proposals; room was made for all of them.
      Speculation runs without a prefix cache. */
  ghost predicate CanVerify(s: Sys, rid: nat, proposals: seq<nat>) {
    && rid in s.reqs && !s.radix
    && var q := s.reqs[rid];
    && q.table.Some? && q.row.Idle? && q.state == DECODE && q.pending == 0 && |q.output| > 0
    && q.written == SeqLen(q) - 1 && q.table.value.numTokens == SeqLen(q) + |proposals|
    && InPool(s.store, q.table.value.blocks, q.table.value.numTokens, s.bs)
  }

  /** The store after the pass. */
  function VerifiedStore(store: Store, q: Req, proposals: seq<nat>, bs: nat): (r: Store)
    requires q.table.Some? && |q.output| > 0 && q.table.value.numTokens == SeqLen(q) + |proposals|
    requires InPool(store, q.table.value.blocks, q.table.value.numTokens, bs)
    ensures InPool(r, q.table.value.blocks, q.table.value.numTokens, bs)
  {
    WriteRow(store, q.table.value.blocks, SeqLen(q) - 1, [q.output[|q.output| - 1]] + proposals, bs)
  }

  ghost function Checked(s: Sys, rid: nat, proposals: seq<nat>): Sys
    requires CanVerify(s, rid, proposals)
  {
    var q := s.reqs[rid];
    var store := VerifiedStore(s.store, q, proposals, s.bs);
    var chosen := Choices(store, q.table.value.blocks, s.bs, s.next, q.seed, SeqLen(q), |proposals|);
    WithReq(s, rid, q.(row := Verified(proposals, chosen))).(store := store)
  }

  ghost predicate VerifyStep(s: Sys, rid: nat, proposals: seq<nat>, s': Sys) {
    CanVerify(s, rid, proposals) && s' == Checked(s, rid, proposals)
  }

  /** A verdict is there to be settled. */
  predicate HasVerdict(q: Req) {
    q.row.Verified? && q.table.Some? && |q.row.chosen| == |q.row.proposals| + 1 && |q.output| <= q.maxNew
  }

  /** Tokens of the round that the request keeps. */
  function KeepOf(q: Req): (keep: nat)
    requires HasVerdict(q)
    ensures keep <= |AcceptedTokens(q.row.proposals, q.row.chosen)|
  {
    Kept(AcceptedTokens(q.row.proposals, q.row.chosen), q.maxNew - |q.output|, q.stops)
  }

  /** The request after `_settle`: the agreeing prefix and the target's own token, cut at the
      request's end, and the rejected positions taken back. */
  function SettledReq(q: Req, keep: nat): Req
    requires HasVerdict(q) && keep <= |AcceptedTokens(q.row.proposals, q.row.chosen)|
    requires |q.row.proposals| + 1 - keep <= q.table.value.numTokens
  {
    var t := Table(q.table.value.blocks, q.table.value.numTokens - (|q.row.proposals| + 1 - keep));
    q.(output := q.output + AcceptedTokens(q.row.proposals, q.row.chosen)[..keep],
       row := Idle, table := Some(t), written := t.numTokens)
  }

  /** Whether the round ends the request. */
  predicate RoundEnds(q: Req)
    requires HasVerdict(q)
  {
    var keep := KeepOf(q);
    keep > 0 && (AcceptedTokens(q.row.proposals, q.row.chosen)[keep - 1] in q.stops || |q.output| + keep >= q.maxNew)
  }

  ghost predicate CanSettle(s: Sys, rid: nat) {
    && rid in s.reqs && !s.radix
    && var q := s.reqs[rid];
    && HasVerdict(q) && |q.row.proposals| + 1 - KeepOf(q) <= q.table.value.numTokens
    && MayRelease(s, rid, SettledReq(q, KeepOf(q)))
  }

  ghost function SettledSys(s: Sys, rid: nat): Sys
    requires CanSettle(s, rid)
  {
    var q := s.reqs[rid];
    var q' := SettledReq(q, KeepOf(q));
    if RoundEnds(q) then Retired(s, rid, q', FINISHED) else WithReq(s, rid, q')
  }

  ghost predicate SettleStep(s: Sys, rid: nat, s': Sys) {
    CanSettle(s, rid) && s' == SettledSys(s, rid)
  }

  ghost predicate Step(s: Sys, a: Action, s': Sys) {
    match a
    case Add(rid, q) => AddStep(s, rid, q, s')
    case Abort(rid) => AbortStep(s, rid, s')
    case Admit(rid) => AdmitStep(s, rid, s')
    case Preempt(rid) => PreemptStep(s, rid, s')
    case Evict => EvictStep(s, s')
    case Reserve(rid, n, news) => ReserveStep(s, rid, n, news, s')
    case Run(rid) => RunStep(s, rid, s')
    case Book(rid) => BookStep(s, rid, s')
    case Commit(rid) => CommitStep(s, rid, s')
    case ReadBack(rid) => ReadBackStep(s, rid, s')
    case Verify(rid, proposals) => VerifyStep(s, rid, proposals, s')
    case Settle(rid) => SettleStep(s, rid, s')
  }

  ghost predicate Init(s: Sys) {
    && s.bs > 0 && s.reqs == map[] && s.done == map[]
    && s.kv == Kv(s.kv.numBlocks, map[], map[])
    && StoreOk(s.store, s.kv.numBlocks, s.bs)
  }

  ghost predicate IsRun(run: seq<Sys>, acts: seq<Action>) {
    && |run| == |acts| + 1 && Init(run[0])
    && forall i :: 0 <= i < |acts| ==> Step(run[i], acts[i], run[i + 1])
  }
}

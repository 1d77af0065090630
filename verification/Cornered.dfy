/** The assertion "a lone request does not fit in the pool" can fail. Two requests with one prompt
    are admitted together; the first puts its prompt's blocks in the tree, so the second locks that
    path and keeps duplicates of its blocks. When the first has finished, the second decodes alone,
    and the pool is full before it reaches its limit. Every state on the way is spelled out. */
module CorneredRun {
  import opened Common
  import opened BlockTables
  import opened TreeShape
  import opened TokenChunks
  import opened KvState
  import opened KvCache
  import opened Device
  import opened Requests
  import opened Machine
  import opened MachineInv
  import opened MachineSteps
  import opened MachineTheorems
  import opened Scheduling
  import opened ScheduleSafe
  import opened ScheduleRoom
  import opened ScheduleOrder
  import opened Policies
  import opened Launching
  import opened ReadingBack
  import opened Passes
  import opened Stepping

  // ------------------------------------------------------------ a pass over one row

  /** The request after a whole pass over the rest of its sequence. */
  function PassedReq(q: Req, news: seq<nat>, tok: nat): Req
    requires q.table.Some?
  {
    q.(table := Some(Table(q.table.value.blocks + news, SeqLen(q))), written := SeqLen(q),
       output := q.output + [PLACEHOLDER], pending := 1, unread := [tok], state := DECODE)
  }

  ghost predicate MayPass(s: Sys, r: nat, news: seq<nat>) {
    && s.bs > 0 && r in s.reqs && r in s.kv.held
    && var q := s.reqs[r];
    && q.table.Some? && Settled(q) && q.pending == 0 && q.unread == [] && !ReachedMax(q)
    && q.table.value.numTokens < SeqLen(q)
    && |news| == BlocksNeeded(q.table.value, SeqLen(q) - q.table.value.numTokens, s.bs)
    && Distinct(news) && forall b :: b in news ==> b in FreeBlocks(s.kv)
  }

  lemma Pass(s: Sys, r: nat, news: seq<nat>) returns (tok: nat, store: Store)
    requires Reachable(s) && MayPass(s, r, news)
    ensures Reachable(s.(reqs := s.reqs[r := PassedReq(s.reqs[r], news, tok)], kv := Grown(s.kv, r, news), store := store))
  {
    hide Reachable, FreeBlocks, Stored, SampledTok, InPool, WriteRow, DeviceTokens, RowTokens, BlocksNeeded, Distinct;
    var q := s.reqs[r];
    var w := Work(r, q.written, SeqLen(q) - q.table.value.numTokens);
    GrowStep(s, w, news);
    var s1 := Grew(s, w, news);
    MayRun(s1, r);
    var s2 := Ran(s1, r);
    BookReachable(s2, r);
    tok, store := s2.reqs[r].row.tok, s2.store;
    assert q.unread + [tok] == [tok];
    assert Booked(s2.reqs[r]) == PassedReq(q, news, tok);
    assert WithReq(s2, r, Booked(s2.reqs[r])) ==
      s.(reqs := s.reqs[r := PassedReq(q, news, tok)], kv := Grown(s.kv, r, news), store := store);
  }

  /** A token is read back and does not end its request. */
  lemma ReadOn(s: Sys, r: nat)
    requires Reachable(s) && r in s.reqs && Settled(s.reqs[r]) && HasToken(s.reqs[r]) && !Ends(s.reqs[r])
    ensures Reachable(WithReq(s, r, Filled(s.reqs[r])))
  {
    hide Reachable;
    StepReachable(s, ReadBack(r), WithReq(s, r, Filled(s.reqs[r])));
  }

  // ------------------------------------------------------------ the states of the run

  /** Prefills whole, one token per decode step. */
  const CONFIG := Config(8, 16, 0, 1)

  /** Six blocks of one token each, with a prefix cache; no step has run. */
  ghost function Start(next: Sampler, store: Store): Sys {
    Sys(1, next, true, map[], Kv(6, map[], map[]), store, map[])
  }

  /** Both requests have this prompt. */
  function Asked(maxNew: nat): Req {
    NewReq([7, 8], maxNew, {}, 0)
  }

  /** Both wait: the first wants one token, the second four. Six tokens of the second fit in the
      pool, so neither is rejected. */
  ghost function Queued(next: Sampler, store: Store): Sched {
    Sched(Start(next, store).(reqs := map[0 := Asked(1), 1 := Asked(4)]), [0, 1], [])
  }

  function Prefilling(maxNew: nat): Req {
    Asked(maxNew).(state := PREFILL, table := Some(Table([], 0)))
  }

  /** Nothing was cached, so both start with an empty table. */
  ghost function Joined(next: Sampler, store: Store): Sched {
    Sched(Start(next, store).(
      reqs := map[0 := Prefilling(1), 1 := Prefilling(4)], kv := Kv(6, map[], map[0 := Hold([], []), 1 := Hold([], [])])),
      [], [0, 1])
  }

  /** The prompt in blocks. */
  const PATH: Prefix := [[7], [8]]

  /** The tree after the first request was committed. */
  function Tree(): map<Prefix, nat> {
    map[[[7]] := 0, PATH := 1]
  }

  /** Both prompts are computed, in four blocks; two of them are in the tree, and both requests lock
      that path. */
  ghost function Prefilled(next: Sampler, store: Store, a: nat, b: nat): Sched {
    Sched(Start(next, store).(
      reqs := map[0 := PassedReq(Prefilling(1), [0, 1], a), 1 := PassedReq(Prefilling(4), [2, 3], b)],
      kv := Kv(6, Tree(), map[0 := Hold([0, 1], PATH), 1 := Hold([2, 3], PATH)])),
      [], [0, 1])
  }

  function Decoding(toks: seq<nat>, blocks: seq<nat>): Req {
    Asked(4).(state := DECODE, output := toks, table := Some(Table(blocks, |blocks|)), written := |blocks|)
  }

  /** The second request alone, with its own blocks beside the ones it locks. */
  ghost function Alone(next: Sampler, store: Store, done: map<nat, Req>, toks: seq<nat>, blocks: seq<nat>): Sched {
    Sched(Sys(1, next, true, map[1 := Decoding(toks, blocks)], Kv(6, Tree(), map[1 := Hold(blocks, PATH)]), store, done), [], [1])
  }

  // ------------------------------------------------------------ arrival and admission

  lemma QueuedReachable(next: Sampler, store: Store)
    requires StoreOk(store, 6, 1)
    ensures Reachable(Queued(next, store).sys)
  {
    hide Reachable;
    var s := Start(next, store);
    StartReachable(s);
    var s1 := WithReq(s, 0, Asked(1));
    StepReachable(s, Add(0, Asked(1)), s1);
    StepReachable(s1, Add(1, Asked(4)), WithReq(s1, 1, Asked(4)));
    assert WithReq(s1, 1, Asked(4)) == Queued(next, store).sys;
  }

  lemma QueuedGood(next: Sampler, store: Store)
    requires StoreOk(store, 6, 1)
    ensures Good(CONFIG, Queued(next, store))
  {
    hide Reachable;
    QueuedReachable(next, store);
  }

  /** Tables without blocks leave the whole pool. */
  lemma AllAvailable(kv: Kv, rids: seq<nat>)
    requires KvOk(kv) && kv.cached == map[] && Distinct(rids) && forall r :: r in rids <==> r in kv.held
    requires forall r :: r in kv.held ==> kv.held[r].blocks == []
    ensures Avail(kv) == kv.numBlocks
  {
    HeldConservation(kv, rids);
    SumZero(HeldSizes(kv), rids);
  }

  /** Admission of the first in line, when nothing is cached: its table is empty, and all blocks can
      still be handed out. */
  lemma TakeFirst(d: Sched, r: nat, maxNew: nat, rids: seq<nat>)
    requires Good(CONFIG, d) && r in d.waiting && d.sys.reqs[r] == Asked(maxNew) && d.sys.bs == 1
    requires d.sys.kv.cached == map[] && forall x :: x in d.sys.kv.held ==> d.sys.kv.held[x] == Hold([], [])
    requires Distinct(rids) && forall x :: x in rids <==> x in d.sys.kv.held || x == r
    ensures Good(CONFIG, Take(d, r)) && Avail(Take(d, r).sys.kv) == d.sys.kv.numBlocks
    ensures Take(d, r) == Sched(
      WithReq(d.sys, r, Prefilling(maxNew)).(kv := d.sys.kv.(held := d.sys.kv.held[r := Hold([], [])])),
      Remove(d.waiting, r), d.running + [r])
  {
    hide Good, Avail, QueuesOk, Chunks;
    GoodInv(CONFIG, d);
    TakeGood(CONFIG, d, r);
    NothingCached(LookupKey(d.sys.reqs[r], 1));
    GoodInv(CONFIG, Take(d, r));
    KvOfInv(Take(d, r).sys);
    AllAvailable(Take(d, r).sys.kv, rids);
  }

  lemma FirstJoins(next: Sampler, store: Store, d: Sched)
    requires StoreOk(store, 6, 1) && d == Queued(next, store)
    ensures QueuesOk(d) && Good(CONFIG, Take(d, 0)) && Avail(Take(d, 0).sys.kv) == 6 && Fits(CONFIG, d, 0, 0, 16, 0)
    ensures Take(d, 0) == Sched(
      Start(next, store).(reqs := map[0 := Prefilling(1), 1 := Asked(4)], kv := Kv(6, map[], map[0 := Hold([], [])])), [1], [0])
  {
    hide Good, Avail, QueuesOk;
    QueuedGood(next, store);
    GoodInv(CONFIG, d);
    TakeFirst(d, 0, 1, [0]);
    assert d.waiting[1..] == [1] && Remove(d.waiting, 0) == [1];
    assert d.running[..0] == [];
    assert map[0 := Asked(1), 1 := Asked(4)][0 := Prefilling(1)] == map[0 := Prefilling(1), 1 := Asked(4)];
  }

  lemma SecondJoins(next: Sampler, store: Store, d: Sched)
    requires StoreOk(store, 6, 1) && d == Take(Queued(next, store), 0)
    ensures QueuesOk(d) && 1 in d.waiting && Fits(CONFIG, d, 1, 0, 14, 3) && Take(d, 1) == Joined(next, store)
    ensures Good(CONFIG, Joined(next, store))
  {
    hide Good, Avail, QueuesOk;
    FirstJoins(next, store, Queued(next, store));
    GoodInv(CONFIG, d);
    TakeFirst(d, 1, 4, [0, 1]);
    assert Remove([1], 1) == [];
    assert d.running[..0] == [];
  }

  /** Admission of the head of the line, one request further on. */
  lemma LoopTakes(d: Sched, order: seq<nat>, rest: seq<nat>, budget: int, reserved: int, q: Req)
    requires QueuesOk(d) && order != [] && OrderOk(d, order) && order[1..] == rest && |d.running| < 8
    requires d.sys.reqs[order[0]].pending == 0 && d.sys.bs == 1 && Fits(CONFIG, d, order[0], 0, budget, reserved)
    requires order[0] in Take(d, order[0]).sys.reqs && Take(d, order[0]).sys.reqs[order[0]] == q
    ensures OrderOk(Take(d, order[0]), rest)
    ensures AdmitLoop(CONFIG, d, order, 0, budget, reserved) ==
      AdmitLoop(CONFIG, Take(d, order[0]), rest, 0, budget - Uncached(q), reserved + PrefillNeed(1, q))
  {
    hide QueuesOk, Fits, Take;
    OrderTail(d, order);
  }

  lemma BothTaken(next: Sampler, store: Store, d: Sched)
    requires StoreOk(store, 6, 1) && d == Queued(next, store)
    ensures QueuesOk(d) && OrderOk(d, [0, 1]) && Good(CONFIG, Joined(next, store))
    ensures AdmitLoop(CONFIG, d, [0, 1], 0, 16, 0) == Joined(next, store)
  {
    hide Good, QueuesOk, Fits, Take, AdmitLoop;
    FirstJoins(next, store, d);
    var d1 := Take(d, 0);
    SecondJoins(next, store, d1);
    LoopTakes(d, [0, 1], [1], 16, 0, Prefilling(1));
    LoopTakes(d1, [1], [], 14, 3, Prefilling(4));
    LoopEnds(Joined(next, store), 12, 6);
  }

  lemma LoopEnds(d: Sched, budget: int, reserved: int)
    requires QueuesOk(d)
    ensures AdmitLoop(CONFIG, d, [], 0, budget, reserved) == d
  {
    hide QueuesOk;
  }

  /** Both are admitted at once: each may prefill, and produce a token, in half of the pool. */
  lemma BothAdmitted(next: Sampler, store: Store)
    requires StoreOk(store, 6, 1)
    ensures PolicyOk(PolicyOf(Fcfs)) && QueuesOk(Queued(next, store)) && Good(CONFIG, Joined(next, store))
    ensures Schedule(CONFIG, PolicyOf(Fcfs), Queued(next, store)) ==
      Plan(Joined(next, store), Some(Batch(PrefillOnly, [Work(0, 0, 2), Work(1, 0, 2)], [], 0)))
  {
    hide Good, QueuesOk, PolicyOk, AdmitLoop, MakeRoom;
    NamedPolicyOk(Fcfs);
    BothTaken(next, store, Queued(next, store));
    assert PolicyOf(Fcfs).order(Queued(next, store).waiting, Queued(next, store).sys) == [0, 1];
    assert Joined(next, store).running[0..] == [0, 1];
    assert PrefillRows(Joined(next, store).sys.reqs, [0, 1]) == [Work(0, 0, 2), Work(1, 0, 2)];
  }

  // ------------------------------------------------------------ the prefill

  /** A request's prompt, computed and committed, locks the whole prompt's path; what was not cached
      before is cached in its blocks. */
  ghost function CommittedKv(kv: Kv, r: nat): Kv
    requires r in kv.held && |kv.held[r].blocks| == 2
  {
    Committed(kv, r, PATH)
  }

  lemma PromptChunks(toks: seq<int>)
    requires |toks| >= 2 && toks[..2] == [7, 8]
    ensures Chunks(toks[..2], 1) == PATH && (2 / 1) * 1 == 2
  {
    var s: seq<int> := [7, 8];
    assert s[..1] == [7] && s[1..] == [8] && s[1..][..1] == [8] && s[1..][1..] == [];
    assert Chunks(s[1..][1..], 1) == [];
    assert Chunks(s[1..], 1) == [[8]] + [];
    assert Chunks(s, 1) == [[7]] + Chunks(s[1..], 1);
  }

  lemma CommitPrompt(s: Sys, r: nat)
    requires Reachable(s) && s.bs == 1 && s.radix && r in s.reqs && r in s.kv.held
    requires var q := s.reqs[r];
      && q.prompt == [7, 8] && q.table.Some? && q.table.value.numTokens == 2 && |q.table.value.blocks| == 2
      && Settled(q) && q.pending <= 1
    ensures |s.kv.held[r].blocks| == 2 && Reachable(s.(kv := CommittedKv(s.kv, r)))
  {
    hide Reachable, Committed, Committable;
    CommitReachable(s, r);
    PromptChunks(Tokens(s.reqs[r]));
  }

  lemma FirstCommit(b: seq<nat>)
    requires |b| == 2
    ensures CommittedKv(Kv(6, map[], map[0 := Hold([0, 1], []), 1 := Hold(b, [])]), 0) ==
      Kv(6, Tree(), map[0 := Hold([0, 1], PATH), 1 := Hold(b, [])])
  {
    TreeIs(map[], [0, 1]);
  }

  lemma TreeIs(cached: map<Prefix, nat>, blocks: seq<nat>)
    requires |blocks| == 2 && (cached == Tree() || (cached == map[] && blocks == [0, 1]))
    ensures CommitMap(cached, PATH, blocks) == Tree()
  {
    var m := CommitMap(cached, PATH, blocks);
    forall p: Prefix ensures p in m <==> p in Tree() {
      assert PATH[..1] == [[7]] && PATH[..2] == PATH;
      if p <= PATH && p != [] { assert p == PATH[..|p|]; }
    }
  }

  lemma SecondCommit()
    ensures CommittedKv(Kv(6, Tree(), map[0 := Hold([0, 1], PATH), 1 := Hold([2, 3], [])]), 1) ==
      Kv(6, Tree(), map[0 := Hold([0, 1], PATH), 1 := Hold([2, 3], PATH)])
  {
    TreeIs(Tree(), [2, 3]);
  }

  /** The blocks not held yet are free. */
  lemma RoomForPrompt(s: Sys, r: nat, news: seq<nat>, maxNew: nat)
    requires s.bs == 1 && s.kv.numBlocks == 6 && s.kv.cached == map[] && r in s.reqs && s.reqs[r] == Prefilling(maxNew)
    requires r in s.kv.held && maxNew >= 1 && |news| == 2 && Distinct(news)
    requires forall b, x :: b in news && x in s.kv.held ==> b < 6 && b !in s.kv.held[x].blocks
    ensures MayPass(s, r, news)
  {
  }

  lemma PassPrompt(s: Sys, r: nat, news: seq<nat>, maxNew: nat) returns (tok: nat, store: Store)
    requires Reachable(s)
    requires s.bs == 1 && s.kv.numBlocks == 6 && s.kv.cached == map[] && r in s.reqs && s.reqs[r] == Prefilling(maxNew)
    requires r in s.kv.held && s.kv.held[r] == Hold([], []) && maxNew >= 1 && |news| == 2 && Distinct(news)
    requires forall b, x :: b in news && x in s.kv.held ==> b < 6 && b !in s.kv.held[x].blocks
    ensures Reachable(s.(reqs := s.reqs[r := PassedReq(Prefilling(maxNew), news, tok)],
                         kv := s.kv.(held := s.kv.held[r := Hold(news, [])]), store := store))
  {
    hide Reachable, MayPass, PassedReq;
    RoomForPrompt(s, r, news, maxNew);
    tok, store := Pass(s, r, news);
    assert [] + news == news;
  }

  lemma BothCommitted(next: Sampler, store: Store, s: Sys, a: nat, b: nat)
    requires Reachable(s) && s.reqs == Prefilled(next, store, a, b).sys.reqs
    requires s.kv == Kv(6, map[], map[0 := Hold([0, 1], []), 1 := Hold([2, 3], [])])
    requires s == Start(next, store).(reqs := s.reqs, kv := s.kv)
    ensures Reachable(Prefilled(next, store, a, b).sys)
  {
    hide Reachable, CommittedKv, Tree;
    CommitPrompt(s, 0);
    FirstCommit([2, 3]);
    var s1 := s.(kv := CommittedKv(s.kv, 0));
    CommitPrompt(s1, 1);
    SecondCommit();
  }

  lemma JoinedReachable(next: Sampler, store: Store)
    requires StoreOk(store, 6, 1)
    ensures Reachable(Joined(next, store).sys)
  {
    hide Reachable, QueuesOk, Inv;
    BothAdmitted(next, store);
    GoodInv(CONFIG, Joined(next, store));
  }

  /** Both rows pass and are committed, in the batch's order. */
  lemma BothPrefilled(next: Sampler, store: Store) returns (a: nat, b: nat, store': Store)
    requires StoreOk(store, 6, 1)
    ensures Reachable(Prefilled(next, store', a, b).sys)
  {
    hide Reachable, PassedReq, StoreOk;
    JoinedReachable(next, store);
    var s := Joined(next, store).sys;
    var st: Store;
    a, st := PassPrompt(s, 0, [0, 1], 1);
    var s1 := s.(reqs := s.reqs[0 := PassedReq(Prefilling(1), [0, 1], a)],
                 kv := s.kv.(held := s.kv.held[0 := Hold([0, 1], [])]), store := st);
    b, store' := PassPrompt(s1, 1, [2, 3], 4);
    var s2 := s1.(reqs := s1.reqs[1 := PassedReq(Prefilling(4), [2, 3], b)],
                  kv := s1.kv.(held := s1.kv.held[1 := Hold([2, 3], [])]), store := store');
    BothCommitted(next, store', s2, a, b);
  }

  function PrefillFlight(a: nat, b: nat): Flight {
    Flight([0, 1], [a, b], [Some(0), Some(0)])
  }

  lemma PromptLaunched(maxNew: nat, news: seq<nat>, tok: nat, r: nat)
    requires |news| == 2 && maxNew >= 1
    ensures Launched(1, Prefilling(maxNew), PassedReq(Prefilling(maxNew), news, tok), Work(r, 0, 2))
  {
    assert [] + [tok] == [tok];
  }

  lemma PassedKey(maxNew: nat, news: seq<nat>, tok: nat)
    ensures FullKey(PassedReq(Prefilling(maxNew), news, tok), 1) == PATH
  {
    PromptChunks(Tokens(PassedReq(Prefilling(maxNew), news, tok)));
  }

  lemma InTree(p: Prefix)
    ensures p in Tree() <==> p != [] && p <= PATH
  {
    assert PATH[..1] == [[7]] && PATH[..2] == PATH;
    if p <= PATH { assert p == PATH[..|p|]; }
  }

  lemma PrefillCached(next: Sampler, store: Store, store': Store, a: nat, b: nat, rows: seq<Work>)
    requires Rids(rows) == [0, 1]
    ensures CacheAfter(Joined(next, store).sys, Prefilled(next, store', a, b).sys, rows)
  {
    hide Tree, FullKey, EnoughFree, Evictable;
    var (s, s') := (Joined(next, store).sys, Prefilled(next, store', a, b).sys);
    PassedKey(1, [0, 1], a);
    PassedKey(4, [2, 3], b);
    forall r | r == 0 || r == 1 ensures Launching.Prefilled(s.reqs, s'.reqs, rows, r) && FullKey(s'.reqs[r], 1) == PATH {
      assert Rids(rows)[r] == r;
    }
    assert forall r :: Launching.Prefilled(s.reqs, s'.reqs, rows, r) ==> r == 0 || r == 1;
    forall p: Prefix ensures p in Tree() <==> NowComputed(1, s.reqs, s'.reqs, rows, p) {
      InTree(p);
      assert Launching.Prefilled(s.reqs, s'.reqs, rows, 0) && FullKey(s'.reqs[0], 1) == PATH;
    }
  }

  lemma DecodeCached(s: Sys, s': Sys, rows: seq<Work>)
    requires s.bs == 1 && s'.kv.cached == s.kv.cached && s'.kv.held.Keys == s.kv.held.Keys
    requires forall r :: r in s.kv.held ==> s.kv.held[r].blocks <= s'.kv.held[r].blocks && s'.kv.held[r].path == s.kv.held[r].path
    requires forall r :: r in Rids(rows) && r in s.reqs ==> s.reqs[r].state != PREFILL
    ensures CacheAfter(s, s', rows)
  {
    hide EnoughFree, Evictable, FullKey;
  }

  /** That was the launch of the batch. */
  lemma PrefillLaunched(next: Sampler, store: Store, store': Store, a: nat, b: nat)
    requires Reachable(Prefilled(next, store', a, b).sys)
    ensures LaunchedAs(Turn(Joined(next, store), Some(Batch(PrefillOnly, [Work(0, 0, 2), Work(1, 0, 2)], [], 0)),
                            Prefilled(next, store', a, b), Some(PrefillFlight(a, b))))
  {
    hide Reachable, Launched, Tree, CacheAfter;
    var rows := [Work(0, 0, 2), Work(1, 0, 2)];
    assert Rids(rows) == [0, 1];
    PrefillCached(next, store, store', a, b, rows);
    PromptLaunched(1, [0, 1], a, 0);
    PromptLaunched(4, [2, 3], b, 1);
    assert rows[0] == Work(0, 0, 2) && rows[1] == Work(1, 0, 2);
  }

  // ------------------------------------------------------------ reading it back

  /** The first request as it leaves. */
  function Gone(a: nat): Req {
    Asked(1).(state := FINISHED, output := [a])
  }

  lemma FirstRecord(a: nat)
    ensures var q := PassedReq(Prefilling(1), [0, 1], a);
      && Settled(q) && HasToken(q) && Ends(q)
      && Unheld(DropPending(Filled(q))).(state := FINISHED) == Gone(a)
      && DropPending(Filled(q)).table == Some(Table([0, 1], 2)) && DropPending(Filled(q)).prompt == [7, 8]
  {
    assert [PLACEHOLDER][0 := a as int] == [a];
    var news: seq<nat> := [0, 1];
    assert [] + news == news;
  }

  /** The first request ends with its token, and gives up its blocks; two stay in the tree. */
  lemma FirstEnds(next: Sampler, store: Store, a: nat, b: nat)
    requires Reachable(Prefilled(next, store, a, b).sys)
    ensures var d := Prefilled(next, store, a, b);
      && HasToken(d.sys.reqs[0]) && Ends(d.sys.reqs[0])
      && ReadBackAt(d, 0) == Sched(
           Sys(1, next, true, map[1 := PassedReq(Prefilling(4), [2, 3], b)],
               Kv(6, Tree(), map[1 := Hold([2, 3], PATH)]), store, map[0 := Gone(a)]), [], [1])
      && Reachable(ReadBackAt(d, 0).sys)
  {
    hide Reachable, MayRelease, Tree, Released, Inv, PassedReq, Ends, DropPending, Unheld, Settled;
    var d := Prefilled(next, store, a, b);
    FirstRecord(a);
    ReachableInv(d.sys);
    MayAlwaysFinish(d.sys, 0);
    StepReachable(d.sys, ReadBack(0), ReadBackAt(d, 0).sys);
    ReleasedFirst(d.sys, DropPending(Filled(d.sys.reqs[0])));
    assert Remove([0, 1], 0) == [1] && Remove([], 0) == [];
    assert map[0 := PassedReq(Prefilling(1), [0, 1], a), 1 := PassedReq(Prefilling(4), [2, 3], b)] - {0} ==
      map[1 := PassedReq(Prefilling(4), [2, 3], b)];
  }

  lemma ReleasedFirst(s: Sys, q: Req)
    requires s.radix && s.bs == 1 && s.kv == Kv(6, Tree(), map[0 := Hold([0, 1], PATH), 1 := Hold([2, 3], PATH)])
    requires q.table == Some(Table([0, 1], 2)) && q.prompt == [7, 8] && MayRelease(s, 0, q)
    ensures Released(s, 0, q) == Kv(6, Tree(), map[1 := Hold([2, 3], PATH)])
  {
    hide Tree;
    PromptChunks(Tokens(q));
    TreeIs(Tree(), [0, 1]);
  }

  /** The second request alone, with a token on the way. */
  ghost function AlonePassed(next: Sampler, store: Store, done: map<nat, Req>, toks: seq<nat>, blocks: seq<nat>,
                             news: seq<nat>, tok: nat): Sched
  {
    Sched(Sys(1, next, true, map[1 := PassedReq(Decoding(toks, blocks), news, tok)],
              Kv(6, Tree(), map[1 := Hold(blocks + news, PATH)]), store, done), [], [1])
  }

  lemma SecondRecord(toks: seq<nat>, blocks: seq<nat>, news: seq<nat>, tok: nat)
    requires |toks| < 3 && |blocks| + |news| == 2 + |toks|
    ensures var q := PassedReq(Decoding(toks, blocks), news, tok);
      && Settled(q) && HasToken(q) && !Ends(q) && Filled(q) == Decoding(toks + [tok], blocks + news)
  {
    var q := PassedReq(Decoding(toks, blocks), news, tok);
    assert q.output == toks + [PLACEHOLDER];
    assert (toks + [PLACEHOLDER])[|toks| := tok as int] == toks + [tok];
  }

  /** It goes on with its token. */
  lemma SecondGoesOn(next: Sampler, store: Store, done: map<nat, Req>, toks: seq<nat>, blocks: seq<nat>, news: seq<nat>, tok: nat)
    requires |toks| < 3 && |blocks| + |news| == 2 + |toks|
    requires Reachable(AlonePassed(next, store, done, toks, blocks, news, tok).sys)
    ensures var d := AlonePassed(next, store, done, toks, blocks, news, tok);
      && HasToken(d.sys.reqs[1]) && ReadBackAt(d, 1) == Alone(next, store, done, toks + [tok], blocks + news)
      && Reachable(ReadBackAt(d, 1).sys)
  {
    hide Reachable, Tree, PassedReq, Decoding, Ends, Filled, Settled;
    SecondRecord(toks, blocks, news, tok);
    ReadOn(AlonePassed(next, store, done, toks, blocks, news, tok).sys, 1);
  }

  /** Both rows of the prefill are read back. */
  lemma PrefillRead(next: Sampler, store: Store, a: nat, b: nat)
    requires Reachable(Prefilled(next, store, a, b).sys)
    ensures var d := Alone(next, store, map[0 := Gone(a)], [b], [2, 3]);
      Reachable(d.sys) && ReadFrom(Prefilled(next, store, a, b), PrefillFlight(a, b), 0) == d
  {
    hide Reachable, Tree, PassedReq, Decoding, ReadBackAt, HasToken;
    FirstEnds(next, store, a, b);
    var news: seq<nat> := [2, 3];
    assert [] + news == news && [] + [b] == [b];
    SameRecords(b);
    SecondGoesOn(next, store, map[0 := Gone(a)], [], [], [2, 3], b);
    var d1 := AlonePassed(next, store, map[0 := Gone(a)], [], [], [2, 3], b);
    var f := PrefillFlight(a, b);
    assert ReadFrom(ReadBackAt(d1, 1), f, 2) == ReadBackAt(d1, 1);
    assert ReadFrom(d1, f, 1) == ReadBackAt(d1, 1);
    assert ReadFrom(Prefilled(next, store, a, b), f, 0) == ReadFrom(ReadBackAt(Prefilled(next, store, a, b), 0), f, 1);
  }

  lemma SameRecords(b: nat)
    ensures PassedReq(Prefilling(4), [2, 3], b) == PassedReq(Decoding([], []), [2, 3], b)
  {
  }

  // ------------------------------------------------------------ decoding alone

  /** The blocks it pins: its own, and the two under its locked path that nobody else uses. */
  lemma AlonePins(next: Sampler, store: Store, done: map<nat, Req>, toks: seq<nat>, blocks: seq<nat>)
    requires Reachable(Alone(next, store, done, toks, blocks).sys)
    requires blocks == [2, 3] || blocks == [2, 3, 4] || blocks == [2, 3, 4, 5]
    ensures var kv := Alone(next, store, done, toks, blocks).sys.kv;
      |PinnedBy(kv, 1)| == 2 + |blocks| && Avail(kv) == 6 - |PinnedBy(kv, 1)|
  {
    hide Reachable, Avail, Pinned, Inv, KvOk;
    var s := Alone(next, store, done, toks, blocks).sys;
    ReachableInv(s);
    KvOfInv(s);
    AvailIsUnpinned(s.kv);
    PinnedHas(s.kv, 1);
    PinsAre(s.kv, blocks);
  }

  lemma PinsAre(kv: Kv, blocks: seq<nat>)
    requires kv == Kv(6, Tree(), map[1 := Hold(blocks, PATH)])
    requires blocks == [2, 3] || blocks == [2, 3, 4] || blocks == [2, 3, 4, 5]
    ensures |PinnedBy(kv, 1)| == 2 + |blocks|
  {
    var path := set p | p in kv.cached && p <= PATH :: kv.cached[p];
    assert [[7]] in kv.cached && [[7]] <= PATH && PATH in kv.cached && PATH <= PATH;
    assert path == {0, 1};
    SetIs(blocks);
  }

  lemma SetIs(blocks: seq<nat>)
    requires blocks == [2, 3] || blocks == [2, 3, 4] || blocks == [2, 3, 4, 5]
    ensures |SetOf(blocks) + {0, 1}| == 2 + |blocks|
  {
    assert SetOf(blocks) == if |blocks| == 2 then {2, 3} else if |blocks| == 3 then {2, 3, 4} else {2, 3, 4, 5};
  }

  lemma AloneQueues(next: Sampler, store: Store, done: map<nat, Req>, toks: seq<nat>, blocks: seq<nat>)
    ensures QueuesOk(Alone(next, store, done, toks, blocks))
  {
  }

  lemma AloneGood(next: Sampler, store: Store, done: map<nat, Req>, toks: seq<nat>, blocks: seq<nat>)
    requires Reachable(Alone(next, store, done, toks, blocks).sys)
    ensures Good(CONFIG, Alone(next, store, done, toks, blocks)) && NoPartial(Alone(next, store, done, toks, blocks))
  {
    hide Reachable;
  }

  /** While a block is left, the next decode step is scheduled. */
  lemma DecodeScheduled(next: Sampler, store: Store, done: map<nat, Req>, toks: seq<nat>, blocks: seq<nat>)
    requires Reachable(Alone(next, store, done, toks, blocks).sys)
    requires |toks| + 1 == |blocks| && (blocks == [2, 3] || blocks == [2, 3, 4])
    ensures var d := Alone(next, store, done, toks, blocks);
      && PolicyOk(PolicyOf(Fcfs)) && QueuesOk(d)
      && Schedule(CONFIG, PolicyOf(Fcfs), d) == Plan(d, Some(Batch(DecodeOnly, [Work(1, |toks| + 1, 1)], [], 1)))
  {
    hide Reachable, PolicyOk, Avail, QueuesOk, PinnedBy;
    var d := Alone(next, store, done, toks, blocks);
    NamedPolicyOk(Fcfs);
    AloneQueues(next, store, done, toks, blocks);
    AlonePins(next, store, done, toks, blocks);
    assert PolicyOf(Fcfs).order(d.waiting, d.sys) == [];
    assert AdmitLoop(CONFIG, d, [], 1, 16, 0) == d && d.running[1..] == [];
    assert Only([1], DecodingSet(d.sys.reqs)) == [1];
    NeedsOne(d);
    assert MakeRoom(CONFIG, PolicyOf(Fcfs), d, [1], []) == Room(d, [1], []);
    assert DecodeRows(d.sys.reqs, [1]) == [Work(1, |toks| + 1, 1)];
  }

  lemma NeedsOne(d: Sched)
    requires d.sys.bs == 1 && 1 in d.sys.reqs && Decodes(d.sys.reqs[1]) && d.sys.reqs[1].table.Some?
    requires |d.sys.reqs[1].table.value.blocks| == d.sys.reqs[1].table.value.numTokens
    ensures Sum(DecodeNeeds(CONFIG, d.sys), [1]) == 1
  {
    assert [1][1..] == [];
  }

  /** One step: the token is sampled into a new block and read back. */
  lemma DecodeStep(next: Sampler, store: Store, done: map<nat, Req>, toks: seq<nat>, blocks: seq<nat>)
    returns (t: Turn, tok: nat, store': Store)
    requires Reachable(Alone(next, store, done, toks, blocks).sys)
    requires |toks| + 1 == |blocks| && (blocks == [2, 3] || blocks == [2, 3, 4])
    ensures PolicyOk(PolicyOf(Fcfs)) && QueuesOk(Alone(next, store, done, toks, blocks))
    ensures var d' := Alone(next, store', done, toks + [tok], blocks + [2 + |blocks|]);
      && Reachable(d'.sys)
      && StepVia(CONFIG, PolicyOf(Fcfs), false, Alone(next, store, done, toks, blocks), None, t, d', None, t.launched)
  {
    hide Reachable, PolicyOk, Schedule, PolicyOf, QueuesOk, PassedReq, LaunchedAs, Tree, ReadBackAt;
    var d := Alone(next, store, done, toks, blocks);
    DecodeScheduled(next, store, done, toks, blocks);
    tok, store' := DecodePasses(next, store, done, toks, blocks, [2 + |blocks|]);
    var d2 := AlonePassed(next, store', done, toks, blocks, [2 + |blocks|], tok);
    var f := Flight([1], [tok], [Some(|toks|)]);
    t := Turn(d, Some(Batch(DecodeOnly, [Work(1, |toks| + 1, 1)], [], 1)), d2, Some(f));
    DecodeLaunched(d, d2, toks, blocks, [2 + |blocks|], tok, f);
    SecondGoesOn(next, store', done, toks, blocks, [2 + |blocks|], tok);
    assert ReadFrom(ReadBackAt(d2, 1), f, 1) == ReadBackAt(d2, 1);
  }

  lemma DecodePasses(next: Sampler, store: Store, done: map<nat, Req>, toks: seq<nat>, blocks: seq<nat>, news: seq<nat>)
    returns (tok: nat, store': Store)
    requires Reachable(Alone(next, store, done, toks, blocks).sys)
    requires |toks| + 1 == |blocks| && (blocks == [2, 3] || blocks == [2, 3, 4]) && news == [2 + |blocks|]
    ensures Reachable(AlonePassed(next, store', done, toks, blocks, news, tok).sys)
  {
    hide Reachable, PassedReq;
    var s := Alone(next, store, done, toks, blocks).sys;
    BlockLeft(s.kv, blocks, news);
    tok, store' := Pass(s, 1, news);
    assert s.reqs[1 := PassedReq(s.reqs[1], news, tok)] == map[1 := PassedReq(Decoding(toks, blocks), news, tok)];
    assert Grown(s.kv, 1, news) == Kv(6, Tree(), map[1 := Hold(blocks + news, PATH)]);
  }

  lemma BlockLeft(kv: Kv, blocks: seq<nat>, news: seq<nat>)
    requires kv == Kv(6, Tree(), map[1 := Hold(blocks, PATH)])
    requires (blocks == [2, 3] || blocks == [2, 3, 4]) && news == [2 + |blocks|]
    ensures forall b :: b in news ==> b in FreeBlocks(kv)
  {
  }

  lemma DecodeLaunched(d: Sched, d2: Sched, toks: seq<nat>, blocks: seq<nat>, news: seq<nat>, tok: nat, f: Flight)
    requires Reachable(d2.sys) && d2.waiting == d.waiting && d2.running == d.running && d.sys.bs == 1 && d2.sys.bs == 1
    requires |toks| + 1 == |blocks| && |news| == 1 && f == Flight([1], [tok], [Some(|toks|)])
    requires d.sys.reqs == map[1 := Decoding(toks, blocks)]
    requires d2.sys.reqs == map[1 := PassedReq(Decoding(toks, blocks), news, tok)]
    requires d.sys.kv == Kv(6, Tree(), map[1 := Hold(blocks, PATH)]) && d2.sys.kv == Kv(6, Tree(), map[1 := Hold(blocks + news, PATH)])
    ensures LaunchedAs(Turn(d, Some(Batch(DecodeOnly, [Work(1, |toks| + 1, 1)], [], 1)), d2, Some(f)))
  {
    hide Reachable, CacheAfter, Tree;
    var rows := [Work(1, |toks| + 1, 1)];
    assert Rids(rows) == [1];
    DecodeCached(d.sys, d2.sys, rows);
    assert rows[0] == Work(1, |toks| + 1, 1);
  }

  // ------------------------------------------------------------ the run

  /** Four own blocks and the two duplicates it locks are the whole pool; the next token needs one
      more, and there is nobody else to preempt. */
  lemma AloneCornered(next: Sampler, store: Store, done: map<nat, Req>, toks: seq<nat>, p: Policy)
    requires Reachable(Alone(next, store, done, toks, [2, 3, 4, 5]).sys) && |toks| == 3 && PolicyOk(p)
    ensures var d := Alone(next, store, done, toks, [2, 3, 4, 5]);
      QueuesOk(d) && Cornered(CONFIG, p, d) && Schedule(CONFIG, p, d) == Lone
  {
    hide Reachable, PolicyOk, Avail, QueuesOk, PinnedBy, Schedule, Good;
    var d := Alone(next, store, done, toks, [2, 3, 4, 5]);
    AloneQueues(next, store, done, toks, [2, 3, 4, 5]);
    AloneGood(next, store, done, toks, [2, 3, 4, 5]);
    AlonePins(next, store, done, toks, [2, 3, 4, 5]);
    assert Only([1], LiveSet(d.sys.reqs)) == [1];
    NoneOrdered(p, d);
    LoneExactly(CONFIG, p, d);
  }

  lemma NoneOrdered(p: Policy, d: Sched)
    requires PolicyOk(p) && d.waiting == []
    ensures p.order(d.waiting, d.sys) == []
  {
    var order := p.order(d.waiting, d.sys);
    assert forall r :: r in order <==> r in d.waiting;
    HeadIn(order);
  }

  lemma HeadIn(s: seq<nat>)
    ensures s == [] || s[0] in s
  {
  }

  /** Whatever the model samples, three steps of the engine from two waiting requests lead to a state
      in which no policy can schedule: the scheduler's promise that a single request always fits is
      false with a prefix cache. Nothing was aborted or preempted on the way. */
  lemma LoneReachable(next: Sampler, store: Store) returns (ds: seq<Sched>, ts: seq<Turn>)
    requires StoreOk(store, 6, 1)
    ensures |ds| == 4 && |ts| == 3 && ds[0] == Queued(next, store) && PolicyOk(PolicyOf(Fcfs))
    ensures forall i :: 0 <= i < 3 ==>
      && QueuesOk(ds[i])
      && StepVia(CONFIG, PolicyOf(Fcfs), false, ds[i], None, ts[i], ds[i + 1], None, ts[i].launched)
    ensures Good(CONFIG, ds[0]) && Good(CONFIG, ds[3]) && NoPartial(ds[3]) && ds[3].waiting == [] && ds[3].running == [1]
    ensures forall p :: PolicyOk(p) ==> QueuesOk(ds[3]) && Cornered(CONFIG, p, ds[3]) && Schedule(CONFIG, p, ds[3]) == Lone
  {
    hide Reachable, PolicyOk, PolicyOf, QueuesOk, Schedule, LaunchedAs, ReadFrom, Good, Cornered, Tree, PassedReq, StepVia;
    QueuedGood(next, store);
    var t0, a, b, st0 := PrefillStep(next, store);
    var done := map[0 := Gone(a)];
    var blocks2: seq<nat>, blocks3: seq<nat> := [2, 3], [2, 3, 4];
    var t1, tok1, st1 := DecodeStep(next, st0, done, [b], blocks2);
    assert [b] + [tok1] == [b, tok1] && blocks2 + [2 + |blocks2|] == blocks3;
    var t2, tok2, st2 := DecodeStep(next, st1, done, [b, tok1], blocks3);
    assert [b, tok1] + [tok2] == [b, tok1, tok2] && blocks3 + [2 + |blocks3|] == [2, 3, 4, 5];
    var d3 := Alone(next, st2, done, [b, tok1, tok2], [2, 3, 4, 5]);
    AloneGood(next, st2, done, [b, tok1, tok2], [2, 3, 4, 5]);
    forall p | PolicyOk(p) ensures QueuesOk(d3) && Cornered(CONFIG, p, d3) && Schedule(CONFIG, p, d3) == Lone {
      AloneCornered(next, st2, done, [b, tok1, tok2], p);
    }
    ds := [Queued(next, store), Alone(next, st0, done, [b], [2, 3]), Alone(next, st1, done, [b, tok1], [2, 3, 4]), d3];
    ts := [t0, t1, t2];
  }

  lemma PrefillStep(next: Sampler, store: Store) returns (t: Turn, a: nat, b: nat, store': Store)
    requires StoreOk(store, 6, 1)
    ensures PolicyOk(PolicyOf(Fcfs)) && QueuesOk(Queued(next, store))
    ensures var d' := Alone(next, store', map[0 := Gone(a)], [b], [2, 3]);
      && Reachable(d'.sys)
      && StepVia(CONFIG, PolicyOf(Fcfs), false, Queued(next, store), None, t, d', None, t.launched)
  {
    hide Reachable, PolicyOk, PolicyOf, QueuesOk, Schedule, LaunchedAs, ReadFrom, Good, Tree, PassedReq;
    BothAdmitted(next, store);
    a, b, store' := BothPrefilled(next, store);
    t := Turn(Joined(next, store), Some(Batch(PrefillOnly, [Work(0, 0, 2), Work(1, 0, 2)], [], 0)),
              Prefilled(next, store', a, b), Some(PrefillFlight(a, b)));
    PrefillLaunched(next, store, store', a, b);
    PrefillRead(next, store', a, b);
  }
}

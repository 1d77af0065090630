/** When preemption makes room, and when it cannot. The earliest unspent running request is never
    preempted; the pool is too small for it exactly when the blocks it needs exceed what its own
    table and locked prefix leave of the pool. Without a prefix cache that never happens. With one
    it can: a locked prefix may be a duplicate of blocks the request holds itself. */
module ScheduleRoom {
  import opened Common
  import opened BlockTables
  import opened TreeShape
  import opened KvState
  import opened KvCache
  import opened TokenChunks
  import opened Device
  import opened Requests
  import opened Machine
  import opened MachineInv
  import opened MachineSteps
  import opened MachineTheorems
  import opened Scheduling
  import opened ScheduleSafe

  // ------------------------------------------------------------ blocks that cannot be handed out

  /** Blocks in a table, or in the tree under a locked prefix. */
  ghost function Pinned(kv: Kv): set<nat> {
    set b: nat | b < kv.numBlocks && b !in FreeBlocks(kv) && (b in kv.cached.Values ==>
      exists p :: p in kv.cached && kv.cached[p] == b && Users(kv, p) != {})
  }

  /** Those that `r` pins: its table's blocks and those of its locked path. */
  ghost function PinnedBy(kv: Kv, r: nat): set<nat>
    requires r in kv.held
  {
    SetOf(kv.held[r].blocks) + set p | p in kv.cached && p <= kv.held[r].path :: kv.cached[p]
  }

  /** Everything else can be handed out. */
  lemma AvailIsUnpinned(kv: Kv)
    requires KvOk(kv)
    ensures Avail(kv) == kv.numBlocks - |Pinned(kv)|
  {
    var evictable := set p | p in Evictable(kv) :: kv.cached[p];
    assert CachedOk(kv);
    ImageSize(kv.cached, Evictable(kv));
    EvictableUnpinned(kv);
    ThreeParts(kv, evictable);
    hide Pinned, FreeBlocks, Evictable, KvOk;
    assert |Pinned(kv) + FreeBlocks(kv)| == |Pinned(kv)| + |FreeBlocks(kv)|;
  }

  lemma ThreeParts(kv: Kv, evictable: set<nat>)
    requires evictable == set p | p in Evictable(kv) :: kv.cached[p]
    requires forall b: nat :: b < kv.numBlocks && b !in FreeBlocks(kv) ==>
      (b !in Pinned(kv) <==> exists p :: p in Evictable(kv) && kv.cached[p] == b)
    requires forall p :: p in Evictable(kv) ==> kv.cached[p] < kv.numBlocks && kv.cached[p] !in FreeBlocks(kv)
    ensures AllBlocks(kv.numBlocks) == Pinned(kv) + FreeBlocks(kv) + evictable
    ensures Pinned(kv) !! FreeBlocks(kv) && Pinned(kv) + FreeBlocks(kv) !! evictable
  {
    forall b: nat | b < kv.numBlocks ensures b in Pinned(kv) || b in FreeBlocks(kv) || b in evictable {
    }
    forall b | b in evictable ensures b < kv.numBlocks && b !in FreeBlocks(kv) && b !in Pinned(kv) {
    }
    assert forall b :: b in FreeBlocks(kv) ==> b < kv.numBlocks;
    assert forall b :: b in Pinned(kv) ==> b < kv.numBlocks && b !in FreeBlocks(kv);
    hide Pinned, FreeBlocks, Evictable;
  }

  lemma EvictableUnpinned(kv: Kv)
    requires KvOk(kv)
    ensures forall b: nat :: b < kv.numBlocks && b !in FreeBlocks(kv) ==>
      (b !in Pinned(kv) <==> exists p :: p in Evictable(kv) && kv.cached[p] == b)
    ensures forall p :: p in Evictable(kv) ==> kv.cached[p] < kv.numBlocks && kv.cached[p] !in FreeBlocks(kv)
  {
    assert CachedOk(kv);
    forall p | p in Evictable(kv) ensures kv.cached[p] < kv.numBlocks && kv.cached[p] !in FreeBlocks(kv) && kv.cached[p] !in Pinned(kv) {
      InValues(kv.cached, p);
    }
    forall b: nat | b < kv.numBlocks && b !in FreeBlocks(kv) && b !in Pinned(kv)
      ensures exists p :: p in Evictable(kv) && kv.cached[p] == b
    {
      var p := KeyOfValue(kv.cached, b);
      assert Users(kv, p) == {};
    }
  }

  /** What a request pins is pinned, and alone it pins everything that is. */
  lemma PinnedHas(kv: Kv, r: nat)
    requires KvOk(kv) && r in kv.held
    ensures PinnedBy(kv, r) <= Pinned(kv)
    ensures kv.held.Keys == {r} ==> PinnedBy(kv, r) == Pinned(kv)
  {
    var h := kv.held[r];
    assert HoldOk(kv, h) && CachedOk(kv);
    forall b | b in PinnedBy(kv, r) ensures b in Pinned(kv) {
      if b in h.blocks {
        IsHolder(kv, r, b);
        if b in kv.cached.Values {
          var p := KeyOfValue(kv.cached, b);
          TreeBlockUsed(kv, r, p);
        }
      } else {
        var p :| p in kv.cached && p <= h.path && kv.cached[p] == b;
        InValues(kv.cached, p);
        assert r in Users(kv, p);
      }
    }
    if kv.held.Keys == {r} {
      forall b | b in Pinned(kv) ensures b in PinnedBy(kv, r) {
        if b in kv.cached.Values {
          var p :| p in kv.cached && kv.cached[p] == b && Users(kv, p) != {};
          var u :| u in Users(kv, p);
        } else {
          assert Holders(kv, b) != {};
          var u :| u in Holders(kv, b);
        }
      }
    }
  }

  /** Another request's release changes nothing about what `f` pins. */
  lemma PinnedStays(s: Sys, v: nat, q: Req, f: nat)
    requires KvOk(s.kv) && f in s.kv.held && f != v
    ensures f in Released(s, v, q).held && PinnedBy(Released(s, v, q), f) == PinnedBy(s.kv, f)
  {
    var (kv, kv') := (s.kv, Released(s, v, q));
    ReleasedGrows(s, v, q);
    assert kv'.held[f] == kv.held[f];
    var path := kv.held[f].path;
    forall p | p <= path && p != [] ensures p in kv.cached && p in kv'.cached && kv'.cached[p] == kv.cached[p] {
      PathWhole(kv, f, p);
    }
    EmptyUncached(s, v, q);
    assert (set p | p in kv.cached && p <= path :: kv.cached[p]) == (set p | p in kv'.cached && p <= path :: kv'.cached[p]);
  }

  lemma EmptyUncached(s: Sys, v: nat, q: Req)
    requires KvOk(s.kv)
    ensures [] !in s.kv.cached && [] !in Released(s, v, q).cached
  {
    assert CachedOk(s.kv);
  }

  lemma ReleasedGrows(s: Sys, v: nat, q: Req)
    ensures forall p :: p in s.kv.cached ==> p in Released(s, v, q).cached && Released(s, v, q).cached[p] == s.kv.cached[p]
    ensures Released(s, v, q).numBlocks == s.kv.numBlocks
    ensures forall r :: r != v && r in s.kv.held ==> r in Released(s, v, q).held && Released(s, v, q).held[r] == s.kv.held[r]
  {
  }

  // ------------------------------------------------------------ the earliest unspent request

  ghost function LiveSet(reqs: map<nat, Req>): set<nat> {
    set r | r in reqs && !Spent(reqs[r])
  }

  ghost function FirstLive(d: Sched): Option<nat> {
    var live := Only(d.running, LiveSet(d.sys.reqs));
    if live == [] then None else Some(live[0])
  }

  lemma {:induction false} OnlyHead(s: seq<nat>, x: nat, keep: set<nat>)
    requires Distinct(s) && Only(s, keep) != [] && Only(s, keep)[0] != x
    ensures Only(Remove(s, x), keep) != [] && Only(Remove(s, x), keep)[0] == Only(s, keep)[0]
  {
    if s[0] != x {
      assert Remove(s, x) == [s[0]] + Remove(s[1..], x);
      if s[0] !in keep { OnlyHead(s[1..], x, keep); }
    } else {
      assert s[0] !in keep;
      assert Only(s, keep) == Only(s[1..], keep);
    }
  }

  /** Under any policy the victim is never the earliest unspent running request. */
  lemma VictimNotFirst(p: Policy, d: Sched, pool: seq<nat>)
    requires PolicyOk(p) && QueuesOk(d) && (forall r :: r in pool ==> r in d.running) && Victim(p, d, pool).Some?
    ensures FirstLive(d).Some? ==> Victim(p, d, pool).value != FirstLive(d).value
  {
    hide PolicyOk;
    var v := Victim(p, d, pool).value;
    var live := Only(d.running, LiveSet(d.sys.reqs));
    var spent := Only(d.running, SpentSet(d.sys.reqs));
    if live != [] {
      assert live[0] in live;
      if spent == [] {
        forall r | r in d.running ensures r in LiveSet(d.sys.reqs) {
          assert r in spent <==> r in SpentSet(d.sys.reqs);
        }
        OnlyAll(d.running, LiveSet(d.sys.reqs));
      } else {
        assert v in spent;
      }
    }
  }

  /** After a preemption the earliest unspent running request is the same, with the same need and the
      same blocks pinned. */
  lemma FirstStays(c: Config, p: Policy, d: Sched, pool: seq<nat>)
    requires PolicyOk(p) && Good(c, d) && (forall r :: r in pool ==> r in d.running)
    requires QueuesOk(d) && Victim(p, d, pool).Some?
    ensures var d' := Preempt1(d, Victim(p, d, pool).value);
      FirstLive(d).Some? ==>
        && FirstLive(d') == FirstLive(d)
        && var f := FirstLive(d).value;
        && f in d.sys.reqs && f in d'.sys.reqs && d'.sys.reqs[f] == d.sys.reqs[f]
        && f in d.sys.kv.held && f in d'.sys.kv.held && PinnedBy(d'.sys.kv, f) == PinnedBy(d.sys.kv, f)
  {
    hide PolicyOk, Good, Victim, PinnedBy;
    GoodInv(c, d);
    VictimNotFirst(p, d, pool);
    if FirstLive(d).Some? {
      var (v, f) := (Victim(p, d, pool).value, FirstLive(d).value);
      var d' := Preempt1(d, v);
      assert f in Only(d.running, LiveSet(d.sys.reqs));
      GoodReq(c, d, f);
      assert Inv(d.sys);
      PinnedStays(d.sys, v, d.sys.reqs[v], f);
      OnlyHead(d.running, v, LiveSet(d.sys.reqs));
      RemoveDistinct(d.running, v);
      OnlySame(Remove(d.running, v), LiveSet(d.sys.reqs), LiveSet(d'.sys.reqs));
    }
  }

  // ------------------------------------------------------------ exactly when there is no room

  /** The earliest unspent running request needs more than what its own blocks leave of the pool. */
  ghost predicate LoneTooBig(c: Config, d: Sched)
    requires QueuesOk(d)
  {
    && FirstLive(d).Some?
    && var f := FirstLive(d).value;
    && f in d.sys.reqs && f in d.sys.kv.held
    && StepNeed(c.tps, d.sys.bs, d.sys.reqs[f]) > d.sys.kv.numBlocks - |PinnedBy(d.sys.kv, f)|
  }

  lemma HeldAreRunning(c: Config, d: Sched)
    requires Good(c, d)
    ensures QueuesOk(d) && forall r :: r in d.sys.kv.held <==> r in d.running
  {
    hide Good, Inv, QueuesOk, ReqOk;
    GoodInv(c, d);
    HeldInReqs(d.sys);
    forall r | r in d.sys.reqs ensures r in d.sys.kv.held <==> r in d.running {
      GoodReq(c, d, r);
      WaitingHoldsNone(d, r);
    }
  }

  lemma HeldInReqs(s: Sys)
    requires Inv(s)
    ensures forall r :: r in s.kv.held ==> r in s.reqs
  {
  }

  lemma WaitingHoldsNone(d: Sched, r: nat)
    requires r in d.sys.reqs && ReqOk(d.sys.next, d.sys.bs, d.sys.store, d.sys.kv.held, r, d.sys.reqs[r])
    ensures r in d.sys.kv.held <==> d.sys.reqs[r].state != WAITING
  {
  }

  /** With room for all, there is room for the first; with no other running, the pool has exactly
      what the first leaves of it. */
  lemma RoomForFirst(c: Config, d: Sched)
    requires Good(c, d)
    ensures QueuesOk(d)
    ensures Sum(StepNeeds(c, d.sys), d.running) <= Avail(d.sys.kv) ==> !LoneTooBig(c, d)
    ensures Sum(StepNeeds(c, d.sys), d.running) > Avail(d.sys.kv) && |d.running| <= 1 ==> LoneTooBig(c, d)
  {
    hide Good, Avail, PinnedBy, Pinned, Inv, StepNeed, KvOk, QueuesOk, Sum, FirstLive;
    GoodInv(c, d);
    KvOfInv(d.sys);
    AvailIsUnpinned(d.sys.kv);
    NeedsKnownRunning(c, d);
    if FirstLive(d).Some? { FirstWithinAll(c, d); }
    if |d.running| == 1 { OnlyOneNeeds(c, d); }
    if |d.running| == 0 { assert d.running == []; SumZero(StepNeeds(c, d.sys), d.running); }
  }

  lemma NeedsKnownRunning(c: Config, d: Sched)
    requires QueuesOk(d)
    ensures d.sys.bs > 0 && forall r :: r in d.running ==> r in StepNeeds(c, d.sys)
  {
  }

  /** The first's need is part of all needs, and its blocks are among the pinned ones. */
  lemma FirstWithinAll(c: Config, d: Sched)
    requires Good(c, d) && QueuesOk(d) && FirstLive(d).Some?
    ensures var f := FirstLive(d).value;
      && f in d.sys.reqs && f in d.sys.kv.held && |PinnedBy(d.sys.kv, f)| <= |Pinned(d.sys.kv)|
      && StepNeed(c.tps, d.sys.bs, d.sys.reqs[f]) <= Sum(StepNeeds(c, d.sys), d.running)
  {
    hide Good, Avail, PinnedBy, Pinned, Inv, StepNeed, KvOk;
    GoodInv(c, d);
    HeldAreRunning(c, d);
    KvOfInv(d.sys);
    NeedsNonNeg(c, d);
    var (needs, f) := (StepNeeds(c, d.sys), FirstLive(d).value);
    assert f in Only(d.running, LiveSet(d.sys.reqs));
    PinnedHas(d.sys.kv, f);
    CardLe(PinnedBy(d.sys.kv, f), Pinned(d.sys.kv));
    SumSubset(needs, [f], d.running);
    assert Sum(needs, [f]) == needs[f];
  }

  /** One that runs alone is the first, unless it is spent, and pins all that is pinned. */
  lemma OnlyOneNeeds(c: Config, d: Sched)
    requires Good(c, d) && QueuesOk(d) && |d.running| == 1
    ensures var needs := Sum(StepNeeds(c, d.sys), d.running);
      needs > 0 ==>
        && FirstLive(d).Some?
        && var f := FirstLive(d).value;
        && f in d.sys.reqs && f in d.sys.kv.held && PinnedBy(d.sys.kv, f) == Pinned(d.sys.kv)
        && StepNeed(c.tps, d.sys.bs, d.sys.reqs[f]) == needs
  {
    hide Good, Avail, PinnedBy, Pinned, Inv, StepNeed, KvOk;
    GoodInv(c, d);
    HeldAreRunning(c, d);
    KvOfInv(d.sys);
    var (needs, r) := (StepNeeds(c, d.sys), d.running[0]);
    assert d.running == [r] && Sum(needs, [r]) == needs[r];
    assert d.sys.kv.held.Keys == {r};
    PinnedHas(d.sys.kv, r);
    SpentNeedsNone(c, d.sys.bs, d.sys.reqs[r]);
  }

  lemma KvOfInv(s: Sys)
    requires Inv(s)
    ensures KvOk(s.kv) && (!s.radix ==> s.kv.cached == map[])
  {
  }

  lemma CardLe(a: set<nat>, b: set<nat>)
    requires a <= b
    ensures |a| <= |b|
  {
    assert b == a + (b - a);
  }

  lemma SpentNeedsNone(c: Config, bs: nat, q: Req)
    requires bs > 0
    ensures Spent(q) ==> StepNeed(c.tps, bs, q) == 0
  {
  }

  /** Exactly when `_make_room_chunked` fails, under any policy. */
  lemma RoomIffFirstFits(c: Config, p: Policy, d: Sched, preempted: seq<nat>)
    requires PolicyOk(p) && Good(c, d)
    ensures QueuesOk(d)
    ensures MakeRoomChunked(c, p, d, preempted) == NoRoom <==> LoneTooBig(c, d)
    decreases |d.running|
  {
    hide PolicyOk, Good, Victim, PinnedBy, Avail, QueuesOk, Sum;
    GoodInv(c, d);
    RoomForFirst(c, d);
    if Sum(StepNeeds(c, d.sys), d.running) > Avail(d.sys.kv) && |d.running| > 1 {
      SomeVictim(p, d);
      var v := Victim(p, d, d.running).value;
      PreemptGood(c, d, v);
      FirstStays(c, p, d, d.running);
      RoomIffFirstFits(c, p, Preempt1(d, v), preempted + [v]);
      NoneLeft(c, p, d);
    }
  }

  lemma SomeVictim(p: Policy, d: Sched)
    requires PolicyOk(p) && QueuesOk(d) && |d.running| > 1
    ensures Victim(p, d, d.running).Some?
  {
    hide PolicyOk;
    assert d.running[1] in NotFirst(d.running, d.running);
  }

  /** Only unspent requests need blocks: if none runs, there is room. */
  lemma NoneLeft(c: Config, p: Policy, d: Sched)
    requires PolicyOk(p) && Good(c, d) && QueuesOk(d) && Sum(StepNeeds(c, d.sys), d.running) > Avail(d.sys.kv)
    ensures FirstLive(d).Some?
  {
    hide Good, Avail;
    if FirstLive(d).None? {
      forall r | r in d.running ensures StepNeeds(c, d.sys)[r] == 0 {
        assert r in LiveSet(d.sys.reqs) ==> r in Only(d.running, LiveSet(d.sys.reqs));
        SpentNeedsNone(c, d.sys.bs, d.sys.reqs[r]);
      }
      SumZero(StepNeeds(c, d.sys), d.running);
    }
  }

  lemma {:induction false} SumZero(f: map<nat, int>, s: seq<nat>)
    requires forall x :: x in s ==> x in f && f[x] == 0
    ensures Sum(f, s) == 0
  {
    if s != [] { SumZero(f, s[1..]); }
  }

  // ------------------------------------------------------------ without chunks

  /** Between steps without chunked prefill every running request decodes or is spent. */
  ghost predicate NoPartial(d: Sched) {
    forall r :: r in d.running && r in d.sys.reqs ==> d.sys.reqs[r].state == DECODE
  }

  ghost function DecodingOf(d: Sched): seq<nat> {
    Only(d.running, DecodingSet(d.sys.reqs))
  }

  lemma DecodingOfOk(d: Sched)
    requires QueuesOk(d)
    ensures IsDecoding(d, DecodingOf(d))
  {
    OnlyDistinct(d.running, DecodingSet(d.sys.reqs));
  }

  lemma {:induction false} SumOnly(f: map<nat, int>, g: map<nat, int>, s: seq<nat>, keep: set<nat>)
    requires forall x :: x in s ==> x in f && x in g && (if x in keep then f[x] == g[x] else g[x] == 0)
    ensures Sum(f, Only(s, keep)) == Sum(g, s)
  {
    if s != [] {
      var rest := Only(s[1..], keep);
      SumOnly(f, g, s[1..], keep);
      if s[0] in keep {
        assert ([s[0]] + rest)[1..] == rest;
        assert Sum(f, [s[0]] + rest) == f[s[0]] + Sum(f, rest);
      } else {
        assert Only(s, keep) == rest;
      }
    }
  }

  /** Where nothing is part-way, the need of the decode step is all that is outstanding. */
  lemma WholeNeeds(c: Config, d: Sched)
    requires QueuesOk(d) && NoPartial(d)
    ensures Sum(DecodeNeeds(c, d.sys), DecodingOf(d)) == Sum(StepNeeds(c, d.sys), d.running)
  {
    SumOnly(DecodeNeeds(c, d.sys), StepNeeds(c, d.sys), d.running, DecodingSet(d.sys.reqs));
  }

  lemma AllDecode(d: Sched)
    requires QueuesOk(d) && NoPartial(d) && Only(d.running, SpentSet(d.sys.reqs)) == []
    ensures DecodingOf(d) == d.running
  {
    forall r | r in d.running ensures r in DecodingSet(d.sys.reqs) {
      assert r in SpentSet(d.sys.reqs) ==> r in Only(d.running, SpentSet(d.sys.reqs));
    }
    OnlyAll(d.running, DecodingSet(d.sys.reqs));
  }

  lemma WholeVictim(p: Policy, d: Sched)
    requires PolicyOk(p) && QueuesOk(d) && NoPartial(d)
    ensures IsDecoding(d, DecodingOf(d)) && Victim(p, d, DecodingOf(d)) == Victim(p, d, d.running)
    ensures var v := Victim(p, d, d.running);
      v.Some? ==>
        && NoPartial(Preempt1(d, v.value))
        && DecodingOf(Preempt1(d, v.value)) == if Spent(d.sys.reqs[v.value]) then DecodingOf(d) else Remove(DecodingOf(d), v.value)
  {
    hide PolicyOk;
    DecodingOfOk(d);
    if Only(d.running, SpentSet(d.sys.reqs)) == [] { AllDecode(d); }
    var v := Victim(p, d, d.running);
    if v.Some? {
      var d' := Preempt1(d, v.value);
      RemoveDistinct(d.running, v.value);
      OnlySame(d'.running, DecodingSet(d.sys.reqs), DecodingSet(d'.sys.reqs));
      if Spent(d.sys.reqs[v.value]) {
        OnlyRemove(d.running, v.value, DecodingSet(d.sys.reqs));
      } else {
        assert Only(d.running, SpentSet(d.sys.reqs)) == [];
        OnlyAll(d'.running, DecodingSet(d'.sys.reqs));
      }
    }
  }

  /** Without partial prefills the two ways of making room are one. */
  lemma WholeRoomIsChunked(c: Config, p: Policy, d: Sched, preempted: seq<nat>)
    requires PolicyOk(p) && QueuesOk(d) && NoPartial(d)
    ensures IsDecoding(d, DecodingOf(d))
    ensures var m := MakeRoom(c, p, d, DecodingOf(d), preempted);
      var m' := MakeRoomChunked(c, p, d, preempted);
      && (m.NoRoom? <==> m'.NoRoom?)
      && (m.Room? ==> m.d == m'.d && m.preempted == m'.preempted && m.decoding == DecodingOf(m.d) && NoPartial(m.d))
    decreases |d.running|
  {
    hide PolicyOk, QueuesOk, Victim, Avail, Sum, Preempt1;
    DecodingOfOk(d);
    WholeNeeds(c, d);
    WholeVictim(p, d);
    NeedsDefined(c, d);
    if Sum(StepNeeds(c, d.sys), d.running) > Avail(d.sys.kv) {
      var v := Victim(p, d, d.running);
      if v.Some? {
        if |d.running| <= 1 { LoneVictimSpent(c, p, d); }
        LessRunning(d, v.value);
        WholeRoomIsChunked(c, p, Preempt1(d, v.value), preempted + [v.value]);
      } else if |d.running| > 1 {
        SomeVictim(p, d);
      }
    }
  }

  lemma NeedsDefined(c: Config, d: Sched)
    requires QueuesOk(d)
    ensures d.sys.bs > 0 && (forall r :: r in d.running ==> r in d.sys.reqs)
  {
  }

  lemma LessRunning(d: Sched, v: nat)
    requires QueuesOk(d) && v in d.running
    ensures QueuesOk(Preempt1(d, v)) && |Preempt1(d, v).running| < |d.running|
  {
  }

  /** A lone running request is a victim only when it is spent, and then it needs nothing. */
  lemma LoneVictimSpent(c: Config, p: Policy, d: Sched)
    requires PolicyOk(p) && QueuesOk(d) && Victim(p, d, d.running).Some? && |d.running| <= 1
    ensures Sum(StepNeeds(c, d.sys), d.running) <= Avail(d.sys.kv)
  {
    hide PolicyOk, Avail;
    var v := Victim(p, d, d.running).value;
    assert d.running == [v] && Spent(d.sys.reqs[v]);
    SpentNeedsNone(c, d.sys.bs, d.sys.reqs[v]);
    assert Sum(StepNeeds(c, d.sys), [v]) == 0;
  }

  // ------------------------------------------------------------ the assertion of the scheduler

  /** What the pool must look like for `schedule` to fail its assertion: nothing was admitted first,
      and the earliest unspent running request does not fit beside what it pins. */
  ghost predicate Cornered(c: Config, p: Policy, d: Sched)
    requires PolicyOk(p) && QueuesOk(d)
  {
    && LoneTooBig(c, d)
    && (c.chunk == 0 ==> AdmitLoop(c, d, p.order(d.waiting, d.sys), |d.running|, c.maxPrefill, 0).running == d.running)
  }

  lemma NoneAdmitted(c: Config, d: Sched, order: seq<nat>, base: nat, budget: int, reserved: int)
    requires QueuesOk(d) && base <= |d.running| && OrderOk(d, order)
    requires AdmitLoop(c, d, order, base, budget, reserved).running[|d.running|..] == []
    ensures AdmitLoop(c, d, order, base, budget, reserved) == d
  {
  }

  /** The assertion "a lone request does not fit in the pool" fails in exactly these states. Under
      every policy the outcome is the same. */
  lemma LoneExactly(c: Config, p: Policy, d: Sched)
    requires PolicyOk(p) && Good(c, d) && (c.chunk == 0 ==> NoPartial(d))
    ensures QueuesOk(d)
    ensures Schedule(c, p, d) == Lone <==> Cornered(c, p, d)
  {
    hide PolicyOk, Good, LoneTooBig, MakeRoom, MakeRoomChunked, QueuesOk, AdmitLoop, AdmitRest;
    GoodInv(c, d);
    RoomIffFirstFits(c, p, d, []);
    if c.chunk == 0 {
      OrderWaits(p, d);
      WholeRoomIsChunked(c, p, d, []);
      var d1 := AdmitLoop(c, d, p.order(d.waiting, d.sys), |d.running|, c.maxPrefill, 0);
      if d1.running[|d.running|..] == [] {
        NoneAdmitted(c, d, p.order(d.waiting, d.sys), |d.running|, c.maxPrefill, 0);
      }
    }
  }

  /** The pool a request's whole length takes. */
  function PeakBlocks(c: Config, bs: nat, q: Req): nat
    requires bs > 0 && c.tps >= 1
  {
    CeilDiv(|q.prompt| + q.maxNew + c.tps - 1, bs)
  }

  /** A running request's blocks and what it still needs are within its peak. */
  lemma NeedWithinPeak(c: Config, d: Sched, r: nat)
    requires Good(c, d) && r in d.running && r in d.sys.reqs && !Spent(d.sys.reqs[r])
    ensures ConfigOk(c) && d.sys.bs > 0 && d.sys.reqs[r].table.Some?
    ensures StepNeed(c.tps, d.sys.bs, d.sys.reqs[r]) > 0 ==>
      |d.sys.reqs[r].table.value.blocks| + StepNeed(c.tps, d.sys.bs, d.sys.reqs[r]) <= PeakBlocks(c, d.sys.bs, d.sys.reqs[r])
  {
    hide Reachable, LiveOk, Stream;
    GoodInv(c, d);
    GoodReq(c, d, r);
    var q := d.sys.reqs[r];
    if q.state == PREFILL {
      CeilMono(SeqLen(q) + 1, |q.prompt| + q.maxNew + c.tps - 1, d.sys.bs);
    } else {
      CeilMono(q.table.value.numTokens + c.tps, |q.prompt| + q.maxNew + c.tps - 1, d.sys.bs);
    }
  }

  lemma PinnedSize(kv: Kv, r: nat)
    requires KvOk(kv) && r in kv.held
    ensures |PinnedBy(kv, r)| <= |kv.held[r].blocks| + |kv.held[r].path|
    ensures kv.cached == map[] ==> |PinnedBy(kv, r)| == |kv.held[r].blocks|
    ensures |kv.held[r].path| <= |kv.held[r].blocks|
    ensures |PinnedBy(kv, r)| <= kv.numBlocks
  {
    var h := kv.held[r];
    assert HoldOk(kv, h) && CachedOk(kv);
    SeqSize(h.blocks);
    var onPath := set p | p in kv.cached && p <= h.path :: kv.cached[p];
    var path := PathBlocks(kv.cached, h.path);
    forall b | b in onPath ensures b in SetOf(path) {
      var p :| p in kv.cached && p <= h.path && kv.cached[p] == b;
      assert path[|p| - 1] == kv.cached[h.path[..|p| - 1 + 1]] && h.path[..|p| - 1 + 1] == p;
    }
    PathBlocksDistinct(kv, h.path);
    SeqSize(path);
    CardLe(onPath, SetOf(path));
    PinnedHas(kv, r);
    CardLe(PinnedBy(kv, r), AllBlocks(kv.numBlocks));
  }

  /** The assertion never fails without a prefix cache; nor with one, if the pool is twice what any
      single request can need. */
  lemma NeverLone(c: Config, p: Policy, d: Sched)
    requires PolicyOk(p) && Good(c, d) && (c.chunk == 0 ==> NoPartial(d)) && ConfigOk(c) && d.sys.bs > 0
    requires !d.sys.radix || forall r :: r in d.sys.reqs ==> 2 * PeakBlocks(c, d.sys.bs, d.sys.reqs[r]) <= d.sys.kv.numBlocks
    ensures QueuesOk(d) && Schedule(c, p, d).Plan?
  {
    hide PolicyOk, Good, QueuesOk, PinnedBy, StepNeed, Inv, AdmitLoop, Schedule, PeakBlocks;
    GoodInv(c, d);
    LoneExactly(c, p, d);
    if LoneTooBig(c, d) {
      var f := FirstLive(d).value;
      assert f in Only(d.running, LiveSet(d.sys.reqs));
      FirstFits(c, d, f);
    }
  }

  lemma FirstFits(c: Config, d: Sched, f: nat)
    requires Good(c, d) && ConfigOk(c) && d.sys.bs > 0 && f in d.running && f in d.sys.reqs && !Spent(d.sys.reqs[f])
    requires !d.sys.radix || 2 * PeakBlocks(c, d.sys.bs, d.sys.reqs[f]) <= d.sys.kv.numBlocks
    ensures f in d.sys.kv.held
    ensures StepNeed(c.tps, d.sys.bs, d.sys.reqs[f]) <= d.sys.kv.numBlocks - |PinnedBy(d.sys.kv, f)|
  {
    hide Reachable, PinnedBy, StepNeed, Inv, LiveOk, ReqTokens;
    GoodInv(c, d);
    KvOfInv(d.sys);
    GoodReq(c, d, f);
    NeedWithinPeak(c, d, f);
    PinnedSize(d.sys.kv, f);
    TableIsHeld(d.sys, f);
  }

  lemma TableIsHeld(s: Sys, r: nat)
    requires r in s.reqs && r in s.kv.held && ReqOk(s.next, s.bs, s.store, s.kv.held, r, s.reqs[r])
    ensures s.reqs[r].table.Some? && s.kv.held[r].blocks == s.reqs[r].table.value.blocks
  {
  }
}

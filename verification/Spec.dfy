/** Speculative decoding on top of the engine: a decode batch runs a round (propose, verify, settle),
    everything else runs as in the plain engine. */
module SpecEngines {
  import opened Common
  import opened BlockPool
  import opened BlockTables
  import opened TreeShape
  import opened TokenChunks
  import opened KvState
  import opened KvCache
  import opened Device
  import opened Requests
  import opened Verification
  import opened Machine
  import opened MachineInv
  import opened MachineSteps
  import opened MachineTheorems
  import opened Scheduling
  import opened ScheduleSafe
  import opened ScheduleRoom
  import opened ScheduleOrder
  import opened Policies
  import opened Schedulers
  import opened Launching
  import opened ReadingBack
  import opened Passes
  import opened Stepping
  import opened Shaping
  import opened Progress
  import opened Engines
  import opened SpecRounds
  import opened SpecShares
  import opened SpecGains
  import D = Drafts

  class SpecEngine {
    const eng: Engine
    const draft: D.DraftRunner
    const gamma: nat

    ghost function View(): Sched
      reads eng, eng.sched
    {
      eng.sched.View()
    }

    /** Two pools of one size, apart from each other; no overlap and no prefix cache; the scheduler
        budgets for a whole round. */
    ghost predicate Apart()
      reads eng, eng.sched
    {
      && draft.kv != eng.sched.kv && draft.kv.allocator != eng.sched.kv.allocator
      && draft.kv.allocator.numBlocks == eng.sched.kv.allocator.numBlocks
      && draft.kv.allocator.blockSize == eng.sched.kv.allocator.blockSize
      && draft.kv.tree == null && eng.sched.kv.tree == null && !eng.overlap && eng.sched.c.tps == gamma + 1
    }

    ghost predicate Valid()
      reads this, eng, eng.sched, eng.sched.kv, eng.sched.kv.allocator, eng.sched.kv.tree
      reads draft, draft.kv, draft.kv.allocator, draft.kv.tree
    {
      Apart() && eng.Valid() && draft.Valid() && DraftOk(View(), draft.tables)
    }

    constructor (eng: Engine, draft: D.DraftRunner, gamma: nat)
      requires eng.Valid() && draft.Valid() && draft.tables == map[]
      requires draft.kv != eng.sched.kv && draft.kv.allocator != eng.sched.kv.allocator
      requires draft.kv.allocator.numBlocks == eng.sched.kv.allocator.numBlocks
      requires draft.kv.allocator.blockSize == eng.sched.kv.allocator.blockSize
      requires eng.sched.kv.tree == null && !eng.overlap && eng.sched.c.tps == gamma + 1
      ensures Valid() && this.eng == eng && this.draft == draft && this.gamma == gamma
    {
      this.eng, this.draft, this.gamma := eng, draft, gamma;
      new;
      draft.Facts();
    }

    // ------------------------------------------------------------ the draft side of a step

    /** `draft.release` of every listed request. */
    method ReleaseDrafts(rids: seq<nat>)
      requires draft.Valid()
      modifies draft`tables, draft`passes, draft.kv, draft.kv.allocator
      ensures draft.Valid() && draft.tables == Dropping(old(draft.tables), rids)
    {
      hide D.DraftRunner.Valid;
      for i := 0 to |rids|
        invariant draft.Valid()
        invariant draft.tables == Dropping(old(draft.tables), rids[..i])
      {
        draft.Release(rids[i]);
        assert rids[..i + 1] == rids[..i] + [rids[i]];
      }
      assert rids[..|rids|] == rids;
    }

    /** `draft.release` of the requests of a batch that ended in its step. */
    method ReleaseEnded(rids: seq<nat>)
      requires draft.Valid()
      modifies draft`tables, draft`passes, draft.kv, draft.kv.allocator
      ensures draft.Valid() && draft.tables == Staying(old(draft.tables), rids, eng.sched.reqs)
    {
      hide D.DraftRunner.Valid;
      for i := 0 to |rids|
        invariant draft.Valid()
        invariant draft.tables == Staying(old(draft.tables), rids[..i], eng.sched.reqs)
      {
        assert rids[..i + 1] == rids[..i] + [rids[i]];
        if rids[i] !in eng.sched.reqs { draft.Release(rids[i]); }
      }
      assert rids[..|rids|] == rids;
    }

    /** `_draft_prefill`: gives the draft the KV of every request that has none, up to its last token. */
    method DraftPrefill(rids: seq<nat>)
      requires Apart() && eng.Tied() && Good(eng.sched.c, View()) && draft.Valid() && DraftOk(View(), draft.tables)
      requires Distinct(rids) && forall r :: r in rids ==> InDecode(View(), r)
      modifies draft`tables, draft`passes, draft.kv, draft.kv.allocator
      ensures draft.Valid() && DraftOk(View(), draft.tables) && (forall r :: r in rids ==> r in draft.tables)
      ensures Primed(eng.sched.sys.reqs, old(draft.tables), draft.tables, rids)
    {
      hide Apart, Engine.Tied, D.DraftRunner.Valid, Good, DraftOk, InDecode, D.GrewBy, Primed, Listed, Items;
      ApartFacts();
      ghost var t0 := draft.tables;
      var items := AdmitAll(rids);
      ghost var ta := draft.tables;
      PrefillItems(items);
      PrimedBy(eng.sched.c, View(), t0, ta, draft.tables, rids, items);
    }

    method PrefillItems(items: seq<D.Row>)
      requires Apart() && eng.Tied() && Good(eng.sched.c, View()) && draft.Valid() && DraftOk(View(), draft.tables)
      requires Items(View(), draft.tables, items)
      modifies draft`tables, draft`passes, draft.kv, draft.kv.allocator
      ensures draft.Valid() && DraftOk(View(), draft.tables) && D.GrewBy(old(draft.tables), draft.tables, items)
    {
      hide D.GrewBy, Apart, Engine.Tied, D.DraftRunner.Valid, Good, DraftOk, InDecode, D.SharesOk, D.Within;
      ApartFacts();
      eng.TiedFacts();
      DraftPool();
      PlainShares(eng.sched.c, View(), draft.Pool(), draft.tables);
      ItemsWithin(eng.sched.c, View(), draft.tables, items);
      ghost var t1 := draft.tables;
      var ok := draft.Prefill(items, eng.sched.running, HeldSizes(eng.sched.sys.kv));
      DraftPool();
      PrefillKeepsDraft(eng.sched.c, View(), t1, draft.tables, items, draft.Pool());
    }

    lemma ApartFacts()
      requires Apart()
      ensures draft.kv != eng.sched.kv && draft.kv.allocator != eng.sched.kv.allocator
      ensures draft.kv.allocator.numBlocks == eng.sched.kv.allocator.numBlocks
      ensures draft.kv.allocator.blockSize == eng.sched.kv.allocator.blockSize
      ensures draft.kv.tree == null && eng.sched.kv.tree == null && !eng.overlap && eng.sched.c.tps == gamma + 1
    {
    }

    /** The draft's pool in terms of its tables. */
    lemma DraftPool()
      requires draft.Valid()
      ensures draft.Pool().numBlocks == draft.kv.allocator.numBlocks && draft.Pool().held.Keys == draft.tables.Keys
      ensures forall r :: r in draft.tables ==> draft.Pool().held[r].blocks == draft.tables[r].blocks
    {
      draft.Facts();
    }

    /** Requests without a draft table get one; those it holds nothing of are to be prefilled. */
    method AdmitAll(rids: seq<nat>) returns (items: seq<D.Row>)
      requires eng.Tied() && Good(eng.sched.c, View()) && draft.Valid() && DraftOk(View(), draft.tables)
      requires Apart() && Distinct(rids) && forall r :: r in rids ==> InDecode(View(), r)
      modifies draft`tables, draft`passes, draft.kv, draft.kv.allocator
      ensures draft.Valid() && DraftOk(View(), draft.tables) && (forall r :: r in rids ==> r in draft.tables)
      ensures Items(View(), draft.tables, items) && Listed(old(draft.tables), draft.tables, rids, items)
    {
      hide D.DraftRunner.Valid, Good, DraftOk, InDecode, Apart, Engine.Tied, Listed, Items;
      ApartFacts();
      ghost var t0 := draft.tables;
      items := [];
      NoneListed(t0);
      NoItems(View(), draft.tables);
      for i := 0 to |rids|
        invariant eng.Tied() && Good(eng.sched.c, View()) && draft.Valid() && DraftOk(View(), draft.tables)
        invariant Items(View(), draft.tables, items) && Listed(t0, draft.tables, rids[..i], items)
      {
        items := AdmitNext(rids, i, t0, items);
      }
      assert rids[..|rids|] == rids;
      ListedKeys(t0, draft.tables, rids, items);
    }

    method AdmitNext(rids: seq<nat>, i: nat, ghost t0: map<nat, Table>, items: seq<D.Row>) returns (items': seq<D.Row>)
      requires Apart() && eng.Tied() && Good(eng.sched.c, View()) && draft.Valid() && DraftOk(View(), draft.tables)
      requires i < |rids| && Distinct(rids) && InDecode(View(), rids[i])
      requires Items(View(), draft.tables, items) && Listed(t0, draft.tables, rids[..i], items)
      modifies draft`tables, draft`passes, draft.kv, draft.kv.allocator
      ensures eng.Tied() && Good(eng.sched.c, View()) && draft.Valid() && DraftOk(View(), draft.tables)
      ensures Items(View(), draft.tables, items') && Listed(t0, draft.tables, rids[..i + 1], items')
    {
      hide D.DraftRunner.Valid, Good, DraftOk, InDecode, Apart, Engine.Tied, Listed, Items;
      ghost var t1 := draft.tables;
      var r := rids[i];
      assert r !in rids[..i];
      ItemsListed(t0, t1, rids[..i], items, r);
      GiveTable(r, items);
      DecodeHasTable(eng.sched.c, View(), r);
      eng.TiedFacts();
      items' := items;
      if draft.Covered(r) == 0 && SeqLen(eng.sched.reqs[r]) > 1 {
        ItemJoins(View(), draft.tables, items, r);
        items' := items + [D.Row(r, SeqLen(eng.sched.reqs[r]) - 1)];
      }
      ListedMore(t0, t1, draft.tables, rids, i, items, items');
    }

    /** An empty draft table, unless it has one. */
    method GiveTable(r: nat, ghost items: seq<D.Row>)
      requires Apart() && eng.Tied() && Good(eng.sched.c, View()) && draft.Valid() && DraftOk(View(), draft.tables)
      requires InDecode(View(), r) && Items(View(), draft.tables, items)
      modifies draft`tables, draft`passes, draft.kv, draft.kv.allocator
      ensures eng.Tied() && Good(eng.sched.c, View()) && draft.Valid() && DraftOk(View(), draft.tables)
      ensures Items(View(), draft.tables, items) && r in draft.tables
      ensures draft.tables == if r in old(draft.tables) then old(draft.tables) else old(draft.tables)[r := Table([], 0)]
    {
      hide D.DraftRunner.Valid, Good, DraftOk, InDecode, Apart, Engine.Tied, Items;
      ApartFacts();
      DecodeHasTable(eng.sched.c, View(), r);
      if r !in draft.tables {
        ghost var t0 := draft.tables;
        var ok := draft.Admit(r);
        AdmitKeepsDraft(View(), t0, draft.tables, items, r);
      }
    }

    // ------------------------------------------------------------ propose

    /** The check at the start of a round: the target covers all but the last token of each request. */
    method LengthsAgree(rids: seq<nat>) returns (ok: bool)
      requires eng.Tied() && forall r :: r in rids ==> r in eng.sched.sys.reqs && eng.sched.sys.reqs[r].table.Some?
      ensures ok <==> forall r :: r in rids ==> eng.sched.sys.reqs[r].table.value.numTokens == SeqLen(eng.sched.sys.reqs[r]) - 1
    {
      hide Engine.Tied;
      eng.TiedFacts();
      for i := 0 to |rids|
        invariant forall j :: 0 <= j < i ==> eng.sched.sys.reqs[rids[j]].table.value.numTokens == SeqLen(eng.sched.sys.reqs[rids[j]]) - 1
      {
        assert rids[i] in rids;
        if eng.sched.reqs[rids[i]].table.value.numTokens != SeqLen(eng.sched.reqs[rids[i]]) - 1 { return false; }
      }
      return true;
    }

    /** `_first_step_starts`: the draft is fed from where it stands, or, for a captured graph of width
        two, from two tokens before the end of every request, if none misses more. */
    method FirstStep(rids: seq<nat>, graph: bool) returns (rows: seq<D.Row>)
      requires eng.Tied() && draft.Valid() && DraftOk(View(), draft.tables)
      requires Distinct(rids) && forall r :: r in rids ==> r in draft.tables
      modifies draft`tables
      ensures draft.Valid() && draft.Pool() == old(draft.Pool()) && DraftOk(View(), draft.tables)
      ensures draft.tables.Keys == old(draft.tables).Keys && Feeds(eng.sched.sys.reqs, draft.tables, rids, rows)
      ensures if graph && MissTwo(eng.sched.reqs, old(draft.tables), rids) then BackTwo(eng.sched.reqs, old(draft.tables), draft.tables, rids)
              else draft.tables == old(draft.tables)
    {
      hide D.DraftRunner.Valid, DraftOk, Engine.Tied, Feeds, MissTwo, BackTwo;
      var two := false;
      if graph { two := AllMissTwo(rids); }
      if two { RewindAll(rids); }
      rows := FeedRows(rids);
    }

    /** Whether no request misses more than its last two tokens. */
    method AllMissTwo(rids: seq<nat>) returns (two: bool)
      requires eng.Tied() && DraftOk(View(), draft.tables) && forall r :: r in rids ==> r in draft.tables
      ensures two <==> MissTwo(eng.sched.reqs, draft.tables, rids)
    {
      hide DraftOk, Engine.Tied;
      eng.TiedFacts();
      for i := 0 to |rids|
        invariant forall j :: 0 <= j < i ==>
          && rids[j] in eng.sched.reqs && rids[j] in draft.tables
          && 2 <= SeqLen(eng.sched.reqs[rids[j]]) <= draft.tables[rids[j]].numTokens + 2
      {
        DraftReq(View(), draft.tables, rids[i]);
        var len := SeqLen(eng.sched.reqs[rids[i]]);
        if !(2 <= len && len - 2 <= draft.Covered(rids[i])) { return false; }
      }
      return true;
    }

    method FeedRows(rids: seq<nat>) returns (rows: seq<D.Row>)
      requires eng.Tied() && DraftOk(View(), draft.tables) && forall r :: r in rids ==> r in draft.tables
      ensures Feeds(eng.sched.sys.reqs, draft.tables, rids, rows)
    {
      hide DraftOk, Engine.Tied, Feeds;
      eng.TiedFacts();
      rows := [];
      NothingFed(eng.sched.sys.reqs, draft.tables);
      for k := 0 to |rids|
        invariant Feeds(eng.sched.sys.reqs, draft.tables, rids[..k], rows)
      {
        DraftReq(View(), draft.tables, rids[k]);
        FeedJoins(eng.sched.sys.reqs, draft.tables, rids, rows, k);
        rows := rows + [D.Row(rids[k], SeqLen(eng.sched.reqs[rids[k]]) - draft.Covered(rids[k]))];
      }
      assert rids[..|rids|] == rids;
    }

    /** Every request is rewound to two tokens before its end. */
    method RewindAll(rids: seq<nat>)
      requires eng.Tied() && draft.Valid() && DraftOk(View(), draft.tables)
      requires Distinct(rids) && MissTwo(eng.sched.reqs, draft.tables, rids)
      modifies draft`tables
      ensures draft.Valid() && draft.Pool() == old(draft.Pool()) && DraftOk(View(), draft.tables)
      ensures draft.tables.Keys == old(draft.tables).Keys && BackTwo(eng.sched.reqs, old(draft.tables), draft.tables, rids)
    {
      hide D.DraftRunner.Valid, DraftOk, Engine.Tied;
      ghost var t0 := draft.tables;
      for i := 0 to |rids|
        invariant draft.Valid() && draft.Pool() == old(draft.Pool()) && DraftOk(View(), draft.tables)
        invariant draft.tables.Keys == old(draft.tables).Keys && BackTwo(eng.sched.reqs, t0, draft.tables, rids[..i])
      {
        ghost var t := draft.tables;
        assert rids[i] in rids && rids[i] !in rids[..i];
        assert rids[..i + 1] == rids[..i] + [rids[i]];
        draft.RewindTo(rids[i], SeqLen(eng.sched.reqs[rids[i]]) - 2);
        ShorterFits(View(), t, draft.tables, rids[i]);
      }
      assert rids[..|rids|] == rids;
    }

    /** The draft's part of a round. It cannot run out of blocks: each request's share is what the
        target is about to hold for it. */
    method ProposeRound(b: Batch, graph: bool, guess: D.Guesser) returns (proposals: seq<seq<nat>>)
      requires Apart() && gamma >= 1 && eng.Tied() && Good(eng.sched.c, View()) && BatchOk(eng.sched.c, View(), b)
      requires b.phase == DecodeOnly && draft.Valid() && DraftOk(View(), draft.tables)
      requires forall r :: r in Rids(b.rows) ==> r in draft.tables
      modifies draft`tables, draft`passes, draft.kv, draft.kv.allocator
      ensures draft.Valid() && Ahead(View(), draft.tables, Rids(b.rows)) && eng.sched.sys.bs > 0
      ensures WithinShares(draft.tables, eng.sched.sys.kv.numBlocks, eng.sched.running, RoundShares(eng.sched.c, eng.sched.sys, Rids(b.rows)))
      ensures |proposals| == |b.rows| && forall i :: 0 <= i < |proposals| ==> proposals[i] == D.Guesses(guess, Rids(b.rows)[i], gamma)
      ensures Proposing(eng.sched.sys.reqs, old(draft.tables), draft.tables, Rids(b.rows), gamma)
    {
      hide Proposing, BackTwo, MissTwo, Apart, D.DraftRunner.Valid, DraftOk, Engine.Tied, Feeds, Good, BatchOk, D.SharesOk, D.Within, WithinShares, Ahead, D.GrewBy, Rids;
      ApartFacts();
      eng.TiedFacts();
      BatchDistinct(eng.sched.c, View(), b);
      ghost var share := RoundShares(eng.sched.c, eng.sched.sys, Rids(b.rows));
      ghost var was := draft.tables;
      var rows := FirstStep(Rids(b.rows), graph);
      OthersAsBefore(eng.sched.reqs, was, draft.tables, Rids(b.rows), graph);
      DraftPool();
      RoundSharesOk(eng.sched.c, View(), b, draft.Pool(), draft.tables);
      RoundWithin(eng.sched.c, View(), b, draft.tables, rows);
      ghost var t0 := draft.tables;
      FedRows(eng.sched.sys.reqs, t0, Rids(b.rows), rows);
      proposals := draft.Propose(rows, gamma, guess, eng.sched.running, share);
      ProposedAhead(View(), t0, draft.tables, Rids(b.rows), D.Longer(rows, gamma - 1));
      ProposingIs(eng.sched.sys.reqs, was, t0, draft.tables, Rids(b.rows), rows, gamma);
      DraftPool();
      SharesOfTables(draft.Pool(), draft.tables, eng.sched.running, share);
    }

    // ------------------------------------------------------------ verify

    /** The verify pass over one request. */
    method VerifyRow(r: nat, proposals: seq<nat>)
      requires eng.Tied() && !eng.sched.sys.radix && r in eng.sched.sys.reqs && Verifiable(eng.sched.sys.reqs[r], |proposals|)
      modifies eng`store, eng.sched`reqs, eng.sched`sys
      ensures eng.Tied() && r in eng.sched.sys.reqs && r in old(eng.sched.sys).reqs
      ensures eng.sched.sys == old(eng.sched.sys).(reqs := eng.sched.sys.reqs, store := eng.store)
      ensures eng.sched.sys.reqs == old(eng.sched.sys).reqs[r := eng.sched.sys.reqs[r]]
      ensures eng.sched.sys.reqs[r].row.Verified? && eng.sched.sys.reqs[r].row.proposals == proposals
      ensures eng.sched.sys.reqs[r] == old(eng.sched.sys).reqs[r].(row := eng.sched.sys.reqs[r].row)
    {
      hide Engine.Tied, Reachable, QueuesOk, KVCacheManager.Valid, KVCacheManager.View, WriteRow, InPool;
      eng.TiedFacts();
      ghost var d := View();
      MayVerify(d.sys, r, proposals);
      var q := eng.sched.reqs[r];
      var (t, bs) := (q.table.value, eng.sched.kv.allocator.blockSize);
      eng.store := VerifiedStore(eng.store, q, proposals, bs);
      var chosen := Choices(eng.store, t.blocks, bs, eng.next, q.seed, SeqLen(q), |proposals|);
      eng.SetRecord(r, q.(row := Verified(proposals, chosen)), Checked(d.sys, r, proposals));
      QueuesStay(d, eng.sched.sys, r);
      eng.IsTied();
    }

    /** The verify pass of the round. */
    method VerifyRows(rids: seq<nat>, proposals: seq<seq<nat>>)
      requires eng.Tied() && !eng.sched.sys.radix && Distinct(rids) && |proposals| == |rids|
      requires forall i :: 0 <= i < |rids| ==> rids[i] in eng.sched.sys.reqs && Verifiable(eng.sched.sys.reqs[rids[i]], |proposals[i]|)
      modifies eng`store, eng.sched`reqs, eng.sched`sys
      ensures eng.Tied() && eng.sched.sys == old(eng.sched.sys).(reqs := eng.sched.sys.reqs, store := eng.store)
      ensures AllChecked(old(eng.sched.sys).reqs, eng.sched.sys.reqs, rids)
      ensures Proposed(eng.sched.sys.reqs, rids, proposals)
    {
      hide Engine.Tied, AllChecked, Verifiable;
      ghost var s1 := eng.sched.sys;
      eng.TiedFacts();
      NothingChecked(s1.reqs);
      for i := 0 to |rids|
        invariant eng.Tied() && eng.sched.sys == s1.(reqs := eng.sched.sys.reqs, store := eng.store)
        invariant AllChecked(s1.reqs, eng.sched.sys.reqs, rids[..i])
        invariant forall j :: 0 <= j < i ==>
          rids[j] in eng.sched.sys.reqs && eng.sched.sys.reqs[rids[j]].row.Verified? && eng.sched.sys.reqs[rids[j]].row.proposals == proposals[j]
      {
        ghost var reqs2 := eng.sched.sys.reqs;
        CheckNext(s1.reqs, reqs2, rids, i);
        VerifyRow(rids[i], proposals[i]);
        CheckedSnoc(s1.reqs, reqs2, eng.sched.sys.reqs[rids[i]], rids, i);
      }
      assert rids[..|rids|] == rids;
    }

    // ------------------------------------------------------------ settle

    /** `_settle`: what the round produced for one request. */
    method SettleRow(r: nat)
      requires eng.Tied() && Rounding(eng.sched.c, View()) && r in eng.sched.sys.reqs && eng.sched.sys.reqs[r].row.Verified?
      modifies eng`done, eng.sched`reqs, eng.sched`nodes, eng.sched`sys, eng.sched`waiting, eng.sched`running
      modifies eng.sched.kv, eng.sched.kv.allocator, eng.sched.kv.tree
      ensures eng.Tied() && CanSettle(old(eng.sched.sys), r) && View() == SettleAt(old(View()), r)
    {
      hide Engine.Tied, Reachable, QueuesOk, Rounding, MayRelease, KeepOf, RoundEnds, Left, AcceptedTokens;
      eng.TiedFacts();
      ghost var d := View();
      var c := eng.sched.c;
      SettleRounding(c, d, r);
      SettleEffect(c, d, r);
      SettledTied(c, d, r);
      var q := eng.sched.reqs[r];
      var q' := SettledReq(q, KeepOf(q));
      if RoundEnds(q) {
        eng.Retire(r, q', FINISHED);
      } else {
        eng.SetRecord(r, q', SettledSys(d.sys, r));
        eng.IsTied();
      }
    }

    /** Settles the whole round; the draft follows every request. */
    method SettleRows(rids: seq<nat>, ghost running: seq<nat>, ghost share: map<nat, int>)
      requires Apart() && eng.Tied() && Rounding(eng.sched.c, View()) && Unsettled(eng.sched.sys.reqs, rids, 0)
      requires forall r :: r in rids ==> r in eng.sched.sys.reqs
      requires draft.Valid() && WithinShares(draft.tables, eng.sched.sys.kv.numBlocks, running, share)
      requires Settling(View(), View(), draft.tables, rids, 0)
      modifies eng`done, eng.sched`reqs, eng.sched`nodes, eng.sched`sys, eng.sched`waiting, eng.sched`running
      modifies eng.sched.kv, eng.sched.kv.allocator, eng.sched.kv.tree
      modifies draft`tables, draft`passes, draft.kv, draft.kv.allocator
      ensures eng.Tied() && View() == SettleFrom(old(View()), rids, 0)
      ensures draft.Valid() && WithinShares(draft.tables, old(eng.sched.sys).kv.numBlocks, running, share)
      ensures Settling(old(View()), View(), draft.tables, rids, |rids|)
      ensures TakenBack(eng.sched.sys.reqs, old(draft.tables), draft.tables, rids)
    {
      hide Apart, D.DraftRunner.Valid, Engine.Tied, Rounding, Unsettled, WithinShares, Settling, SettleAt, CanSettle, TakenBack;
      ghost var (d, n, t0) := (View(), eng.sched.sys.kv.numBlocks, draft.tables);
      NothingTakenBack(eng.sched.sys.reqs, t0);
      for i := 0 to |rids|
        invariant Apart() && eng.Tied() && Rounding(eng.sched.c, View()) && Unsettled(eng.sched.sys.reqs, rids, i)
        invariant forall j :: i <= j < |rids| ==> rids[j] in eng.sched.sys.reqs
        invariant draft.Valid() && WithinShares(draft.tables, n, running, share)
        invariant Settling(d, View(), draft.tables, rids, i)
        invariant SettleFrom(d, rids, 0) == SettleFrom(View(), rids, i)
        invariant TakenBack(eng.sched.sys.reqs, t0, draft.tables, rids[..i])
      {
        SettleNext(rids, i, d, n, t0, running, share);
      }
      assert rids[..|rids|] == rids;
    }

    method SettleNext(rids: seq<nat>, i: nat, ghost d: Sched, ghost n: nat, ghost t0: map<nat, Table>, ghost running: seq<nat>, ghost share: map<nat, int>)
      requires Apart() && eng.Tied() && Rounding(eng.sched.c, View()) && Unsettled(eng.sched.sys.reqs, rids, i)
      requires i < |rids| && forall j :: i <= j < |rids| ==> rids[j] in eng.sched.sys.reqs
      requires draft.Valid() && WithinShares(draft.tables, n, running, share) && Settling(d, View(), draft.tables, rids, i)
      requires TakenBack(eng.sched.sys.reqs, t0, draft.tables, rids[..i])
      modifies eng`done, eng.sched`reqs, eng.sched`nodes, eng.sched`sys, eng.sched`waiting, eng.sched`running
      modifies eng.sched.kv, eng.sched.kv.allocator, eng.sched.kv.tree
      modifies draft`tables, draft`passes, draft.kv, draft.kv.allocator
      ensures Apart() && eng.Tied() && Rounding(eng.sched.c, View()) && Unsettled(eng.sched.sys.reqs, rids, i + 1)
      ensures forall j :: i < j < |rids| ==> rids[j] in eng.sched.sys.reqs
      ensures draft.Valid() && WithinShares(draft.tables, n, running, share) && Settling(d, View(), draft.tables, rids, i + 1)
      ensures SettleFrom(old(View()), rids, i) == SettleFrom(View(), rids, i + 1)
      ensures TakenBack(eng.sched.sys.reqs, t0, draft.tables, rids[..i + 1])
    {
      hide TakenBack, D.DraftRunner.Valid, Engine.Tied, Rounding, Unsettled, WithinShares, Settling, SettleAt, CanSettle,
           KeepOf, RoundEnds, AcceptedTokens, SettledReq, HasVerdict, SettledSys, QueuesOk, Reachable;
      ghost var (d1, t1, c) := (View(), draft.tables, eng.sched.c);
      var r := rids[i];
      UnsettledAt(eng.sched.sys.reqs, rids, i);
      SettleEffect(c, d1, r);
      SettleRounding(c, d1, r);
      SettleRow(r);
      eng.TiedFacts();
      UnsettledMore(d1, View(), rids, i);
      RoundingPrompt(c, d1, r);
      FollowDraft(r);
      FollowShares(t1, draft.tables, n, running, share);
      FollowSettling(d, d1, View(), t1, draft.tables, rids, i);
      SettledPrompt(d1.sys.reqs[r]);
      FollowBack(d1.sys.reqs, eng.sched.sys.reqs, t0, t1, draft.tables, rids, i);
    }

    /** The draft gives back what the target did not keep, or all of it. */
    method FollowDraft(r: nat)
      requires draft.Valid() && eng.sched.reqs == eng.sched.sys.reqs
      modifies draft`tables, draft`passes, draft.kv, draft.kv.allocator
      ensures draft.Valid() && Followed(eng.sched.sys.reqs, old(draft.tables), draft.tables, r)
    {
      hide D.DraftRunner.Valid;
      if r !in eng.sched.reqs {
        draft.Release(r);
      } else if r in draft.tables && SeqLen(eng.sched.reqs[r]) >= 1 {
        draft.RewindTo(r, SeqLen(eng.sched.reqs[r]) - 1);
      }
    }

    // ------------------------------------------------------------ a round

    /** Room and verdicts for the round. The reservation cannot fail. */
    method CheckRound(b: Batch, proposals: seq<seq<nat>>) returns (ok: bool, ghost reqs1: map<nat, Req>)
      requires Apart() && gamma >= 1 && eng.Tied() && Good(eng.sched.c, View()) && BatchOk(eng.sched.c, View(), b)
      requires b.phase == DecodeOnly && forall r :: r in eng.sched.sys.reqs ==> eng.sched.sys.reqs[r].pending == 0
      requires |proposals| == |b.rows| && forall i :: 0 <= i < |proposals| ==> |proposals[i]| == gamma
      modifies eng`store, eng.sched`reqs, eng.sched`sys, eng.sched.kv, eng.sched.kv.allocator, eng.sched.kv.tree
      ensures ok && Apart() && eng.Tied() && Checking(eng.sched.c, old(View()), reqs1, View(), b)
      ensures Proposed(eng.sched.sys.reqs, Rids(b.rows), proposals)
      ensures eng.sched.sys.kv.numBlocks == old(eng.sched.sys).kv.numBlocks
    {
      hide Engine.Tied, Good, BatchOk, Rids, AllGrow, AllRoom, AllChecked, Verifiable, Avail, RoomFor, WideRows, Proposed, GrewInto;
      ApartFacts();
      eng.TiedFacts();
      ghost var (c, d) := (eng.sched.c, View());
      RidsSize(b.rows);
      WideFits(c, d, b);
      ok := eng.Reserve(WideRows(eng.sched.reqs, Rids(b.rows), gamma + 1));
      reqs1 := eng.sched.sys.reqs;
      if !ok { return; }
      RoomVerifiable(c, d, b, reqs1, proposals);
      VerifyRows(Rids(b.rows), proposals);
      eng.TiedFacts();
    }

    /** The target's part of a round after the proposals: room, verdicts, settlement. */
    method FinishRound(b: Batch, proposals: seq<seq<nat>>) returns (ok: bool)
      requires Apart() && gamma >= 1 && eng.Tied() && Good(eng.sched.c, View()) && BatchOk(eng.sched.c, View(), b)
      requires b.phase == DecodeOnly && Planned(eng.sched.c, eng.sched.policy, View(), b.rows)
      requires forall r :: r in eng.sched.sys.reqs ==> eng.sched.sys.reqs[r].pending == 0 && r < eng.nextRid
      requires draft.Valid() && Ahead(View(), draft.tables, Rids(b.rows)) && eng.sched.sys.bs > 0
      requires WithinShares(draft.tables, eng.sched.sys.kv.numBlocks, eng.sched.running, RoundShares(eng.sched.c, eng.sched.sys, Rids(b.rows)))
      requires |proposals| == |b.rows| && forall i :: 0 <= i < |proposals| ==> |proposals[i]| == gamma
      modifies eng`store, eng`done, eng.sched`reqs, eng.sched`nodes, eng.sched`sys, eng.sched`waiting, eng.sched`running
      modifies eng.sched.kv, eng.sched.kv.allocator, eng.sched.kv.tree
      modifies draft`tables, draft`passes, draft.kv, draft.kv.allocator
      ensures ok && eng.Tied() && draft.Valid()
      ensures RoundDone(eng.sched.c, eng.sched.policy, old(View()), View(), draft.tables, eng.nextRid)
      ensures AllGained(old(eng.sched.sys), eng.sched.sys, Rids(b.rows), RoundGains(eng.next, old(eng.sched.sys).reqs, Rids(b.rows), proposals))
      ensures TakenBack(eng.sched.sys.reqs, old(draft.tables), draft.tables, Rids(b.rows))
    {
      hide TakenBack, Apart, D.DraftRunner.Valid, Engine.Tied, Good, BatchOk, Planned, Ahead, WithinShares, Rids, RoundDone, RoundShares,
           Checking, Rounding, Shaped, Unsettled, Settling, Proposed, AllGained, RoundGains;
      ApartFacts();
      eng.TiedFacts();
      ghost var (c, d) := (eng.sched.c, View());
      ghost var (running, share) := (eng.sched.running, RoundShares(c, d.sys, Rids(b.rows)));
      ghost var reqs1;
      ok, reqs1 := CheckRound(b, proposals);
      ghost var d2 := View();
      RoundChecked(c, eng.sched.policy, d, reqs1, d2, b, draft.tables);
      eng.TiedFacts();
      SettleRows(Rids(b.rows), running, share);
      RoundSettled(c, eng.sched.policy, d, reqs1, d2, View(), b, draft.tables, eng.nextRid);
      RoundGained(c, d, reqs1, d2, View(), b, proposals);
    }

    // ------------------------------------------------------------ step

    /** A decode batch as a speculative round, whatever the draft proposes. */
    method RoundStep(b: Batch, graph: bool, guess: D.Guesser) returns (ok: Result<()>)
      requires Apart() && gamma >= 1 && eng.Tied() && Good(eng.sched.c, View()) && BatchOk(eng.sched.c, View(), b)
      requires b.phase == DecodeOnly && Planned(eng.sched.c, eng.sched.policy, View(), b.rows)
      requires forall r :: r in eng.sched.sys.reqs ==> eng.sched.sys.reqs[r].pending == 0 && r < eng.nextRid
      requires draft.Valid() && DraftOk(View(), draft.tables)
      modifies eng`store, eng`done, eng.sched`reqs, eng.sched`nodes, eng.sched`sys, eng.sched`waiting, eng.sched`running
      modifies eng.sched.kv, eng.sched.kv.allocator, eng.sched.kv.tree
      modifies draft`tables, draft`passes, draft.kv, draft.kv.allocator
      ensures ok.Ok? && eng.Tied() && draft.Valid() && Apart()
      ensures RoundDone(eng.sched.c, eng.sched.policy, old(View()), View(), draft.tables, eng.nextRid)
      ensures AllGained(old(eng.sched.sys), eng.sched.sys, Rids(b.rows), GainsOf(eng.next, old(eng.sched.sys).reqs, b, gamma, guess))
      ensures RoundTables(old(eng.sched.sys).reqs, eng.sched.sys.reqs, old(draft.tables), draft.tables, Rids(b.rows), gamma)
    {
      hide TakenBack, Primed, Proposing, RoundTables, D.DraftRunner.Valid, Engine.Tied, Good, BatchOk, Planned, Ahead, WithinShares, RoundDone, RoundShares, DraftOk, Rids, InDecode,
           AllGained, RoundGains, GainsOf;
      ApartFacts();
      BatchInDecode(eng.sched.c, View(), b);
      ghost var (reqs0, t0) := (eng.sched.sys.reqs, draft.tables);
      DraftPrefill(Rids(b.rows));
      ghost var ta := draft.tables;
      var agree := LengthsAgree(Rids(b.rows));
      if !agree { return Err(RuntimeError); }
      var proposals := ProposeRound(b, graph, guess);
      RoundGainsAre(eng.next, eng.sched.sys.reqs, b, gamma, guess, proposals);
      ghost var tb := draft.tables;
      var done := FinishRound(b, proposals);
      if !done { return Err(OutOfBlocks); }
      RoundTablesAre(reqs0, eng.sched.sys.reqs, t0, ta, tb, draft.tables, Rids(b.rows), gamma);
      ok := Ok(());
    }

    /** Any other batch: as in the plain engine, and the draft prefills what reached decoding. */
    method PlainStep(b: Batch) returns (ghost d2: Sched, ghost prev: Flight)
      requires Apart() && eng.Tied() && Good(eng.sched.c, View()) && BatchOk(eng.sched.c, View(), b)
      requires eng.inflight == None && FlightOk(None, eng.sched.sys.reqs) && draft.Valid() && DraftOk(View(), draft.tables)
      modifies eng`store, eng`inflight, eng`done, eng.sched`reqs, eng.sched`nodes, eng.sched`sys, eng.sched`waiting, eng.sched`running
      modifies eng.sched.kv, eng.sched.kv.allocator, eng.sched.kv.tree
      modifies draft`tables, draft`passes, draft.kv, draft.kv.allocator
      ensures Apart() && eng.Tied() && Good(eng.sched.c, View()) && eng.inflight == None && FlightOk(None, eng.sched.sys.reqs)
      ensures AllLaunched(old(eng.sched.sys).bs, old(eng.sched.sys).reqs, d2.sys.reqs, b.rows) && Loose(eng.sched.c, d2)
      ensures d2.waiting == old(View()).waiting && d2.running == old(View()).running && d2.sys.done == old(eng.sched.sys).done
      ensures View() == ReadFrom(d2, prev, 0) && FlightOf(prev, old(eng.sched.sys).reqs, d2.sys.reqs, b.rows) && d2.sys.next == eng.next
      ensures draft.Valid() && DraftOk(View(), draft.tables)
      ensures PlainTables(eng.sched.sys.reqs, old(draft.tables), draft.tables, Rids(b.rows), gamma)
    {
      hide Engine.Tied, Good, BatchOk, FlightOk, DraftOk, InAir, Loose, AllLaunched, LaunchedAs, ReadFrom, Rids, InDecode, FlightOf, Primed,
           DecodeStates, Staying;
      ApartFacts();
      ghost var d := View();
      var p := eng.LaunchHalf(Some(b));
      LaunchedFacts(Turn(d, Some(b), View(), p));
      d2, prev := View(), p.value;
      eng.TiedFacts();
      eng.ReadBackLaunched(p);
      ghost var t := draft.tables;
      ReleaseEnded(Rids(b.rows));
      eng.TiedFacts();
      EndedReleased(eng.sched.c, d, d2, View(), prev, b, t, draft.tables);
      if gamma > 0 {
        DistinctRows(eng.sched.c, d, b);
        var decoding := Only(Rids(b.rows), DecodeStates(eng.sched.reqs));
        OnlyDistinct(Rids(b.rows), DecodeStates(eng.sched.reqs));
        RunningOnes(eng.sched.c, View(), decoding);
        DraftPrefill(decoding);
      }
    }


    /** One step. It never fails: without a prefix cache the scheduler's assertion is out of reach, and
        neither pool runs out. With work left, it makes progress. */
    method Step(graph: bool, guess: D.Guesser) returns (r: Result<Option<Batch>>)
      requires Valid()
      modifies eng`store, eng`inflight, eng`done, eng.sched`reqs, eng.sched`nodes, eng.sched`sys, eng.sched`waiting, eng.sched`running
      modifies eng.sched.kv, eng.sched.kv.allocator, eng.sched.kv.tree
      modifies draft`tables, draft`passes, draft.kv, draft.kv.allocator
      ensures r.Ok? && Valid() && Carries(old(eng.sched.sys), eng.sched.sys)
      ensures PolicyOk(PolicyOf(eng.sched.policy)) && QueuesOk(old(View()))
      ensures var plan := Schedule(eng.sched.c, PolicyOf(eng.sched.policy), old(View())); plan.Plan? && plan.batch == r.value
      ensures old(eng.HasUnfinished()) ==> r.value.Some? && Less(old(View()), View(), eng.nextRid)
      ensures r.value.None? ==>
        Schedule(eng.sched.c, PolicyOf(eng.sched.policy), old(View())) == Plan(View(), None) && draft.tables == old(draft.tables)
      ensures r.value.Some? ==> var b := r.value.value;
        && AllGained(old(eng.sched.sys), eng.sched.sys, Rids(b.rows), GainsOf(eng.next, old(eng.sched.sys).reqs, b, gamma, guess))
        && DraftAfter(old(eng.sched.sys), eng.sched.sys, old(draft.tables), draft.tables, b, gamma)
    {
      hide DraftAfter, Engine.Tied, Engine.Valid, D.DraftRunner.Valid, Good, BatchOk, DraftOk, Shaped, FlightOk, PolicyOk, PolicyOf, Cornered,
           Carries, Less, QueuesOk, Schedule, Scheduler.Linked, Reachable, AllGained, GainsOf;
      ghost var (d, c, name) := (View(), eng.sched.c, eng.sched.policy);
      ApartFacts();
      eng.ValidParts();
      eng.TiedFacts();
      NeverCornered(c, name, d);
      var plan := eng.NextBatch();
      if plan.Err? { return Err(AssertionError); }
      ghost var d1 := View();
      if plan.value.None? {
        IdleStep(c, name, d, d1, draft.tables);
        CarriesScheduled(c, name, d, d1);
        eng.IsValid(d.sys);
        return Ok(None);
      }
      RunBatch(plan.value.value, graph, guess, d);
      return Ok(plan.value);
    }

    /** Preempted requests leave the draft; then a round, or a plain step. */
    method RunBatch(b: Batch, graph: bool, guess: D.Guesser, ghost d: Sched)
      requires Apart() && eng.Tied() && Good(eng.sched.c, View()) && BatchOk(eng.sched.c, View(), b)
      requires draft.Valid() && DraftOk(d, draft.tables) && eng.inflight == None && FlightOk(None, eng.sched.sys.reqs)
      requires StepStart(eng.sched.c, eng.sched.policy, d, View(), b, eng.nextRid) && d.sys.next == eng.next
      modifies eng`store, eng`inflight, eng`done, eng.sched`reqs, eng.sched`nodes, eng.sched`sys, eng.sched`waiting, eng.sched`running
      modifies eng.sched.kv, eng.sched.kv.allocator, eng.sched.kv.tree
      modifies draft`tables, draft`passes, draft.kv, draft.kv.allocator
      ensures Valid() && Carries(d.sys, eng.sched.sys) && Less(d, View(), eng.nextRid)
      ensures AllGained(d.sys, eng.sched.sys, Rids(b.rows), GainsOf(eng.next, d.sys.reqs, b, gamma, guess))
      ensures DraftAfter(d.sys, eng.sched.sys, old(draft.tables), draft.tables, b, gamma)
    {
      hide DraftAfter, Dropping, Engine.Tied, Engine.Valid, D.DraftRunner.Valid, Good, BatchOk, DraftOk, FlightOk, Carries, Less, StepStart, AllGained,
           GainsOf;
      PlannedFacts(eng.sched.c, eng.sched.policy, d, View(), b, draft.tables, eng.nextRid);
      ghost var t := draft.tables;
      ReleaseDrafts(b.preempted);
      if gamma > 0 && b.phase == DecodeOnly {
        RoundBatch(b, graph, guess, d, t);
      } else {
        PlainBatch(b, guess, d, t);
      }
    }

    method RoundBatch(b: Batch, graph: bool, guess: D.Guesser, ghost d: Sched, ghost t: map<nat, Table>)
      requires Apart() && gamma >= 1 && eng.Tied() && Good(eng.sched.c, View()) && BatchOk(eng.sched.c, View(), b)
      requires b.phase == DecodeOnly && draft.Valid() && DraftOk(View(), draft.tables) && eng.inflight == None
      requires StepStart(eng.sched.c, eng.sched.policy, d, View(), b, eng.nextRid) && d.sys.next == eng.next
      requires draft.tables == Dropping(t, b.preempted)
      modifies eng`store, eng`inflight, eng`done, eng.sched`reqs, eng.sched`nodes, eng.sched`sys, eng.sched`waiting, eng.sched`running
      modifies eng.sched.kv, eng.sched.kv.allocator, eng.sched.kv.tree
      modifies draft`tables, draft`passes, draft.kv, draft.kv.allocator
      ensures Valid() && Carries(d.sys, eng.sched.sys) && Less(d, View(), eng.nextRid)
      ensures AllGained(d.sys, eng.sched.sys, Rids(b.rows), GainsOf(eng.next, d.sys.reqs, b, gamma, guess))
      ensures DraftAfter(d.sys, eng.sched.sys, t, draft.tables, b, gamma)
    {
      hide RoundTables, PlainTables, Dropping, Engine.Tied, Engine.Valid, D.DraftRunner.Valid, Good, BatchOk, DraftOk, Shaped, FlightOk, Carries, Less, RoundDone, StepStart, AllGained,
           GainsOf;
      ghost var (d1, c, name) := (View(), eng.sched.c, eng.sched.policy);
      RoundFacts(c, name, d, d1, b, eng.nextRid);
      var ok := RoundStep(b, graph, guess);
      GainedFrom(c, name, d, d1, eng.sched.sys, b, gamma, guess, eng.nextRid);
      RoundEffects(c, name, d, d1, View(), b, draft.tables, eng.nextRid);
      Rescheduled(c, name, d, d1, b, eng.nextRid);
      RoundDraft(d.sys, d1.sys, eng.sched.sys, Dropping(t, b.preempted), draft.tables, Rids(b.rows), gamma);
      eng.IsValid(d.sys);
    }

    method PlainBatch(b: Batch, ghost guess: D.Guesser, ghost d: Sched, ghost t: map<nat, Table>)
      requires gamma == 0 || b.phase != DecodeOnly
      requires Apart() && eng.Tied() && Good(eng.sched.c, View()) && BatchOk(eng.sched.c, View(), b)
      requires draft.Valid() && DraftOk(View(), draft.tables) && eng.inflight == None && FlightOk(None, eng.sched.sys.reqs)
      requires StepStart(eng.sched.c, eng.sched.policy, d, View(), b, eng.nextRid) && d.sys.next == eng.next
      requires draft.tables == Dropping(t, b.preempted)
      modifies eng`store, eng`inflight, eng`done, eng.sched`reqs, eng.sched`nodes, eng.sched`sys, eng.sched`waiting, eng.sched`running
      modifies eng.sched.kv, eng.sched.kv.allocator, eng.sched.kv.tree
      modifies draft`tables, draft`passes, draft.kv, draft.kv.allocator
      ensures Valid() && Carries(d.sys, eng.sched.sys) && Less(d, View(), eng.nextRid)
      ensures AllGained(d.sys, eng.sched.sys, Rids(b.rows), GainsOf(eng.next, d.sys.reqs, b, gamma, guess))
      ensures DraftAfter(d.sys, eng.sched.sys, t, draft.tables, b, gamma)
    {
      hide RoundTables, PlainTables, Dropping, Engine.Tied, Engine.Valid, D.DraftRunner.Valid, Good, BatchOk, DraftOk, Shaped, FlightOk, Carries, Less, StepStart, Loose,
           AllLaunched, AllGained, GainsOf, FlightOf;
      ghost var (d1, c, name) := (View(), eng.sched.c, eng.sched.policy);
      RoundFacts(c, name, d, d1, b, eng.nextRid);
      eng.TiedFacts();
      ghost var d2, prev := PlainStep(b);
      PlainGainsAre(c, d1, d2, View(), b, prev, gamma, guess);
      GainedFrom(c, name, d, d1, eng.sched.sys, b, gamma, guess, eng.nextRid);
      PlainEffects(c, name, d, d1, d2, View(), b, prev, eng.nextRid);
      eng.IsValid(d.sys);
    }

    // ------------------------------------------------------------ generate

    /** Runs until nothing is unfinished, with or without captured graphs, whatever the draft chooses in
        each step. It always ends. */
    method RunAll(graph: bool, guesses: nat -> D.Guesser)
      requires Valid()
      modifies eng`store, eng`inflight, eng`done, eng.sched`reqs, eng.sched`nodes, eng.sched`sys, eng.sched`waiting, eng.sched`running
      modifies eng.sched.kv, eng.sched.kv.allocator, eng.sched.kv.tree
      modifies draft`tables, draft`passes, draft.kv, draft.kv.allocator
      ensures Valid() && Carries(old(eng.sched.sys), eng.sched.sys) && eng.sched.sys.reqs == map[]
    {
      hide Valid, Carries, TokensLeft, PrefillLeft, Engine.Valid;
      ghost var s0 := eng.sched.sys;
      CarriesSelf(s0);
      var n := 0;
      while eng.HasUnfinished()
        invariant Valid() && Carries(s0, eng.sched.sys)
        decreases TokensLeft(View(), eng.nextRid), PrefillLeft(View(), eng.nextRid)
      {
        ghost var s := eng.sched.sys;
        var r := Step(graph, guesses(n));
        n := n + 1;
        CarriesTrans(s0, s, eng.sched.sys);
      }
      EngValid();
      eng.NothingLeft();
    }

    lemma EngValid()
      requires Valid()
      ensures eng.Valid() && Apart()
    {
    }

    /** `generate`: for any proposals of the draft, any gamma and any policy, every prompt's output is
        the one of one-token-at-a-time decoding. It ends, and fails only for a rejected prompt. */
    method Generate(prompts: seq<seq<nat>>, maxNew: nat, stops: set<nat>, seeds: seq<nat>, graph: bool, guesses: nat -> D.Guesser)
        returns (r: Result<seq<seq<int>>>)
      requires Valid() && |seeds| == |prompts|
      modifies eng`store, eng`inflight, eng`done, eng`nextRid
      modifies eng.sched`reqs, eng.sched`nodes, eng.sched`sys, eng.sched`waiting, eng.sched`running
      modifies eng.sched.kv, eng.sched.kv.allocator, eng.sched.kv.tree
      modifies draft`tables, draft`passes, draft.kv, draft.kv.allocator
      ensures r.Ok? ==>
        && Valid() && |r.value| == |prompts|
        && forall i :: 0 <= i < |prompts| ==> r.value[i] == Solo(eng.next, prompts[i], seeds[i], maxNew, stops)
      ensures old(eng.sched.sys).bs > 0 && ConfigOk(eng.sched.c)
      ensures r.Ok? <==>
        forall i :: 0 <= i < |prompts| ==> Admissible(eng.sched.c, old(eng.sched.sys).bs, old(eng.sched.sys).kv.numBlocks, prompts[i], maxNew)
    {
      hide Engine.Valid, D.DraftRunner.Valid, Valid, Carries, Admissible, Owned, Solo, Roomy, FitsTwice;
      var added, rids := AddPrompts(prompts, maxNew, stops, seeds);
      if !added { return Err(ValueError); }
      ghost var s1 := eng.sched.sys;
      EngValid();
      eng.SettingFacts();
      RunAll(graph, guesses);
      EngValid();
      eng.SettingFacts();
      var out: seq<seq<int>> := [];
      for i := 0 to |rids|
        modifies {}
        invariant |out| == i && forall j :: 0 <= j < i ==> out[j] == Solo(eng.next, prompts[j], seeds[j], maxNew, stops)
      {
        OwnedCarried(s1, eng.sched.sys, rids[i], NewReq(prompts[i], maxNew, stops, seeds[i]));
        eng.OwnedSolo(rids[i], NewReq(prompts[i], maxNew, stops, seeds[i]));
        out := out + [eng.done[rids[i]].output];
      }
      return Ok(out);
    }

    /** Submits the prompts; the draft is not concerned. */
    method AddPrompts(prompts: seq<seq<nat>>, maxNew: nat, stops: set<nat>, seeds: seq<nat>) returns (ok: bool, rids: seq<nat>)
      requires Valid() && |seeds| == |prompts|
      modifies eng`nextRid, eng.sched`waiting, eng.sched`reqs, eng.sched`sys
      ensures Valid() && eng.sched.sys.bs > 0 && ConfigOk(eng.sched.c) && SameSetting(old(eng.sched.sys), eng.sched.sys)
      ensures ok <==> forall i :: 0 <= i < |prompts| ==> Admissible(eng.sched.c, eng.sched.sys.bs, eng.sched.sys.kv.numBlocks, prompts[i], maxNew)
      ensures ok ==> |rids| == |prompts| && forall i :: 0 <= i < |prompts| ==>
        Owned(eng.sched.sys, rids[i], NewReq(prompts[i], maxNew, stops, seeds[i]))
    {
      hide Engine.Valid, D.DraftRunner.Valid, Admissible, Owned, DraftOk, Roomy, FitsTwice;
      ghost var d := View();
      ok, rids := eng.AddAll(prompts, maxNew, stops, seeds);
      AddedKeepDraft(d, View(), draft.tables);
    }
  }

  /** From `d` the batch got room (`reqs1`) and verdicts (`d2`). */
  ghost predicate Checking(c: Config, d: Sched, reqs1: map<nat, Req>, d2: Sched, b: Batch) {
    && (forall r :: r in Rids(b.rows) ==> r in d.sys.reqs)
    && AllRoom(d.sys.bs, d.sys.reqs, reqs1, WideRows(d.sys.reqs, Rids(b.rows), c.tps))
    && AllChecked(reqs1, d2.sys.reqs, Rids(b.rows))
    && Reachable(d2.sys) && d2.waiting == d.waiting && d2.running == d.running && d2.sys.radix == d.sys.radix
    && d2.sys.bs == d.sys.bs && d2.sys.kv.numBlocks == d.sys.kv.numBlocks && d2.sys.done == d.sys.done
  }

  /** What a round leaves: the invariants of a step boundary, every request carried along, fewer tokens
      to sample, and a draft that fits. */
  ghost predicate RoundDone(c: Config, name: PolicyName, d: Sched, d': Sched, tables: map<nat, Table>, n: nat) {
    && Good(c, d') && Shaped(c, name, d') && Carries(d.sys, d'.sys) && DraftOk(d', tables)
    && (forall r :: r in d'.sys.reqs ==> d'.sys.reqs[r].pending == 0)
    && TokensLeft(d', n) < TokensLeft(d, n)
  }

  /** The draft's tables after it followed request `r`. */
  ghost predicate Followed(reqs: map<nat, Req>, t1: map<nat, Table>, t2: map<nat, Table>, r: nat) {
    if r !in reqs then t2 == t1 - {r}
    else
      && t2.Keys == t1.Keys && (forall x :: x in t1 && x != r ==> t2[x] == t1[x])
      && (r in t1 ==>
            t2[r] == if SeqLen(reqs[r]) >= 1 then Table(t1[r].blocks, Fewer(t1[r].numTokens, SeqLen(reqs[r]) - 1)) else t1[r])
  }

  // ------------------------------------------------------------ prefill of the draft

  ghost predicate InDecode(d: Sched, r: nat) {
    r in d.running && r in d.sys.reqs && d.sys.reqs[r].state == DECODE
  }

  lemma DecodeHasTable(c: Config, d: Sched, r: nat)
    requires Good(c, d) && InDecode(d, r)
    ensures r in d.sys.reqs && d.sys.reqs[r].table.Some? && SeqLen(d.sys.reqs[r]) > 1
    ensures d.sys.reqs[r].table.value.numTokens == SeqLen(d.sys.reqs[r]) - 1
    ensures TableOk(d.sys.reqs[r].table.value, d.sys.bs) && InDecode(d, r)
  {
    hide Reachable, LiveOk;
    GoodInv(c, d);
    GoodReq(c, d, r);
    HoldOfTable(d.sys, r);
  }

  /** Prefill items: requests the draft holds nothing of, with all of their sequence but its last
      token. */
  ghost predicate Items(d: Sched, tables: map<nat, Table>, items: seq<D.Row>) {
    && D.RowsDistinct(items)
    && forall k :: 0 <= k < |items| ==>
      && InDecode(d, items[k].rid) && items[k].rid in tables && tables[items[k].rid].numTokens == 0
      && items[k].n == SeqLen(d.sys.reqs[items[k].rid]) - 1
  }

  lemma AdmitKeepsDraft(d: Sched, t0: map<nat, Table>, t1: map<nat, Table>, items: seq<D.Row>, r: nat)
    requires DraftOk(d, t0) && r !in t0 && t1 == t0[r := Table([], 0)] && InDecode(d, r) && Items(d, t0, items)
    requires d.sys.reqs[r].table.Some? && SeqLen(d.sys.reqs[r]) > 1
    ensures DraftOk(d, t1) && Items(d, t1, items)
  {
    forall x | x in t1 ensures DraftFits(d, t1[x], x) {
      if x != r { assert DraftFits(d, t0[x], x); }
    }
  }

  lemma ItemJoins(d: Sched, tables: map<nat, Table>, items: seq<D.Row>, r: nat)
    requires Items(d, tables, items) && InDecode(d, r) && r in tables && tables[r].numTokens == 0 && SeqLen(d.sys.reqs[r]) > 1
    requires forall k :: 0 <= k < |items| ==> items[k].rid != r
    ensures Items(d, tables, items + [D.Row(r, SeqLen(d.sys.reqs[r]) - 1)])
  {
    hide InDecode;
  }

  lemma NoItems(d: Sched, tables: map<nat, Table>)
    ensures Items(d, tables, [])
  {
  }

  lemma ListedKeys(t0: map<nat, Table>, t1: map<nat, Table>, rids: seq<nat>, items: seq<D.Row>)
    requires Listed(t0, t1, rids, items)
    ensures forall r :: r in rids ==> r in t1
  {
  }

  lemma ItemsListed(t0: map<nat, Table>, t1: map<nat, Table>, rids: seq<nat>, items: seq<D.Row>, r: nat)
    requires Listed(t0, t1, rids, items) && r !in rids
    ensures forall k :: 0 <= k < |items| ==> items[k].rid != r
  {
  }

  lemma PrimedBy(c: Config, d: Sched, t0: map<nat, Table>, ta: map<nat, Table>, t1: map<nat, Table>, rids: seq<nat>, items: seq<D.Row>)
    requires Good(c, d) && (forall r :: r in rids ==> InDecode(d, r)) && Items(d, ta, items)
    requires Listed(t0, ta, rids, items) && D.GrewBy(ta, t1, items)
    ensures Primed(d.sys.reqs, t0, t1, rids) && forall r :: r in rids ==> r in t1
  {
    hide Good, Listed, D.GrewBy, Primed;
    PrimedIs(d.sys.reqs, t0, ta, t1, rids, items);
    PrimedKeys(d.sys.reqs, t0, t1, rids);
  }

  lemma PrimedKeys(reqs: map<nat, Req>, t0: map<nat, Table>, t1: map<nat, Table>, rids: seq<nat>)
    requires Primed(reqs, t0, t1, rids)
    ensures forall r :: r in rids ==> r in t1
  {
  }

  lemma ItemsWithin(c: Config, d: Sched, tables: map<nat, Table>, items: seq<D.Row>)
    requires Good(c, d) && Items(d, tables, items)
    ensures d.sys.bs > 0 && D.Within(tables, items, HeldSizes(d.sys.kv), d.sys.bs)
  {
    hide Good, Reachable;
    NeedsKnownGood(c, d);
    GoodInv(c, d);
    forall k | 0 <= k < |items|
      ensures items[k].rid in tables && items[k].rid in HeldSizes(d.sys.kv)
      ensures CeilDiv(tables[items[k].rid].numTokens + items[k].n, d.sys.bs) <= HeldSizes(d.sys.kv)[items[k].rid]
    {
      DecodeHasTable(c, d, items[k].rid);
      HoldOfTable(d.sys, items[k].rid);
      var t := d.sys.reqs[items[k].rid].table.value;
      CeilBound(t.numTokens, |t.blocks|, d.sys.bs);
    }
  }

  lemma PrefillKeepsDraft(c: Config, d: Sched, t1: map<nat, Table>, t2: map<nat, Table>, items: seq<D.Row>, pool: Kv)
    requires Good(c, d) && DraftOk(d, t1) && Items(d, t1, items) && D.GrewBy(t1, t2, items)
    requires D.SharesOk(pool, d.running, HeldSizes(d.sys.kv)) && pool.held.Keys == t2.Keys
    requires forall r :: r in t2 ==> pool.held[r].blocks == t2[r].blocks
    ensures DraftOk(d, t2)
  {
    hide Good, DraftFits, Items, D.GrewBy, D.SharesOk;
    PrefillKeys(t1, t2, items);
    forall r | r in t2 ensures DraftFits(d, t2[r], r) {
      PrefillKeepsFit(c, d, t1, t2, items, pool, r);
    }
  }

  lemma PrefillKeys(t1: map<nat, Table>, t2: map<nat, Table>, items: seq<D.Row>)
    requires D.GrewBy(t1, t2, items)
    ensures t2.Keys == t1.Keys
  {
  }

  lemma PrefillKeepsFit(c: Config, d: Sched, t1: map<nat, Table>, t2: map<nat, Table>, items: seq<D.Row>, pool: Kv, r: nat)
    requires Good(c, d) && r in t1 && DraftFits(d, t1[r], r) && Items(d, t1, items) && D.GrewBy(t1, t2, items) && r in t2
    requires D.SharesOk(pool, d.running, HeldSizes(d.sys.kv)) && pool.held.Keys == t2.Keys && pool.held[r].blocks == t2[r].blocks
    ensures DraftFits(d, t2[r], r)
  {
    hide Good, Reachable, Inv, CeilDiv, Sum;
    GoodInv(c, d);
    HoldOfTable(d.sys, r);
    if D.HasRow(items, r) { var k :| 0 <= k < |items| && items[k].rid == r; }
  }

  // ------------------------------------------------------------ rounds

  lemma DraftReq(d: Sched, tables: map<nat, Table>, r: nat)
    requires DraftOk(d, tables) && r in tables
    ensures r in d.sys.reqs && tables[r].numTokens <= SeqLen(d.sys.reqs[r]) - 1
  {
    assert DraftFits(d, tables[r], r);
  }

  lemma ShorterFits(d: Sched, t0: map<nat, Table>, t1: map<nat, Table>, r: nat)
    requires DraftOk(d, t0) && r in t0 && r in t1 && t1 == t0[r := t1[r]]
    requires t1[r].blocks == t0[r].blocks && t1[r].numTokens <= t0[r].numTokens
    ensures DraftOk(d, t1)
  {
    forall x | x in t1 ensures DraftFits(d, t1[x], x) { assert DraftFits(d, t0[x], x); }
  }

  /** No request misses more than its last two tokens. */
  ghost predicate MissTwo(reqs: map<nat, Req>, tables: map<nat, Table>, rids: seq<nat>) {
    forall r :: r in rids ==> r in reqs && r in tables && 2 <= SeqLen(reqs[r]) <= tables[r].numTokens + 2
  }

  /** Every request of `rids` was taken back to two tokens before its end, the others were left alone. */
  ghost predicate BackTwo(reqs: map<nat, Req>, t0: map<nat, Table>, t1: map<nat, Table>, rids: seq<nat>) {
    && t1.Keys == t0.Keys
    && (forall r :: r in rids && r in t0 && r in reqs ==>
          t1[r].blocks == t0[r].blocks && t1[r].numTokens == SeqLen(reqs[r]) - 2)
    && (forall r :: r in t0 && r !in rids ==> t1[r] == t0[r])
  }

  lemma OthersAsBefore(reqs: map<nat, Req>, t0: map<nat, Table>, t1: map<nat, Table>, rids: seq<nat>, graph: bool)
    requires if graph && MissTwo(reqs, t0, rids) then BackTwo(reqs, t0, t1, rids) else t1 == t0
    ensures t1.Keys == t0.Keys && forall r :: r in t0 && r !in rids ==> t1[r] == t0[r]
  {
  }

  lemma NothingFed(reqs: map<nat, Req>, tables: map<nat, Table>)
    ensures Feeds(reqs, tables, [], [])
  {
  }

  lemma FeedJoins(reqs: map<nat, Req>, tables: map<nat, Table>, rids: seq<nat>, rows: seq<D.Row>, k: nat)
    requires k < |rids| && Feeds(reqs, tables, rids[..k], rows) && rids[k] in reqs && rids[k] in tables
    requires tables[rids[k]].numTokens <= SeqLen(reqs[rids[k]])
    ensures Feeds(reqs, tables, rids[..k + 1], rows + [D.Row(rids[k], SeqLen(reqs[rids[k]]) - tables[rids[k]].numTokens)])
  {
  }

  lemma NothingChecked(reqs: map<nat, Req>)
    ensures AllChecked(reqs, reqs, [])
  {
  }

  lemma CheckNext(reqs1: map<nat, Req>, reqs: map<nat, Req>, rids: seq<nat>, i: nat)
    requires i < |rids| && AllChecked(reqs1, reqs, rids[..i]) && Distinct(rids) && rids[i] in reqs1
    ensures rids[i] in reqs && reqs[rids[i]] == reqs1[rids[i]]
  {
    assert rids[i] !in rids[..i];
  }

  lemma SettledTied(c: Config, d: Sched, r: nat)
    requires Rounding(c, d) && r in d.sys.reqs && d.sys.reqs[r].row.Verified? && CanSettle(d.sys, r)
    ensures var q := d.sys.reqs[r];
      && MayRelease(d.sys, r, SettledReq(q, KeepOf(q))) && r in d.sys.kv.held
      && Reachable(SettleAt(d, r).sys) && QueuesOk(SettleAt(d, r))
  {
    hide Reachable, Rounding, KeepOf, RoundEnds, AcceptedTokens;
    SettleReachable(c, d, r);
    RoundingHolds(c, d, r);
  }

  lemma RoundingHolds(c: Config, d: Sched, r: nat)
    requires Rounding(c, d) && r in d.sys.reqs && d.sys.reqs[r].row.Verified?
    ensures r in d.sys.kv.held
  {
    hide Reachable, AtRest, LiveOk, ReqTokens;
    ReachableInv(d.sys);
    InvReq(d.sys, r);
  }

  lemma FedRows(reqs: map<nat, Req>, tables: map<nat, Table>, rids: seq<nat>, rows: seq<D.Row>)
    requires Feeds(reqs, tables, rids, rows)
    ensures |rows| == |rids| && forall i :: 0 <= i < |rows| ==> rows[i].rid == rids[i]
  {
  }

  lemma UnsettledMore(d1: Sched, d2: Sched, rids: seq<nat>, i: nat)
    requires Unsettled(d1.sys.reqs, rids, i) && i < |rids| && forall j :: i <= j < |rids| ==> rids[j] in d1.sys.reqs
    requires HasVerdict(d1.sys.reqs[rids[i]])
    requires var q := d1.sys.reqs[rids[i]];
      && |q.row.proposals| + 1 - KeepOf(q) <= q.table.value.numTokens
      && (if RoundEnds(q) then d2.sys.reqs == d1.sys.reqs - {rids[i]} else d2.sys.reqs == d1.sys.reqs[rids[i] := SettledReq(q, KeepOf(q))])
    ensures Unsettled(d2.sys.reqs, rids, i + 1) && forall j :: i < j < |rids| ==> rids[j] in d2.sys.reqs
    ensures Distinct(rids)
  {
    hide KeepOf, RoundEnds, AcceptedTokens;
    UnsettledNext(d1.sys.reqs, d2.sys.reqs, rids, i);
    forall j | i < j < |rids| ensures rids[j] in d2.sys.reqs { assert rids[j] != rids[i]; }
  }

  lemma RoundingPrompt(c: Config, d: Sched, r: nat)
    requires Rounding(c, d) && r in d.sys.reqs
    ensures |d.sys.reqs[r].prompt| > 0
  {
    assert AtRest(c, d.sys.kv.numBlocks, d.sys.bs, Calm(d.sys.reqs[r]));
  }

  lemma FollowShares(t1: map<nat, Table>, t2: map<nat, Table>, n: nat, running: seq<nat>, share: map<nat, int>)
    requires WithinShares(t1, n, running, share)
    requires forall r :: r in t2 ==> r in t1 && t2[r].blocks == t1[r].blocks
    ensures WithinShares(t2, n, running, share)
  {
  }

  lemma FollowSettling(d: Sched, d1: Sched, d2: Sched, t1: map<nat, Table>, t2: map<nat, Table>, rids: seq<nat>, i: nat)
    requires Settling(d, d1, t1, rids, i) && i < |rids| && Distinct(rids) && rids[i] in d1.sys.reqs && HasVerdict(d1.sys.reqs[rids[i]])
    requires |d1.sys.reqs[rids[i]].prompt| > 0
    requires var q := d1.sys.reqs[rids[i]];
      && |q.row.proposals| + 1 - KeepOf(q) <= q.table.value.numTokens
      && (if RoundEnds(q) then d2.sys.reqs == d1.sys.reqs - {rids[i]} else d2.sys.reqs == d1.sys.reqs[rids[i] := SettledReq(q, KeepOf(q))])
    requires Followed(d2.sys.reqs, t1, t2, rids[i])
    ensures Settling(d, d2, t2, rids, i + 1)
  {
    hide KeepOf, RoundEnds, AcceptedTokens, Settling;
    SettlingNext(d, d1, d2, t1, t2, rids, i);
  }

  lemma SettledPrompt(q: Req)
    requires HasVerdict(q) && |q.row.proposals| + 1 - KeepOf(q) <= q.table.value.numTokens
    ensures SettledReq(q, KeepOf(q)).prompt == q.prompt
  {
    hide KeepOf, AcceptedTokens;
  }

  lemma FollowBack(reqs1: map<nat, Req>, reqs2: map<nat, Req>, t0: map<nat, Table>, t1: map<nat, Table>, t2: map<nat, Table>,
                   rids: seq<nat>, i: nat)
    requires i < |rids| && Distinct(rids) && rids[i] in reqs1 && |reqs1[rids[i]].prompt| > 0 && TakenBack(reqs1, t0, t1, rids[..i])
    requires reqs2 == reqs1 - {rids[i]} ||
      (rids[i] in reqs2 && reqs2 == reqs1[rids[i] := reqs2[rids[i]]] && reqs2[rids[i]].prompt == reqs1[rids[i]].prompt)
    requires Followed(reqs2, t1, t2, rids[i])
    ensures TakenBack(reqs2, t0, t2, rids[..i + 1])
  {
    hide TakenBack;
    forall r | r in rids[..i] ensures r != rids[i] {}
    TakenBackMore(reqs1, reqs2, t0, t1, t2, rids, i);
  }

  lemma RidsSize(rows: seq<Work>)
    ensures |Rids(rows)| == |rows|
  {
  }

  lemma RoomVerifiable(c: Config, d: Sched, b: Batch, reqs1: map<nat, Req>, proposals: seq<seq<nat>>)
    requires Good(c, d) && BatchOk(c, d, b) && b.phase == DecodeOnly && forall r :: r in d.sys.reqs ==> d.sys.reqs[r].pending == 0
    requires forall x :: x in Rids(b.rows) ==> x in d.sys.reqs
    requires AllRoom(d.sys.bs, d.sys.reqs, reqs1, WideRows(d.sys.reqs, Rids(b.rows), c.tps))
    requires |proposals| == |Rids(b.rows)| && c.tps >= 1 && forall i :: 0 <= i < |proposals| ==> |proposals[i]| == c.tps - 1
    ensures Distinct(Rids(b.rows))
    ensures forall i :: 0 <= i < |proposals| ==> Rids(b.rows)[i] in reqs1 && Verifiable(reqs1[Rids(b.rows)[i]], |proposals[i]|)
  {
    hide Good, BatchOk;
    BatchDistinct(c, d, b);
    var rows := WideRows(d.sys.reqs, Rids(b.rows), c.tps);
    forall i | 0 <= i < |proposals| ensures Rids(b.rows)[i] in reqs1 && Verifiable(reqs1[Rids(b.rows)[i]], |proposals[i]|) {
      assert Rids(b.rows)[i] in Rids(b.rows);
      DecodeBatchReqs(c, d, b, Rids(b.rows)[i]);
      assert rows[i] in rows;
    }
  }

  /** Before settlement: everything the two sides need to know. */
  lemma RoundChecked(c: Config, name: PolicyName, d: Sched, reqs1: map<nat, Req>, d2: Sched, b: Batch, tables: map<nat, Table>)
    requires Good(c, d) && BatchOk(c, d, b) && b.phase == DecodeOnly && Planned(c, name, d, b.rows) && !d.sys.radix
    requires (forall r :: r in d.sys.reqs ==> d.sys.reqs[r].pending == 0) && Checking(c, d, reqs1, d2, b)
    requires Ahead(d, tables, Rids(b.rows))
    ensures Rounding(c, d2) && Unsettled(d2.sys.reqs, Rids(b.rows), 0) && Settling(d2, d2, tables, Rids(b.rows), 0)
    ensures forall r :: r in Rids(b.rows) ==> r in d2.sys.reqs
  {
    hide Good, BatchOk, Planned, Ahead, Rounding, Shaped, Unsettled, Settling, AllRoom, AllChecked, RoundRow, Reachable;
    RoundStarts(c, name, d, reqs1, d2, b);
    NeedsKnownGood(c, d);
    forall r | r in d.sys.reqs ensures r in d2.sys.reqs && RoundRow(c, d, d2.sys.reqs[r], r) && (r !in Rids(b.rows) ==> d2.sys.reqs[r] == d.sys.reqs[r]) {
      RoundRowOf(c, d, reqs1, d2.sys.reqs, b, r);
      UncheckedSame(d, reqs1, d2.sys.reqs, b, c, r);
    }
    forall r | r in d.running && r in d.sys.reqs ensures d2.sys.reqs[r].table.Some? {
      RoomIsShare(c, d, b, reqs1, r);
      CheckedTable(reqs1, d2.sys.reqs, Rids(b.rows), r);
    }
    RoomKeys(d, reqs1, d2.sys.reqs, b, c);
    SettlingStarts(c, d, d2, tables, Rids(b.rows));
  }

  lemma RoomKeys(d: Sched, reqs1: map<nat, Req>, reqs2: map<nat, Req>, b: Batch, c: Config)
    requires forall x :: x in Rids(b.rows) ==> x in d.sys.reqs
    requires AllRoom(d.sys.bs, d.sys.reqs, reqs1, WideRows(d.sys.reqs, Rids(b.rows), c.tps)) && AllChecked(reqs1, reqs2, Rids(b.rows))
    ensures reqs2.Keys == d.sys.reqs.Keys
  {
  }

  lemma UncheckedSame(d: Sched, reqs1: map<nat, Req>, reqs2: map<nat, Req>, b: Batch, c: Config, r: nat)
    requires (forall x :: x in Rids(b.rows) ==> x in d.sys.reqs) && r in d.sys.reqs
    requires AllRoom(d.sys.bs, d.sys.reqs, reqs1, WideRows(d.sys.reqs, Rids(b.rows), c.tps)) && AllChecked(reqs1, reqs2, Rids(b.rows))
    ensures r !in Rids(b.rows) ==> r in reqs2 && reqs2[r] == d.sys.reqs[r]
  {
  }

  lemma CheckedTable(reqs1: map<nat, Req>, reqs2: map<nat, Req>, rids: seq<nat>, r: nat)
    requires AllChecked(reqs1, reqs2, rids) && r in reqs1
    ensures r in reqs2 && reqs2[r].table == reqs1[r].table
  {
  }

  lemma RoundSettled(c: Config, name: PolicyName, d: Sched, reqs1: map<nat, Req>, d2: Sched, d3: Sched, b: Batch, tables: map<nat, Table>, n: nat)
    requires Good(c, d) && BatchOk(c, d, b) && b.phase == DecodeOnly && Planned(c, name, d, b.rows) && !d.sys.radix
    requires (forall r :: r in d.sys.reqs ==> d.sys.reqs[r].pending == 0) && Checking(c, d, reqs1, d2, b)
    requires forall r :: r in d.sys.reqs ==> r < n
    requires d3 == SettleFrom(d2, Rids(b.rows), 0) && Settling(d2, d3, tables, Rids(b.rows), |Rids(b.rows)|) && d.sys.bs > 0
    requires WithinShares(tables, d.sys.kv.numBlocks, d.running, RoundShares(c, d.sys, Rids(b.rows)))
    ensures RoundDone(c, name, d, d3, tables, n)
  {
    hide Good, BatchOk, Planned, Rounding, Shaped, Unsettled, Settling, AllRoom, AllChecked, Reachable, WithinShares, Carries, TokensLeft,
         RoundShares, SettleFrom, DraftOk;
    RoundStarts(c, name, d, reqs1, d2, b);
    RoomKeys(d, reqs1, d2.sys.reqs, b, c);
    RoundSettles(c, name, d2, Rids(b.rows), 0, n);
    CarriesTrans(d.sys, d2.sys, d3.sys);
    BatchSome(c, d, b);
    forall r | r in d.running && r in d2.sys.reqs && d2.sys.reqs[r].table.Some?
      ensures r in RoundShares(c, d.sys, Rids(b.rows)) && RoundShares(c, d.sys, Rids(b.rows))[r] <= |d2.sys.reqs[r].table.value.blocks|
    {
      RoomIsShare(c, d, b, reqs1, r);
      CheckedTable(reqs1, d2.sys.reqs, Rids(b.rows), r);
    }
    SettlingEnds(c, d, d2, d3, tables, Rids(b.rows), d.running, RoundShares(c, d.sys, Rids(b.rows)), d.sys.kv.numBlocks);
  }

  lemma BatchSome(c: Config, d: Sched, b: Batch)
    requires BatchOk(c, d, b)
    ensures |Rids(b.rows)| > 0
  {
  }

  // ------------------------------------------------------------ steps

  lemma BatchInDecode(c: Config, d: Sched, b: Batch)
    requires Good(c, d) && BatchOk(c, d, b) && b.phase == DecodeOnly
    ensures Distinct(Rids(b.rows)) && forall r :: r in Rids(b.rows) ==> InDecode(d, r)
    ensures forall r :: r in Rids(b.rows) ==>
      && r in d.sys.reqs && d.sys.reqs[r].table.Some? && d.sys.reqs[r].table.value.numTokens == SeqLen(d.sys.reqs[r]) - 1
  {
    hide Good, BatchOk;
    BatchDistinct(c, d, b);
    forall r | r in Rids(b.rows) ensures InDecode(d, r) && d.sys.reqs[r].table.Some? && d.sys.reqs[r].table.value.numTokens == SeqLen(d.sys.reqs[r]) - 1 {
      DecodeBatchReqs(c, d, b, r);
    }
  }

  lemma DistinctRows(c: Config, d: Sched, b: Batch)
    requires BatchOk(c, d, b)
    ensures Distinct(Rids(b.rows))
  {
  }

  lemma RunningOnes(c: Config, d: Sched, rids: seq<nat>)
    requires Good(c, d) && forall r :: r in rids ==> r in DecodeStates(d.sys.reqs)
    ensures forall r :: r in rids ==> InDecode(d, r)
  {
    hide Good;
    forall r | r in rids ensures InDecode(d, r) { GoodReq(c, d, r); }
  }

  /** After a plain step the draft has tables of live requests only, and they fit. */
  lemma EndedReleased(c: Config, d: Sched, d2: Sched, d3: Sched, prev: Flight, b: Batch, t: map<nat, Table>, t': map<nat, Table>)
    requires DraftOk(d, t) && AllLaunched(d.sys.bs, d.sys.reqs, d2.sys.reqs, b.rows) && prev.rids == Rids(b.rows)
    requires d3 == ReadFrom(d2, prev, 0) && Good(c, d3)
    requires t' == Staying(t, Rids(b.rows), d3.sys.reqs)
    ensures DraftOk(d3, t')
  {
    hide Good, ReadFrom, AllLaunched;
    ReadThins(d2, prev, 0);
    LaunchedKeys(d, d2, b);
    forall r | r in t' ensures r in d3.sys.reqs && r in t && t'[r] == t[r] {
      assert DraftFits(d, t[r], r);
      if r !in Rids(b.rows) { ReadKeepsOthers(d2, prev, 0, r); }
    }
    forall r | r in t' ensures DraftFits(d, t'[r], r) { assert DraftFits(d, t[r], r); }
    PlainStepKeepsDraft(c, d, d2, d3, b.rows, t');
  }

  lemma LaunchedKeys(d: Sched, d2: Sched, b: Batch)
    requires AllLaunched(d.sys.bs, d.sys.reqs, d2.sys.reqs, b.rows)
    ensures d2.sys.reqs.Keys == d.sys.reqs.Keys
  {
  }

  /** Where a step starts after its schedule: from `d` the batch `b` was formed. */
  ghost predicate StepStart(c: Config, name: PolicyName, d: Sched, d1: Sched, b: Batch, n: nat) {
    && PolicyOk(PolicyOf(name)) && Good(c, d) && QueuesOk(d) && Shaped(c, name, d) && FlightOk(None, d.sys.reqs) && !d.sys.radix
    && (forall r :: r in d.sys.reqs || r in d.sys.done ==> r < n)
    && Schedule(c, PolicyOf(name), d) == Plan(d1, Some(b))
  }

  lemma NeverCornered(c: Config, name: PolicyName, d: Sched)
    requires Good(c, d) && Shaped(c, name, d) && QueuesOk(d) && !d.sys.radix
    ensures PolicyOk(PolicyOf(name)) && !Cornered(c, PolicyOf(name), d)
  {
    hide Good, Shaped, QueuesOk, PolicyOk, Cornered;
    GoodInv(c, d);
    RoomyFits(c, name, d);
  }

  /** No batch without overlap: nothing is left to do, and nothing happened. */
  lemma IdleStep(c: Config, name: PolicyName, d: Sched, d1: Sched, tables: map<nat, Table>)
    requires PolicyOk(PolicyOf(name)) && Good(c, d) && QueuesOk(d) && Shaped(c, name, d) && FlightOk(None, d.sys.reqs)
    requires Schedule(c, PolicyOf(name), d) == Plan(d1, None) && DraftOk(d, tables)
    ensures d.waiting == [] && d.running == [] && Shaped(c, name, d1) && DraftOk(d1, tables)
  {
    hide Good, QueuesOk, Shaped, Schedule, PolicyOk, PolicyOf, FlightOk;
    if d.waiting != [] || d.running != [] { MustBeInFlight(c, name, d, None); }
    LaunchedShape(c, name, d, d1, d1, None);
    NoDrafts(d, tables);
  }

  lemma NoDrafts(d: Sched, tables: map<nat, Table>)
    requires DraftOk(d, tables) && d.running == []
    ensures tables == map[]
  {
    assert forall r :: r !in tables;
  }

  lemma CarriesScheduled(c: Config, name: PolicyName, d: Sched, d1: Sched)
    requires PolicyOk(PolicyOf(name)) && Good(c, d) && QueuesOk(d)
    requires Schedule(c, PolicyOf(name), d).Plan? && Schedule(c, PolicyOf(name), d).d == d1
    ensures Carries(d.sys, d1.sys)
  {
    hide Good, QueuesOk, Schedule, PolicyOk, PolicyOf, Carries, SameRequests;
    ScheduleGood(c, PolicyOf(name), d);
    ScheduleCarries(d.sys, d1.sys);
  }

  /** The preempted requests give their draft tables up, and the others fit still. */
  lemma PlannedFacts(c: Config, name: PolicyName, d: Sched, d1: Sched, b: Batch, tables: map<nat, Table>, n: nat)
    requires StepStart(c, name, d, d1, b, n) && DraftOk(d, tables)
    ensures DraftOk(d1, Dropping(tables, b.preempted))
  {
    hide Good, QueuesOk, Schedule, PolicyOk, PolicyOf, DraftOk;
    ShapedLone(c, name, d);
    ScheduleLists(c, PolicyOf(name), d);
    ScheduleKeepsDraft(d, d1, b.preempted, tables);
  }

  lemma RoundFacts(c: Config, name: PolicyName, d: Sched, d1: Sched, b: Batch, n: nat)
    requires StepStart(c, name, d, d1, b, n)
    ensures Planned(c, name, d1, b.rows) && forall r :: r in d1.sys.reqs ==> d1.sys.reqs[r].pending == 0 && r < n
    ensures forall r :: r in d.sys.reqs || r in d.sys.done ==> r < n
  {
    hide Good, QueuesOk, Shaped, Schedule, PolicyOk, PolicyOf;
    PlannedShape(c, name, d);
    ScheduleGood(c, PolicyOf(name), d);
    assert forall r :: !SlotFrom(None, r, 0);
  }

  lemma Rescheduled(c: Config, name: PolicyName, d: Sched, d1: Sched, b: Batch, n: nat)
    requires StepStart(c, name, d, d1, b, n)
    ensures SameRequests(d.sys, d1.sys)
  {
    hide Good, QueuesOk, Shaped, Schedule, PolicyOk, PolicyOf, FlightOk, SameRequests;
    ScheduleGood(c, PolicyOf(name), d);
  }

  lemma NoFlight(reqs: map<nat, Req>)
    requires forall r :: r in reqs ==> reqs[r].pending == 0
    ensures FlightOk(None, reqs)
  {
    assert forall r :: !SlotFrom(None, r, 0);
  }

  lemma RoundEffects(c: Config, name: PolicyName, d: Sched, d1: Sched, d3: Sched, b: Batch, tables: map<nat, Table>, n: nat)
    requires StepStart(c, name, d, d1, b, n) && RoundDone(c, name, d1, d3, tables, n)
    ensures Carries(d.sys, d3.sys) && Less(d, d3, n) && FlightOk(None, d3.sys.reqs) && Shaped(c, name, d3) && Good(c, d3)
    ensures DraftOk(d3, tables)
  {
    hide Good, QueuesOk, Shaped, Schedule, PolicyOk, PolicyOf, Carries, TokensLeft, PrefillLeft, FlightOk, SameRequests, DraftOk;
    ScheduleGood(c, PolicyOf(name), d);
    ScheduleCarries(d.sys, d1.sys);
    CarriesTrans(d.sys, d1.sys, d3.sys);
    NoFlight(d3.sys.reqs);
    SameTokensLeft(d, d1, n);
  }

  lemma SameTokensLeft(d: Sched, d1: Sched, n: nat)
    requires SameRequests(d.sys, d1.sys)
    ensures TokensLeft(d1, n) == TokensLeft(d, n)
  {
    SameSamples(d.sys, d1.sys, n);
  }

  lemma PlainEffects(c: Config, name: PolicyName, d: Sched, d1: Sched, d2: Sched, d3: Sched, b: Batch, prev: Flight, n: nat)
    requires StepStart(c, name, d, d1, b, n) && Good(c, d1) && BatchOk(c, d1, b)
    requires AllLaunched(d1.sys.bs, d1.sys.reqs, d2.sys.reqs, b.rows) && Loose(c, d2)
    requires d2.waiting == d1.waiting && d2.running == d1.running && d2.sys.done == d1.sys.done
    requires d3 == ReadFrom(d2, prev, 0)
    ensures Carries(d.sys, d3.sys) && Less(d, d3, n) && Shaped(c, name, d3)
    ensures forall r :: r in d.sys.reqs || r in d.sys.done ==> r < n
  {
    hide Good, QueuesOk, Shaped, Schedule, PolicyOk, PolicyOf, Carries, Less, NoMore, FlightOk, AllLaunched, Loose, BatchOk, ReadFrom;
    StepDone(c, name, d, d1, d2, d3, Some(b), Some(prev), None, None, n);
    StepLessThen(c, name, d, d1, d2, d3, b, prev, n);
  }

  lemma StepLessThen(c: Config, name: PolicyName, d: Sched, d1: Sched, d2: Sched, d3: Sched, b: Batch, prev: Flight, n: nat)
    requires StepStart(c, name, d, d1, b, n) && AllLaunched(d1.sys.bs, d1.sys.reqs, d2.sys.reqs, b.rows)
    requires d3 == ReadFrom(d2, prev, 0)
    ensures Less(d, d3, n)
  {
    hide Good, QueuesOk, Shaped, Schedule, PolicyOk, PolicyOf, FlightOk, AllLaunched, ReadFrom;
    ScheduleGood(c, PolicyOf(name), d);
    KeysOf(d.sys, d1.sys);
    StepLess(c, name, d, d2, n);
    ReadThins(d2, prev, 0);
    ThinnedLess(d2.sys.reqs, d3.sys.reqs, n);
  }

  lemma AddedKeepDraft(d: Sched, d': Sched, tables: map<nat, Table>)
    requires DraftOk(d, tables) && d'.running == d.running && forall r :: r in d.sys.reqs ==> r in d'.sys.reqs && d'.sys.reqs[r] == d.sys.reqs[r]
    ensures DraftOk(d', tables)
  {
    forall r | r in tables ensures DraftFits(d', tables[r], r) { assert DraftFits(d, tables[r], r); }
  }

  // ------------------------------------------------------------ what a step adds

  /** A round gives every request of the batch the gain of its proposals. */
  lemma RoundGained(c: Config, d: Sched, reqs1: map<nat, Req>, d2: Sched, d3: Sched, b: Batch, proposals: seq<seq<nat>>)
    requires Good(c, d) && BatchOk(c, d, b) && b.phase == DecodeOnly && Checking(c, d, reqs1, d2, b)
    requires Rounding(c, d2) && Unsettled(d2.sys.reqs, Rids(b.rows), 0) && forall r :: r in Rids(b.rows) ==> r in d2.sys.reqs
    requires Proposed(d2.sys.reqs, Rids(b.rows), proposals) && d2.sys.next == d.sys.next
    requires d3 == SettleFrom(d2, Rids(b.rows), 0)
    ensures AllGained(d.sys, d3.sys, Rids(b.rows), RoundGains(d.sys.next, d.sys.reqs, Rids(b.rows), proposals))
  {
    hide Good, BatchOk, AllRoom, AllChecked, Rounding, Unsettled, Reachable, SettleFrom, RoundGain, Gained, Rids;
    var rids := Rids(b.rows);
    forall r | r in d.sys.reqs ensures RoundedOne(d, d2, d3, rids, r) {
      RoundRowOf(c, d, reqs1, d2.sys.reqs, b, r);
      UncheckedSame(d, reqs1, d2.sys.reqs, b, c, r);
      SettledGains(c, d2, rids, 0, r);
      OneRounded(c, d, d2, d3, rids, r);
    }
    forall i | 0 <= i < |rids|
      ensures rids[i] in d.sys.reqs && Gained(d3.sys, rids[i], d.sys.reqs[rids[i]], RoundGain(d.sys.next, d.sys.reqs[rids[i]], proposals[i]))
    {
      assert rids[i] in rids;
      assert RoundedOne(d, d2, d3, rids, rids[i]);
    }
    forall r | r in d.sys.reqs && r !in rids ensures r in d3.sys.reqs && d3.sys.reqs[r].output == d.sys.reqs[r].output {
      assert RoundedOne(d, d2, d3, rids, r);
    }
  }

  /** What a round did to one request of the engine. */
  ghost predicate RoundedOne(d: Sched, d2: Sched, d3: Sched, rids: seq<nat>, r: nat) {
    && r in d.sys.reqs && r in d2.sys.reqs
    && (r in rids ==>
          && d2.sys.reqs[r].row.Verified?
          && Gained(d3.sys, r, d.sys.reqs[r], RoundGain(d.sys.next, d.sys.reqs[r], d2.sys.reqs[r].row.proposals)))
    && (r !in rids ==> r in d3.sys.reqs && d3.sys.reqs[r].output == d.sys.reqs[r].output)
  }

  lemma OneRounded(c: Config, d: Sched, d2: Sched, d3: Sched, rids: seq<nat>, r: nat)
    requires r in d.sys.reqs && r in d2.sys.reqs && RoundRow(c, d, d2.sys.reqs[r], r) && d2.sys.next == d.sys.next
    requires (d2.sys.reqs[r].row.Verified? <==> r in rids) && SettledOne(d2, d3, rids, 0, r)
    ensures RoundedOne(d, d2, d3, rids, r)
  {
    hide AtRest, AcceptPrefix, Kept, Stream;
    assert rids[0..] == rids;
  }

  /** The gains as seen from before the schedule, which leaves the tokens as they are. */
  lemma GainedFrom(c: Config, name: PolicyName, d: Sched, d1: Sched, s': Sys, b: Batch, gamma: nat, guess: D.Guesser, n: nat)
    requires StepStart(c, name, d, d1, b, n) && AllGained(d1.sys, s', Rids(b.rows), GainsOf(d.sys.next, d1.sys.reqs, b, gamma, guess))
    ensures AllGained(d.sys, s', Rids(b.rows), GainsOf(d.sys.next, d.sys.reqs, b, gamma, guess))
  {
    hide Good, QueuesOk, Shaped, Schedule, PolicyOk, PolicyOf, FlightOk, SameRequests, AllGained, GainsOf;
    ScheduleGood(c, PolicyOf(name), d);
    SameGains(d.sys.next, d.sys, d1.sys, b, gamma, guess);
    GainedSame(d.sys, d1.sys, s', Rids(b.rows), GainsOf(d.sys.next, d.sys.reqs, b, gamma, guess));
  }

  lemma PlainGainsAre(c: Config, d: Sched, d2: Sched, d3: Sched, b: Batch, prev: Flight, gamma: nat, guess: D.Guesser)
    requires Good(c, d) && BatchOk(c, d, b) && (forall r :: r in d.sys.reqs ==> d.sys.reqs[r].pending == 0)
    requires AllLaunched(d.sys.bs, d.sys.reqs, d2.sys.reqs, b.rows) && FlightOf(prev, d.sys.reqs, d2.sys.reqs, b.rows)
    requires Loose(c, d2) && d2.sys.next == d.sys.next && d3 == ReadFrom(d2, prev, 0) && (gamma == 0 || b.phase != DecodeOnly)
    ensures AllGained(d.sys, d3.sys, Rids(b.rows), GainsOf(d.sys.next, d.sys.reqs, b, gamma, guess))
  {
    hide Good, BatchOk, AllLaunched, FlightOf, Loose, ReadFrom, AllGained;
    LaunchFacts(c, d, b);
    forall r | r in d.sys.reqs ensures d.sys.reqs[r].unread == [] { NoneUnread(c, d, r); }
    PlainGained(c, d, d2, d3, b.rows, prev);
  }

  lemma NoneUnread(c: Config, d: Sched, r: nat)
    requires Good(c, d) && r in d.sys.reqs && d.sys.reqs[r].pending == 0
    ensures d.sys.reqs[r].unread == []
  {
    hide Good, Stream;
    GoodReq(c, d, r);
  }
}

/** The draft model's own pool and tables. What it proposes is arbitrary, given from outside; what is
    kept track of is how many tokens and blocks it holds. Its pool is as large as the target's, and it never runs out:
    every request may be given as many draft blocks as the target holds, or is about to hold, for it. */
module Drafts {
  import opened Common
  import opened BlockPool
  import opened BlockTables
  import opened TreeShape
  import opened TokenChunks
  import opened KvState
  import opened KvCache
  import opened ScheduleRoom

  // ------------------------------------------------------------ shares of the pool

  /** Shares of the pool: together no more than it has, and every table within its own. */
  ghost predicate SharesOk(kv: Kv, rids: seq<nat>, share: map<nat, int>) {
    && Distinct(rids) && (forall r :: r in rids ==> r in share && share[r] >= 0)
    && Sum(share, rids) <= kv.numBlocks
    && (forall r :: r in kv.held ==> r in rids && |kv.held[r].blocks| <= share[r])
  }

  /** What a request's share leaves can always be handed out. */
  lemma ShareRoom(kv: Kv, rids: seq<nat>, share: map<nat, int>, r: nat)
    requires KvOk(kv) && kv.cached == map[] && SharesOk(kv, rids, share) && r in kv.held
    ensures share[r] - |kv.held[r].blocks| <= |FreeBlocks(kv)|
  {
    hide KvOk;
    var holders := Only(rids, kv.held.Keys);
    OnlyDistinct(rids, kv.held.Keys);
    HeldConservation(kv, holders);
    SumSubset(share, holders, rids);
    SumRemove(share, holders, r);
    SumRemove(HeldSizes(kv), holders, r);
    SumLe(HeldSizes(kv), share, Remove(holders, r));
    assert Evictable(kv) == {};
  }

  lemma SharesGrow(kv: Kv, rids: seq<nat>, share: map<nat, int>, r: nat, news: seq<nat>)
    requires SharesOk(kv, rids, share) && r in kv.held && |kv.held[r].blocks| + |news| <= share[r]
    ensures SharesOk(Grown(kv, r, news), rids, share)
  {
  }

  /** Blocks a table of `n` more tokens has: those it has already, or more if they do not suffice. */
  lemma GrownSize(t: Table, n: nat, bs: nat)
    requires bs > 0
    ensures |t.blocks| + BlocksNeeded(t, n, bs) ==
      if CeilDiv(t.numTokens + n, bs) > |t.blocks| then CeilDiv(t.numTokens + n, bs) else |t.blocks|
  {
  }

  // ------------------------------------------------------------ draft.py

  /** What the draft chooses in a round: its `k`-th proposal for a request. Nothing is assumed of it. */
  type Guesser = (nat, nat) -> nat

  function Guesses(guess: Guesser, rid: nat, n: nat): (r: seq<nat>)
    ensures |r| == n && forall k :: 0 <= k < n ==> r[k] == guess(rid, k)
  {
    seq(n, k requires 0 <= k < n => guess(rid, k))
  }

  class DraftRunner {
    /** The draft's pool, without a prefix cache. */
    const kv: KVCacheManager
    const maxPrefill: nat
    var tables: map<nat, Table>
    /** The forward passes so far. */
    ghost var passes: seq<seq<Row>>

    ghost predicate Valid()
      reads this, kv, kv.allocator, kv.tree
    {
      && kv.Valid() && kv.tree == null && kv.allocator.blockSize > 0 && maxPrefill >= 1
      && tables.Keys == kv.held.Keys
      && forall r :: r in tables ==> TableOk(tables[r], kv.allocator.blockSize) && kv.held[r].blocks == tables[r].blocks
    }

    constructor (kv: KVCacheManager, maxPrefill: nat)
      requires kv.Valid() && kv.tree == null && kv.held == map[] && kv.allocator.blockSize > 0 && maxPrefill >= 1
      ensures Valid() && this.kv == kv && tables == map[] && passes == []
    {
      this.kv, this.maxPrefill, tables, passes := kv, maxPrefill, map[], [];
    }

    lemma Facts()
      requires Valid()
      ensures kv.Valid() && kv.TreeSound() && kv.tree == null && kv.allocator.blockSize > 0 && maxPrefill >= 1
      ensures tables.Keys == kv.held.Keys && kv.View() == Kv(kv.allocator.numBlocks, map[], kv.held) && KvOk(kv.View())
      ensures forall r :: r in tables ==> TableOk(tables[r], kv.allocator.blockSize) && kv.held[r].blocks == tables[r].blocks
      ensures kv.nodeOf.Keys == kv.held.Keys && forall r :: r in kv.nodeOf ==> kv.nodeOf[r] == ROOT
      ensures |kv.allocator.free| == |FreeBlocks(kv.View())|
    {
      kv.Sound();
      kv.AvailableIs();
    }

    /** Starts an empty table. */
    method Admit(r: nat) returns (ok: Result<()>)
      requires Valid()
      modifies this`tables, kv, kv.allocator
      ensures Valid() && (ok.Ok? <==> r !in old(tables))
      ensures tables == if ok.Ok? then old(tables)[r := Table([], 0)] else old(tables)
    {
      hide KvOk, KVCacheManager.Valid, KVCacheManager.View;
      Facts();
      if r in tables { return Err(RuntimeError); }
      var t, node := kv.Acquire(r, []);
      NothingTaken(old(kv.View()), r, kv.allocator.blockSize);
      kv.NodeOfHeld();
      tables := tables[r := t];
      ok := Ok(());
    }

    /** Gives a request's table up, if it has one. */
    method Release(r: nat)
      requires Valid()
      modifies this`tables, kv, kv.allocator
      ensures Valid() && tables == old(tables) - {r}
    {
      hide KvOk, KVCacheManager.Valid, KVCacheManager.View;
      Facts();
      if r in tables {
        kv.Release(r, tables[r], ROOT, []);
        tables := tables - {r};
        kv.NodeOfHeld();
      } else {
        NotATable(tables, r);
      }
    }

    /** `covered`: tokens of the request whose KV the draft holds. */
    function Covered(r: nat): nat
      requires r in tables
      reads this
    {
      tables[r].numTokens
    }

    /** Drops everything past `n` tokens and keeps the blocks. */
    method RewindTo(r: nat, n: nat)
      requires Valid() && r in tables
      modifies this`tables
      ensures Valid() && kv.View() == old(kv.View())
      ensures tables == old(tables)[r := Table(old(tables)[r].blocks, if n < old(tables)[r].numTokens then n else old(tables)[r].numTokens)]
    {
      if n < tables[r].numTokens { tables := tables[r := Table(tables[r].blocks, n)]; }
      assert tables[r] == Table(tables[r].blocks, tables[r].numTokens);
    }

    /** The pool's state. */
    ghost function Pool(): Kv
      requires Valid()
      reads this, kv, kv.allocator, kv.tree
    {
      kv.View()
    }

    /** Room for `n` more tokens of one request. Within its share this cannot fail. */
    method Append(r: nat, n: nat, ghost rids: seq<nat>, ghost share: map<nat, int>)
      requires Valid() && r in tables && SharesOk(Pool(), rids, share)
      requires CeilDiv(tables[r].numTokens + n, kv.allocator.blockSize) <= share[r]
      modifies this`tables, kv, kv.allocator
      ensures Valid() && SharesOk(Pool(), rids, share) && tables.Keys == old(tables).Keys && r in tables
      ensures tables == old(tables)[r := tables[r]] && tables[r].numTokens == old(tables)[r].numTokens + n
    {
      hide KvOk, KVCacheManager.Valid, KVCacheManager.View, SharesOk, FreeBlocks, CeilDiv, BlocksNeeded;
      Facts();
      ghost var v := kv.View();
      var t := tables[r];
      ShareRoom(v, rids, share, r);
      GrownSize(t, n, kv.allocator.blockSize);
      ShareHas(v, rids, share, r);
      var got := kv.AppendTokens(r, t, n);
      SharesGrow(v, rids, share, r, got.value);
      AppendFits(t, n, got.value, kv.allocator.blockSize);
      kv.NodeOfHeld();
      SetTable(r, Table(t.blocks + got.value, t.numTokens + n), v.held);
    }

    /** Records a table that grew with the pool's hold of it. */
    method SetTable(r: nat, t: Table, ghost held0: map<nat, Hold>)
      requires kv.Valid() && kv.tree == null && kv.allocator.blockSize > 0 && maxPrefill >= 1 && r in tables
      requires tables.Keys == held0.Keys && kv.held.Keys == held0.Keys && (forall x :: x in held0 && x != r ==> kv.held[x] == held0[x])
      requires forall x :: x in tables ==> TableOk(tables[x], kv.allocator.blockSize) && held0[x].blocks == tables[x].blocks
      requires TableOk(t, kv.allocator.blockSize) && kv.held[r].blocks == t.blocks
      modifies this`tables
      ensures Valid() && tables == old(tables)[r := t]
    {
      hide KVCacheManager.Valid, TableOk;
      tables := tables[r := t];
    }

    // ------------------------------------------------------------ passes

    /** One pass: each row's table grows by the row's tokens. */
    method Extend(rows: seq<Row>, ghost rids: seq<nat>, ghost share: map<nat, int>)
      requires Valid() && SharesOk(Pool(), rids, share) && Within(tables, rows, share, kv.allocator.blockSize)
      modifies this`tables, this`passes, kv, kv.allocator
      ensures Valid() && SharesOk(Pool(), rids, share) && GrewBy(old(tables), tables, rows)
      ensures passes == old(passes) + [rows]
    {
      hide KvOk, KVCacheManager.Valid, KVCacheManager.View, SharesOk, Valid;
      ghost var t0 := tables;
      NothingGrew(t0);
      for i := 0 to |rows|
        invariant Valid() && SharesOk(Pool(), rids, share) && GrewBy(t0, tables, rows[..i]) && passes == old(passes)
      {
        ghost var t1 := tables;
        NextRow(t0, t1, rows, share, kv.allocator.blockSize, i);
        Append(rows[i].rid, rows[i].n, rids, share);
        GrewMore(t0, t1, tables, rows, i);
      }
      assert rows[..|rows|] == rows;
      Count(rows);
    }

    method Count(ghost rows: seq<Row>)
      requires Valid()
      modifies this`passes
      ensures Valid() && Pool() == old(Pool()) && passes == old(passes) + [rows]
    {
      hide KVCacheManager.Valid, KVCacheManager.View;
      passes := passes + [rows];
    }

    /** `gamma` proposed tokens per request, whatever they are: the first step feeds each request what
        the draft misses, every further step one token. */
    method Propose(rows: seq<Row>, gamma: nat, guess: Guesser, ghost rids: seq<nat>, ghost share: map<nat, int>) returns (proposals: seq<seq<nat>>)
      requires Valid() && SharesOk(Pool(), rids, share) && gamma >= 1
      requires Within(tables, Longer(rows, gamma - 1), share, kv.allocator.blockSize)
      modifies this`tables, this`passes, kv, kv.allocator
      ensures Valid() && SharesOk(Pool(), rids, share) && GrewBy(old(tables), tables, Longer(rows, gamma - 1))
      ensures passes == old(passes) + [rows] + seq(gamma - 1, _ => Ones(rows))
      ensures |proposals| == |rows| && forall i :: 0 <= i < |rows| ==> proposals[i] == Guesses(guess, rows[i].rid, gamma)
    {
      hide KvOk, KVCacheManager.Valid, KVCacheManager.View, SharesOk, Valid, Within, GrewBy;
      ghost var (t0, bs) := (tables, kv.allocator.blockSize);
      WithinLess(t0, rows, gamma - 1, 0, share, bs);
      LongerNone(rows);
      Extend(rows, rids, share);
      proposals := Guess(rows, seq(|rows|, _ => []), 0, guess);
      for k := 1 to gamma
        invariant Valid() && SharesOk(Pool(), rids, share) && GrewBy(t0, tables, Longer(rows, k - 1))
        invariant passes == old(passes) + [rows] + seq(k - 1, _ => Ones(rows))
        invariant |proposals| == |rows| && forall i :: 0 <= i < |rows| ==> proposals[i] == Guesses(guess, rows[i].rid, k)
      {
        ghost var t1 := tables;
        WithinOne(t0, t1, rows, k, gamma, share, bs);
        Extend(Ones(rows), rids, share);
        GrewOne(t0, t1, tables, rows, k);
        proposals := Guess(rows, proposals, k, guess);
      }
    }

    /** The draft's next token for every row. */
    method Guess(rows: seq<Row>, proposals: seq<seq<nat>>, k: nat, guess: Guesser) returns (longer: seq<seq<nat>>)
      requires |proposals| == |rows| && forall i :: 0 <= i < |rows| ==> proposals[i] == Guesses(guess, rows[i].rid, k)
      ensures |longer| == |rows| && forall i :: 0 <= i < |rows| ==> longer[i] == Guesses(guess, rows[i].rid, k + 1)
    {
      longer := [];
      for i := 0 to |rows|
        invariant |longer| == i && forall j :: 0 <= j < i ==> longer[j] == Guesses(guess, rows[j].rid, k + 1)
      {
        longer := longer + [proposals[i] + [guess(rows[i].rid, k)]];
      }
    }

    /** Computes the KV of each request from position 0, in passes of at most `maxPrefill` tokens that
        requests share; a request longer than the room left continues in the next pass. */
    method Prefill(items: seq<Row>, ghost rids: seq<nat>, ghost share: map<nat, int>) returns (ok: Result<()>)
      requires Valid() && SharesOk(Pool(), rids, share) && Within(tables, items, share, kv.allocator.blockSize)
      requires forall i :: 0 <= i < |items| ==> items[i].rid in tables && tables[items[i].rid].numTokens == 0
      modifies this`tables, this`passes, kv, kv.allocator
      ensures ok.Ok? && Valid() && SharesOk(Pool(), rids, share) && GrewBy(old(tables), tables, items)
      ensures FewPasses(old(passes), passes, maxPrefill)
    {
      hide KvOk, KVCacheManager.Valid, KVCacheManager.View, SharesOk, Valid, Within, GrewBy, Packing, HasRow, CeilDiv;
      ghost var t0 := tables;
      WithinDistinct(t0, items, share, kv.allocator.blockSize);
      var pass: seq<Row> := [];
      var used := 0;
      PassEmpty(t0, items);
      MaxIsPositive();
      for i := 0 to |items|
        invariant Valid() && SharesOk(Pool(), rids, share) && Packing(t0, tables, items, i, 0, pass) && used <= maxPrefill
        invariant used == PassTokens(pass) && AllFull(old(passes), passes, maxPrefill)
      {
        var (r, len) := (items[i].rid, items[i].n);
        UntouchedYet(t0, tables, items, i, pass);
        if tables[r].numTokens != 0 { return Err(RuntimeError); }
        var start := 0;
        while start < len
          invariant 0 <= start <= len && used <= maxPrefill && Valid() && SharesOk(Pool(), rids, share)
          invariant Packing(t0, tables, items, i, start, pass)
          invariant start < len && HasRow(pass, r) ==> used == maxPrefill
          invariant used == PassTokens(pass) && AllFull(old(passes), passes, maxPrefill)
        {
          if used == maxPrefill {
            Flush(t0, items, i, start, pass, rids, share);
            pass, used := [], 0;
            NoRowInNone(r);
          }
          var n := if len - start <= maxPrefill - used then len - start else maxPrefill - used;
          PieceJoins(t0, tables, items, i, start, pass, n);
          if start + n < len { assert used + n == maxPrefill; }
          PassTokensSnoc(pass, Row(r, n));
          pass := pass + [Row(r, n)];
          used := used + n;
          start := start + n;
        }
        ItemDone(t0, tables, items, i, pass);
      }
      if pass != [] {
        Flush(t0, items, |items|, 0, pass, rids, share);
      }
      AllPacked(t0, tables, items);
      return Ok(());
    }

    /** Runs the pass that was put together. */
    method Flush(ghost t0: map<nat, Table>, ghost items: seq<Row>, ghost i: nat, ghost start: nat, pass: seq<Row>,
                 ghost rids: seq<nat>, ghost share: map<nat, int>)
      requires Valid() && SharesOk(Pool(), rids, share) && Within(t0, items, share, kv.allocator.blockSize)
      requires Packing(t0, tables, items, i, start, pass) && (i < |items| ==> start <= items[i].n)
      modifies this`tables, this`passes, kv, kv.allocator
      ensures Valid() && SharesOk(Pool(), rids, share) && Packing(t0, tables, items, i, start, [])
      ensures passes == old(passes) + [pass]
    {
      hide KVCacheManager.Valid, KVCacheManager.View, SharesOk, Valid, Within, GrewBy, Packing;
      ghost var t1 := tables;
      PassFits(t0, t1, items, i, start, pass, share, kv.allocator.blockSize);
      Extend(pass, rids, share);
      PassDone(t0, t1, tables, items, i, start, pass);
    }

    lemma MaxIsPositive()
      requires Valid()
      ensures maxPrefill >= 1
    {
    }
  }

  // ------------------------------------------------------------ rows of a pass

  datatype Row = Row(rid: nat, n: nat)

  ghost predicate RowsDistinct(rows: seq<Row>) {
    forall i, j :: 0 <= i < j < |rows| ==> rows[i].rid != rows[j].rid
  }

  /** Every row's table stays within its share. */
  ghost predicate Within(tables: map<nat, Table>, rows: seq<Row>, share: map<nat, int>, bs: nat) {
    && bs > 0 && RowsDistinct(rows)
    && forall i :: 0 <= i < |rows| ==>
         && rows[i].rid in tables && rows[i].rid in share
         && CeilDiv(tables[rows[i].rid].numTokens + rows[i].n, bs) <= share[rows[i].rid]
  }

  ghost predicate HasRow(rows: seq<Row>, r: nat) {
    exists i :: 0 <= i < |rows| && rows[i].rid == r
  }

  /** Each row's table has the row's tokens more; the others are as they were. */
  ghost predicate GrewBy(t0: map<nat, Table>, t1: map<nat, Table>, rows: seq<Row>) {
    && t1.Keys == t0.Keys
    && (forall i :: 0 <= i < |rows| ==> rows[i].rid in t0 && t1[rows[i].rid].numTokens == t0[rows[i].rid].numTokens + rows[i].n)
    && (forall r :: r in t0 && !HasRow(rows, r) ==> t1[r] == t0[r])
  }

  lemma WithinDistinct(tables: map<nat, Table>, rows: seq<Row>, share: map<nat, int>, bs: nat)
    requires Within(tables, rows, share, bs)
    ensures RowsDistinct(rows)
  {
  }

  lemma NoRowInNone(r: nat)
    ensures !HasRow([], r)
  {
  }

  lemma HasRowMono(a: seq<Row>, b: seq<Row>, r: nat)
    requires forall k :: 0 <= k < |a| ==> HasRow(b, a[k].rid)
    ensures HasRow(a, r) ==> HasRow(b, r)
  {
  }

  lemma NothingGrew(t: map<nat, Table>)
    ensures GrewBy(t, t, [])
  {
  }

  lemma NextRow(t0: map<nat, Table>, t1: map<nat, Table>, rows: seq<Row>, share: map<nat, int>, bs: nat, i: nat)
    requires Within(t0, rows, share, bs) && i < |rows| && GrewBy(t0, t1, rows[..i])
    ensures rows[i].rid in t1 && rows[i].rid in t0 && t1[rows[i].rid] == t0[rows[i].rid] && rows[i].rid in share
    ensures CeilDiv(t1[rows[i].rid].numTokens + rows[i].n, bs) <= share[rows[i].rid]
  {
    assert !HasRow(rows[..i], rows[i].rid);
  }

  lemma GrewMore(t0: map<nat, Table>, t1: map<nat, Table>, t2: map<nat, Table>, rows: seq<Row>, i: nat)
    requires i < |rows| && RowsDistinct(rows) && GrewBy(t0, t1, rows[..i]) && rows[i].rid in t1 && rows[i].rid in t0 && rows[i].rid in t2
    requires t1[rows[i].rid] == t0[rows[i].rid] && t2 == t1[rows[i].rid := t2[rows[i].rid]]
    requires t2[rows[i].rid].numTokens == t1[rows[i].rid].numTokens + rows[i].n
    ensures GrewBy(t0, t2, rows[..i + 1])
  {
    var longer := rows[..i + 1];
    forall k | 0 <= k < i ensures HasRow(longer, rows[..i][k].rid) { assert longer[k].rid == rows[..i][k].rid; }
    forall r | r in t0 && !HasRow(longer, r) ensures t2[r] == t0[r] {
      assert r != longer[i].rid;
      HasRowMono(rows[..i], longer, r);
    }
    forall j | 0 <= j < i ensures rows[..i + 1][j] == rows[..i][j] && rows[j].rid != rows[i].rid {}
  }

  /** The same rows with `k` tokens more each. */
  function Longer(rows: seq<Row>, k: nat): (r: seq<Row>)
    ensures |r| == |rows| && forall i :: 0 <= i < |rows| ==> r[i] == Row(rows[i].rid, rows[i].n + k)
  {
    seq(|rows|, i requires 0 <= i < |rows| => Row(rows[i].rid, rows[i].n + k))
  }

  function Ones(rows: seq<Row>): (r: seq<Row>)
    ensures |r| == |rows| && forall i :: 0 <= i < |rows| ==> r[i] == Row(rows[i].rid, 1)
  {
    seq(|rows|, i requires 0 <= i < |rows| => Row(rows[i].rid, 1))
  }

  lemma LongerNone(rows: seq<Row>)
    ensures Longer(rows, 0) == rows
  {
  }

  lemma WithinLess(t: map<nat, Table>, rows: seq<Row>, k: nat, j: nat, share: map<nat, int>, bs: nat)
    requires j <= k && Within(t, Longer(rows, k), share, bs)
    ensures Within(t, Longer(rows, j), share, bs) && Within(t, Longer(rows, 0), share, bs)
  {
    hide CeilDiv;
    var (a, b) := (Longer(rows, k), Longer(rows, j));
    forall i, x | 0 <= i < x < |rows| ensures rows[i].rid != rows[x].rid { assert a[i].rid != a[x].rid; }
    forall i | 0 <= i < |rows|
      ensures rows[i].rid in t && rows[i].rid in share
      ensures CeilDiv(t[rows[i].rid].numTokens + rows[i].n + j, bs) <= share[rows[i].rid]
      ensures CeilDiv(t[rows[i].rid].numTokens + rows[i].n, bs) <= share[rows[i].rid]
    {
      assert a[i].rid == rows[i].rid;
      CeilMono(t[rows[i].rid].numTokens + rows[i].n + j, t[rows[i].rid].numTokens + rows[i].n + k, bs);
      CeilMono(t[rows[i].rid].numTokens + rows[i].n, t[rows[i].rid].numTokens + rows[i].n + k, bs);
    }
  }

  lemma WithinAt(t: map<nat, Table>, rows: seq<Row>, share: map<nat, int>, bs: nat, i: nat)
    requires Within(t, rows, share, bs) && i < |rows|
    ensures bs > 0 && rows[i].rid in t && rows[i].rid in share
    ensures CeilDiv(t[rows[i].rid].numTokens + rows[i].n, bs) <= share[rows[i].rid]
  {
    hide CeilDiv, RowsDistinct;
  }

  lemma GrewAt(t0: map<nat, Table>, t1: map<nat, Table>, rows: seq<Row>, i: nat)
    requires GrewBy(t0, t1, rows) && i < |rows|
    ensures rows[i].rid in t0 && rows[i].rid in t1
    ensures t1[rows[i].rid].numTokens == t0[rows[i].rid].numTokens + rows[i].n
  {
    hide HasRow;
  }

  lemma OneMoreAt(t0: map<nat, Table>, t1: map<nat, Table>, rows: seq<Row>, k: nat, gamma: nat, share: map<nat, int>, bs: nat, i: nat)
    requires 1 <= k < gamma && Within(t0, Longer(rows, gamma - 1), share, bs) && GrewBy(t0, t1, Longer(rows, k - 1))
    requires i < |rows|
    ensures bs > 0 && rows[i].rid in t1 && rows[i].rid in share && CeilDiv(t1[rows[i].rid].numTokens + 1, bs) <= share[rows[i].rid]
  {
    hide CeilDiv, Within, GrewBy;
    WithinAt(t0, Longer(rows, gamma - 1), share, bs, i);
    GrewAt(t0, t1, Longer(rows, k - 1), i);
    CeilMono(t1[rows[i].rid].numTokens + 1, t0[rows[i].rid].numTokens + rows[i].n + gamma - 1, bs);
  }

  lemma OnesDistinct(rows: seq<Row>, k: nat)
    requires RowsDistinct(Longer(rows, k))
    ensures RowsDistinct(Ones(rows))
  {
    var (a, c) := (Longer(rows, k), Ones(rows));
    forall i, x | 0 <= i < x < |rows| ensures c[i].rid != c[x].rid { assert a[i].rid != a[x].rid; }
  }

  lemma WithinOne(t0: map<nat, Table>, t1: map<nat, Table>, rows: seq<Row>, k: nat, gamma: nat, share: map<nat, int>, bs: nat)
    requires 1 <= k < gamma && Within(t0, Longer(rows, gamma - 1), share, bs) && GrewBy(t0, t1, Longer(rows, k - 1))
    ensures Within(t1, Ones(rows), share, bs)
  {
    hide CeilDiv, GrewBy, RowsDistinct;
    WithinDistinct(t0, Longer(rows, gamma - 1), share, bs);
    OnesDistinct(rows, gamma - 1);
    forall i | 0 <= i < |rows|
      ensures rows[i].rid in t1 && rows[i].rid in share && CeilDiv(t1[rows[i].rid].numTokens + 1, bs) <= share[rows[i].rid]
    {
      OneMoreAt(t0, t1, rows, k, gamma, share, bs, i);
    }
  }

  lemma GrewOne(t0: map<nat, Table>, t1: map<nat, Table>, t2: map<nat, Table>, rows: seq<Row>, k: nat)
    requires k >= 1 && GrewBy(t0, t1, Longer(rows, k - 1)) && GrewBy(t1, t2, Ones(rows))
    ensures GrewBy(t0, t2, Longer(rows, k))
  {
    var (a, b, c) := (Longer(rows, k), Longer(rows, k - 1), Ones(rows));
    forall i | 0 <= i < |rows| ensures a[i].rid in t0 && t2[a[i].rid].numTokens == t0[a[i].rid].numTokens + a[i].n {
      assert b[i].rid == c[i].rid == a[i].rid;
    }
    forall i | 0 <= i < |rows| ensures HasRow(a, b[i].rid) && HasRow(a, c[i].rid) { assert a[i].rid == b[i].rid == c[i].rid; }
    forall r | r in t0 && !HasRow(a, r) ensures t2[r] == t0[r] {
      HasRowMono(b, a, r);
      HasRowMono(c, a, r);
    }
  }

  // ------------------------------------------------------------ packing a prefill

  /** Tokens of a pass. */
  function PassTokens(pass: seq<Row>): int {
    if pass == [] then 0 else PassTokens(pass[..|pass| - 1]) + pass[|pass| - 1].n
  }

  lemma PassTokensSnoc(pass: seq<Row>, w: Row)
    ensures PassTokens(pass + [w]) == PassTokens(pass) + w.n
  {
    assert (pass + [w])[..|pass|] == pass;
  }

  /** Every pass after the first `|old_|` is full. */
  ghost predicate AllFull(old_: seq<seq<Row>>, new_: seq<seq<Row>>, limit: nat) {
    old_ <= new_ && forall k :: |old_| <= k < |new_| ==> PassTokens(new_[k]) == limit
  }

  /** The same, but the last one may have room left. */
  ghost predicate FewPasses(old_: seq<seq<Row>>, new_: seq<seq<Row>>, limit: nat) {
    && old_ <= new_ && (forall k :: |old_| <= k < |new_| ==> PassTokens(new_[k]) <= limit)
    && forall k :: |old_| <= k < |new_| - 1 ==> PassTokens(new_[k]) == limit
  }

  /** Tokens of `r` in the pass that is being put together. */
  function PassOf(pass: seq<Row>, r: nat): nat {
    if pass == [] then 0
    else (if pass[|pass| - 1].rid == r then pass[|pass| - 1].n else 0) + PassOf(pass[..|pass| - 1], r)
  }

  lemma {:induction false} PassOfAbsent(pass: seq<Row>, r: nat)
    requires forall w :: w in pass ==> w.n > 0
    ensures PassOf(pass, r) == 0 <==> !HasRow(pass, r)
  {
    if pass != [] {
      var (init, last) := (pass[..|pass| - 1], pass[|pass| - 1]);
      PassOfAbsent(init, r);
      if HasRow(init, r) {
        var i :| 0 <= i < |init| && init[i].rid == r;
        assert pass[i].rid == r;
      }
      if HasRow(pass, r) && last.rid != r {
        var i :| 0 <= i < |pass| && pass[i].rid == r;
        assert init[i].rid == r;
      }
    }
  }

  lemma {:induction false} PassOfRow(pass: seq<Row>, i: nat)
    requires RowsDistinct(pass) && i < |pass| && forall w :: w in pass ==> w.n > 0
    ensures PassOf(pass, pass[i].rid) == pass[i].n
  {
    var init := pass[..|pass| - 1];
    if i == |pass| - 1 {
      PassOfAbsent(init, pass[i].rid);
    } else {
      PassOfRow(init, i);
    }
  }

  /** Tokens of item `j` that are computed or in the pass, when `start` of item `i` are. */
  function Goal(items: seq<Row>, j: nat, i: nat, start: nat): nat
    requires j < |items|
  {
    if j < i then items[j].n else if j == i then start else 0
  }

  ghost predicate Packing(t0: map<nat, Table>, t1: map<nat, Table>, items: seq<Row>, i: nat, start: nat, pass: seq<Row>) {
    && i <= |items| && RowsDistinct(items) && RowsDistinct(pass) && t1.Keys == t0.Keys
    && (forall w :: w in pass ==> w.n > 0 && HasRow(items, w.rid))
    && (forall j {:trigger items[j]} :: 0 <= j < |items| ==>
         && items[j].rid in t0 && t0[items[j].rid].numTokens == 0
         && t1[items[j].rid].numTokens + PassOf(pass, items[j].rid) == Goal(items, j, i, start))
    && (forall r :: r in t0 && !HasRow(items, r) ==> t1[r] == t0[r])
  }

  lemma PassEmpty(t0: map<nat, Table>, items: seq<Row>)
    requires RowsDistinct(items) && forall i :: 0 <= i < |items| ==> items[i].rid in t0 && t0[items[i].rid].numTokens == 0
    ensures Packing(t0, t0, items, 0, 0, [])
  {
  }

  lemma UntouchedYet(t0: map<nat, Table>, t1: map<nat, Table>, items: seq<Row>, i: nat, pass: seq<Row>)
    requires Packing(t0, t1, items, i, 0, pass) && i < |items|
    ensures items[i].rid in t1 && t1[items[i].rid].numTokens == 0 && !HasRow(pass, items[i].rid)
  {
    PassOfAbsent(pass, items[i].rid);
  }

  lemma PassFits(t0: map<nat, Table>, t1: map<nat, Table>, items: seq<Row>, i: nat, start: nat, pass: seq<Row>, share: map<nat, int>, bs: nat)
    requires Packing(t0, t1, items, i, start, pass) && Within(t0, items, share, bs) && (i < |items| ==> start <= items[i].n)
    ensures Within(t1, pass, share, bs)
  {
    hide CeilDiv, RowsDistinct;
    forall k | 0 <= k < |pass|
      ensures pass[k].rid in t1 && pass[k].rid in share && CeilDiv(t1[pass[k].rid].numTokens + pass[k].n, bs) <= share[pass[k].rid]
    {
      PassRowFits(t0, t1, items, i, start, pass, share, bs, k);
    }
  }

  lemma PassRowFits(t0: map<nat, Table>, t1: map<nat, Table>, items: seq<Row>, i: nat, start: nat, pass: seq<Row>,
                    share: map<nat, int>, bs: nat, k: nat)
    requires Packing(t0, t1, items, i, start, pass) && Within(t0, items, share, bs) && (i < |items| ==> start <= items[i].n)
    requires k < |pass|
    ensures pass[k].rid in t1 && pass[k].rid in share && CeilDiv(t1[pass[k].rid].numTokens + pass[k].n, bs) <= share[pass[k].rid]
  {
    hide CeilDiv, RowsDistinct, Within;
    assert pass[k] in pass;
    var j :| 0 <= j < |items| && items[j].rid == pass[k].rid;
    WithinAt(t0, items, share, bs, j);
    PassOfRow(pass, k);
    assert t1[items[j].rid].numTokens + PassOf(pass, items[j].rid) == Goal(items, j, i, start);
    CeilMono(t1[pass[k].rid].numTokens + pass[k].n, items[j].n, bs);
  }

  lemma PassDone(t0: map<nat, Table>, t1: map<nat, Table>, t2: map<nat, Table>, items: seq<Row>, i: nat, start: nat, pass: seq<Row>)
    requires Packing(t0, t1, items, i, start, pass) && GrewBy(t1, t2, pass)
    ensures Packing(t0, t2, items, i, start, [])
  {
    hide HasRow, Goal, PassOf, RowsDistinct;
    PassOfNone();
    NoRowsDistinct();
    forall j | 0 <= j < |items| ensures t2[items[j].rid].numTokens == Goal(items, j, i, start) {
      ItemPassed(t0, t1, t2, items, i, start, pass, j);
    }
    forall k | 0 <= k < |pass| ensures HasRow(items, pass[k].rid) { assert pass[k] in pass; }
    forall r | r in t0 && !HasRow(items, r) ensures t2[r] == t0[r] { HasRowMono(pass, items, r); }
  }

  lemma NoRowsDistinct()
    ensures RowsDistinct([])
  {
  }

  lemma PassOfNone()
    ensures forall r :: PassOf([], r) == 0
  {
  }

  /** A pass brings its item's table to where the packing stands. */
  lemma ItemPassed(t0: map<nat, Table>, t1: map<nat, Table>, t2: map<nat, Table>, items: seq<Row>, i: nat, start: nat,
                 pass: seq<Row>, j: nat)
    requires Packing(t0, t1, items, i, start, pass) && GrewBy(t1, t2, pass) && j < |items|
    ensures items[j].rid in t2 && t2[items[j].rid].numTokens == Goal(items, j, i, start)
  {
    hide Goal;
    var r := items[j].rid;
    PassOfAbsent(pass, r);
    if HasRow(pass, r) {
      var k :| 0 <= k < |pass| && pass[k].rid == r;
      PassOfRow(pass, k);
    }
  }

  lemma PieceJoins(t0: map<nat, Table>, t1: map<nat, Table>, items: seq<Row>, i: nat, start: nat, pass: seq<Row>, n: nat)
    requires Packing(t0, t1, items, i, start, pass) && i < |items| && n > 0 && !HasRow(pass, items[i].rid)
    ensures Packing(t0, t1, items, i, start + n, pass + [Row(items[i].rid, n)])
  {
    var (r, all) := (items[i].rid, pass + [Row(items[i].rid, n)]);
    assert all[..|all| - 1] == pass;
    forall k | 0 <= k < |pass| ensures all[k].rid != r { assert pass[k].rid != r; }
    assert items[i].rid == r;
  }

  lemma ItemDone(t0: map<nat, Table>, t1: map<nat, Table>, items: seq<Row>, i: nat, pass: seq<Row>)
    requires i < |items| && Packing(t0, t1, items, i, items[i].n, pass)
    ensures Packing(t0, t1, items, i + 1, 0, pass)
  {
  }

  lemma AllPacked(t0: map<nat, Table>, t1: map<nat, Table>, items: seq<Row>)
    requires Packing(t0, t1, items, |items|, 0, [])
    ensures GrewBy(t0, t1, items)
  {
  }

  lemma ShareHas(kv: Kv, rids: seq<nat>, share: map<nat, int>, r: nat)
    requires SharesOk(kv, rids, share) && r in kv.held
    ensures r in share && |kv.held[r].blocks| <= share[r]
  {
  }

  lemma NotATable(tables: map<nat, Table>, r: nat)
    requires r !in tables
    ensures tables - {r} == tables
  {
  }

  /** Without a cache a lookup of nothing takes nothing. */
  lemma NothingTaken(kv: Kv, r: nat, bs: nat)
    requires bs > 0 && kv.cached == map[]
    ensures Taken(kv, r, Chunks([], bs)) == kv.(held := kv.held[r := Hold([], [])])
    ensures TakenTable(kv, Chunks([], bs), bs) == Table([], 0)
  {
  }
}

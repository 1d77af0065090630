/** Block tables: where each token of a request lives, and the paged layout in which the attention
    kernels read a batch of tables. */
module BlockTables {
  import opened Common
  import opened BlockPool

  datatype Table = Table(blocks: seq<nat>, numTokens: nat)

  /** The table's tokens fit in its blocks. */
  predicate TableOk(t: Table, bs: nat) {
    bs > 0 && t.numTokens <= |t.blocks| * bs
  }

  /** Additional blocks to append `n` tokens: `max(0, ceil((num_tokens + n) / bs) - blocks)`. */
  function BlocksNeeded(t: Table, n: nat, bs: nat): nat
    requires bs > 0
  {
    var need := CeilDiv(t.numTokens + n, bs);
    if need > |t.blocks| then need - |t.blocks| else 0
  }

  function SlotAt(t: Table, pos: nat, bs: nat): nat
    requires bs > 0 && Blk(pos, bs) < |t.blocks|
  {
    t.blocks[Blk(pos, bs)] * bs + Off(pos, bs)
  }

  predicate IsSlot(t: Table, pos: nat, bs: nat, slot: nat) {
    bs > 0 && Blk(pos, bs) < |t.blocks| && slot == SlotAt(t, pos, bs)
  }

  lemma PosInTable(t: Table, pos: nat, bs: nat)
    requires TableOk(t, bs) && pos < t.numTokens
    ensures Blk(pos, bs) < |t.blocks|
  {
    BlkBound(pos, |t.blocks|, bs);
  }

  /** After the append the tokens fit, and no smaller number of blocks would have done. */
  lemma AppendFits(t: Table, n: nat, news: seq<nat>, bs: nat)
    requires TableOk(t, bs)
    ensures |news| >= BlocksNeeded(t, n, bs) <==> t.numTokens + n <= (|t.blocks| + |news|) * bs
  {
    CeilBound(t.numTokens + n, |t.blocks| + |news|, bs);
  }

  /** Positions of one table have slots of their own. */
  lemma SlotsDistinct(t: Table, i: nat, j: nat, bs: nat)
    requires TableOk(t, bs) && Distinct(t.blocks) && i < j < t.numTokens
    ensures Blk(i, bs) < |t.blocks| && Blk(j, bs) < |t.blocks|
    ensures SlotAt(t, i, bs) != SlotAt(t, j, bs)
  {
    PosInTable(t, i, bs);
    PosInTable(t, j, bs);
    var bi, bj := t.blocks[Blk(i, bs)], t.blocks[Blk(j, bs)];
    if SlotAt(t, i, bs) == SlotAt(t, j, bs) {
      DivUnique(SlotAt(t, i, bs), bi, Off(i, bs), bs);
      DivUnique(SlotAt(t, j, bs), bj, Off(j, bs), bs);
      assert Blk(i, bs) == Blk(j, bs);
      SlotInjective(i, j, bs);
    }
  }

  /** Taking back the last `n` tokens and appending as many again needs no block: the tokens are
      recomputed into the same slots. */
  lemma RewindThenAppend(t: Table, n: nat, bs: nat)
    requires TableOk(t, bs) && n <= t.numTokens
    ensures BlocksNeeded(Table(t.blocks, t.numTokens - n), n, bs) == 0
  {
    CeilBound(t.numTokens, |t.blocks|, bs);
  }

  /** Tokens in the last block; zero for an empty table. */
  function LastBlockLen(t: Table, bs: nat): int
    requires bs > 0
  {
    if t.numTokens == 0 then 0 else t.numTokens - (|t.blocks| - 1) * bs
  }

  /** The documented range `1..block_size` is met exactly when no block is surplus; a rewind can
      leave surplus blocks, and then the value is not positive. */
  lemma LastBlockLenRange(t: Table, bs: nat)
    requires TableOk(t, bs) && t.numTokens > 0
    ensures 1 <= LastBlockLen(t, bs) <= bs <==> |t.blocks| == CeilDiv(t.numTokens, bs)
    ensures |t.blocks| > CeilDiv(t.numTokens, bs) <==> LastBlockLen(t, bs) <= 0
  {
    var k := |t.blocks|;
    CeilBound(t.numTokens, k, bs);
    assert k > 0;
    CeilBound(t.numTokens, k - 1, bs);
    assert k * bs == (k - 1) * bs + bs;
  }

  /** Three tokens in two blocks of two, then two of them taken back: one token, and the second block
      stays. Its last block would hold minus one tokens. */
  lemma RewindLeavesNegative()
    ensures var (t, rewound) := (Table([0, 1], 3), Table([0, 1], 1));
      && TableOk(t, 2) && LastBlockLen(t, 2) == 1
      && TableOk(rewound, 2) && |rewound.blocks| > CeilDiv(rewound.numTokens, 2) && LastBlockLen(rewound, 2) == -1
  {
  }

  // ------------------------------------------------------------ block_table.py

  class BlockTable {
    const allocator: BlockAllocator
    var blocks: seq<nat>
    var numTokens: nat

    function View(): Table
      reads this
    {
      Table(blocks, numTokens)
    }

    ghost predicate Valid()
      reads this, allocator
    {
      && allocator.Valid() && TableOk(View(), allocator.blockSize)
      && IdsOk(allocator.numBlocks, blocks) && Distinct(blocks)
      && forall b :: b in blocks ==> allocator.refs[b] > 0
    }

    /** A table over `prefix` blocks, all full; the table becomes one more holder of each. */
    constructor (allocator: BlockAllocator, prefix: seq<nat>)
      requires allocator.Valid() && Distinct(prefix)
      requires IdsOk(allocator.numBlocks, prefix) && forall b :: b in prefix ==> allocator.refs[b] > 0
      modifies allocator
      ensures Valid() && this.allocator == allocator
      ensures blocks == prefix && numTokens == |prefix| * allocator.blockSize
      ensures allocator.free == old(allocator.free)
      ensures forall b: nat :: b < allocator.numBlocks ==>
        allocator.refs[b] == old(allocator.refs)[b] + multiset(prefix)[b]
    {
      this.allocator := allocator;
      blocks, numTokens := prefix, |prefix| * allocator.blockSize;
      new;
      var r := allocator.IncRef(prefix);
    }

    /** Room for `n` more tokens; all or nothing. Old positions keep their slots. */
    method AppendTokens(n: int) returns (r: Result<seq<nat>>)
      requires Valid()
      modifies this, allocator
      ensures Valid()
      ensures r.Err? ==> View() == old(View()) && allocator.refs == old(allocator.refs) && allocator.free == old(allocator.free)
      ensures n < 0 ==> r == Err(ValueError)
      ensures n >= 0 ==> (r.Ok? <==> BlocksNeeded(old(View()), n, allocator.blockSize) <= |old(allocator.free)|)
      ensures r.Ok? ==>
        && |r.value| == BlocksNeeded(old(View()), n, allocator.blockSize)
        && View() == Table(old(blocks) + r.value, old(numTokens) + n)
        && r.value == Popped(old(allocator.free), |r.value|)
        && allocator.free == old(allocator.free)[..|old(allocator.free)| - |r.value|]
        && forall b: nat :: b < allocator.numBlocks ==>
             allocator.refs[b] == if b in r.value then 1 else old(allocator.refs)[b]
    {
      if n < 0 { return Err(ValueError); }
      var need := BlocksNeeded(Table(blocks, numTokens), n, allocator.blockSize);
      ghost var free0, refs0 := allocator.free, allocator.refs;
      var got := allocator.Allocate(need);
      if got.Err? { return Err(got.error); }
      var news := got.value;
      AppendFits(View(), n, news, allocator.blockSize);
      NewBlocks(allocator.numBlocks, free0, refs0, blocks, need);
      blocks := blocks + news;
      numTokens := numTokens + n;
      return Ok(news);
    }

    method Slot(pos: int) returns (r: Result<nat>)
      requires Valid()
      ensures r.Ok? <==> 0 <= pos < numTokens
      ensures r.Ok? ==> Blk(pos, allocator.blockSize) < |blocks| && r.value == SlotAt(View(), pos, allocator.blockSize)
      ensures r.Err? ==> r.error == IndexError
    {
      if !(0 <= pos < numTokens) { return Err(IndexError); }
      PosInTable(View(), pos, allocator.blockSize);
      return Ok(blocks[pos / allocator.blockSize] * allocator.blockSize + pos % allocator.blockSize);
    }

    /** Takes back the last `n` tokens and keeps their blocks. */
    method Rewind(n: int) returns (r: Result<()>)
      requires Valid()
      modifies this`numTokens
      ensures Valid()
      ensures r.Ok? <==> 0 <= n <= old(numTokens)
      ensures View() == if r.Ok? then Table(old(blocks), old(numTokens) - n) else old(View())
    {
      if !(0 <= n <= numTokens) { return Err(IndexError); }
      numTokens := numTokens - n;
      return Ok(());
    }

    /** The slots of the last `n` tokens, in order. */
    method TailSlots(n: int) returns (r: Result<seq<nat>>)
      requires Valid()
      ensures r.Ok? <==> 0 <= n <= numTokens
      ensures r.Ok? ==> |r.value| == n
      ensures r.Ok? ==>
        forall i :: 0 <= i < n ==> IsSlot(View(), numTokens - n + i, allocator.blockSize, r.value[i])
    {
      if !(0 <= n <= numTokens) { return Err(IndexError); }
      var bs := allocator.blockSize;
      var out: seq<nat> := [];
      for p := numTokens - n to numTokens
        invariant |out| == p - (numTokens - n)
        invariant forall i :: 0 <= i < |out| ==> IsSlot(View(), numTokens - n + i, bs, out[i])
      {
        PosInTable(View(), p, bs);
        out := out + [SlotAt(View(), p, bs)];
      }
      return Ok(out);
    }

    /** Gives every block back and empties the table. */
    method Release()
      requires Valid()
      modifies this, allocator
      ensures Valid() && View() == Table([], 0)
      ensures forall b: nat :: b < allocator.numBlocks ==>
        allocator.refs[b] == old(allocator.refs)[b] - if b in old(blocks) then 1 else 0
    {
      forall b: nat { CountOf(blocks, b); }
      var r := allocator.Free(blocks);
      blocks, numTokens := [], 0;
    }
  }

  lemma CountOf(s: seq<nat>, b: nat)
    requires Distinct(s)
    ensures multiset(s)[b] == if b in s then 1 else 0
    decreases |s|
  {
    if s != [] {
      var init := s[..|s| - 1];
      assert s == init + [s[|s| - 1]];
      CountOf(init, b);
    }
  }

  /** Blocks fresh from the stack belong to no table yet. */
  lemma NewBlocks(n: nat, free: seq<nat>, refs: seq<nat>, held: seq<nat>, k: nat)
    requires PoolOk(n, free, refs) && k <= |free|
    requires IdsOk(n, held) && Distinct(held) && forall b :: b in held ==> refs[b] > 0
    ensures var news := Popped(free, k);
      Distinct(held + news) && forall b :: b in news ==> b in free && b !in held && b < n
  {
    var news := Popped(free, k);
    assert forall i :: 0 <= i < k ==> news[i] in free;
  }

  // ------------------------------------------------------------ packing

  /** The page lists of the tables, one after the other. */
  function Pages(tables: seq<Table>): seq<nat> {
    if tables == [] then [] else Pages(tables[..|tables| - 1]) + tables[|tables| - 1].blocks
  }

  /** Where each table's pages start, with the end of the last one. */
  function Starts(tables: seq<Table>): (r: seq<nat>)
    ensures |r| == |tables| + 1
  {
    if tables == [] then [0] else Starts(tables[..|tables| - 1]) + [|Pages(tables)|]
  }

  function LastLens(tables: seq<Table>, bs: nat): (r: seq<int>)
    requires bs > 0
    ensures |r| == |tables|
  {
    if tables == [] then []
    else LastLens(tables[..|tables| - 1], bs) + [LastBlockLen(tables[|tables| - 1], bs)]
  }

  /** A padding row is a table of one page. */
  function Padded(tables: seq<Table>, k: nat, padBlock: nat): (r: seq<Table>)
    ensures |r| == |tables| + k
    ensures r[..|tables|] == tables
  {
    tables + seq(k, i => Table([padBlock], 0))
  }

  function Repeat(x: int, k: nat): (r: seq<int>)
    ensures |r| == k && forall i :: 0 <= i < k ==> r[i] == x
  {
    seq(k, i => x)
  }

  lemma {:induction false} PagesPrefix(tables: seq<Table>, k: nat)
    requires k <= |tables|
    ensures Pages(tables[..k]) <= Pages(tables)
    decreases |tables|
  {
    if k == |tables| {
      assert tables[..k] == tables;
    } else {
      PagesPrefix(tables[..|tables| - 1], k);
      assert tables[..|tables| - 1][..k] == tables[..k];
    }
  }

  lemma {:induction false} StartsAt(tables: seq<Table>, k: nat)
    requires k <= |tables|
    ensures Starts(tables)[k] == |Pages(tables[..k])|
    decreases |tables|
  {
    if k == |tables| {
      assert tables[..k] == tables;
    } else {
      StartsAt(tables[..|tables| - 1], k);
      assert tables[..|tables| - 1][..k] == tables[..k];
    }
  }

  lemma {:induction false} LastLensAt(tables: seq<Table>, k: nat, bs: nat)
    requires bs > 0 && k < |tables|
    ensures LastLens(tables, bs)[k] == LastBlockLen(tables[k], bs)
    decreases |tables|
  {
    if k < |tables| - 1 {
      LastLensAt(tables[..|tables| - 1], k, bs);
    }
  }

  /** Table `k`'s pages lie between its start and the next one. */
  lemma PagesBetween(tables: seq<Table>, k: nat)
    requires k < |tables|
    ensures var (starts, pages) := (Starts(tables), Pages(tables));
      && starts[k] + |tables[k].blocks| == starts[k + 1] <= |pages|
      && pages[starts[k]..starts[k + 1]] == tables[k].blocks
  {
    hide Pages, Starts;
    PagesNext(tables, k);
    StartsAt(tables, k);
    StartsAt(tables, k + 1);
    PagesPrefix(tables, k + 1);
    SliceBetween(Pages(tables[..k]), tables[k].blocks, Pages(tables));
  }

  lemma PagesNext(tables: seq<Table>, k: nat)
    requires k < |tables|
    ensures Pages(tables[..k + 1]) == Pages(tables[..k]) + tables[k].blocks
  {
    assert tables[..k + 1][..k] == tables[..k];
  }

  lemma SliceBetween(a: seq<nat>, b: seq<nat>, whole: seq<nat>)
    requires a + b <= whole
    ensures whole[|a|..|a| + |b|] == b
  {
    var n := |a| + |b|;
    assert whole[..n] == a + b;
    assert whole[|a|..n] == whole[..n][|a|..];
  }

  lemma LastGivesCount(t: Table, pages: int, bs: nat)
    requires bs > 0 && pages == |t.blocks| && t.numTokens > 0
    ensures (pages - 1) * bs + LastBlockLen(t, bs) == t.numTokens
  {
  }

  /** The layout gives every table back: its blocks, and its token count whenever it has one, also
      when a rewind left it with surplus blocks. */
  lemma {:induction false} PackingInvertible(tables: seq<Table>, k: nat, bs: nat)
    requires bs > 0 && k < |tables|
    ensures var (starts, pages, last) := (Starts(tables), Pages(tables), LastLens(tables, bs));
      && starts[k] <= starts[k + 1] <= |pages|
      && pages[starts[k]..starts[k + 1]] == tables[k].blocks
      && (tables[k].numTokens > 0 ==>
            (starts[k + 1] - starts[k] - 1) * bs + last[k] == tables[k].numTokens)
  {
    hide Pages, Starts, LastLens, LastBlockLen;
    PagesBetween(tables, k);
    LastLensAt(tables, k, bs);
    if tables[k].numTokens > 0 {
      LastGivesCount(tables[k], Starts(tables)[k + 1] - Starts(tables)[k], bs);
    }
  }

  /** What both packers leave in the three arrays. */
  ghost predicate Packed(tables: seq<Table>, padRows: nat, padBlock: nat, padLast: int, bs: nat,
                         indptr: seq<int>, indices: seq<int>, last: seq<int>)
    requires bs > 0
  {
    var all := Padded(tables, padRows, padBlock);
    && Starts(all) <= indptr
    && Pages(all) <= indices
    && LastLens(tables, bs) + Repeat(padLast, padRows) <= last
  }

  /** The three arrays are large enough for the tables and the padding rows. */
  predicate BuffersFit(tables: seq<Table>, padRows: int, indptr: nat, indices: nat, last: nat) {
    && padRows >= 0
    && indptr >= |tables| + padRows + 1 && last >= |tables| + padRows && indices >= |Pages(tables)| + padRows
  }

  lemma PadOne(tables: seq<Table>, k: nat, i: nat, padBlock: nat)
    requires i < k
    ensures var (all, n) := (Padded(tables, k, padBlock), |tables| + i);
      && Pages(all[..n + 1]) == Pages(all[..n]) + [padBlock]
      && Starts(all[..n + 1]) == Starts(all[..n]) + [|Pages(all[..n + 1])|]
  {
    var all, n := Padded(tables, k, padBlock), |tables| + i;
    assert all[..n + 1][..n] == all[..n];
  }

  lemma RowOne(tables: seq<Table>, i: nat, bs: nat)
    requires i < |tables| && bs > 0
    ensures Pages(tables[..i + 1]) == Pages(tables[..i]) + tables[i].blocks
    ensures Starts(tables[..i + 1]) == Starts(tables[..i]) + [|Pages(tables[..i + 1])|]
    ensures LastLens(tables[..i + 1], bs) == LastLens(tables[..i], bs) + [LastBlockLen(tables[i], bs)]
    ensures |Pages(tables[..i + 1])| <= |Pages(tables)|
  {
    assert tables[..i + 1][..i] == tables[..i];
    PagesPrefix(tables, i + 1);
  }

  /** The flat lists that block_table.py builds before it writes anything. */
  method BuildLists(tables: seq<Table>, padRows: nat, padBlock: nat, padLast: int, bs: nat)
    returns (flat: seq<nat>, offsets: seq<nat>, lens: seq<int>)
    requires bs > 0
    ensures flat == Pages(Padded(tables, padRows, padBlock)) && |flat| == |Pages(tables)| + padRows
    ensures offsets == Starts(Padded(tables, padRows, padBlock))
    ensures lens == LastLens(tables, bs) + Repeat(padLast, padRows)
  {
    hide Pages, Starts, LastLens;
    flat, offsets, lens := [], [0], [];
    EmptyLists(bs);
    for i := 0 to |tables|
      invariant flat == Pages(tables[..i]) && offsets == Starts(tables[..i]) && lens == LastLens(tables[..i], bs)
    {
      RowOne(tables, i, bs);
      flat := flat + tables[i].blocks;
      offsets := offsets + [|flat|];
      lens := lens + [LastBlockLen(tables[i], bs)];
    }
    assert tables[..|tables|] == tables;
    ghost var all := Padded(tables, padRows, padBlock);
    for i := 0 to padRows
      invariant flat == Pages(all[..|tables| + i]) && offsets == Starts(all[..|tables| + i])
      invariant |flat| == |Pages(tables)| + i && lens == LastLens(tables, bs) + Repeat(padLast, i)
    {
      PadOne(tables, padRows, i, padBlock);
      flat := flat + [padBlock];
      offsets := offsets + [|flat|];
      lens := lens + [padLast];
    }
    assert all[..|tables| + padRows] == all;
  }

  lemma EmptyLists(bs: nat)
    requires bs > 0
    ensures Pages([]) == [] && Starts([]) == [0] && LastLens([], bs) == []
  {
  }

  method Fill(a: array<int>, s: seq<int>)
    requires |s| <= a.Length
    modifies a
    ensures s <= a[..]
  {
    for i := 0 to |s|
      invariant a[..i] == s[..i]
    {
      a[i] := s[i];
    }
  }

  /** `pack_block_tables` of block_table.py: lists first, then one slice assignment each. */
  method PackBlockTables(tables: seq<Table>, padRows: int, padBlock: nat, padLast: int, bs: nat,
                         indptr: array<int>, indices: array<int>, last: array<int>) returns (r: Result<nat>)
    requires bs > 0 && indptr != indices && indptr != last && indices != last
    modifies indptr, indices, last
    ensures r.Ok? <==> BuffersFit(tables, padRows, indptr.Length, indices.Length, last.Length)
    ensures r.Err? ==>
      && r.error == ValueError
      && indptr[..] == old(indptr[..]) && indices[..] == old(indices[..]) && last[..] == old(last[..])
    ensures r.Ok? ==>
      && r.value == |Pages(tables)| + padRows
      && Packed(tables, padRows, padBlock, padLast, bs, indptr[..], indices[..], last[..])
  {
    hide Pages, Starts, LastLens;
    if padRows < 0 { return Err(ValueError); }
    var flat, offsets, lens := BuildLists(tables, padRows, padBlock, padLast, bs);
    if indptr.Length < |offsets| || last.Length < |lens| || indices.Length < |flat| { return Err(ValueError); }
    Fill(indices, flat);
    Fill(indptr, offsets);
    Fill(last, lens);
    return Ok(|flat|);
  }

  /** `pack_block_tables` of packing.cpp: running counters over the output arrays. */
  method PackBlockTablesCore(tables: seq<Table>, padRows: int, padBlock: nat, padLast: int, bs: nat,
                             indptr: array<int>, indices: array<int>, last: array<int>) returns (r: Result<nat>)
    requires bs > 0 && indptr != indices && indptr != last && indices != last
    modifies indptr, indices, last
    ensures r.Ok? <==> BuffersFit(tables, padRows, indptr.Length, indices.Length, last.Length)
    ensures r.Err? ==> r.error == ValueError
    ensures r.Ok? ==>
      && r.value == |Pages(tables)| + padRows
      && Packed(tables, padRows, padBlock, padLast, bs, indptr[..], indices[..], last[..])
  {
    hide Pages, Starts, LastLens;
    if padRows < 0 { return Err(ValueError); }
    EmptyLists(bs);
    var total := padRows;
    for i := 0 to |tables|
      invariant total == padRows + |Pages(tables[..i])|
    {
      RowOne(tables, i, bs);
      total := total + |tables[i].blocks|;
    }
    assert tables[..|tables|] == tables;
    if indptr.Length < |tables| + padRows + 1 || last.Length < |tables| + padRows || indices.Length < total {
      return Err(ValueError);
    }
    indptr[0] := 0;
    var n := WriteRows(tables, bs, indptr, indices, last);
    n := WritePads(tables, padRows, padBlock, padLast, bs, indptr, indices, last, n);
    return Ok(n);
  }

  method WriteRows(tables: seq<Table>, bs: nat, indptr: array<int>, indices: array<int>, last: array<int>)
    returns (n: nat)
    requires bs > 0 && indptr != indices && indptr != last && indices != last
    requires BuffersFit(tables, 0, indptr.Length, indices.Length, last.Length) && indptr[0] == 0
    modifies indptr, indices, last
    ensures n == |Pages(tables)| && indices[..n] == Pages(tables)
    ensures indptr[..|tables| + 1] == Starts(tables) && last[..|tables|] == LastLens(tables, bs)
  {
    hide Pages, Starts, LastLens;
    EmptyLists(bs);
    n := 0;
    for row := 0 to |tables|
      invariant n == |Pages(tables[..row])| <= indices.Length && indices[..n] == Pages(tables[..row])
      invariant indptr[..row + 1] == Starts(tables[..row])
      invariant last[..row] == LastLens(tables[..row], bs)
    {
      RowOne(tables, row, bs);
      var b := tables[row].blocks;
      CopyTo(indices, n, b);
      n := n + |b|;
      last[row] := LastBlockLen(tables[row], bs);
      indptr[row + 1] := n;
      assert indptr[..row + 2] == indptr[..row + 1] + [n];
    }
    assert tables[..|tables|] == tables;
  }

  method CopyTo(a: array<int>, at: nat, s: seq<nat>)
    requires at + |s| <= a.Length
    modifies a
    ensures a[..at + |s|] == old(a[..at]) + s
  {
    for i := 0 to |s|
      invariant a[..at + i] == old(a[..at]) + s[..i]
    {
      a[at + i] := s[i];
    }
  }

  method WritePads(tables: seq<Table>, padRows: nat, padBlock: nat, padLast: int, bs: nat,
                   indptr: array<int>, indices: array<int>, last: array<int>, n0: nat) returns (n: nat)
    requires bs > 0 && indptr != indices && indptr != last && indices != last
    requires BuffersFit(tables, padRows, indptr.Length, indices.Length, last.Length)
    requires n0 == |Pages(tables)| && indices[..n0] == Pages(tables)
    requires indptr[..|tables| + 1] == Starts(tables) && last[..|tables|] == LastLens(tables, bs)
    modifies indptr, indices, last
    ensures n == |Pages(tables)| + padRows
    ensures Packed(tables, padRows, padBlock, padLast, bs, indptr[..], indices[..], last[..])
  {
    hide Pages, Starts, LastLens;
    ghost var all := Padded(tables, padRows, padBlock);
    n := n0;
    var row := |tables|;
    for i := 0 to padRows
      invariant row == |tables| + i && n == |Pages(tables)| + i
      invariant indices[..n] == Pages(all[..row])
      invariant indptr[..row + 1] == Starts(all[..row])
      invariant last[..row] == LastLens(tables, bs) + Repeat(padLast, i)
    {
      PadOne(tables, padRows, i, padBlock);
      indices[n] := padBlock;
      n := n + 1;
      last[row] := padLast;
      row := row + 1;
      indptr[row] := n;
    }
    assert all[..|tables| + padRows] == all;
  }
}

/** The block pool: a LIFO stack of free block ids and a holder count per block, in the Python form
    and in the C++ form with scratch counters. Both are proved against the same functions. */
module BlockPool {
  import opened Common

  /** `check_invariants`: the free stack lists the blocks without holders, each once. */
  ghost predicate PoolOk(n: nat, free: seq<nat>, refs: seq<nat>) {
    && |refs| == n
    && Distinct(free)
    && (forall b :: b in free ==> b < n)
    && (forall b: nat :: b < n ==> (b in free <==> refs[b] == 0))
  }

  ghost predicate IdsOk(n: nat, blocks: seq<int>) {
    forall b :: b in blocks ==> 0 <= b < n
  }

  /** Every block has at least as many holders as the call drops. */
  ghost predicate Droppable(refs: seq<nat>, blocks: seq<int>)
    requires IdsOk(|refs|, blocks)
  {
    forall b :: b in blocks ==> multiset(blocks)[b] <= refs[b]
  }

  /** Drops one holder of `b`; a block without holders left goes on top of the stack. */
  ghost function DropOne(pool: (seq<nat>, seq<nat>), b: int): (seq<nat>, seq<nat>) {
    var (free, refs) := pool;
    if 0 <= b < |refs| && refs[b] > 0 then
      (if refs[b] == 1 then free + [b] else free, refs[b := refs[b] - 1])
    else pool
  }

  /** What `free` leaves behind: the drops of the list, in its order. */
  ghost function DropAll(pool: (seq<nat>, seq<nat>), blocks: seq<int>): (seq<nat>, seq<nat>) {
    if blocks == [] then pool
    else DropOne(DropAll(pool, blocks[..|blocks| - 1]), blocks[|blocks| - 1])
  }

  lemma Mentions(done: seq<int>, b: int)
    ensures multiset(done + [b]) == multiset(done) + multiset{b}
  {
  }

  /** `DropAll` lowers each count by the number of mentions, keeps the pool consistent, and only
      ever pushes onto the stack. */
  lemma {:induction false} DropAllMeans(n: nat, free: seq<nat>, refs: seq<nat>, blocks: seq<int>)
    requires PoolOk(n, free, refs) && IdsOk(n, blocks) && Droppable(refs, blocks)
    ensures var (free', refs') := DropAll((free, refs), blocks);
      && PoolOk(n, free', refs')
      && free <= free'
      && (forall b: nat :: b < n ==> refs'[b] == refs[b] - multiset(blocks)[b])
  {
    if blocks != [] {
      var init, b := blocks[..|blocks| - 1], blocks[|blocks| - 1];
      PrefixDroppable(refs, blocks, |blocks| - 1);
      assert blocks == init + [b];
      Mentions(init, b);
      DropAllMeans(n, free, refs, init);
    }
  }

  lemma PrefixDroppable(refs: seq<nat>, blocks: seq<int>, k: nat)
    requires k < |blocks| && IdsOk(|refs|, blocks) && Droppable(refs, blocks)
    ensures IdsOk(|refs|, blocks[..k]) && Droppable(refs, blocks[..k])
    ensures 0 <= blocks[k] < |refs| && multiset(blocks[..k])[blocks[k]] < refs[blocks[k]]
    ensures blocks[..k + 1][..k] == blocks[..k]
  {
    assert blocks == blocks[..k + 1] + blocks[k + 1..];
    assert blocks[..k + 1] == blocks[..k] + [blocks[k]];
    Mentions(blocks[..k], blocks[k]);
    assert blocks[k] in blocks;
    assert forall x :: x in blocks[..k] ==> x in blocks;
  }

  lemma DropStep(n: nat, free: seq<nat>, refs: seq<nat>, blocks: seq<int>, k: nat)
    requires PoolOk(n, free, refs) && IdsOk(n, blocks) && Droppable(refs, blocks) && k < |blocks|
    ensures var (f, r) := DropAll((free, refs), blocks[..k]);
      && |r| == n && 0 <= blocks[k] < n && r[blocks[k]] > 0
      && DropAll((free, refs), blocks[..k + 1]) == DropOne((f, r), blocks[k])
  {
    PrefixDroppable(refs, blocks, k);
    DropAllMeans(n, free, refs, blocks[..k]);
  }

  lemma FreshStack(n: nat, free: seq<nat>)
    requires |free| == n && forall i :: 0 <= i < n ==> free[i] == n - 1 - i
    ensures PoolOk(n, free, seq(n, i => 0))
  {
    forall b: nat | b < n ensures b in free {
      assert free[n - 1 - b] == b;
    }
  }

  lemma PopOk(n: nat, free: seq<nat>, refs: seq<nat>, k: nat, refs': seq<nat>)
    requires PoolOk(n, free, refs) && k <= |free| && |refs'| == n
    requires forall b: nat :: b < n ==> refs'[b] == if b in Popped(free, k) then 1 else refs[b]
    ensures PoolOk(n, free[..|free| - k], refs')
  {
    var free', out := free[..|free| - k], Popped(free, k);
    assert forall b :: b in free' ==> b in free;
    forall b: nat | b < n
      ensures b in free' <==> refs'[b] == 0
    {
      if b in free {
        var i :| 0 <= i < |free| && free[i] == b;
        if i >= |free'| {
          assert out[|free| - 1 - i] == b;
        }
      }
      if b in out {
        var j :| 0 <= j < |out| && out[j] == b;
        assert free[|free| - 1 - j] == b;
      }
    }
  }

  /** The last `k` entries of the stack, in the order they are popped. */
  function Popped(free: seq<nat>, k: nat): (r: seq<nat>)
    requires k <= |free|
    ensures |r| == k
    ensures forall i :: 0 <= i < k ==> r[i] == free[|free| - 1 - i]
  {
    seq(k, i requires 0 <= i < k => free[|free| - 1 - i])
  }

  // ------------------------------------------------------------ block_allocator.py

  class BlockAllocator {
    const numBlocks: nat
    const blockSize: nat
    var free: seq<nat>
    var refs: seq<nat>

    ghost predicate Valid()
      reads this
    {
      blockSize > 0 && PoolOk(numBlocks, free, refs)
    }

    constructor (numBlocks: nat, blockSize: nat)
      requires numBlocks >= 1 && blockSize >= 1
      ensures Valid() && this.numBlocks == numBlocks && this.blockSize == blockSize
      ensures free == seq(numBlocks, i requires 0 <= i < numBlocks => numBlocks - 1 - i)
      ensures forall b: nat :: b < numBlocks ==> refs[b] == 0
    {
      this.numBlocks, this.blockSize := numBlocks, blockSize;
      free := seq(numBlocks, i requires 0 <= i < numBlocks => numBlocks - 1 - i);
      refs := seq(numBlocks, i => 0);
      new;
      FreshStack(numBlocks, free);
    }

    /** Takes the top `n` blocks of the stack, one holder each; all or nothing. */
    method Allocate(n: int) returns (r: Result<seq<nat>>)
      requires Valid()
      modifies this
      ensures Valid()
      ensures r == (if n < 0 then Err(ValueError)
                    else if n > |old(free)| then Err(OutOfBlocks)
                    else Ok(Popped(old(free), n)))
      ensures r.Err? ==> free == old(free) && refs == old(refs)
      ensures r.Ok? ==>
        && free == old(free)[..|old(free)| - n]
        && (forall b: nat :: b < numBlocks ==> refs[b] == if b in r.value then 1 else old(refs)[b])
    {
      if n < 0 { return Err(ValueError); }
      if n > |free| { return Err(OutOfBlocks); }
      var out: seq<nat> := [];
      var stack := free;
      while |out| < n
        invariant |out| <= n && stack == old(free)[..|old(free)| - |out|]
        invariant out == Popped(old(free), |out|)
      {
        out := out + [stack[|stack| - 1]];
        stack := stack[..|stack| - 1];
      }
      var k := 0;
      while k < |out|
        invariant 0 <= k <= |out| && |refs| == numBlocks
        invariant free == old(free)
        invariant forall b: nat :: b < numBlocks ==> refs[b] == if b in out[..k] then 1 else old(refs)[b]
      {
        assert out[k] in old(free);
        assert out[..k + 1] == out[..k] + [out[k]];
        refs := refs[out[k] := 1];
        k := k + 1;
      }
      assert out[..k] == out;
      free := stack;
      PopOk(numBlocks, old(free), old(refs), n, refs);
      return Ok(out);
    }

    /** Adds a holder to each block. The whole list is checked before anything changes. */
    method IncRef(blocks: seq<int>) returns (r: Result<()>)
      requires Valid()
      modifies this
      ensures Valid() && free == old(free)
      ensures r.Ok? <==> IdsOk(numBlocks, blocks) && forall b :: b in blocks ==> old(refs)[b] > 0
      ensures r.Err? ==> refs == old(refs)
      ensures r.Ok? ==> forall b: nat :: b < numBlocks ==> refs[b] == old(refs)[b] + multiset(blocks)[b]
    {
      var k := 0;
      while k < |blocks|
        invariant 0 <= k <= |blocks|
        invariant forall i :: 0 <= i < k ==> 0 <= blocks[i] < numBlocks && refs[blocks[i]] > 0
      {
        if !(0 <= blocks[k] < numBlocks) {
          assert blocks[k] in blocks;
          return Err(IndexError);
        }
        if refs[blocks[k]] == 0 {
          assert blocks[k] in blocks;
          return Err(ValueError);
        }
        k := k + 1;
      }
      k := 0;
      while k < |blocks|
        invariant 0 <= k <= |blocks| && |refs| == numBlocks && free == old(free)
        invariant forall b: nat :: b < numBlocks ==> refs[b] == old(refs)[b] + multiset(blocks[..k])[b]
      {
        assert blocks[..k + 1] == blocks[..k] + [blocks[k]];
        refs := refs[blocks[k] := refs[blocks[k]] + 1];
        k := k + 1;
      }
      assert blocks[..k] == blocks;
      return Ok(());
    }

    /** Drops a holder from each block. The releases are counted in a dictionary and checked
        before anything changes. */
    method Free(blocks: seq<int>) returns (r: Result<()>)
      requires Valid()
      modifies this
      ensures Valid()
      ensures r == (if !IdsOk(numBlocks, blocks) then Err(IndexError)
                    else if !Droppable(old(refs), blocks) then Err(ValueError)
                    else Ok(()))
      ensures r.Err? ==> free == old(free) && refs == old(refs)
      ensures r.Ok? ==>
        && (free, refs) == DropAll((old(free), old(refs)), blocks)
        && old(free) <= free
        && forall b: nat :: b < numBlocks ==> refs[b] == old(refs)[b] - multiset(blocks)[b]
    {
      var inRange, drops := CountMentions(blocks);
      if !inRange { return Err(IndexError); }
      var k := 0;
      while k < |blocks|
        invariant 0 <= k <= |blocks|
        invariant forall i :: 0 <= i < k ==>
          blocks[i] in blocks && multiset(blocks)[blocks[i]] <= refs[blocks[i]]
      {
        assert blocks[k] in blocks;
        if refs[blocks[k]] < drops[blocks[k]] { return Err(ValueError); }
        k := k + 1;
      }
      DropEach(blocks);
      return Ok(());
    }

    /** How often each block is mentioned, if all ids are in range. */
    method CountMentions(blocks: seq<int>) returns (ok: bool, drops: map<int, nat>)
      ensures ok <==> IdsOk(numBlocks, blocks)
      ensures ok ==> forall b :: b in drops <==> b in blocks
      ensures ok ==> forall b :: b in drops ==> drops[b] == multiset(blocks)[b]
    {
      drops := map[];
      for k := 0 to |blocks|
        invariant IdsOk(numBlocks, blocks[..k])
        invariant forall b :: b in drops <==> b in blocks[..k]
        invariant forall b :: b in drops ==> drops[b] == multiset(blocks[..k])[b]
      {
        if !(0 <= blocks[k] < numBlocks) {
          assert blocks[k] in blocks;
          return false, drops;
        }
        assert blocks[..k + 1] == blocks[..k] + [blocks[k]];
        drops := drops[blocks[k] := (if blocks[k] in drops then drops[blocks[k]] else 0) + 1];
      }
      assert blocks[..|blocks|] == blocks;
      ok := true;
    }

    method DropEach(blocks: seq<int>)
      requires Valid() && IdsOk(numBlocks, blocks) && Droppable(refs, blocks)
      modifies this`free, this`refs
      ensures Valid()
      ensures (free, refs) == DropAll((old(free), old(refs)), blocks)
      ensures old(free) <= free
      ensures forall b: nat :: b < numBlocks ==> refs[b] == old(refs)[b] - multiset(blocks)[b]
    {
      DropAllMeans(numBlocks, free, refs, blocks);
      for k := 0 to |blocks|
        invariant (free, refs) == DropAll((old(free), old(refs)), blocks[..k])
      {
        DropStep(numBlocks, old(free), old(refs), blocks, k);
        refs := refs[blocks[k] := refs[blocks[k]] - 1];
        if refs[blocks[k]] == 0 {
          free := free + [blocks[k]];
        }
      }
      assert blocks[..|blocks|] == blocks;
    }
  }

  // ------------------------------------------------------------ block_allocator.cpp

  /** The C++ allocator: same stack and counts, plus scratch counters `drops` that are all zero
      between calls, also after a rejected one. */
  class CoreAllocator {
    const numBlocks: nat
    var free: seq<nat>
    var refs: seq<nat>
    var drops: seq<nat>

    ghost predicate Valid()
      reads this
    {
      PoolOk(numBlocks, free, refs) && drops == seq(numBlocks, i => 0)
    }

    constructor (numBlocks: nat)
      requires numBlocks >= 1
      ensures Valid() && this.numBlocks == numBlocks
      ensures free == seq(numBlocks, i requires 0 <= i < numBlocks => numBlocks - 1 - i)
    {
      this.numBlocks := numBlocks;
      free := seq(numBlocks, i requires 0 <= i < numBlocks => numBlocks - 1 - i);
      refs := seq(numBlocks, i => 0);
      drops := seq(numBlocks, i => 0);
      new;
      FreshStack(numBlocks, free);
    }

    /** Appends `n` popped blocks to the caller's list, counting each as it is popped. */
    method AllocateInto(n: int, into: seq<nat>) returns (r: Result<seq<nat>>)
      requires Valid()
      modifies this
      ensures Valid()
      ensures r == (if n < 0 then Err(ValueError)
                    else if n > |old(free)| then Err(OutOfBlocks)
                    else Ok(into + Popped(old(free), n)))
      ensures r.Err? ==> free == old(free) && refs == old(refs)
      ensures r.Ok? ==>
        && free == old(free)[..|old(free)| - n]
        && (forall b: nat :: b < numBlocks ==>
              refs[b] == if b in Popped(old(free), n) then 1 else old(refs)[b])
    {
      if n < 0 { return Err(ValueError); }
      if n > |free| { return Err(OutOfBlocks); }
      var out := into;
      ghost var popped: seq<nat> := [];
      for i := 0 to n
        invariant |popped| == i && popped == Popped(old(free), i)
        invariant out == into + popped
        invariant free == old(free)[..|old(free)| - i] && |refs| == numBlocks
        invariant drops == old(drops)
        invariant forall b: nat :: b < numBlocks ==> refs[b] == if b in popped then 1 else old(refs)[b]
      {
        var b := free[|free| - 1];
        assert b in old(free);
        free := free[..|free| - 1];
        refs := refs[b := 1];
        out := out + [b];
        popped := popped + [b];
      }
      PopOk(numBlocks, old(free), old(refs), n, refs);
      return Ok(out);
    }

    /** Same answers and same final state as the Python `free`; the scratch counters are zero
        again on every way out. */
    method Free(blocks: seq<int>) returns (r: Result<()>)
      requires Valid()
      modifies this
      ensures Valid()
      ensures r == (if !IdsOk(numBlocks, blocks) then Err(IndexError)
                    else if !Droppable(old(refs), blocks) then Err(ValueError)
                    else Ok(()))
      ensures r.Err? ==> free == old(free) && refs == old(refs)
      ensures r.Ok? ==> (free, refs) == DropAll((old(free), old(refs)), blocks)
    {
      for k := 0 to |blocks|
        invariant IdsOk(numBlocks, blocks[..k])
      {
        if !(0 <= blocks[k] < numBlocks) {
          assert blocks[k] in blocks;
          return Err(IndexError);
        }
        assert blocks[..k + 1] == blocks[..k] + [blocks[k]];
      }
      assert blocks[..|blocks|] == blocks;
      CountReleases(blocks);
      var offender := -1;
      var k := 0;
      while k < |blocks| && offender < 0
        invariant 0 <= k <= |blocks|
        invariant offender < 0 ==> forall i :: 0 <= i < k ==>
          blocks[i] in blocks && drops[blocks[i]] <= refs[blocks[i]]
        invariant offender >= 0 ==> offender in blocks && drops[offender] > refs[offender]
      {
        assert blocks[k] in blocks;
        var d := drops[blocks[k]];
        if d > 0 && refs[blocks[k]] < d {
          offender := blocks[k];
        }
        k := k + 1;
      }
      ClearReleases(blocks);
      if offender >= 0 { return Err(ValueError); }
      DropEach(blocks);
      return Ok(());
    }

    method DropEach(blocks: seq<int>)
      requires Valid() && IdsOk(numBlocks, blocks) && Droppable(refs, blocks)
      modifies this`free, this`refs
      ensures Valid()
      ensures (free, refs) == DropAll((old(free), old(refs)), blocks)
      ensures old(free) <= free
      ensures forall b: nat :: b < numBlocks ==> refs[b] == old(refs)[b] - multiset(blocks)[b]
    {
      DropAllMeans(numBlocks, free, refs, blocks);
      for k := 0 to |blocks|
        invariant (free, refs) == DropAll((old(free), old(refs)), blocks[..k])
      {
        DropStep(numBlocks, old(free), old(refs), blocks, k);
        refs := refs[blocks[k] := refs[blocks[k]] - 1];
        if refs[blocks[k]] == 0 {
          free := free + [blocks[k]];
        }
      }
      assert blocks[..|blocks|] == blocks;
    }

    method CountReleases(blocks: seq<int>)
      requires Valid() && IdsOk(numBlocks, blocks)
      modifies this`drops
      ensures |drops| == numBlocks
      ensures forall b: nat :: b < numBlocks ==> drops[b] == multiset(blocks)[b]
    {
      for k := 0 to |blocks|
        invariant |drops| == numBlocks
        invariant forall b: nat :: b < numBlocks ==> drops[b] == multiset(blocks[..k])[b]
      {
        assert blocks[..k + 1] == blocks[..k] + [blocks[k]];
        assert blocks[k] in blocks;
        drops := drops[blocks[k] := drops[blocks[k]] + 1];
      }
      assert blocks[..|blocks|] == blocks;
    }

    method ClearReleases(blocks: seq<int>)
      requires |drops| == numBlocks && IdsOk(numBlocks, blocks)
      requires forall b: nat :: b < numBlocks && b !in blocks ==> drops[b] == 0
      modifies this`drops
      ensures drops == seq(numBlocks, i => 0)
    {
      for k := 0 to |blocks|
        invariant |drops| == numBlocks
        invariant forall b: nat :: b < numBlocks && b !in blocks[k..] ==> drops[b] == 0
      {
        assert blocks[k..] == [blocks[k]] + blocks[k + 1..];
        assert blocks[k] in blocks;
        drops := drops[blocks[k] := 0];
      }
    }
  }
}

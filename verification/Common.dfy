/** Vocabulary shared by every module: optional values, results that carry the source's errors,
    whole-block arithmetic, and sums over lists of request ids. */
module Common {

  datatype Option<+T> = None | Some(value: T)

  datatype Error = ValueError | IndexError | OutOfBlocks | RuntimeError | AssertionError

  datatype Result<+T> = Ok(value: T) | Err(error: Error)

  predicate Distinct<T(==)>(s: seq<T>) {
    forall i, j :: 0 <= i < j < |s| ==> s[i] != s[j]
  }

  // ------------------------------------------------------------ blocks of tokens

  /** The block that position `i` lies in. */
  function Blk(i: nat, bs: nat): nat
    requires bs > 0
  {
    i / bs
  }

  /** The place of position `i` inside its block. */
  function Off(i: nat, bs: nat): (o: nat)
    requires bs > 0
    ensures o < bs
  {
    i % bs
  }

  /** Blocks that hold `n` tokens: `-(-n // bs)`. */
  function CeilDiv(n: nat, bs: nat): nat
    requires bs > 0
  {
    (n + bs - 1) / bs
  }

  lemma MulMono(a: nat, b: nat, c: nat)
    requires a <= b
    ensures a * c <= b * c
  {
  }

  lemma DivMod(i: nat, bs: nat)
    requires bs > 0
    ensures i == (i / bs) * bs + i % bs
  {
  }

  /** Euclidean division has one answer. */
  lemma DivUnique(i: nat, q: nat, o: nat, bs: nat)
    requires bs > 0 && o < bs && i == q * bs + o
    ensures i / bs == q && i % bs == o
  {
    DivMod(i, bs);
    var q', o' := i / bs, i % bs;
    if q' < q {
      MulMono(q' + 1, q, bs);
    } else if q < q' {
      MulMono(q + 1, q', bs);
    }
  }

  lemma BlkMono(i: nat, j: nat, bs: nat)
    requires bs > 0 && i <= j
    ensures Blk(i, bs) <= Blk(j, bs)
  {
    DivMod(i, bs);
    DivMod(j, bs);
    if j / bs < i / bs {
      MulMono(j / bs + 1, i / bs, bs);
    }
  }

  /** A position is determined by its block and its place inside it. */
  lemma SlotInjective(i: nat, j: nat, bs: nat)
    requires bs > 0 && Blk(i, bs) == Blk(j, bs) && Off(i, bs) == Off(j, bs)
    ensures i == j
  {
    DivMod(i, bs);
    DivMod(j, bs);
  }

  /** `n` tokens need exactly the blocks that reach past their last position. */
  lemma CeilBound(n: nat, k: nat, bs: nat)
    requires bs > 0
    ensures CeilDiv(n, bs) <= k <==> n <= k * bs
  {
    DivMod(n + bs - 1, bs);
    var c := CeilDiv(n, bs);
    if c <= k {
      MulMono(c, k, bs);
    } else {
      MulMono(k + 1, c, bs);
      assert (k + 1) * bs == k * bs + bs;
    }
  }

  lemma BlkBound(i: nat, k: nat, bs: nat)
    requires bs > 0
    ensures Blk(i, bs) < k <==> i < k * bs
  {
    DivMod(i, bs);
    if i / bs < k {
      MulMono(i / bs + 1, k, bs);
      assert (i / bs + 1) * bs == (i / bs) * bs + bs;
    } else {
      MulMono(k, i / bs, bs);
    }
  }

  lemma CeilMono(a: nat, b: nat, bs: nat)
    requires bs > 0 && a <= b
    ensures CeilDiv(a, bs) <= CeilDiv(b, bs)
  {
    BlkMono(a + bs - 1, b + bs - 1, bs);
  }

  /** Whole blocks in `n` tokens never outnumber the blocks that hold them. */
  lemma FloorCeil(n: nat, bs: nat)
    requires bs > 0
    ensures n / bs <= CeilDiv(n, bs) && (n / bs) * bs <= n
  {
    DivMod(n, bs);
    BlkMono(n, n + bs - 1, bs);
  }

  // ------------------------------------------------------------ lists of request ids

  /** The members of `s` that are in `keep`, in order. */
  function Only(s: seq<nat>, keep: set<nat>): (r: seq<nat>)
    ensures forall x :: x in r <==> x in s && x in keep
    ensures |r| <= |s|
  {
    if s == [] then [] else (if s[0] in keep then [s[0]] else []) + Only(s[1..], keep)
  }

  lemma {:induction false} OnlyConcat(a: seq<nat>, b: seq<nat>, keep: set<nat>)
    ensures Only(a + b, keep) == Only(a, keep) + Only(b, keep)
  {
    if a == [] {
      assert a + b == b;
    } else {
      assert (a + b)[1..] == a[1..] + b;
      OnlyConcat(a[1..], b, keep);
    }
  }

  lemma {:induction false} OnlyDistinct(s: seq<nat>, keep: set<nat>)
    requires Distinct(s)
    ensures Distinct(Only(s, keep))
  {
    if s != [] {
      OnlyDistinct(s[1..], keep);
      assert forall i :: 0 < i < |s| ==> s[i] != s[0];
    }
  }

  /** The filter depends on the members of the list only. */
  lemma {:induction false} OnlySame(s: seq<nat>, a: set<nat>, b: set<nat>)
    requires forall x :: x in s ==> (x in a <==> x in b)
    ensures Only(s, a) == Only(s, b)
  {
    if s != [] { OnlySame(s[1..], a, b); }
  }

  /** The list without the first `x` in it. */
  function Remove(s: seq<nat>, x: nat): (r: seq<nat>)
    ensures forall y :: y in r ==> y in s
    ensures forall y :: y in s && y != x ==> y in r
    ensures |r| == if x in s then |s| - 1 else |s|
  {
    if s == [] then [] else if s[0] == x then s[1..] else [s[0]] + Remove(s[1..], x)
  }

  lemma {:induction false} RemoveDistinct(s: seq<nat>, x: nat)
    requires Distinct(s)
    ensures Distinct(Remove(s, x)) && x !in Remove(s, x)
  {
    if s != [] {
      RemoveDistinct(s[1..], x);
      assert forall i :: 0 < i < |s| ==> s[i] != s[0];
      if s[0] != x { DistinctCons(s[0], Remove(s[1..], x)); }
    }
  }

  lemma DistinctCons(x: nat, s: seq<nat>)
    requires Distinct(s) && x !in s
    ensures Distinct([x] + s)
  {
  }

  lemma {:induction false} RemoveIsOnly(s: seq<nat>, x: nat, keep: set<nat>)
    requires Distinct(s) && forall y :: y in s ==> (y in keep <==> y != x)
    ensures Only(s, keep) == Remove(s, x)
  {
    if s != [] {
      assert forall i :: 0 < i < |s| ==> s[i] != s[0];
      if s[0] == x {
        OnlyAll(s[1..], keep);
      } else {
        RemoveIsOnly(s[1..], x, keep);
      }
    }
  }

  lemma {:induction false} OnlyAll(s: seq<nat>, keep: set<nat>)
    requires forall x :: x in s ==> x in keep
    ensures Only(s, keep) == s
  {
    if s != [] { OnlyAll(s[1..], keep); }
  }

  /** Taking out a member that the filter drops anyway changes nothing. */
  lemma {:induction false} OnlyRemove(s: seq<nat>, x: nat, keep: set<nat>)
    requires x !in keep
    ensures Only(Remove(s, x), keep) == Only(s, keep)
  {
    if s != [] && s[0] != x { OnlyRemove(s[1..], x, keep); }
  }

  lemma {:induction false} RemoveAppended(a: seq<nat>, x: nat)
    requires x !in a
    ensures Remove(a + [x], x) == a
  {
    if a != [] {
      assert (a + [x])[1..] == a[1..] + [x];
      RemoveAppended(a[1..], x);
    }
  }

  lemma RemoveLast(s: seq<nat>)
    requires Distinct(s) && s != []
    ensures Remove(s, s[|s| - 1]) == s[..|s| - 1]
  {
    var init := s[..|s| - 1];
    assert s == init + [s[|s| - 1]];
    RemoveAppended(init, s[|s| - 1]);
  }

  // ------------------------------------------------------------ sums over lists

  function Sum(f: map<nat, int>, s: seq<nat>): int
    requires forall x :: x in s ==> x in f
  {
    if s == [] then 0 else f[s[0]] + Sum(f, s[1..])
  }

  lemma {:induction false} SumConcat(f: map<nat, int>, a: seq<nat>, b: seq<nat>)
    requires forall x :: x in a + b ==> x in f
    ensures (forall x :: x in a ==> x in f) && (forall x :: x in b ==> x in f)
    ensures Sum(f, a + b) == Sum(f, a) + Sum(f, b)
  {
    assert forall x :: x in a ==> x in a + b;
    assert forall x :: x in b ==> x in a + b;
    if a == [] {
      assert a + b == b;
    } else {
      assert (a + b)[1..] == a[1..] + b;
      SumConcat(f, a[1..], b);
    }
  }

  lemma {:induction false} SumSame(f: map<nat, int>, g: map<nat, int>, s: seq<nat>)
    requires forall x :: x in s ==> x in f && x in g && f[x] == g[x]
    ensures Sum(f, s) == Sum(g, s)
  {
    if s != [] {
      SumSame(f, g, s[1..]);
    }
  }

  lemma {:induction false} SumLe(f: map<nat, int>, g: map<nat, int>, s: seq<nat>)
    requires forall x :: x in s ==> x in f && x in g && f[x] <= g[x]
    ensures Sum(f, s) <= Sum(g, s)
  {
    if s != [] {
      SumLe(f, g, s[1..]);
    }
  }

  lemma {:induction false} SumNonNeg(f: map<nat, int>, s: seq<nat>)
    requires forall x :: x in s ==> x in f && f[x] >= 0
    ensures Sum(f, s) >= 0
  {
    if s != [] { SumNonNeg(f, s[1..]); }
  }

  lemma {:induction false} SumRemove(f: map<nat, int>, s: seq<nat>, x: nat)
    requires x in s && forall y :: y in s ==> y in f
    ensures Sum(f, s) == f[x] + Sum(f, Remove(s, x))
  {
    if s[0] != x {
      SumRemove(f, s[1..], x);
      assert Remove(s, x)[1..] == Remove(s[1..], x);
    }
  }

  /** A list without repeats sums to no more than any other list without repeats that covers it. */
  lemma {:induction false} SumSubset(f: map<nat, int>, s: seq<nat>, t: seq<nat>)
    requires Distinct(s) && Distinct(t)
    requires forall x :: x in s ==> x in t
    requires forall x :: x in t ==> x in f && f[x] >= 0
    ensures Sum(f, s) <= Sum(f, t)
    decreases |s|
  {
    if s == [] {
      SumNonNeg(f, t);
    } else {
      SumRemove(f, t, s[0]);
      RemoveDistinct(t, s[0]);
      assert forall i :: 0 < i < |s| ==> s[i] != s[0];
      SumSubset(f, s[1..], Remove(t, s[0]));
    }
  }
}

/** Cutting token sequences into whole blocks, and back. */
module TokenChunks {
  import opened Common
  import opened TreeShape

  /** The whole blocks of `s`; tokens past the last whole block are left out. */
  function Chunks(s: seq<int>, bs: nat): (r: Prefix)
    requires bs > 0
    decreases |s|
  {
    if |s| < bs then [] else [s[..bs]] + Chunks(s[bs..], bs)
  }

  function Flat(p: Prefix): seq<int> {
    if p == [] then [] else p[0] + Flat(p[1..])
  }

  lemma {:induction false} ChunksCount(s: seq<int>, bs: nat)
    requires bs > 0
    ensures |Chunks(s, bs)| == |s| / bs
    decreases |s|
  {
    DivMod(|s|, bs);
    if |s| < bs {
      DivUnique(|s|, 0, |s|, bs);
    } else {
      ChunksCount(s[bs..], bs);
      DivMod(|s| - bs, bs);
      var q := (|s| - bs) / bs;
      assert (q + 1) * bs == q * bs + bs;
      DivUnique(|s|, q + 1, (|s| - bs) % bs, bs);
    }
  }

  /** A longer sequence has the shorter one's blocks first. */
  lemma {:induction false} ChunksPrefix(s: seq<int>, t: seq<int>, bs: nat)
    requires bs > 0 && s <= t
    ensures Chunks(s, bs) <= Chunks(t, bs)
    decreases |s|
  {
    if |s| >= bs {
      assert s[bs..] <= t[bs..] && s[..bs] == t[..bs];
      ChunksPrefix(s[bs..], t[bs..], bs);
    }
  }

  /** The first `k` blocks are the blocks of the first `k * bs` tokens. */
  lemma {:induction false} ChunksTake(s: seq<int>, k: nat, bs: nat)
    requires bs > 0 && k * bs <= |s|
    ensures k <= |Chunks(s, bs)| && Chunks(s[..k * bs], bs) == Chunks(s, bs)[..k]
    ensures Flat(Chunks(s, bs)[..k]) == s[..k * bs]
    decreases k
  {
    if k > 0 {
      assert k * bs == (k - 1) * bs + bs;
      assert (k - 1) * bs >= 0 by { MulMono(0, k - 1, bs); }
      var t := s[bs..];
      ChunksTake(t, k - 1, bs);
      assert s[..k * bs][bs..] == t[..(k - 1) * bs];
      assert s[..k * bs][..bs] == s[..bs];
      var c := Chunks(s, bs);
      assert c[..k] == [s[..bs]] + Chunks(t, bs)[..k - 1];
      assert c[..k][1..] == Chunks(t, bs)[..k - 1];
      assert s[..k * bs] == s[..bs] + t[..(k - 1) * bs];
    } else {
      assert s[..0] == [];
    }
  }
}

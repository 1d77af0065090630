/** The input tokens of a batch: the host's record with every placeholder filled from the previous
    batch's tokens on the device. */
module Inputs {
  import opened Common
  import opened BlockTables
  import opened Device
  import opened Requests
  import opened MachineInv
  import opened MachineSteps
  import opened Scheduling
  import opened ScheduleSafe
  import opened Launching

  ghost predicate InputRow(next: Sampler, reqs: map<nat, Req>, w: Work) {
    && w.rid in reqs && w.start >= 0 && w.n >= 0 && w.start + w.n <= SeqLen(reqs[w.rid]) && ReqTokens(next, reqs[w.rid])
  }

  /** Rows before `k` are one last token each; the others are of requests without placeholders. */
  ghost predicate InputRows(next: Sampler, reqs: map<nat, Req>, rows: seq<Work>, k: nat) {
    && k <= |rows| && AllInput(next, reqs, rows)
    && (forall i :: 0 <= i < k ==> rows[i].n == 1 && rows[i].start == SeqLen(reqs[rows[i].rid]) - 1)
    && (forall i :: k <= i < |rows| ==> reqs[rows[i].rid].pending == 0)
  }

  /** The row's tokens as the host has them. */
  ghost function HostRow(next: Sampler, reqs: map<nat, Req>, w: Work): seq<int>
    requires InputRow(next, reqs, w)
  {
    Tokens(reqs[w.rid])[w.start..w.start + w.n]
  }

  /** The row's tokens on the device. */
  ghost function DeviceRow(next: Sampler, reqs: map<nat, Req>, w: Work): seq<int>
    requires InputRow(next, reqs, w)
  {
    TokenCounts(next, reqs[w.rid]);
    DeviceTokens(reqs[w.rid])[w.start..w.start + w.n]
  }

  ghost predicate AllInput(next: Sampler, reqs: map<nat, Req>, rows: seq<Work>) {
    forall i :: 0 <= i < |rows| ==> InputRow(next, reqs, rows[i])
  }

  /** The tokens of all rows, one row after the other. */
  ghost function HostIds(next: Sampler, reqs: map<nat, Req>, rows: seq<Work>): seq<int>
    requires AllInput(next, reqs, rows)
  {
    if rows == [] then []
    else
      assert InputRow(next, reqs, rows[|rows| - 1]);
      HostIds(next, reqs, rows[..|rows| - 1]) + HostRow(next, reqs, rows[|rows| - 1])
  }

  ghost function DeviceIds(next: Sampler, reqs: map<nat, Req>, rows: seq<Work>): seq<int>
    requires AllInput(next, reqs, rows)
  {
    if rows == [] then []
    else
      assert InputRow(next, reqs, rows[|rows| - 1]);
      DeviceIds(next, reqs, rows[..|rows| - 1]) + DeviceRow(next, reqs, rows[|rows| - 1])
  }

  lemma TokenCounts(next: Sampler, q: Req)
    requires ReqTokens(next, q)
    ensures q.pending <= |q.output| && |DeviceTokens(q)| == SeqLen(q) == |Tokens(q)|
    ensures q.pending == 0 ==> Tokens(q) == DeviceTokens(q)
    ensures forall i :: 0 <= i < SeqLen(q) ==> DeviceTokens(q)[i] >= 0
    ensures forall i :: 0 <= i < SeqLen(q) ==> (Tokens(q)[i] == PLACEHOLDER <==> i >= SeqLen(q) - q.pending)
    ensures forall i :: 0 <= i < SeqLen(q) - q.pending ==> Tokens(q)[i] == DeviceTokens(q)[i]
  {
    TokensMatch(next, q, SeqLen(q) - q.pending);
    DeviceMatch(next, q);
    hide Stream;
    var m := SeqLen(q) - q.pending;
    assert forall i :: 0 <= i < m ==> Tokens(q)[i] == Tokens(q)[..m][i] == Full(next, q)[i];
  }

  ghost function LastToken(next: Sampler, reqs: map<nat, Req>, w: Work): int
    requires InputRow(next, reqs, w)
  {
    var q := reqs[w.rid];
    Tokens(q)[SeqLen(q) - 1]
  }

  ghost function LastDevice(next: Sampler, reqs: map<nat, Req>, w: Work): int
    requires InputRow(next, reqs, w)
  {
    var q := reqs[w.rid];
    DeviceTokens(q)[SeqLen(q) - 1]
  }

  lemma RowAgrees(next: Sampler, reqs: map<nat, Req>, w: Work)
    requires InputRow(next, reqs, w)
    ensures |HostRow(next, reqs, w)| == |DeviceRow(next, reqs, w)| == w.n
    ensures w.n == 1 && w.start == SeqLen(reqs[w.rid]) - 1 ==>
      HostRow(next, reqs, w) == [LastToken(next, reqs, w)] && DeviceRow(next, reqs, w) == [LastDevice(next, reqs, w)]
    ensures reqs[w.rid].pending == 0 ==>
      HostRow(next, reqs, w) == DeviceRow(next, reqs, w) && forall x :: x in HostRow(next, reqs, w) ==> x >= 0
  {
    hide ReqTokens;
    TokenCounts(next, reqs[w.rid]);
  }

  /** Equal and without placeholders from `k` on. */
  ghost predicate SameFrom(host: seq<int>, dev: seq<int>, k: nat) {
    |host| == |dev| >= k && forall i :: k <= i < |host| ==> host[i] == dev[i] >= 0
  }

  lemma AppendSame(host: seq<int>, dev: seq<int>, k: nat, x: seq<int>)
    requires SameFrom(host, dev, k) && forall y :: y in x ==> y >= 0
    ensures SameFrom(host + x, dev + x, k)
  {
    forall i | |host| <= i < |host| + |x| ensures (host + x)[i] >= 0 {
      assert (host + x)[i] == x[i - |host|];
      assert x[i - |host|] in x;
    }
  }

  /** Decode rows give a token each. */
  lemma {:induction false} DecodeIds(next: Sampler, reqs: map<nat, Req>, rows: seq<Work>)
    requires InputRows(next, reqs, rows, |rows|)
    ensures |HostIds(next, reqs, rows)| == |DeviceIds(next, reqs, rows)| == |rows|
    ensures forall i :: 0 <= i < |rows| ==>
      && HostIds(next, reqs, rows)[i] == LastToken(next, reqs, rows[i])
      && DeviceIds(next, reqs, rows)[i] == LastDevice(next, reqs, rows[i])
  {
    hide InputRow, HostRow, DeviceRow, LastToken, LastDevice;
    if rows != [] {
      var w := rows[|rows| - 1];
      assert InputRow(next, reqs, w);
      RowAgrees(next, reqs, w);
      DecodeIds(next, reqs, rows[..|rows| - 1]);
    }
  }

  /** The two agree but for placeholders, and those are last tokens of decode rows. */
  lemma {:induction false} IdsAgree(next: Sampler, reqs: map<nat, Req>, rows: seq<Work>, k: nat)
    requires InputRows(next, reqs, rows, k)
    ensures InputRows(next, reqs, rows[..k], k) && SameFrom(HostIds(next, reqs, rows), DeviceIds(next, reqs, rows), k)
    ensures HostIds(next, reqs, rows[..k]) == HostIds(next, reqs, rows)[..k]
    ensures DeviceIds(next, reqs, rows[..k]) == DeviceIds(next, reqs, rows)[..k]
    decreases |rows|
  {
    hide InputRow, HostRow, DeviceRow;
    if k == |rows| {
      assert rows[..k] == rows;
      DecodeIds(next, reqs, rows);
    } else {
      var (init, w) := (rows[..|rows| - 1], rows[|rows| - 1]);
      assert InputRow(next, reqs, w);
      RowAgrees(next, reqs, w);
      assert init[..k] == rows[..k];
      IdsAgree(next, reqs, init, k);
      AppendSame(HostIds(next, reqs, init), DeviceIds(next, reqs, init), k, HostRow(next, reqs, w));
    }
  }

  // ------------------------------------------------------------ model_runner.py, _fill_rows

  /** A placeholder among the inputs is its request's only one, and the previous batch has the token. */
  lemma PlaceholderSource(next: Sampler, reqs: map<nat, Req>, w: Work, prev: Option<Flight>) returns (src: nat)
    requires InputRow(next, reqs, w) && FlightOk(prev, reqs) && LastToken(next, reqs, w) == PLACEHOLDER
    ensures prev.Some? && FlightShape(prev.value) && src < |prev.value.rids|
    ensures prev.value.rids[src] == w.rid && prev.value.tokens[src] == LastDevice(next, reqs, w)
  {
    hide Stream;
    var q := reqs[w.rid];
    TokenCounts(next, q);
    assert !SlotFrom(None, w.rid, 0);
    assert SlotFrom(prev, w.rid, 0);
    src :| src < |prev.value.rids| && src < |prev.value.slots| && prev.value.rids[src] == w.rid && prev.value.slots[src].Some?;
    assert AtHead(q, prev.value.slots[src].value, prev.value.tokens[src]);
  }

  method IndexOf(s: seq<nat>, x: nat) returns (i: Option<nat>)
    ensures i.Some? ==> i.value < |s| && s[i.value] == x
    ensures i.None? ==> x !in s
  {
    for j := 0 to |s|
      invariant x !in s[..j]
    {
      if s[j] == x { return Some(j); }
    }
    return None;
  }

  /** Decode rows come first, one token each, so row `i` is `ids[i]`. */
  method PlaceholderRows(ids: seq<int>, k: nat) returns (dst: seq<nat>)
    requires k <= |ids|
    ensures |dst| == multiset(ids[..k])[PLACEHOLDER]
    ensures Distinct(dst) && forall i :: i in dst <==> 0 <= i < k && ids[i] == PLACEHOLDER
  {
    dst := [];
    for i := 0 to k
      invariant |dst| == multiset(ids[..i])[PLACEHOLDER]
      invariant Distinct(dst) && forall j :: j in dst <==> 0 <= j < i && ids[j] == PLACEHOLDER
    {
      assert ids[..i + 1] == ids[..i] + [ids[i]];
      if ids[i] == PLACEHOLDER { dst := dst + [i]; }
    }
  }

  lemma NonePastRows(ids: seq<int>, dev: seq<int>, k: nat)
    requires SameFrom(ids, dev, k)
    ensures multiset(ids)[PLACEHOLDER] == multiset(ids[..k])[PLACEHOLDER]
  {
    assert ids == ids[..k] + ids[k..];
    assert forall i :: 0 <= i < |ids[k..]| ==> ids[k..][i] == ids[k + i];
  }

  /** Replaces placeholders by the previous batch's tokens. Neither of its two errors, nor a missing
      row in the previous batch, can occur. */
  method FillRows(ghost next: Sampler, ghost reqs: map<nat, Req>, rows: seq<Work>, k: nat, ids: seq<int>, prev: Option<Flight>)
      returns (r: Result<seq<int>>)
    requires InputRows(next, reqs, rows, k) && ids == HostIds(next, reqs, rows) && FlightOk(prev, reqs)
    ensures r == Ok(DeviceIds(next, reqs, rows))
  {
    hide InputRow, FlightOk, HostIds, DeviceIds, LastToken, LastDevice;
    ghost var dev := DeviceIds(next, reqs, rows);
    IdsAgree(next, reqs, rows, k);
    DecodeIds(next, reqs, rows[..k]);
    NonePastRows(ids, dev, k);
    var dst := PlaceholderRows(ids, k);
    if |dst| != multiset(ids)[PLACEHOLDER] { return Err(RuntimeError); }
    forall i | 0 <= i < k && i !in dst ensures ids[i] == dev[i] { RealToken(next, reqs, rows, k, i, ids); }
    if dst == [] {
      assert ids == dev;
      return Ok(ids);
    }
    assert forall m :: 0 <= m < |dst| ==> dst[m] in dst;
    if prev.None? {
      var src := PlaceholderSourceAt(next, reqs, rows, k, dst[0], ids, prev);
      return Err(RuntimeError);
    }
    var filled := ids;
    for m := 0 to |dst|
      invariant |filled| == |ids| && forall j :: 0 <= j < |ids| ==> filled[j] == if j in dst[..m] then dev[j] else ids[j]
    {
      var at := IndexOf(prev.value.rids, rows[dst[m]].rid);
      var src := PlaceholderSourceAt(next, reqs, rows, k, dst[m], ids, prev);
      if at.None? { return Err(IndexError); }
      if at.value >= |prev.value.tokens| { return Err(IndexError); }
      filled := filled[dst[m] := prev.value.tokens[at.value]];
      assert dst[..m + 1] == dst[..m] + [dst[m]];
    }
    assert dst[..|dst|] == dst;
    assert filled == dev;
    return Ok(filled);
  }

  lemma RealToken(next: Sampler, reqs: map<nat, Req>, rows: seq<Work>, k: nat, i: nat, ids: seq<int>)
    requires InputRows(next, reqs, rows, k) && i < k && ids == HostIds(next, reqs, rows)
    requires i < |ids| && ids[i] != PLACEHOLDER && i < |DeviceIds(next, reqs, rows)|
    ensures ids[i] == DeviceIds(next, reqs, rows)[i]
  {
    hide HostIds, DeviceIds;
    IdsAgree(next, reqs, rows, k);
    DecodeIds(next, reqs, rows[..k]);
    assert InputRow(next, reqs, rows[i]);
    TokenCounts(next, reqs[rows[i].rid]);
    assert ids[..k][i] == ids[i] && DeviceIds(next, reqs, rows)[..k][i] == DeviceIds(next, reqs, rows)[i];
  }

  lemma PlaceholderSourceAt(next: Sampler, reqs: map<nat, Req>, rows: seq<Work>, k: nat, i: nat, ids: seq<int>, prev: Option<Flight>)
      returns (src: nat)
    requires InputRows(next, reqs, rows, k) && i < k && ids == HostIds(next, reqs, rows) && FlightOk(prev, reqs)
    requires i < |ids| && ids[i] == PLACEHOLDER && i < |DeviceIds(next, reqs, rows)|
    ensures prev.Some? && FlightShape(prev.value) && src < |prev.value.rids|
    ensures prev.value.rids[src] == rows[i].rid && prev.value.tokens[src] == DeviceIds(next, reqs, rows)[i]
  {
    hide HostIds, DeviceIds, FlightOk;
    IdsAgree(next, reqs, rows, k);
    DecodeIds(next, reqs, rows[..k]);
    assert InputRow(next, reqs, rows[i]);
    assert ids[..k][i] == ids[i] && DeviceIds(next, reqs, rows)[..k][i] == DeviceIds(next, reqs, rows)[i];
    src := PlaceholderSource(next, reqs, rows[i], prev);
  }
}

/** What a step under speculation adds to the requests of its batch: a round adds the target's own next
    tokens as far as the proposals foresaw them and one more, cut where the request ends; any other
    batch adds the target's next token to every sequence it completes. */
module SpecGains {
  import opened Common
  import opened BlockTables
  import opened TreeShape
  import opened TokenChunks
  import opened KvState
  import opened KvCache
  import opened Device
  import opened Requests
  import opened Verification
  import opened Machine
  import opened MachineInv
  import opened MachineSteps
  import opened MachineTheorems
  import opened Scheduling
  import opened ScheduleSafe
  import opened ScheduleRoom
  import opened ScheduleOrder
  import opened Launching
  import opened ReadingBack
  import opened SpecRounds
  import opened SpecShares
  import D = Drafts

  // ------------------------------------------------------------ what a request gains

  /** The next `n` tokens that the target produces after `q`'s output, stop rules aside. */
  function Coming(next: Sampler, q: Req, n: nat): (r: seq<nat>)
    ensures |r| == n
  {
    Stream(next, q.prompt, q.seed, |q.output| + n)[|q.output|..]
  }

  /** Tokens that `q` may still produce. */
  function RoomLeft(q: Req): nat {
    if |q.output| <= q.maxNew then q.maxNew - |q.output| else 0
  }

  /** The gain of a round: as many of the coming tokens as were foreseen, and the one after them, up to
      the first stop token or the limit. */
  function RoundGain(next: Sampler, q: Req, proposals: seq<nat>): seq<nat> {
    var coming := Coming(next, q, |proposals| + 1);
    var foreseen := AcceptPrefix(proposals, coming);
    coming[..Kept(coming[..foreseen + 1], RoomLeft(q), q.stops)]
  }

  /** The gain ends the request. */
  predicate EndsWith(q: Req, gain: seq<nat>) {
    gain != [] && (gain[|gain| - 1] in q.stops || |q.output| + |gain| >= q.maxNew)
  }

  /** Request `r`, before with record `q`, has gained these tokens, and has left if they end it. */
  ghost predicate Gained(s: Sys, r: nat, q: Req, gain: seq<nat>) {
    if EndsWith(q, gain) then
      r !in s.reqs && r in s.done && s.done[r].state == FINISHED && s.done[r].output == q.output + gain
    else r in s.reqs && s.reqs[r].output == q.output + gain
  }

  /** The requests `rids` gained these tokens, the others nothing. */
  ghost predicate AllGained(s: Sys, s': Sys, rids: seq<nat>, gains: seq<seq<nat>>) {
    && |gains| == |rids|
    && (forall i :: 0 <= i < |rids| ==> rids[i] in s.reqs && Gained(s', rids[i], s.reqs[rids[i]], gains[i]))
    && (forall r :: r in s.reqs && r !in rids ==> r in s'.reqs && s'.reqs[r].output == s.reqs[r].output)
  }

  // ------------------------------------------------------------ a round

  /** What a verdict keeps is the gain of its proposals. */
  lemma VerdictGain(next: Sampler, q: Req)
    requires HasVerdict(q) && RowOk(next, q)
    ensures AcceptedTokens(q.row.proposals, q.row.chosen)[..KeepOf(q)] == RoundGain(next, q, q.row.proposals)
  {
    hide Hist, Stream, Kept, AcceptedTokens, AcceptPrefix;
    var (props, news) := (q.row.proposals, AcceptedTokens(q.row.proposals, q.row.chosen));
    var coming := Coming(next, q, |props| + 1);
    ComingAre(next, q, news);
    var k: nat := |news| - 1;
    assert coming[..k] == news[..k];
    assert k < |props| ==> coming[k] == news[k] == q.row.chosen[k];
    AcceptUnique(props, coming);
    assert coming[..k + 1] == news;
  }

  lemma ComingAre(next: Sampler, q: Req, news: seq<nat>)
    requires HasVerdict(q) && RowOk(next, q) && news == AcceptedTokens(q.row.proposals, q.row.chosen)
    ensures |news| <= |q.row.proposals| + 1 && Coming(next, q, |q.row.proposals| + 1)[..|news|] == news
  {
    hide Hist, Stream, AcceptedTokens;
    var n := |q.output|;
    RoundIsStream(next, q, |news|);
    assert news[..|news|] == news;
    StreamTake(next, q.prompt, q.seed, n + |q.row.proposals| + 1, n + |news|);
    var st := Stream(next, q.prompt, q.seed, n + |q.row.proposals| + 1);
    assert st[n..][..|news|] == st[..n + |news|][n..];
  }

  /** Settling a request gives it the gain of its proposals. */
  lemma SettledGain(c: Config, d: Sched, r: nat)
    requires Rounding(c, d) && r in d.sys.reqs && d.sys.reqs[r].row.Verified?
    ensures CanSettle(d.sys, r)
    ensures var q := d.sys.reqs[r]; Gained(SettleAt(d, r).sys, r, q, RoundGain(d.sys.next, q, q.row.proposals))
  {
    hide Reachable, Inv, RoundGain, KeepOf, AcceptedTokens, MayRelease, Released, ReqTokens, Holds, AtRest, QueuesOk;
    MaySettle(d.sys, r);
    VerdictHolds(d.sys, r);
    VerdictGain(d.sys.next, d.sys.reqs[r]);
  }

  lemma VerdictHolds(s: Sys, r: nat)
    requires Reachable(s) && r in s.reqs && s.reqs[r].row.Verified? && s.reqs[r].table.Some?
    ensures RowOk(s.next, s.reqs[r])
  {
    hide Reachable, ReqTokens, Holds, KvOk, CacheHolds;
    ReachableInv(s);
    InvReq(s, r);
  }

  /** What the settlement of a whole round does to request `r`. */
  ghost predicate SettledOne(d: Sched, d': Sched, rids: seq<nat>, i: nat, r: nat)
    requires i <= |rids|
  {
    && (r in rids[i..] && r in d.sys.reqs && d.sys.reqs[r].row.Verified? ==>
          Gained(d'.sys, r, d.sys.reqs[r], RoundGain(d.sys.next, d.sys.reqs[r], d.sys.reqs[r].row.proposals)))
    && (r in d.sys.reqs && r !in rids[i..] ==> r in d'.sys.reqs && d'.sys.reqs[r] == d.sys.reqs[r])
    && (r !in d.sys.reqs ==> r !in d'.sys.reqs && (r in d.sys.done ==> r in d'.sys.done && d'.sys.done[r] == d.sys.done[r]))
  }

  lemma {:induction false} SettledGains(c: Config, d: Sched, rids: seq<nat>, i: nat, r: nat)
    requires i <= |rids| && Rounding(c, d) && Unsettled(d.sys.reqs, rids, i)
    requires forall j :: i <= j < |rids| ==> rids[j] in d.sys.reqs
    ensures SettledOne(d, SettleFrom(d, rids, i), rids, i, r)
    decreases |rids| - i
  {
    hide Rounding, SettleAt, CanSettle, RoundGain, Unsettled, SettledOne;
    if i < |rids| {
      var x := rids[i];
      UnsettledAt(d.sys.reqs, rids, i);
      SettleRounding(c, d, x);
      SettledGain(c, d, x);
      SettleOthers(c, d, rids, i);
      var d1 := SettleAt(d, x);
      SettledGains(c, d1, rids, i + 1, r);
      SettledJoins(c, d, d1, SettleFrom(d, rids, i), rids, i, r);
    } else {
      NothingSettled(d, rids, i, r);
    }
  }

  lemma NothingSettled(d: Sched, rids: seq<nat>, i: nat, r: nat)
    requires i == |rids|
    ensures SettledOne(d, d, rids, i, r)
  {
    assert rids[i..] == [];
  }

  /** The other requests wait on, unchanged. */
  lemma SettleOthers(c: Config, d: Sched, rids: seq<nat>, i: nat)
    requires Rounding(c, d) && Unsettled(d.sys.reqs, rids, i) && i < |rids| && forall j :: i <= j < |rids| ==> rids[j] in d.sys.reqs
    requires d.sys.reqs[rids[i]].row.Verified?
    ensures CanSettle(d.sys, rids[i])
    ensures var d1 := SettleAt(d, rids[i]);
      && Unsettled(d1.sys.reqs, rids, i + 1) && (forall j :: i < j < |rids| ==> rids[j] in d1.sys.reqs) && Distinct(rids)
      && (forall x :: x in d.sys.reqs && x != rids[i] ==> x in d1.sys.reqs && d1.sys.reqs[x] == d.sys.reqs[x])
      && (forall x :: x in d1.sys.reqs ==> x in d.sys.reqs) && d1.sys.next == d.sys.next
      && (forall x :: x in d.sys.done && x != rids[i] ==> x in d1.sys.done && d1.sys.done[x] == d.sys.done[x])
  {
    hide Reachable, RoundEnds, KeepOf, Released, MayRelease, AcceptedTokens, Rounding;
    SettleEffect(c, d, rids[i]);
    UnsettledNext(d.sys.reqs, SettleAt(d, rids[i]).sys.reqs, rids, i);
    forall j | i < j < |rids| ensures rids[j] != rids[i] {}
  }

  lemma SettledJoins(c: Config, d: Sched, d1: Sched, d': Sched, rids: seq<nat>, i: nat, r: nat)
    requires i < |rids| && Distinct(rids) && rids[i] in d.sys.reqs && d.sys.reqs[rids[i]].row.Verified?
    requires var (x, q) := (rids[i], d.sys.reqs[rids[i]]);
      Gained(d1.sys, x, q, RoundGain(d.sys.next, q, q.row.proposals))
    requires forall x :: x in d.sys.reqs && x != rids[i] ==> x in d1.sys.reqs && d1.sys.reqs[x] == d.sys.reqs[x]
    requires (forall x :: x in d1.sys.reqs ==> x in d.sys.reqs) && d1.sys.next == d.sys.next
    requires forall x :: x in d.sys.done && x != rids[i] ==> x in d1.sys.done && d1.sys.done[x] == d.sys.done[x]
    requires SettledOne(d1, d', rids, i + 1, r)
    ensures SettledOne(d, d', rids, i, r)
  {
    hide RoundGain;
    assert rids[i..] == [rids[i]] + rids[i + 1..];
    assert rids[i] !in rids[i + 1..];
  }

  // ------------------------------------------------------------ any other batch

  /** What reading rows `i..` of a flight back does to a request that has none of them, or no slot. */
  lemma {:induction false} ReadLeaves(d: Sched, prev: Flight, i: nat, r: nat)
    requires r in d.sys.reqs && forall j :: i <= j < |prev.rids| && j < |prev.slots| && prev.rids[j] == r ==> prev.slots[j].None?
    ensures r in ReadFrom(d, prev, i).sys.reqs && ReadFrom(d, prev, i).sys.reqs[r] == d.sys.reqs[r]
    decreases |prev.rids| - i
  {
    if i < |prev.rids| && i < |prev.slots| {
      var x := prev.rids[i];
      if prev.slots[i].Some? && x in d.sys.reqs && HasToken(d.sys.reqs[x]) {
        ReadLeaves(ReadBackAt(d, x), prev, i + 1, r);
      } else {
        ReadLeaves(d, prev, i + 1, r);
      }
    }
  }

  /** Who has left stays away, with the same record. */
  lemma {:induction false} ReadKeepsGone(d: Sched, prev: Flight, i: nat, r: nat)
    requires r !in d.sys.reqs && r in d.sys.done
    ensures r !in ReadFrom(d, prev, i).sys.reqs && r in ReadFrom(d, prev, i).sys.done
    ensures ReadFrom(d, prev, i).sys.done[r] == d.sys.done[r]
    decreases |prev.rids| - i
  {
    if i < |prev.rids| && i < |prev.slots| {
      var x := prev.rids[i];
      if prev.slots[i].Some? && x in d.sys.reqs && HasToken(d.sys.reqs[x]) {
        ReadKeepsGone(ReadBackAt(d, x), prev, i + 1, r);
      } else {
        ReadKeepsGone(d, prev, i + 1, r);
      }
    }
  }

  /** A row with a slot gives its request its first unread token. */
  ghost predicate ReadOne(s: Sys, r: nat, q: Req)
    requires HasToken(q)
  {
    if Ends(q) then
      && r !in s.reqs && r in s.done && s.done[r].state == FINISHED
      && s.done[r].output == DropPending(Filled(q)).output
    else r in s.reqs && s.reqs[r] == Filled(q)
  }

  lemma {:induction false} ReadGives(d: Sched, prev: Flight, i: nat, j: nat)
    requires i <= j < |prev.rids| == |prev.slots| && Distinct(prev.rids) && prev.slots[j].Some?
    requires prev.rids[j] in d.sys.reqs && HasToken(d.sys.reqs[prev.rids[j]])
    ensures ReadOne(ReadFrom(d, prev, i).sys, prev.rids[j], d.sys.reqs[prev.rids[j]])
    decreases |prev.rids| - i
  {
    hide Released;
    var (x, r) := (prev.rids[i], prev.rids[j]);
    if i == j {
      var d1 := ReadBackAt(d, r);
      if Ends(d.sys.reqs[r]) { ReadKeepsGone(d1, prev, i + 1, r); } else { ReadLeaves(d1, prev, i + 1, r); }
    } else if prev.slots[i].Some? && x in d.sys.reqs && HasToken(d.sys.reqs[x]) {
      ReadGives(ReadBackAt(d, x), prev, i + 1, j);
    } else {
      ReadGives(d, prev, i + 1, j);
    }
  }

  /** A row that completed its sequence: the target's next token, and the end if that is one. */
  lemma TokenGained(next: Sampler, bs: nat, q: Req, q': Req, w: Work, s: Sys, r: nat)
    requires Launched(bs, q, q', w) && q.table.value.numTokens + w.n == SeqLen(q) && q.pending == 0 && ReqTokens(next, q')
    requires |q.unread| == 0
    ensures HasToken(q')
    ensures ReadOne(s, r, q') ==> Gained(s, r, q, Coming(next, q, 1))
  {
    hide BlocksNeeded, Stream;
    var st := Stream(next, q.prompt, q.seed, |q'.output|);
    assert q'.unread == st[|q.output|..] == Coming(next, q, 1);
    assert Filled(q').output == q.output + [q'.unread[0] as int];
    assert DropPending(Filled(q')).output == Filled(q').output;
    assert q.output + Coming(next, q, 1) == q.output + [q'.unread[0] as int];
  }

  /** The gains of a batch that is no round: the next token for every sequence it completes. */
  function PlainGains(next: Sampler, reqs: map<nat, Req>, rows: seq<Work>): (gains: seq<seq<nat>>)
    ensures |gains| == |rows|
  {
    seq(|rows|, i requires 0 <= i < |rows| => if Completes(reqs, rows[i]) then Coming(next, reqs[rows[i].rid], 1) else [])
  }

  lemma PlainGained(c: Config, d: Sched, d2: Sched, d3: Sched, rows: seq<Work>, prev: Flight)
    requires AllLaunched(d.sys.bs, d.sys.reqs, d2.sys.reqs, rows) && FlightOf(prev, d.sys.reqs, d2.sys.reqs, rows)
    requires Loose(c, d2) && d2.sys.next == d.sys.next && d3 == ReadFrom(d2, prev, 0)
    requires forall r :: r in d.sys.reqs ==> d.sys.reqs[r].pending == 0 && d.sys.reqs[r].unread == []
    requires forall w :: w in rows ==> w.rid in d.sys.reqs && d.sys.reqs[w.rid].table.Some? && w.start == d.sys.reqs[w.rid].table.value.numTokens
    ensures AllGained(d.sys, d3.sys, Rids(rows), PlainGains(d.sys.next, d.sys.reqs, rows))
  {
    hide Loose, Launched, ReadFrom, Gained, Coming, ReqTokens;
    var gains := PlainGains(d.sys.next, d.sys.reqs, rows);
    forall i | 0 <= i < |rows| ensures rows[i].rid in d.sys.reqs && Gained(d3.sys, rows[i].rid, d.sys.reqs[rows[i].rid], gains[i]) {
      assert rows[i] in rows;
      RowGained(c, d, d2, d3, rows, prev, i);
    }
    forall r | r in d.sys.reqs && r !in Rids(rows) ensures r in d3.sys.reqs && d3.sys.reqs[r].output == d.sys.reqs[r].output {
      ReadLeaves(d2, prev, 0, r);
    }
  }

  lemma RowGained(c: Config, d: Sched, d2: Sched, d3: Sched, rows: seq<Work>, prev: Flight, i: nat)
    requires i < |rows| && AllLaunched(d.sys.bs, d.sys.reqs, d2.sys.reqs, rows) && FlightOf(prev, d.sys.reqs, d2.sys.reqs, rows)
    requires Loose(c, d2) && d2.sys.next == d.sys.next && d3 == ReadFrom(d2, prev, 0)
    requires rows[i].rid in d.sys.reqs && d.sys.reqs[rows[i].rid].pending == 0 && d.sys.reqs[rows[i].rid].unread == []
    requires d.sys.reqs[rows[i].rid].table.Some? && rows[i].start == d.sys.reqs[rows[i].rid].table.value.numTokens
    ensures Gained(d3.sys, rows[i].rid, d.sys.reqs[rows[i].rid], PlainGains(d.sys.next, d.sys.reqs, rows)[i])
  {
    hide Loose, ReadFrom, Coming, ReqTokens, Launched, ReadOne;
    var (w, r) := (rows[i], rows[i].rid);
    assert w in rows && FlightRow(d.sys.reqs, d2.sys.reqs, w, prev.slots[i], prev.tokens[i]);
    LooseReq(c, d2, r);
    if Completes(d.sys.reqs, w) {
      TokenGained(d.sys.next, d.sys.bs, d.sys.reqs[r], d2.sys.reqs[r], w, d3.sys, r);
      ReadGives(d2, prev, 0, i);
    } else {
      NothingLaunched(d.sys.bs, d.sys.reqs[r], d2.sys.reqs[r], w);
      forall j | 0 <= j < |prev.rids| && prev.rids[j] == r ensures prev.slots[j].None? {
        assert j == i;
      }
      ReadLeaves(d2, prev, 0, r);
    }
  }

  lemma NothingLaunched(bs: nat, q: Req, q': Req, w: Work)
    requires Launched(bs, q, q', w) && q.table.value.numTokens + w.n != SeqLen(q)
    ensures q'.output == q.output && q'.output == q.output + []
  {
    hide BlocksNeeded;
  }

  // ------------------------------------------------------------ the gains of a step

  /** The verdict of each request is about its proposals. */
  ghost predicate Proposed(reqs: map<nat, Req>, rids: seq<nat>, proposals: seq<seq<nat>>) {
    && |proposals| == |rids|
    && forall i :: 0 <= i < |rids| ==>
         rids[i] in reqs && reqs[rids[i]].row.Verified? && reqs[rids[i]].row.proposals == proposals[i]
  }

  function RoundGains(next: Sampler, reqs: map<nat, Req>, rids: seq<nat>, proposals: seq<seq<nat>>): (gains: seq<seq<nat>>)
    ensures |gains| == |rids|
  {
    seq(|rids|, i requires 0 <= i < |rids| =>
      if rids[i] in reqs && i < |proposals| then RoundGain(next, reqs[rids[i]], proposals[i]) else [])
  }

  /** What each row's request gains in a step: by a round if the step speculates and the batch only
      decodes, by the plain pass otherwise. */
  function GainsOf(next: Sampler, reqs: map<nat, Req>, b: Batch, gamma: nat, guess: D.Guesser): (gains: seq<seq<nat>>)
    ensures |gains| == |b.rows|
  {
    if gamma > 0 && b.phase == DecodeOnly then
      seq(|b.rows|, i requires 0 <= i < |b.rows| =>
        if b.rows[i].rid in reqs then RoundGain(next, reqs[b.rows[i].rid], D.Guesses(guess, b.rows[i].rid, gamma)) else [])
    else PlainGains(next, reqs, b.rows)
  }

  lemma RoundGainsAre(next: Sampler, reqs: map<nat, Req>, b: Batch, gamma: nat, guess: D.Guesser, proposals: seq<seq<nat>>)
    requires gamma > 0 && b.phase == DecodeOnly && |proposals| == |b.rows|
    requires forall i :: 0 <= i < |proposals| ==> proposals[i] == D.Guesses(guess, Rids(b.rows)[i], gamma)
    ensures RoundGains(next, reqs, Rids(b.rows), proposals) == GainsOf(next, reqs, b, gamma, guess)
  {
    hide RoundGain, D.Guesses;
  }

  /** The gains depend on the tokens of the requests only. */
  lemma SameGains(next: Sampler, s: Sys, s1: Sys, b: Batch, gamma: nat, guess: D.Guesser)
    requires SameRequests(s, s1)
    ensures GainsOf(next, s.reqs, b, gamma, guess) == GainsOf(next, s1.reqs, b, gamma, guess)
  {
    hide D.Guesses, AcceptPrefix, Kept, Stream;
    forall r | r in s.reqs ensures r in s1.reqs && SameTokens(s.reqs[r], s1.reqs[r]) {}
  }

  lemma GainedSame(s: Sys, s1: Sys, s': Sys, rids: seq<nat>, gains: seq<seq<nat>>)
    requires SameRequests(s, s1) && AllGained(s1, s', rids, gains)
    ensures AllGained(s, s', rids, gains)
  {
    forall r | r in s.reqs ensures r in s1.reqs && SameTokens(s.reqs[r], s1.reqs[r]) {}
  }

  // ------------------------------------------------------------ what the draft covers

  function Fewer(a: int, b: int): int {
    if a <= b then a else b
  }

  /** Every request of `rids` that the draft held nothing of is covered up to its last token; the other
      tables are as they were. */
  ghost predicate Primed(reqs: map<nat, Req>, t0: map<nat, Table>, t1: map<nat, Table>, rids: seq<nat>) {
    && (forall r :: r in t1 <==> r in t0 || r in rids)
    && (forall r :: r in rids ==>
          && r in reqs && r in t1
          && t1[r].numTokens == if r in t0 && t0[r].numTokens > 0 then t0[r].numTokens else SeqLen(reqs[r]) - 1)
    && (forall r :: r in t0 && r !in rids ==> t1[r] == t0[r])
  }

  /** Every request of `rids` is covered with its last token and all proposals but one. */
  ghost predicate Proposing(reqs: map<nat, Req>, t0: map<nat, Table>, t1: map<nat, Table>, rids: seq<nat>, gamma: nat) {
    && t1.Keys == t0.Keys
    && (forall r :: r in rids ==> r in reqs && r in t1 && t1[r].numTokens == SeqLen(reqs[r]) + gamma - 1)
    && (forall r :: r in t0 && r !in rids ==> t1[r] == t0[r])
  }

  /** After settlement: no table for who has left, and the others are covered as far as the draft was,
      but not with the last token. */
  ghost predicate TakenBack(reqs: map<nat, Req>, t0: map<nat, Table>, t1: map<nat, Table>, rids: seq<nat>) {
    && (forall r :: r in t1 <==> r in t0 && (r !in rids || r in reqs))
    && (forall r :: r in t1 && r in rids ==> t1[r].numTokens == Fewer(t0[r].numTokens, SeqLen(reqs[r]) - 1))
    && (forall r :: r in t1 && r !in rids ==> t1[r] == t0[r])
  }

  /** A whole round. */
  ghost predicate RoundTables(reqs: map<nat, Req>, reqs': map<nat, Req>, t0: map<nat, Table>, t1: map<nat, Table>, rids: seq<nat>, gamma: nat) {
    && (forall r :: r in t1 <==> (r in t0 || r in rids) && (r !in rids || r in reqs'))
    && (forall r :: r in t1 && r in rids ==>
          r in reqs && t1[r].numTokens == Fewer(SeqLen(reqs[r]) + gamma - 1, SeqLen(reqs'[r]) - 1))
    && (forall r :: r in t1 && r !in rids ==> t1[r] == t0[r])
  }

  lemma RoundTablesAre(reqs: map<nat, Req>, reqs': map<nat, Req>, t0: map<nat, Table>, ta: map<nat, Table>, tb: map<nat, Table>,
                       t1: map<nat, Table>, rids: seq<nat>, gamma: nat)
    requires Primed(reqs, t0, ta, rids) && Proposing(reqs, ta, tb, rids, gamma) && TakenBack(reqs', tb, t1, rids)
    ensures RoundTables(reqs, reqs', t0, t1, rids, gamma)
  {
  }

  lemma NothingTakenBack(reqs: map<nat, Req>, t: map<nat, Table>)
    ensures TakenBack(reqs, t, t, [])
  {
  }

  /** The draft follows one more settled request. */
  lemma TakenBackMore(reqs1: map<nat, Req>, reqs2: map<nat, Req>, t0: map<nat, Table>, t1: map<nat, Table>, t2: map<nat, Table>,
                      rids: seq<nat>, i: nat)
    requires i < |rids| && Distinct(rids) && TakenBack(reqs1, t0, t1, rids[..i])
    requires forall r :: r in rids[..i] ==> (r in reqs1 <==> r in reqs2) && (r in reqs1 ==> reqs2[r] == reqs1[r])
    requires var r := rids[i];
      if r !in reqs2 then t2 == t1 - {r}
      else
        && t2.Keys == t1.Keys && (forall x :: x in t1 && x != r ==> t2[x] == t1[x])
        && (r in t1 ==> t2[r].numTokens == Fewer(t1[r].numTokens, SeqLen(reqs2[r]) - 1))
    ensures TakenBack(reqs2, t0, t2, rids[..i + 1])
  {
    assert rids[..i + 1] == rids[..i] + [rids[i]] && rids[i] !in rids[..i];
  }

  /** Feeding and proposing, whether or not the requests were taken back two tokens first. */
  lemma ProposingIs(reqs: map<nat, Req>, t0: map<nat, Table>, ta: map<nat, Table>, t1: map<nat, Table>, rids: seq<nat>,
                    rows: seq<D.Row>, gamma: nat)
    requires gamma >= 1 && ta.Keys == t0.Keys && (forall r :: r in t0 && r !in rids ==> ta[r] == t0[r])
    requires Feeds(reqs, ta, rids, rows) && D.GrewBy(ta, t1, D.Longer(rows, gamma - 1))
    ensures Proposing(reqs, t0, t1, rids, gamma)
  {
    var longer := D.Longer(rows, gamma - 1);
    forall r | r in rids ensures r in reqs && r in t1 && t1[r].numTokens == SeqLen(reqs[r]) + gamma - 1 {
      var i :| 0 <= i < |rids| && rids[i] == r;
      D.GrewAt(ta, t1, longer, i);
    }
    forall r | r in t0 && r !in rids ensures t1[r] == t0[r] {
      NoRowOf(longer, rids, r);
    }
  }

  lemma NoRowOf(rows: seq<D.Row>, rids: seq<nat>, r: nat)
    requires |rows| == |rids| && (forall i :: 0 <= i < |rows| ==> rows[i].rid == rids[i]) && r !in rids
    ensures !D.HasRow(rows, r)
  {
  }

  /** Every request of `rids` has a table, an empty one if it had none, and those with nothing in it are
      the items. */
  ghost predicate Listed(t0: map<nat, Table>, t1: map<nat, Table>, rids: seq<nat>, items: seq<D.Row>) {
    && (forall r :: r in t1 <==> r in t0 || r in rids) && (forall r :: r in t0 ==> t1[r] == t0[r])
    && (forall r :: r in rids && r !in t0 ==> t1[r].numTokens == 0)
    && (forall r :: r in rids && t1[r].numTokens == 0 ==> D.HasRow(items, r))
    && forall k :: 0 <= k < |items| ==> items[k].rid in rids && t1[items[k].rid].numTokens == 0
  }

  lemma NoneListed(t: map<nat, Table>)
    ensures Listed(t, t, [], [])
  {
  }

  lemma ListedMore(t0: map<nat, Table>, t1: map<nat, Table>, t2: map<nat, Table>, rids: seq<nat>, i: nat, items: seq<D.Row>, items': seq<D.Row>)
    requires i < |rids| && Distinct(rids) && Listed(t0, t1, rids[..i], items)
    requires var r := rids[i];
      && t2 == (if r in t1 then t1 else t1[r := Table([], 0)])
      && if t2[r].numTokens == 0 then |items'| == |items| + 1 && items' == items + [items'[|items|]] && items'[|items|].rid == r
         else items' == items
    ensures Listed(t0, t2, rids[..i + 1], items')
  {
    assert rids[..i + 1] == rids[..i] + [rids[i]] && rids[i] !in rids[..i];
    forall r | r in rids[..i + 1] && t2[r].numTokens == 0 ensures D.HasRow(items', r) {
      if r == rids[i] {
        assert items'[|items|].rid == r;
      } else {
        var k :| 0 <= k < |items| && items[k].rid == r;
        assert items'[k].rid == r;
      }
    }
  }

  /** What a prefill of the items brings. */
  lemma PrimedIs(reqs: map<nat, Req>, t0: map<nat, Table>, ta: map<nat, Table>, t1: map<nat, Table>, rids: seq<nat>, items: seq<D.Row>)
    requires Listed(t0, ta, rids, items) && D.GrewBy(ta, t1, items) && forall r :: r in rids ==> r in reqs
    requires forall k :: 0 <= k < |items| ==> items[k].rid in reqs && items[k].n == SeqLen(reqs[items[k].rid]) - 1
    ensures Primed(reqs, t0, t1, rids)
  {
    forall r | r in rids
      ensures r in t1 && t1[r].numTokens == if r in t0 && t0[r].numTokens > 0 then t0[r].numTokens else SeqLen(reqs[r]) - 1
    {
      if D.HasRow(items, r) { var k :| 0 <= k < |items| && items[k].rid == r; }
    }
    assert forall r :: r in t0 && r !in rids ==> !D.HasRow(items, r);
  }

  /** The tables without those of `gone`. */
  ghost function Dropping(t: map<nat, Table>, gone: seq<nat>): map<nat, Table> {
    map r | r in t && r !in gone :: t[r]
  }

  /** The tables without those of requests of `rids` that have left. */
  ghost function Staying(t: map<nat, Table>, rids: seq<nat>, reqs: map<nat, Req>): map<nat, Table> {
    map r | r in t && (r !in rids || r in reqs) :: t[r]
  }

  function DecodeStates(reqs: map<nat, Req>): set<nat> {
    set r | r in reqs && reqs[r].state == DECODE
  }

  /** A step that is no round: whoever has left loses its table, and with speculation whoever decodes now
      is covered. */
  ghost predicate PlainTables(reqs: map<nat, Req>, t0: map<nat, Table>, t1: map<nat, Table>, rids: seq<nat>, gamma: nat) {
    if gamma == 0 then t1 == Staying(t0, rids, reqs)
    else Primed(reqs, Staying(t0, rids, reqs), t1, Only(rids, DecodeStates(reqs)))
  }

  /** The tables of a draft after a step from `s` to `s'` with batch `b`: first the preempted requests
      lose theirs. */
  ghost predicate DraftAfter(s: Sys, s': Sys, t0: map<nat, Table>, t1: map<nat, Table>, b: Batch, gamma: nat) {
    if gamma > 0 && b.phase == DecodeOnly then
      RoundTables(s.reqs, s'.reqs, Dropping(t0, b.preempted), t1, Rids(b.rows), gamma)
    else PlainTables(s'.reqs, Dropping(t0, b.preempted), t1, Rids(b.rows), gamma)
  }

  lemma RoundDraft(s: Sys, s1: Sys, s': Sys, t0: map<nat, Table>, t1: map<nat, Table>, rids: seq<nat>, gamma: nat)
    requires SameRequests(s, s1) && RoundTables(s1.reqs, s'.reqs, t0, t1, rids, gamma)
    ensures RoundTables(s.reqs, s'.reqs, t0, t1, rids, gamma)
  {
    forall r | r in s1.reqs ensures r in s.reqs && SeqLen(s1.reqs[r]) == SeqLen(s.reqs[r]) { assert SameTokens(s.reqs[r], s1.reqs[r]); }
  }
}

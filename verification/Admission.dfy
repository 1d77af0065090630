/** What a schedule decides, without its loops: which waiting requests are let in and what stops the
    next one, who is preempted and when that stops, and which rows the batch has for them. */
module Admissions {
  import opened Common
  import opened BlockTables
  import opened TreeShape
  import opened TokenChunks
  import opened KvState
  import opened KvCache
  import opened Device
  import opened Requests
  import opened Machine
  import opened MachineInv
  import opened MachineSteps
  import opened MachineTheorems
  import opened Scheduling
  import opened ScheduleSafe
  import opened ScheduleRoom
  import opened ScheduleOrder

  // ------------------------------------------------------------ letting requests in

  /** The requests of `order` joined the running ones, one after the other. */
  ghost function Entered(d: Sched, order: seq<nat>): (d': Sched)
    requires QueuesOk(d) && OrderOk(d, order)
    ensures QueuesOk(d') && d'.running == d.running + order
    decreases |order|
  {
    hide QueuesOk;
    if order == [] then d
    else
      OrderTail(d, order);
      Entered(Take(d, order[0]), order[1..])
  }

  lemma OrderFirst(d: Sched, order: seq<nat>, k: nat)
    requires OrderOk(d, order) && k <= |order|
    ensures OrderOk(d, order[..k])
  {
  }

  /** One more is let in behind the others. */
  lemma {:induction false} EnteredMore(d: Sched, order: seq<nat>, k: nat)
    requires QueuesOk(d) && OrderOk(d, order) && k < |order|
    ensures OrderOk(d, order[..k]) && OrderOk(d, order[..k + 1])
    ensures var now := Entered(d, order[..k]);
      order[k] in now.waiting && OrderOk(now, order[k..]) && Entered(d, order[..k + 1]) == Take(now, order[k])
    decreases k
  {
    hide QueuesOk, Take, Entered;
    OrderFirst(d, order, k);
    OrderFirst(d, order, k + 1);
    if k == 0 {
      NoneEntered(d, order);
    } else {
      var d1 := Take(d, order[0]);
      OrderTail(d, order);
      EnteredMore(d1, order[1..], k - 1);
      assert order[1..][..k - 1] == order[..k][1..] && order[1..][..k] == order[..k + 1][1..];
      assert order[1..][k - 1..] == order[k..] && order[1..][k - 1] == order[k];
      EnteredStep(d, order[..k]);
      EnteredStep(d, order[..k + 1]);
    }
  }

  lemma EnteredStep(d: Sched, order: seq<nat>)
    requires QueuesOk(d) && OrderOk(d, order) && order != []
    ensures OrderOk(Take(d, order[0]), order[1..]) && Entered(d, order) == Entered(Take(d, order[0]), order[1..])
  {
    hide QueuesOk, Take;
    OrderTail(d, order);
  }

  lemma NoneEntered(d: Sched, order: seq<nat>)
    requires QueuesOk(d) && OrderOk(d, order)
    ensures OrderOk(d, []) && Entered(d, []) == d && order[..0] == [] && order[0..] == order
    ensures order != [] ==>
      OrderOk(d, order[..1]) && Entered(d, order[..1]) == Take(d, order[0])
  {
    hide QueuesOk, Take;
    if order != [] {
      OrderTail(d, order);
      OrderFirst(d, order, 1);
      assert order[..1] == [order[0]] && order[..1][1..] == [];
      var d1 := Take(d, order[0]);
      assert OrderOk(d1, []);
    }
  }

  lemma {:induction false} EnteredGood(c: Config, d: Sched, order: seq<nat>)
    requires Good(c, d) && QueuesOk(d) && OrderOk(d, order) && forall r :: r in order ==> d.sys.reqs[r].pending == 0
    ensures Good(c, Entered(d, order)) && TookFirst(d, Entered(d, order), order, |order|)
    decreases |order|
  {
    hide Good, QueuesOk, Take, TookFirst;
    if order == [] {
      TookNone(d, order);
    } else {
      OrderTail(d, order);
      TakeGood(c, d, order[0]);
      EnteredGood(c, Take(d, order[0]), order[1..]);
      EnteredStep(d, order);
      TookMore(c, d, Entered(d, order), order, |order| - 1);
    }
  }

  /** Tokens that the requests of `rids` still have to compute. */
  ghost function Uncomputed(reqs: map<nat, Req>, rids: seq<nat>): int
    requires forall r :: r in rids ==> r in reqs
  {
    if rids == [] then 0
    else
      var (init, q) := (rids[..|rids| - 1], reqs[rids[|rids| - 1]]);
      Uncomputed(reqs, init) + SeqLen(q) - q.numCached
  }

  /** What has to hold for `order[i]` to be let in after `order[..i]`: it waits for no read-back,
      fewer than the allowed number run, it is the first or all that have been let in stay within the
      token budget, and the pool has the blocks for their prefills and a token each beside the next
      decode step of those who ran before. */
  ghost predicate Welcome(c: Config, d: Sched, order: seq<nat>, i: nat)
    requires QueuesOk(d) && OrderOk(d, order) && i < |order|
  {
    OrderFirst(d, order, i + 1);
    NeedsDefined(c, d);
    var then_ := Entered(d, order[..i + 1]);
    NeedsDefined(c, then_);
    && d.sys.reqs[order[i]].pending == 0
    && |d.running| + i < c.maxRunning
    && (i == 0 || Uncomputed(then_.sys.reqs, order[..i + 1]) <= c.maxPrefill)
    && Sum(StepNeeds(c, then_.sys), order[..i + 1]) + Sum(DecodeNeeds(c, d.sys), d.running) <= Avail(then_.sys.kv)
  }

  lemma {:induction false} SystemKept(c: Config, d: Sched, order: seq<nat>)
    requires Good(c, d) && QueuesOk(d) && OrderOk(d, order) && forall r :: r in order ==> d.sys.reqs[r].pending == 0
    ensures SameRequests(d.sys, Entered(d, order).sys)
    decreases |order|
  {
    hide Good, QueuesOk, Take, SameRequests;
    if order == [] {
      SameRequestsSelf(d.sys);
    } else {
      OrderTail(d, order);
      TakeGood(c, d, order[0]);
      SystemKept(c, Take(d, order[0]), order[1..]);
      EnteredStep(d, order);
      SameRequestsTrans(d.sys, Take(d, order[0]).sys, Entered(d, order).sys);
    }
  }

  /** The state after `order[..k]`, as seen from before: who ran still does, unchanged, and the next
      one has not changed either. */
  ghost predicate NowOf(c: Config, d: Sched, now: Sched, order: seq<nat>, k: nat) {
    && k < |order| && Good(c, now) && QueuesOk(now) && now.sys.bs == d.sys.bs
    && order[k] in now.waiting && OrderOk(now, order[k..])
    && |now.running| == |d.running| + k && now.running[..|d.running|] == d.running
    && order[k] in d.sys.reqs && order[k] in now.sys.reqs && now.sys.reqs[order[k]] == d.sys.reqs[order[k]]
    && (forall r :: r in d.running ==> r in d.sys.reqs && r in now.sys.reqs && now.sys.reqs[r] == d.sys.reqs[r])
    && (forall r :: r in order[..k] ==> r in now.sys.reqs && r != order[k])
    && Distinct(order)
  }

  lemma LetInSoFar(c: Config, d: Sched, order: seq<nat>, k: nat)
    requires Good(c, d) && QueuesOk(d) && OrderOk(d, order) && k < |order|
    requires forall i :: 0 <= i < k ==> d.sys.reqs[order[i]].pending == 0
    ensures OrderOk(d, order[..k]) && NowOf(c, d, Entered(d, order[..k]), order, k)
  {
    hide Good, QueuesOk, Take, Entered, TookFirst, SameRequests;
    EnteredMore(d, order, k);
    EnteredGood(c, d, order[..k]);
    SystemKept(c, d, order[..k]);
    assert order[..k][..k] == order[..k];
    TookSoFar(c, d, Entered(d, order[..k]), order, k);
  }

  lemma TookSoFar(c: Config, d: Sched, now: Sched, order: seq<nat>, k: nat)
    requires QueuesOk(d) && OrderOk(d, order) && k < |order| && Good(c, now) && QueuesOk(now)
    requires TookFirst(d, now, order[..k], k) && SameRequests(d.sys, now.sys)
    requires order[k] in now.waiting && OrderOk(now, order[k..])
    ensures NowOf(c, d, now, order, k)
  {
    hide Good, FreshPrefill, SameTokens;
    assert order[..k][..k] == order[..k];
    assert forall i :: 0 <= i < k ==> order[i] != order[k];
  }

  /** The loop's two counters after `order[..k]`: tokens still to compute, and blocks promised. */
  lemma CountersMove(c: Config, d: Sched, now: Sched, order: seq<nat>, k: nat)
    requires NowOf(c, d, now, order, k) && now.sys.reqs[order[k]].pending == 0 && QueuesOk(d)
    requires forall r :: r in order[..k] ==> r in now.running
    ensures var then_ := Take(now, order[k]);
      && order[k] in then_.sys.reqs && QueuesOk(then_) && now.sys.bs > 0 && then_.sys.bs == now.sys.bs
      && (forall r :: r in order[..k + 1] ==> r in then_.sys.reqs) && (forall r :: r in order[..k] ==> r in now.sys.reqs)
      && (forall r :: r in d.running ==> r in d.sys.reqs && r in now.sys.reqs)
      && var q := then_.sys.reqs[order[k]];
      && Uncomputed(then_.sys.reqs, order[..k + 1]) == Uncomputed(now.sys.reqs, order[..k]) + Uncached(q)
      && Sum(StepNeeds(c, then_.sys), order[..k + 1]) == Sum(StepNeeds(c, now.sys), order[..k]) + PrefillNeed(now.sys.bs, q)
      && Sum(DecodeNeeds(c, now.sys), d.running) == Sum(DecodeNeeds(c, d.sys), d.running)
  {
    hide Good, QueuesOk, Take, PrefillNeed, DecodeNeed, StepNeed, Sum, Uncomputed, StepNeeds, DecodeNeeds;
    var then_ := Take(now, order[k]);
    TakeGood(c, now, order[k]);
    TakeSums(c, now, order[k], order[..k]);
    NeedsKnownGood(c, now);
    NeedsKnownGood(c, then_);
    assert order[..k + 1] == order[..k] + [order[k]];
    MoreUncomputed(now.sys.reqs, then_.sys.reqs, order[..k], order[k]);
    SameDecodeNeeds(c, d.sys, now.sys, d.running);
  }

  lemma SameDecodeNeeds(c: Config, s: Sys, s': Sys, rids: seq<nat>)
    requires s.bs == s'.bs > 0 && forall r :: r in rids ==> r in s.reqs && r in s'.reqs && s'.reqs[r] == s.reqs[r]
    ensures Sum(DecodeNeeds(c, s'), rids) == Sum(DecodeNeeds(c, s), rids)
  {
    SumSame(DecodeNeeds(c, s), DecodeNeeds(c, s'), rids);
  }

  lemma MoreUncomputed(reqs: map<nat, Req>, reqs': map<nat, Req>, rids: seq<nat>, r: nat)
    requires r in reqs' && forall x :: x in rids ==> x in reqs && x in reqs' && reqs'[x] == reqs[x]
    ensures Uncomputed(reqs', rids + [r]) == Uncomputed(reqs, rids) + Uncached(reqs'[r])
  {
    assert (rids + [r])[..|rids|] == rids;
    SameUncomputed(reqs, reqs', rids);
  }

  lemma {:induction false} SameUncomputed(reqs: map<nat, Req>, reqs': map<nat, Req>, rids: seq<nat>)
    requires forall x :: x in rids ==> x in reqs && x in reqs' && reqs'[x] == reqs[x]
    ensures Uncomputed(reqs', rids) == Uncomputed(reqs, rids)
  {
    if rids != [] { SameUncomputed(reqs, reqs', rids[..|rids| - 1]); }
  }

  /** What the loop asks of the next request is what it takes for it to be welcome. */
  lemma FitsIsWelcome(c: Config, d: Sched, order: seq<nat>, k: nat, now: Sched)
    requires Good(c, d) && QueuesOk(d) && OrderOk(d, order) && k < |order| && OrderOk(d, order[..k]) && OrderOk(d, order[..k + 1])
    requires now == Entered(d, order[..k]) && NowOf(c, d, now, order, k)
    requires Entered(d, order[..k + 1]) == Take(now, order[k])
    requires now.sys.reqs[order[k]].pending == 0 && |d.running| + k < c.maxRunning && forall r :: r in order[..k] ==> r in now.running
    ensures (forall r :: r in order[..k] ==> r in now.sys.reqs) && now.sys.bs > 0
    ensures Fits(c, now, order[k], |d.running|, c.maxPrefill - Uncomputed(now.sys.reqs, order[..k]), Sum(StepNeeds(c, now.sys), order[..k]))
      <==> Welcome(c, d, order, k)
  {
    hide Good, QueuesOk, Take, Entered, PrefillNeed, DecodeNeed, StepNeed, Sum, Uncomputed, StepNeeds, DecodeNeeds, Avail, Uncached;
    CountersMove(c, d, now, order, k);
    NeedsDefined(c, d);
  }

  lemma NotWelcome(c: Config, d: Sched, order: seq<nat>, k: nat)
    requires QueuesOk(d) && OrderOk(d, order) && k < |order|
    requires d.sys.reqs[order[k]].pending > 0 || |d.running| + k >= c.maxRunning
    ensures !Welcome(c, d, order, k)
  {
    hide QueuesOk, Entered, Sum, Uncomputed, StepNeeds, DecodeNeeds, Avail;
  }

  lemma WelcomeReads(c: Config, d: Sched, order: seq<nat>, i: nat)
    requires QueuesOk(d) && OrderOk(d, order) && i < |order| && Welcome(c, d, order, i)
    ensures order[i] in d.sys.reqs && d.sys.reqs[order[i]].pending == 0
  {
    hide QueuesOk, Entered, Sum, Uncomputed, StepNeeds, DecodeNeeds, Avail;
  }

  /** The loop from `order[k]` on. */
  lemma {:induction false} AdmitFrom(c: Config, d: Sched, order: seq<nat>, k: nat, now: Sched, budget: int, reserved: int) returns (n: nat)
    requires Good(c, d) && QueuesOk(d) && OrderOk(d, order) && k <= |order| && OrderOk(d, order[..k])
    requires forall i :: 0 <= i < k ==> Welcome(c, d, order, i)
    requires now == Entered(d, order[..k]) && OrderOk(now, order[k..])
    requires now.sys.bs > 0 && forall r :: r in order[..k] ==> r in now.sys.reqs
    requires budget == c.maxPrefill - Uncomputed(now.sys.reqs, order[..k]) && reserved == Sum(StepNeeds(c, now.sys), order[..k])
    ensures k <= n <= |order| && OrderOk(d, order[..n])
    ensures AdmitLoop(c, now, order[k..], |d.running|, budget, reserved) == Entered(d, order[..n])
    ensures forall i :: 0 <= i < n ==> Welcome(c, d, order, i)
    ensures n < |order| ==> !Welcome(c, d, order, n)
    decreases |order| - k
  {
    hide Good, QueuesOk, Take, Entered, PrefillNeed, Fits, Sum, Uncomputed, StepNeeds, Welcome, NowOf, Uncached, OrderOk;
    n := k;
    if k < |order| {
      forall i | 0 <= i < k ensures order[i] in d.sys.reqs && d.sys.reqs[order[i]].pending == 0 { WelcomeReads(c, d, order, i); }
      LetInSoFar(c, d, order, k);
      NowFacts(c, d, now, order, k);
      if |d.running| + k >= c.maxRunning || d.sys.reqs[order[k]].pending > 0 {
        NotWelcome(c, d, order, k);
      } else {
        EnteredMore(d, order, k);
        FitsIsWelcome(c, d, order, k, now);
        if Welcome(c, d, order, k) {
          CountersMove(c, d, now, order, k);
          assert order[k..][1..] == order[k + 1..];
          var q := Take(now, order[k]).sys.reqs[order[k]];
          OrderTail(now, order[k..]);
          n := AdmitFrom(c, d, order, k + 1, Take(now, order[k]), budget - Uncached(q), reserved + PrefillNeed(now.sys.bs, q));
        }
      }
    }
  }

  lemma NowFacts(c: Config, d: Sched, now: Sched, order: seq<nat>, k: nat)
    requires NowOf(c, d, now, order, k) && now.running == d.running + order[..k]
    ensures |now.running| == |d.running| + k && order[k..][0] == order[k] && QueuesOk(now)
    ensures order[k] in d.sys.reqs && order[k] in now.sys.reqs && now.sys.reqs[order[k]] == d.sys.reqs[order[k]]
    ensures forall r :: r in order[..k] ==> r in now.running
  {
    hide Good, QueuesOk;
  }

  /** The requests that a call lets in are exactly the first of the policy's order up to the first that
      is not welcome. */
  ghost predicate LetIn(c: Config, d: Sched, order: seq<nat>, n: nat)
    requires QueuesOk(d) && OrderOk(d, order)
  {
    && n <= |order| && (forall i :: 0 <= i < n ==> Welcome(c, d, order, i))
    && (n < |order| ==> !Welcome(c, d, order, n))
  }

  /** Whole prefills: admission lets in exactly that many, and so stops only for one of the reasons a
      request can be unwelcome. */
  lemma AdmissionExactly(c: Config, d: Sched, order: seq<nat>) returns (n: nat)
    requires Good(c, d) && QueuesOk(d) && OrderOk(d, order)
    ensures LetIn(c, d, order, n) && OrderOk(d, order[..n])
    ensures AdmitLoop(c, d, order, |d.running|, c.maxPrefill, 0) == Entered(d, order[..n])
  {
    hide Good, QueuesOk, Welcome, Take, Entered;
    NoneEntered(d, order);
    NeedsDefined(c, d);
    assert Uncomputed(d.sys.reqs, []) == 0 && Sum(StepNeeds(c, d.sys), []) == 0;
    n := AdmitFrom(c, d, order, 0, d, c.maxPrefill, 0);
  }

  /** What was let in is within the budgets: more than one request only with at most `maxPrefill`
      tokens to compute, and never more running than allowed. */
  lemma WithinBudgets(c: Config, d: Sched, order: seq<nat>, n: nat)
    requires QueuesOk(d) && OrderOk(d, order) && LetIn(c, d, order, n) && OrderOk(d, order[..n])
    ensures forall r :: r in order[..n] ==> r in Entered(d, order[..n]).sys.reqs
    ensures n <= 1 || Uncomputed(Entered(d, order[..n]).sys.reqs, order[..n]) <= c.maxPrefill
    ensures n > 0 ==> |Entered(d, order[..n]).running| <= c.maxRunning
  {
    hide QueuesOk, Entered, Uncomputed, Sum, StepNeeds, DecodeNeeds, Avail;
    NeedsDefined(c, Entered(d, order[..n]));
    if n > 0 { assert Welcome(c, d, order, n - 1); }
  }

  // ------------------------------------------------------------ making room

  /** The pool is short of what the running requests still need. */
  ghost predicate Short(c: Config, d: Sched)
    requires QueuesOk(d)
  {
    NeedsDefined(c, d);
    Sum(StepNeeds(c, d.sys), d.running) > Avail(d.sys.kv)
  }

  /** The newest request that has nothing left to compute, if there is one; otherwise the policy's
      choice among all but the earliest. */
  ghost predicate IsVictim(p: Policy, d: Sched, v: nat)
    requires QueuesOk(d)
  {
    NeedsKnown(d);
    v in d.running &&
    if exists r :: r in d.running && Spent(d.sys.reqs[r]) then
      exists j :: 0 <= j < |d.running| && d.running[j] == v && Spent(d.sys.reqs[v])
        && forall i :: j < i < |d.running| ==> !Spent(d.sys.reqs[d.running[i]])
    else
      |d.running| > 1 && v == p.pick(d.running[1..], d.sys.reqs)
  }

  function Backwards(s: seq<nat>): seq<nat> {
    if s == [] then [] else Backwards(s[1..]) + [s[0]]
  }

  /** The requests of `vs` were preempted, in this order. */
  ghost function Ousted(d: Sched, vs: seq<nat>): (d': Sched)
    requires QueuesOk(d)
    ensures QueuesOk(d')
    decreases |vs|
  {
    if vs == [] || vs[0] !in d.running then d else Ousted(Preempt1(d, vs[0]), vs[1..])
  }

  /** From `d` to `d'` the requests of `vs` were preempted, each while the pool was short, and each
      the one to go; now it is not short. They wait in front, the last one first. */
  ghost predicate RoomMade(c: Config, p: Policy, d: Sched, d': Sched, vs: seq<nat>)
    requires QueuesOk(d)
  {
    && d' == Ousted(d, vs) && !Short(c, d') && d'.waiting == Backwards(vs) + d.waiting
    && forall i :: 0 <= i < |vs| ==>
         Short(c, Ousted(d, vs[..i])) && IsVictim(p, Ousted(d, vs[..i]), vs[i])
  }

  lemma VictimIs(p: Policy, d: Sched)
    requires PolicyOk(p) && QueuesOk(d) && Victim(p, d, d.running).Some?
    ensures IsVictim(p, d, Victim(p, d, d.running).value)
  {
    hide PolicyOk, Only;
    NeedsKnown(d);
    SpentOnes(d);
    if Only(d.running, SpentSet(d.sys.reqs)) == [] {
      DistinctRunning(d);
      NotFirstIsTail(d.running);
    } else {
      var j := LastKept(d.running, SpentSet(d.sys.reqs));
    }
  }

  lemma SpentOnes(d: Sched)
    requires QueuesOk(d)
    ensures forall r :: r in d.running ==> r in d.sys.reqs
    ensures (exists r :: r in d.running && Spent(d.sys.reqs[r])) <==> Only(d.running, SpentSet(d.sys.reqs)) != []
  {
    hide QueuesOk;
    NeedsKnown(d);
    var spent := Only(d.running, SpentSet(d.sys.reqs));
    if spent != [] { assert spent[0] in spent; }
  }

  /** The last member that a filter keeps. */
  lemma {:induction false} LastKept(s: seq<nat>, keep: set<nat>) returns (j: nat)
    requires Only(s, keep) != []
    ensures j < |s| && s[j] == Only(s, keep)[|Only(s, keep)| - 1]
    ensures forall i :: j < i < |s| ==> s[i] !in keep
  {
    if Only(s[1..], keep) == [] {
      j := 0;
      forall i | 0 < i < |s| ensures s[i] !in keep {
        assert s[i] in s[1..];
        assert s[i] !in Only(s[1..], keep);
      }
    } else {
      j := LastKept(s[1..], keep);
      j := j + 1;
    }
  }

  lemma OustedStep(d: Sched, v: nat, vs: seq<nat>, i: nat)
    requires QueuesOk(d) && v in d.running && 0 < i <= |vs| + 1
    ensures Ousted(d, ([v] + vs)[..i]) == Ousted(Preempt1(d, v), vs[..i - 1])
  {
    hide QueuesOk, Preempt1;
    assert ([v] + vs)[..i][1..] == vs[..i - 1];
  }

  lemma {:induction false} RoomExactly(c: Config, p: Policy, d: Sched, preempted: seq<nat>) returns (vs: seq<nat>)
    requires PolicyOk(p) && QueuesOk(d) && MakeRoomChunked(c, p, d, preempted).Room?
    ensures var m := MakeRoomChunked(c, p, d, preempted);
      m.preempted == preempted + vs && RoomMade(c, p, d, m.d, vs)
    decreases |d.running|
  {
    hide PolicyOk, QueuesOk, Victim, IsVictim, Preempt1, Sum, Avail, RoomMade;
    NeedsDefined(c, d);
    if Sum(StepNeeds(c, d.sys), d.running) <= Avail(d.sys.kv) {
      vs := [];
      assert preempted + [] == preempted;
      NoRoomNeeded(c, p, d);
    } else {
      var v := Victim(p, d, d.running).value;
      VictimIs(p, d);
      LessRunning(d, v);
      var rest := RoomExactly(c, p, Preempt1(d, v), preempted + [v]);
      vs := [v] + rest;
      assert preempted + [v] + rest == preempted + vs;
      OneMoreOusted(c, p, d, MakeRoomChunked(c, p, d, preempted).d, v, rest);
    }
  }

  lemma NoRoomNeeded(c: Config, p: Policy, d: Sched)
    requires QueuesOk(d) && !Short(c, d)
    ensures RoomMade(c, p, d, d, [])
  {
    hide QueuesOk, IsVictim, Short;
    assert Backwards([]) + d.waiting == d.waiting;
  }

  lemma OneMoreOusted(c: Config, p: Policy, d: Sched, d': Sched, v: nat, rest: seq<nat>)
    requires QueuesOk(d) && v in d.running && Short(c, d) && IsVictim(p, d, v) && RoomMade(c, p, Preempt1(d, v), d', rest)
    ensures RoomMade(c, p, d, d', [v] + rest)
  {
    hide QueuesOk, IsVictim, Short, Ousted;
    var vs := [v] + rest;
    NoneOusted(d);
    OustedStep(d, v, rest, |vs|);
    assert vs[..|vs|] == vs && rest[..|rest|] == rest;
    forall i | 0 <= i < |vs| ensures Short(c, Ousted(d, vs[..i])) && IsVictim(p, Ousted(d, vs[..i]), vs[i]) {
      if i == 0 { assert vs[..0] == []; } else { OustedStep(d, v, rest, i); }
    }
    assert vs[1..] == rest;
    assert Preempt1(d, v).waiting == [v] + d.waiting;
    assert Backwards(rest) + ([v] + d.waiting) == Backwards(vs) + d.waiting;
  }

  lemma NoneOusted(d: Sched)
    requires QueuesOk(d)
    ensures Ousted(d, []) == d
  {
  }

  // ------------------------------------------------------------ whole prefills first

  /** A row computes all that its request's lookup has not found. */
  ghost predicate WholeRow(s: Sys, w: Work) {
    w.rid in s.reqs && w.start == s.reqs[w.rid].numCached && w.start + w.n == SeqLen(s.reqs[w.rid])
  }

  /** A row computes the last token of its request. */
  ghost predicate LastToken(s: Sys, w: Work) {
    w.rid in s.reqs && w.n == 1 && w.start + 1 == SeqLen(s.reqs[w.rid])
  }

  /** The batch of a call that has let `rids` in. */
  ghost predicate PrefillsOf(c: Config, s: Sys, b: Batch, rids: seq<nat>) {
    && b.phase == PrefillOnly && b.preempted == [] && b.numDecode == 0
    && Rids(b.rows) == rids && (forall w :: w in b.rows ==> WholeRow(s, w))
    && (|b.rows| == 1 || Tokens1(b.rows) <= c.maxPrefill)
  }

  /** The batch of a call that has let nobody in: every decoding request that still runs. */
  ghost predicate DecodesOf(d: Sched, b: Option<Batch>, preempted: seq<nat>) {
    if DecodingOf(d) == [] then b.None?
    else
      && b.Some? && b.value.phase == DecodeOnly && b.value.preempted == preempted && b.value.numDecode == |b.value.rows|
      && Rids(b.value.rows) == DecodingOf(d) && forall w :: w in b.value.rows ==> LastToken(d.sys, w)
  }

  /** Without chunked prefill: if the next waiting request is welcome, it and those behind it are let
      in up to the first that is not, and the batch is their whole prefills. Otherwise room is made,
      one victim at a time while it is needed, and every decoding request that is left decodes. */
  lemma WholeSchedule(c: Config, p: Policy, d: Sched) returns (n: nat, vs: seq<nat>)
    requires PolicyOk(p) && Good(c, d) && QueuesOk(d) && c.chunk == 0 && NoPartial(d)
    ensures var order := p.order(d.waiting, d.sys);
      && OrderOk(d, order) && LetIn(c, d, order, n) && OrderOk(d, order[..n])
      && var r := Schedule(c, p, d);
      if r.Lone? then n == 0
      else if n > 0 then r.d == Entered(d, order[..n]) && r.batch.Some? && PrefillsOf(c, r.d.sys, r.batch.value, order[..n])
      else RoomMade(c, p, d, r.d, vs) && DecodesOf(r.d, r.batch, vs)
  {
    hide PolicyOk, Good, QueuesOk, LetIn, RoomMade, PrefillsOf, DecodesOf, NoPartial, Entered, AdmitLoop, MakeRoom, MakeRoomChunked;
    OrderWaits(p, d);
    var order := p.order(d.waiting, d.sys);
    n := AdmissionExactly(c, d, order);
    vs := [];
    WelcomeCount(c, d, order, n);
    var d1 := Entered(d, order[..n]);
    AddedTail(d.running, order[..n]);
    if n > 0 {
      PrefillsAre(c, d, order, n);
    } else {
      NoneEntered(d, order);
      WholeRoomIsChunked(c, p, d, []);
      if MakeRoomChunked(c, p, d, []).Room? {
        vs := RoomExactly(c, p, d, []);
        assert [] + vs == vs;
        var m := MakeRoom(c, p, d, DecodingOf(d), []);
        DecodesAre(m.d, vs);
      }
    }
  }

  lemma AddedTail(a: seq<nat>, b: seq<nat>)
    ensures (a + b)[|a|..] == b
  {
  }

  lemma WelcomeCount(c: Config, d: Sched, order: seq<nat>, n: nat)
    requires QueuesOk(d) && OrderOk(d, order) && LetIn(c, d, order, n)
    ensures n <= |order|
  {
    hide Welcome;
  }

  lemma DecodesAre(d: Sched, vs: seq<nat>)
    requires QueuesOk(d)
    ensures forall r :: r in DecodingOf(d) ==> r in d.sys.reqs
    ensures var rids := DecodingOf(d);
      DecodesOf(d, if rids == [] then None else Some(Batch(DecodeOnly, DecodeRows(d.sys.reqs, rids), vs, |rids|)), vs)
  {
    NeedsKnown(d);
    var rids := DecodingOf(d);
    var rows := DecodeRows(d.sys.reqs, rids);
    assert Rids(rows) == rids;
    forall w | w in rows ensures LastToken(d.sys, w) {
      var i :| 0 <= i < |rows| && rows[i] == w;
      assert rids[i] in rids;
    }
  }

  lemma PrefillsAre(c: Config, d: Sched, order: seq<nat>, n: nat)
    requires QueuesOk(d) && OrderOk(d, order) && n > 0 && LetIn(c, d, order, n) && OrderOk(d, order[..n])
    ensures forall r :: r in order[..n] ==> r in Entered(d, order[..n]).sys.reqs
    ensures var s := Entered(d, order[..n]).sys;
      PrefillsOf(c, s, Batch(PrefillOnly, PrefillRows(s.reqs, order[..n]), [], 0), order[..n])
  {
    hide QueuesOk, Entered, LetIn;
    WelcomeCount(c, d, order, n);
    WithinBudgets(c, d, order, n);
    var (s, rids) := (Entered(d, order[..n]).sys, order[..n]);
    UncomputedIs(s.reqs, rids);
    PrefillRowsAre(s, rids);
  }

  lemma PrefillRowsAre(s: Sys, rids: seq<nat>)
    requires forall r :: r in rids ==> r in s.reqs
    ensures var rows := PrefillRows(s.reqs, rids); Rids(rows) == rids && forall w :: w in rows ==> WholeRow(s, w)
  {
    var rows := PrefillRows(s.reqs, rids);
    assert Rids(rows) == rids;
    forall w | w in rows ensures WholeRow(s, w) {
      var i :| 0 <= i < |rows| && rows[i] == w;
      assert rids[i] in rids;
    }
  }

  lemma {:induction false} UncomputedIs(reqs: map<nat, Req>, rids: seq<nat>)
    requires forall r :: r in rids ==> r in reqs
    ensures Tokens1(PrefillRows(reqs, rids)) == Uncomputed(reqs, rids)
  {
    if rids != [] {
      var (init, last) := (rids[..|rids| - 1], rids[|rids| - 1]);
      UncomputedIs(reqs, init);
      assert PrefillRows(reqs, rids) == PrefillRows(reqs, init) + PrefillRows(reqs, [last]);
      Tokens1Append(PrefillRows(reqs, init), PrefillRows(reqs, [last]));
      assert PrefillRows(reqs, [last])[1..] == [];
    }
  }

  /** Whole prefills that run together have no more tokens to compute than the budget allows. */
  lemma PrefillBudget(c: Config, p: Policy, d: Sched)
    requires PolicyOk(p) && Good(c, d) && QueuesOk(d) && c.chunk == 0
    ensures var r := Schedule(c, p, d);
      r.Plan? && r.batch.Some? && r.batch.value.phase == PrefillOnly ==>
        |r.batch.value.rows| == 1 || Tokens1(r.batch.value.rows) <= c.maxPrefill
  {
    hide PolicyOk, Good, QueuesOk, LetIn, Entered, AdmitLoop, MakeRoom;
    OrderWaits(p, d);
    var order := p.order(d.waiting, d.sys);
    var n := AdmissionExactly(c, d, order);
    WelcomeCount(c, d, order, n);
    AddedTail(d.running, order[..n]);
    if n > 0 { PrefillsAre(c, d, order, n); }
  }

  // ------------------------------------------------------------ pieces of prefills

  function Lesser(a: int, b: int): int {
    if a <= b then a else b
  }

  /** Each request of `rids` has one row, from where its table ends, with all it still has to compute
      or what the rows before it have left of the budget; and they have left some. */
  ghost predicate Pieces(reqs: map<nat, Req>, rids: seq<nat>, rows: seq<Work>, budget: int) {
    && |rows| == |rids|
    && forall i :: 0 <= i < |rids| ==>
         && rids[i] in reqs && reqs[rids[i]].table.Some? && Tokens1(rows[..i]) < budget
         && var (q, t) := (reqs[rids[i]], reqs[rids[i]].table.value.numTokens);
         rows[i] == Work(rids[i], t, Lesser(SeqLen(q) - t, budget - Tokens1(rows[..i])))
  }

  lemma NoPieces(reqs: map<nat, Req>, budget: int)
    ensures Pieces(reqs, [], [], budget)
  {
  }

  lemma PiecesMore(reqs: map<nat, Req>, reqs': map<nat, Req>, rids: seq<nat>, rows: seq<Work>, budget: int, r: nat)
    requires Pieces(reqs, rids, rows, budget) && Tokens1(rows) < budget && r in reqs' && reqs'[r].table.Some?
    requires forall x :: x in rids ==> x in reqs' && (x in reqs ==> reqs'[x] == reqs[x])
    ensures var (q, n) := (reqs'[r], Piece(reqs'[r], budget - Tokens1(rows)));
      && Pieces(reqs', rids + [r], rows + [Work(r, q.table.value.numTokens, n)], budget)
      && Tokens1(rows + [Work(r, q.table.value.numTokens, n)]) == Tokens1(rows) + n
  {
    hide Tokens1;
    var w := Work(r, reqs'[r].table.value.numTokens, Piece(reqs'[r], budget - Tokens1(rows)));
    var (rids', rows') := (rids + [r], rows + [w]);
    Tokens1Append(rows, [w]);
    OneToken1(w);
    forall i | 0 <= i < |rids'| ensures rows'[..i] == rows[..i] && rids'[i] in reqs' && reqs'[rids'[i]].table.Some?
      && (i < |rids| ==> rids[i] in rids && reqs'[rids'[i]] == reqs[rids[i]]) {
      if i < |rids| { assert rids[i] in rids; }
    }
    assert rows[..|rows|] == rows;
  }

  lemma OneToken1(w: Work)
    ensures Tokens1([w]) == w.n
  {
    assert [w][1..] == [];
  }

  /** What has to hold for `order[i]` to be let in after `order[..i]` while the step has tokens left:
      it waits for no read-back, fewer than the allowed number run, and the pool has the blocks for
      what all of them still need. */
  ghost predicate FitsBehind(c: Config, d: Sched, order: seq<nat>, i: nat)
    requires QueuesOk(d) && OrderOk(d, order) && i < |order|
  {
    OrderFirst(d, order, i + 1);
    && d.sys.reqs[order[i]].pending == 0
    && |d.running| + i < c.maxRunning
    && !Short(c, Entered(d, order[..i + 1]))
  }

  lemma FitsBehindIs(c: Config, d: Sched, order: seq<nat>, k: nat, now: Sched)
    requires Good(c, d) && QueuesOk(d) && OrderOk(d, order) && k < |order| && OrderOk(d, order[..k + 1])
    requires NowOf(c, d, now, order, k) && Entered(d, order[..k + 1]) == Take(now, order[k])
    requires now.sys.reqs[order[k]].pending == 0 && |d.running| + k < c.maxRunning
    ensures FitsChunked(c, now, order[k]) <==> FitsBehind(c, d, order, k)
  {
    hide Good, QueuesOk, Take, Entered, PrefillNeed, Sum, StepNeeds, Avail, DecodeNeeds;
    NeedsKnownGood(c, now);
    TakeGood(c, now, order[k]);
    TakeSums(c, now, order[k], now.running);
  }

  lemma FitsNotBehind(c: Config, d: Sched, order: seq<nat>, k: nat)
    requires QueuesOk(d) && OrderOk(d, order) && k < |order|
    requires d.sys.reqs[order[k]].pending > 0 || |d.running| + k >= c.maxRunning
    ensures !FitsBehind(c, d, order, k)
  {
    hide QueuesOk, Entered, Short;
  }

  lemma FitsBehindReads(c: Config, d: Sched, order: seq<nat>, i: nat)
    requires QueuesOk(d) && OrderOk(d, order) && i < |order| && FitsBehind(c, d, order, i)
    ensures order[i] in d.sys.reqs && d.sys.reqs[order[i]].pending == 0
  {
    hide QueuesOk, Entered, Short;
  }

  /** The loop from `order[k]` on, with rows `news` for those before it. */
  lemma {:induction false} AdmitPiecesFrom(c: Config, d: Sched, order: seq<nat>, k: nat, now: Sched, rows: seq<Work>, news: seq<Work>, budget: int)
    returns (n: nat, more: seq<Work>)
    requires Good(c, d) && QueuesOk(d) && OrderOk(d, order) && k <= |order| && OrderOk(d, order[..k])
    requires forall i :: 0 <= i < k ==> FitsBehind(c, d, order, i)
    requires now == Entered(d, order[..k]) && OrderOk(now, order[k..]) && Pieces(now.sys.reqs, order[..k], news, budget)
    ensures k <= n <= |order| && OrderOk(d, order[..n]) && Pieces(Entered(d, order[..n]).sys.reqs, order[..n], more, budget)
    ensures AdmitChunked(c, now, order[k..], rows + news, budget - Tokens1(news)) == Chunked(Entered(d, order[..n]), rows + more)
    ensures forall i :: 0 <= i < n ==> FitsBehind(c, d, order, i)
    ensures n < |order| ==> Tokens1(more) >= budget || !FitsBehind(c, d, order, n)
    decreases |order| - k
  {
    hide Good, QueuesOk, Take, Entered, FitsChunked, FitsBehind, NowOf, OrderOk, Pieces, Tokens1;
    n, more := k, news;
    if k < |order| && Tokens1(news) < budget {
      forall i | 0 <= i < k ensures order[i] in d.sys.reqs && d.sys.reqs[order[i]].pending == 0 { FitsBehindReads(c, d, order, i); }
      LetInSoFar(c, d, order, k);
      NowFacts(c, d, now, order, k);
      if |d.running| + k >= c.maxRunning || d.sys.reqs[order[k]].pending > 0 {
        FitsNotBehind(c, d, order, k);
      } else {
        EnteredMore(d, order, k);
        FitsBehindIs(c, d, order, k, now);
        if FitsBehind(c, d, order, k) {
          NewPiece(c, d, now, order, k, news, budget);
          assert order[k..][1..] == order[k + 1..];
          var q := Take(now, order[k]).sys.reqs[order[k]];
          var w := Work(order[k], q.numCached, Piece(q, budget - Tokens1(news)));
          assert rows + news + [w] == rows + (news + [w]);
          OrderTail(now, order[k..]);
          n, more := AdmitPiecesFrom(c, d, order, k + 1, Take(now, order[k]), rows, news + [w], budget);
        }
      }
    }
  }

  lemma NewPiece(c: Config, d: Sched, now: Sched, order: seq<nat>, k: nat, news: seq<Work>, budget: int)
    requires NowOf(c, d, now, order, k) && now.sys.reqs[order[k]].pending == 0
    requires Pieces(now.sys.reqs, order[..k], news, budget) && Tokens1(news) < budget
    ensures QueuesOk(now) && order[k] in Take(now, order[k]).sys.reqs && Take(now, order[k]).sys.reqs[order[k]].table.Some?
    ensures var q := Take(now, order[k]).sys.reqs[order[k]];
      var w := Work(order[k], q.numCached, Piece(q, budget - Tokens1(news)));
      && Pieces(Take(now, order[k]).sys.reqs, order[..k + 1], news + [w], budget)
      && Tokens1(news + [w]) == Tokens1(news) + w.n
  {
    hide Good, QueuesOk, Take, Pieces, Tokens1;
    TakeGood(c, now, order[k]);
    assert order[..k + 1] == order[..k] + [order[k]];
    PiecesMore(now.sys.reqs, Take(now, order[k]).sys.reqs, order[..k], news, budget, order[k]);
  }

  // ------------------------------------------------------------ decodes first

  ghost function MidSet(reqs: map<nat, Req>): set<nat> {
    set r | r in reqs && MidPrefill(reqs[r])
  }

  /** The running requests that are part-way through their prefill, in admission order. */
  ghost function PrefillingOf(d: Sched): seq<nat> {
    Only(d.running, MidSet(d.sys.reqs))
  }

  lemma PiecesFirst(reqs: map<nat, Req>, rids: seq<nat>, rows: seq<Work>, budget: int, r: nat)
    requires r in reqs && reqs[r].table.Some? && budget > 0
    requires Pieces(reqs, rids, rows, budget - Piece(reqs[r], budget))
    ensures var w := Work(r, reqs[r].table.value.numTokens, Piece(reqs[r], budget));
      Pieces(reqs, [r] + rids, [w] + rows, budget) && Tokens1([w] + rows) == w.n + Tokens1(rows)
  {
    hide Tokens1;
    var w := Work(r, reqs[r].table.value.numTokens, Piece(reqs[r], budget));
    var (rids', rows') := ([r] + rids, [w] + rows);
    OneToken1(w);
    Tokens1Append([w], rows);
    NoTokens();
    forall i | 0 <= i < |rids'|
      ensures Tokens1(rows'[..i]) == if i == 0 then 0 else w.n + Tokens1(rows[..i - 1])
    {
      if i == 0 {
        assert rows'[..0] == [];
      } else {
        assert rows'[..i] == [w] + rows[..i - 1];
        Tokens1Append([w], rows[..i - 1]);
      }
    }
  }

  lemma NoTokens()
    ensures Tokens1([]) == 0
  {
  }

  lemma OnlyHead(s: seq<nat>, keep: set<nat>)
    requires s != []
    ensures Only(s, keep) == if s[0] in keep then [s[0]] + Only(s[1..], keep) else Only(s[1..], keep)
  {
  }

  /** Prefills go on in order while there is budget. */
  lemma {:induction false} ContinuePieces(reqs: map<nat, Req>, rids: seq<nat>, keep: set<nat>, budget: int) returns (m: nat)
    requires forall r :: r in rids ==> r in reqs && (r in keep <==> MidPrefill(reqs[r]))
    ensures m <= |Only(rids, keep)|
    ensures Pieces(reqs, Only(rids, keep)[..m], ContinueRows(reqs, rids, budget), budget)
    ensures m < |Only(rids, keep)| ==> Tokens1(ContinueRows(reqs, rids, budget)) >= budget
  {
    hide Pieces, Tokens1, Piece, Only;
    m := 0;
    NoPieces(reqs, budget);
    NoTokens();
    assert Only(rids, keep)[..0] == [];
    if rids != [] {
      var mids := Only(rids[1..], keep);
      OnlyHead(rids, keep);
      var q := reqs[rids[0]];
      if MidPrefill(q) && budget > 0 {
        var k := ContinuePieces(reqs, rids[1..], keep, budget - Piece(q, budget));
        PiecesFirst(reqs, mids[..k], ContinueRows(reqs, rids[1..], budget - Piece(q, budget)), budget, rids[0]);
        m := k + 1;
        assert Only(rids, keep)[..m] == [rids[0]] + mids[..k];
      } else {
        m := ContinuePieces(reqs, rids[1..], keep, budget);
        if MidPrefill(q) {
          NoBudget(reqs, mids[..m], ContinueRows(reqs, rids[1..], budget), budget);
          m := 0;
        } else {
          assert Only(rids, keep)[..m] == mids[..m];
        }
      }
    }
  }

  lemma NoBudget(reqs: map<nat, Req>, rids: seq<nat>, rows: seq<Work>, budget: int)
    requires Pieces(reqs, rids, rows, budget) && budget <= 0
    ensures rids == [] && rows == [] && Tokens1(rows) == 0
  {
    if rids != [] { SomeBudget(reqs, rids, rows, budget); }
  }

  lemma SomeBudget(reqs: map<nat, Req>, rids: seq<nat>, rows: seq<Work>, budget: int)
    requires Pieces(reqs, rids, rows, budget) && rids != []
    ensures budget > 0
  {
    assert rows[..0] == [] && Tokens1(rows[..0]) < budget;
  }

  /** The rows of a step: one token of every decoding request, then prefills that go on, then those of
      the newcomers `order[..n]`; no one is left out while there are tokens. */
  ghost predicate RowsInTurn(c: Config, d: Sched, d': Sched, order: seq<nat>, n: nat, decodes: seq<Work>, conts: seq<Work>, news: seq<Work>)
    requires QueuesOk(d) && OrderOk(d, order)
  {
    var left := c.chunk - |decodes|;
    var prefills := PrefillingOf(d);
    && Rids(decodes) == DecodingOf(d) && (forall w :: w in decodes ==> LastToken(d.sys, w))
    && |conts| <= |prefills| && Pieces(d.sys.reqs, prefills[..|conts|], conts, left)
    && (|conts| < |prefills| ==> Tokens1(conts) >= left)
    && n <= |order| && OrderOk(d, order[..n]) && d' == Entered(d, order[..n])
    && Pieces(d'.sys.reqs, order[..n], news, left - Tokens1(conts))
    && (forall i :: 0 <= i < n ==> FitsBehind(c, d, order, i))
    && (n < |order| ==> Tokens1(news) >= left - Tokens1(conts) || !FitsBehind(c, d, order, n))
  }

  /** With chunked prefill: room is made, one victim at a time while it is needed; then every decoding
      request has its token, and what is left of the step's tokens goes to prefills part-way, in
      admission order, and then to newcomers in the policy's order, up to the first that does not fit. */
  lemma ChunkedSchedule(c: Config, p: Policy, d: Sched)
    returns (vs: seq<nat>, n: nat, decodes: seq<Work>, conts: seq<Work>, news: seq<Work>)
    requires PolicyOk(p) && Good(c, d) && QueuesOk(d) && c.chunk > 0
    ensures var r := Schedule(c, p, d);
      r.Plan? ==>
        var d1 := Ousted(d, vs);
        var order := p.order(d1.waiting, d1.sys);
        && RoomMade(c, p, d, d1, vs) && OrderOk(d1, order) && RowsInTurn(c, d1, r.d, order, n, decodes, conts, news)
        && (r.batch.None? <==> decodes + conts + news == [])
        && (r.batch.Some? ==> var b := r.batch.value;
              && b.rows == decodes + conts + news && b.preempted == vs && b.numDecode == |decodes|
              && (b.phase == DecodeOnly <==> conts + news == []) && (b.phase == PrefillOnly <==> decodes == []))
  {
    hide PolicyOk, Good, QueuesOk, RoomMade, RowsInTurn, MakeRoomChunked, AdmitRest;
    vs, n, decodes, conts, news := [], 0, [], [], [];
    var m := MakeRoomChunked(c, p, d, []);
    if m.Room? {
      vs := RoomExactly(c, p, d, []);
      assert [] + vs == vs;
      RoomIs(c, p, d, m.d, vs);
      MakeRoomChunkedGood(c, p, d, []);
      OrderWaits(p, m.d);
      n, decodes, conts, news := RestInTurn(c, p, m.d);
    }
  }

  lemma RoomIs(c: Config, p: Policy, d: Sched, d': Sched, vs: seq<nat>)
    requires QueuesOk(d) && RoomMade(c, p, d, d', vs)
    ensures d' == Ousted(d, vs)
  {
    hide QueuesOk, Short, IsVictim, Ousted;
  }

  lemma RestInTurn(c: Config, p: Policy, d: Sched)
    returns (n: nat, decodes: seq<Work>, conts: seq<Work>, news: seq<Work>)
    requires PolicyOk(p) && Good(c, d) && QueuesOk(d) && OrderOk(d, p.order(d.waiting, d.sys))
    ensures RowsInTurn(c, d, AdmitRest(c, p, d).d, p.order(d.waiting, d.sys), n, decodes, conts, news)
    ensures AdmitRest(c, p, d).rows == decodes + conts + news && |decodes| == |DecodingOf(d)|
  {
    hide PolicyOk, Good, QueuesOk, OrderOk, Pieces, Entered, AdmitChunked, ContinueRows, FitsBehind, LastToken, Tokens1, Only;
    NeedsKnown(d);
    var order := p.order(d.waiting, d.sys);
    decodes := DecodeRows(d.sys.reqs, DecodingOf(d));
    conts := ContinueRows(d.sys.reqs, d.running, c.chunk - |decodes|);
    DecodesInTurn(d);
    DecodeTokens(d.sys.reqs, DecodingOf(d));
    Tokens1Append(decodes, conts);
    var k := ContinuePieces(d.sys.reqs, d.running, MidSet(d.sys.reqs), c.chunk - |decodes|);
    PiecesCount(d.sys.reqs, PrefillingOf(d)[..k], conts, c.chunk - |decodes|);
    var budget := c.chunk - Tokens1(decodes + conts);
    NoneEntered(d, order);
    NoPieces(d.sys.reqs, budget);
    NoTokens();
    assert decodes + conts + [] == decodes + conts;
    if budget > 0 {
      n, news := AdmitPiecesFrom(c, d, order, 0, d, decodes + conts, [], budget);
    } else {
      n, news := 0, [];
    }
  }

  lemma PiecesCount(reqs: map<nat, Req>, rids: seq<nat>, rows: seq<Work>, budget: int)
    requires Pieces(reqs, rids, rows, budget)
    ensures |rows| == |rids|
  {
  }

  lemma DecodesInTurn(d: Sched)
    requires QueuesOk(d)
    ensures forall r :: r in DecodingOf(d) ==> r in d.sys.reqs
    ensures var rows := DecodeRows(d.sys.reqs, DecodingOf(d)); Rids(rows) == DecodingOf(d) && forall w :: w in rows ==> LastToken(d.sys, w)
  {
    DecodesAre(d, []);
    assert DecodingOf(d) == [] ==> DecodeRows(d.sys.reqs, DecodingOf(d)) == [];
  }

  // ------------------------------------------------------------ how many run

  lemma {:induction false} OustedFewer(d: Sched, vs: seq<nat>)
    requires QueuesOk(d)
    ensures |Ousted(d, vs).running| <= |d.running|
    decreases |vs|
  {
    hide QueuesOk, Preempt1;
    if vs != [] && vs[0] in d.running {
      LessRunning(d, vs[0]);
      OustedFewer(Preempt1(d, vs[0]), vs[1..]);
    }
  }

  /** Never more requests run than allowed. */
  lemma RunningBound(c: Config, p: Policy, d: Sched)
    requires PolicyOk(p) && Good(c, d) && QueuesOk(d) && (c.chunk == 0 ==> NoPartial(d)) && |d.running| <= c.maxRunning
    ensures var r := Schedule(c, p, d); r.Plan? ==> |r.d.running| <= c.maxRunning
  {
    hide PolicyOk, Good, QueuesOk, NoPartial, Schedule, LetIn, PrefillsOf, DecodesOf;
    if c.chunk == 0 {
      var n, vs := WholeSchedule(c, p, d);
      OustedFewer(d, vs);
      var order := p.order(d.waiting, d.sys);
      WelcomeCount(c, d, order, n);
      if n > 0 { WithinBudgets(c, d, order, n); }
    } else {
      var vs, n, decodes, conts, news := ChunkedSchedule(c, p, d);
      OustedFewer(d, vs);
      if Schedule(c, p, d).Plan? {
        InTurnFew(c, Ousted(d, vs), Schedule(c, p, d).d, p.order(Ousted(d, vs).waiting, Ousted(d, vs).sys), n, decodes, conts, news);
      }
    }
  }

  lemma InTurnFew(c: Config, d: Sched, d': Sched, order: seq<nat>, n: nat, decodes: seq<Work>, conts: seq<Work>, news: seq<Work>)
    requires QueuesOk(d) && OrderOk(d, order) && RowsInTurn(c, d, d', order, n, decodes, conts, news) && |d.running| <= c.maxRunning
    ensures |d'.running| <= c.maxRunning
  {
    hide QueuesOk, Pieces, Short, LastToken, Entered;
    if n > 0 { assert FitsBehind(c, d, order, n - 1); }
  }

  // ------------------------------------------------------------ what a lookup finds, what a release keeps

  /** The blocks `h` starts with are those cached for the beginnings of `toks`. */
  ghost predicate StartsCached(cached: map<Prefix, nat>, toks: seq<int>, bs: nat, h: Hold)
    requires bs > 0
  {
    && h.path <= Chunks(toks, bs) && |h.blocks| == |h.path|
    && forall i :: 0 < i <= |h.path| ==> h.path[..i] in cached && h.blocks[i - 1] == cached[h.path[..i]]
  }

  /** An admitted request's table starts with cached blocks of its own tokens, and with as many as there
      are: no cached beginning of its sequence that leaves a token to compute is longer. */
  lemma LookupExactly(c: Config, d: Sched, r: nat, p: Prefix)
    requires Good(c, d) && QueuesOk(d) && r in d.waiting && d.sys.reqs[r].pending == 0
    ensures var d' := Take(d, r);
      && d.sys.bs > 0 && r in d'.sys.reqs && r in d'.sys.kv.held && d'.sys.kv.cached == d.sys.kv.cached
      && var (q, h) := (d'.sys.reqs[r], d'.sys.kv.held[r]);
      && q.table == Some(Table(h.blocks, q.numCached)) && q.numCached == |h.path| * d.sys.bs < SeqLen(q)
      && StartsCached(d.sys.kv.cached, Tokens(d.sys.reqs[r]), d.sys.bs, h)
      && (p in d.sys.kv.cached && p <= Chunks(Tokens(d.sys.reqs[r]), d.sys.bs) && |p| * d.sys.bs < SeqLen(d.sys.reqs[r]) ==>
            |p| <= |h.path|)
  {
    hide Good, Inv, QueuesOk, LongestOf, ReqOk, Chunks, Longest;
    GoodInv(c, d);
    NeedsKnown(d);
    var (q, bs, kv) := (d.sys.reqs[r], d.sys.bs, d.sys.kv);
    WaitingHere(d, r);
    var key := LookupKey(q, bs);
    ChunksPrefix(Tokens(q)[..SeqLen(q) - 1], Tokens(q), bs);
    LookupShort(q, LongestOf(kv.cached, key), bs);
    CachedWhole(d.sys);
    LongestIs(kv.cached, key, LongestOf(kv.cached, key));
    LongestBounds(kv.cached, key, p);
    if p <= Chunks(Tokens(q), bs) && |p| * bs < SeqLen(q) { ShortIsKey(q, p, bs); }
  }

  lemma WaitingHere(d: Sched, r: nat)
    requires QueuesOk(d) && r in d.waiting
    ensures r in d.sys.reqs && SeqLen(d.sys.reqs[r]) > 0
  {
  }

  lemma CachedWhole(s: Sys)
    requires Inv(s)
    ensures forall q :: q in s.kv.cached ==> Whole(s.kv.cached, q)
  {
  }

  lemma LongestBounds(cached: map<Prefix, nat>, key: Prefix, p: Prefix)
    requires Longest(cached, key, LongestOf(cached, key))
    ensures p in cached && p <= key ==> |p| <= |LongestOf(cached, key)|
  {
    hide LongestOf;
  }

  /** Whole blocks that leave a token over lie before the last token. */
  lemma ShortIsKey(q: Req, p: Prefix, bs: nat)
    requires bs > 0 && SeqLen(q) > 0 && p <= Chunks(Tokens(q), bs) && |p| * bs < SeqLen(q)
    ensures p <= LookupKey(q, bs)
  {
    var (toks, k) := (Tokens(q), |p|);
    var key := toks[..SeqLen(q) - 1];
    ChunksTake(toks, k, bs);
    ChunksTake(key, k, bs);
    assert key[..k * bs] == toks[..k * bs];
    assert p == Chunks(toks, bs)[..k];
  }

  /** Whoever gives up KV holds nothing afterwards, and with a prefix cache every whole block it had
      computed is cached then; nothing that was cached is lost. */
  lemma ReleaseCaches(s: Sys, r: nat, q: Req, p: Prefix)
    requires s.bs > 0 && q.table.Some? && MayRelease(s, r, q)
    ensures var kv' := Released(s, r, q);
      && kv'.held == s.kv.held - {r}
      && (p in kv'.cached <==> p in s.kv.cached || (s.radix && p != [] && p <= FullKey(q, s.bs)))
      && (p in s.kv.cached ==> kv'.cached[p] == s.kv.cached[p])
  {
    hide Chunks, Committable;
    if s.radix {
      CommitKey(s.kv, r, q.table.value, Tokens(q), s.bs);
      FullKeyIs(s.kv, r, q, s.bs);
      assert s.kv.held[r := Hold(s.kv.held[r].blocks, FullKey(q, s.bs))] - {r} == s.kv.held - {r};
    }
  }

  /** A preempted request finds what it has computed in the cache when it is admitted again. */
  lemma PreemptCaches(c: Config, d: Sched, r: nat, p: Prefix)
    requires Good(c, d) && QueuesOk(d) && r in d.running
    ensures r in d.sys.reqs && d.sys.reqs[r].table.Some? && d.sys.bs > 0
    ensures d.sys.radix && p != [] && p <= FullKey(d.sys.reqs[r], d.sys.bs) ==> p in Preempt1(d, r).sys.kv.cached
  {
    hide Good, Inv, QueuesOk, ReqOk, Released, MayRelease, FullKey, Resting;
    GoodInv(c, d);
    NeedsKnown(d);
    GoodReq(c, d, r);
    SettledHere(c, d, r);
    MayAlwaysRelease(d.sys, r);
    ReleaseCaches(d.sys, r, d.sys.reqs[r], p);
  }

  lemma SettledHere(c: Config, d: Sched, r: nat)
    requires r in d.sys.reqs && Resting(c, d.sys.kv.numBlocks, d.sys.bs, d.sys.reqs[r])
    ensures Settled(d.sys.reqs[r]) && d.sys.reqs[r].pending <= 1
  {
  }

  /** Whoever leaves has the last record it is given, holds nothing, and leaves what it has computed in
      the cache; the others are as they were. */
  lemma RetireCaches(s: Sys, r: nat, q: Req, end: State, p: Prefix)
    requires s.bs > 0 && q.table.Some? && MayRelease(s, r, q)
    ensures var s' := Retired(s, r, q, end);
      && s'.reqs == s.reqs - {r} && s'.kv.held == s.kv.held - {r}
      && s'.done == s.done[r := q.(table := None, written := 0, row := Idle, state := end)]
      && (p in s'.kv.cached <==> p in s.kv.cached || (s.radix && p != [] && p <= FullKey(q, s.bs)))
      && (p in s.kv.cached ==> s'.kv.cached[p] == s.kv.cached[p])
  {
    hide Released, FullKey, MayRelease;
    ReleaseCaches(s, r, q, p);
  }

  /** What a running request is counted for: `k` more blocks are enough for it exactly when they hold
      the next step's tokens of a decode, or the rest of a prefill and one token more. */
  lemma NeedExactly(c: Config, d: Sched, r: nat, k: nat)
    requires Good(c, d) && QueuesOk(d) && r in d.running
    ensures r in d.sys.reqs && d.sys.reqs[r].table.Some? && d.sys.bs > 0
    ensures var q := d.sys.reqs[r];
      var t := q.table.value;
      StepNeed(c.tps, d.sys.bs, q) <= k <==>
        (Decodes(q) ==> t.numTokens + c.tps <= (|t.blocks| + k) * d.sys.bs)
        && (q.state == PREFILL ==> SeqLen(q) + 1 <= (|t.blocks| + k) * d.sys.bs)
  {
    hide Good, Inv, QueuesOk, ReqOk, Resting, CeilDiv;
    NeedsKnown(d);
    GoodReq(c, d, r);
    var q := d.sys.reqs[r];
    var t := q.table.value;
    CeilBound(t.numTokens + c.tps, |t.blocks| + k, d.sys.bs);
    CeilBound(SeqLen(q) + 1, |t.blocks| + k, d.sys.bs);
  }

  // ------------------------------------------------------------ what a preemption leaves of a request

  /** The requests of `vs` run when their turn comes. */
  ghost predicate InTurn(d: Sched, vs: seq<nat>)
    requires QueuesOk(d)
    decreases |vs|
  {
    vs == [] || (vs[0] in d.running && InTurn(Preempt1(d, vs[0]), vs[1..]))
  }

  lemma {:induction false} RoomInTurn(c: Config, p: Policy, d: Sched, d': Sched, vs: seq<nat>)
    requires QueuesOk(d) && RoomMade(c, p, d, d', vs)
    ensures InTurn(d, vs)
    decreases |vs|
  {
    hide QueuesOk, Preempt1, Short, IsVictim;
    if vs != [] {
      var (v, rest) := (vs[0], vs[1..]);
      assert vs == [v] + rest && vs[..0] == [];
      NoneOusted(d);
      VictimRuns(p, d, v);
      var d1 := Preempt1(d, v);
      assert d1.waiting == [v] + d.waiting by { PreemptWaits(d, v); }
      assert Backwards(vs) + d.waiting == Backwards(rest) + d1.waiting;
      OustedStep(d, v, rest, |vs|);
      assert vs[..|vs|] == vs && rest[..|rest|] == rest;
      forall i | 0 <= i < |rest| ensures Short(c, Ousted(d1, rest[..i])) && IsVictim(p, Ousted(d1, rest[..i]), rest[i]) {
        OustedStep(d, v, rest, i + 1);
        assert vs[i + 1] == rest[i];
      }
      RoomInTurn(c, p, d1, d', rest);
    }
  }

  lemma VictimRuns(p: Policy, d: Sched, v: nat)
    requires QueuesOk(d) && IsVictim(p, d, v)
    ensures v in d.running
  {
  }

  lemma PreemptWaits(d: Sched, v: nat)
    requires QueuesOk(d) && v in d.running
    ensures Preempt1(d, v).waiting == [v] + d.waiting
  {
  }

  lemma {:induction false} NotAgain(d: Sched, vs: seq<nat>, r: nat)
    requires QueuesOk(d) && InTurn(d, vs) && r !in d.running
    ensures r !in vs
    decreases |vs|
  {
    hide QueuesOk;
    if vs != [] { NotAgain(Preempt1(d, vs[0]), vs[1..], r); }
  }

  /** A preempted request waits with its tokens and without KV, and was preempted once more; all others
      are as they were. */
  lemma {:induction false} OustedRecords(d: Sched, vs: seq<nat>, r: nat)
    requires QueuesOk(d) && InTurn(d, vs) && r in d.sys.reqs
    ensures r in Ousted(d, vs).sys.reqs
    ensures var (q, q') := (d.sys.reqs[r], Ousted(d, vs).sys.reqs[r]);
      q' == if r in vs then q.(state := WAITING, table := None, written := 0, row := Idle, preemptions := q.preemptions + 1) else q
    decreases |vs|
  {
    hide QueuesOk, Released;
    if vs != [] {
      var d1 := Preempt1(d, vs[0]);
      RemovedRuns(d, vs[0]);
      if r == vs[0] { NotAgain(d1, vs[1..], r); }
      OustedRecords(d1, vs[1..], r);
      assert vs == [vs[0]] + vs[1..];
    }
  }

  lemma RemovedRuns(d: Sched, v: nat)
    requires QueuesOk(d) && v in d.running
    ensures v !in Preempt1(d, v).running && QueuesOk(Preempt1(d, v)) && v in d.sys.reqs
  {
    RemoveDistinct(d.running, v);
  }
}

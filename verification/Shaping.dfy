/** What scheduling keeps from step to step beyond the pool: no more requests run than allowed, nothing
    is part-way without chunked prefill, at most the last admitted with it, and first come, first
    served keeps arrival order. */
module Shaping {
  import opened Common
  import opened BlockTables
  import opened KvState
  import opened KvCache
  import opened Device
  import opened Requests
  import opened Machine
  import opened MachineInv
  import opened MachineSteps
  import opened MachineTheorems
  import opened Scheduling
  import opened ScheduleSafe
  import opened ScheduleRoom
  import opened ScheduleOrder
  import opened Admissions
  import opened Policies
  import opened Launching
  import opened ReadingBack

  predicate Increasing(s: seq<nat>) {
    forall i, j :: 0 <= i < j < |s| ==> s[i] < s[j]
  }

  /** The shape of the queues at a step boundary. Request ids grow with arrival. */
  ghost predicate Shaped(c: Config, name: PolicyName, d: Sched) {
    && |d.running| <= c.maxRunning
    && (c.chunk == 0 ==> NoPartial(d))
    && (c.chunk > 0 ==> ChunkOk(c, d))
    && (name == Fcfs ==> Increasing(Line(d)))
  }

  /** The same right after `schedule`, with the rows about to run. */
  ghost predicate Planned(c: Config, name: PolicyName, d: Sched, rows: seq<Work>) {
    && |d.running| <= c.maxRunning
    && (c.chunk == 0 ==> forall r :: r in d.running && r in d.sys.reqs && d.sys.reqs[r].state != DECODE ==> RowEnds(d.sys.reqs, rows, r))
    && (c.chunk > 0 ==> StepOk(c, d, rows))
    && (name == Fcfs ==> Increasing(Line(d)))
  }

  // ------------------------------------------------------------ schedule

  /** Without chunks, the requests admitted in this step are the ones its batch prefills to the end. */
  lemma WholeEnds(c: Config, p: Policy, d: Sched)
    requires PolicyOk(p) && Good(c, d) && QueuesOk(d) && c.chunk == 0 && NoPartial(d)
    ensures var r := Schedule(c, p, d);
      r.Plan? ==> forall x :: x in r.d.running && x in r.d.sys.reqs && r.d.sys.reqs[x].state != DECODE ==>
        r.batch.Some? && RowEnds(r.d.sys.reqs, r.batch.value.rows, x)
  {
    hide Good, PolicyOk, MakeRoom, MakeRoomChunked, AdmitLoop, QueuesOk;
    WholeRoomIsChunked(c, p, d, []);
    var order := p.order(d.waiting, d.sys);
    OrderWaits(p, d);
    var k := AdmitLoopTakes(c, d, order, |d.running|, c.maxPrefill, 0);
    var d1 := AdmitLoop(c, d, order, |d.running|, c.maxPrefill, 0);
    var admitted := d1.running[|d.running|..];
    if admitted == [] {
      NoneAdmitted(c, d, order, |d.running|, c.maxPrefill, 0);
    } else {
      assert admitted == order[..k];
      NeedsDefined(c, d);
      AdmittedEnd(d, d1, order, k);
    }
  }

  lemma AdmittedEnd(d: Sched, d1: Sched, order: seq<nat>, k: nat)
    requires TookFirst(d, d1, order, k) && NoPartial(d) && (forall r :: r in d.running ==> r in d.sys.reqs)
    requires OrderOk(d, order) && QueuesOk(d)
    ensures forall r :: r in order[..k] ==> r in d1.sys.reqs
    ensures forall x :: x in d1.running && x in d1.sys.reqs && d1.sys.reqs[x].state != DECODE ==>
      RowEnds(d1.sys.reqs, PrefillRows(d1.sys.reqs, order[..k]), x)
  {
    var rows := PrefillRows(d1.sys.reqs, order[..k]);
    forall x | x in d1.running && x in d1.sys.reqs && d1.sys.reqs[x].state != DECODE ensures RowEnds(d1.sys.reqs, rows, x) {
      var i :| 0 <= i < k && order[..k][i] == x;
      assert rows[i] in rows;
    }
  }

  lemma PlannedShape(c: Config, name: PolicyName, d: Sched)
    requires Good(c, d) && QueuesOk(d) && Shaped(c, name, d) && PolicyOk(PolicyOf(name))
    ensures var r := Schedule(c, PolicyOf(name), d);
      r.Plan? ==> Planned(c, name, r.d, if r.batch.Some? then r.batch.value.rows else [])
  {
    hide Good, PolicyOk, QueuesOk, Schedule, PolicyOf, NoPartial, ChunkOk, Line, StepOk, RowEnds;
    NamedPolicyOk(name);
    RunningBound(c, PolicyOf(name), d);
    if c.chunk > 0 { StepBudget(c, PolicyOf(name), d); } else { WholeEnds(c, PolicyOf(name), d); }
    if name == Fcfs { FcfsNeverOvertakes(c, PolicyOf(name), d); }
  }

  // ------------------------------------------------------------ launch

  lemma IncreasingCons(x: nat, s: seq<nat>)
    ensures Increasing([x] + s) <==> Increasing(s) && forall y :: y in s ==> x < y
  {
    if Increasing(s) && forall y :: y in s ==> x < y { IncreasingFrom(x, s); }
    if Increasing([x] + s) { IncreasingTail(x, s); }
  }

  lemma IncreasingFrom(x: nat, s: seq<nat>)
    requires Increasing(s) && forall y :: y in s ==> x < y
    ensures Increasing([x] + s)
  {
    var t := [x] + s;
    forall i, j | 0 <= i < j < |t| ensures t[i] < t[j] {
      assert t[j] == s[j - 1] && s[j - 1] in s;
    }
  }

  lemma IncreasingTail(x: nat, s: seq<nat>)
    requires Increasing([x] + s)
    ensures Increasing(s) && forall y :: y in s ==> x < y
  {
    var t := [x] + s;
    forall i | 0 <= i < |s| ensures x < s[i] { assert t[0] < t[i + 1]; }
    forall i, j | 0 <= i < j < |s| ensures s[i] < s[j] { assert t[i + 1] < t[j + 1]; }
  }

  lemma {:induction false} OnlyFewer(s: seq<nat>, a: set<nat>, b: set<nat>)
    requires b <= a && Increasing(Only(s, a))
    ensures Increasing(Only(s, b))
  {
    hide Increasing;
    if s == [] {
      assert Only(s, b) == Only(s, a);
    } else {
      var (ta, tb) := (Only(s[1..], a), Only(s[1..], b));
      IncreasingCons(s[0], ta);
      IncreasingCons(s[0], tb);
      assert Only(s, a) == if s[0] in a then [s[0]] + ta else ta;
      OnlyFewer(s[1..], a, b);
      assert Only(s, b) == if s[0] in b then [s[0]] + tb else tb;
      assert forall x :: x in tb ==> x in ta;
    }
  }

  /** After its pass a row's request decodes if the row reached the end. */
  lemma LaunchShaped(c: Config, name: PolicyName, d: Sched, d': Sched, rows: seq<Work>)
    requires Planned(c, name, d, rows) && QueuesOk(d) && d'.waiting == d.waiting && d'.running == d.running
    requires AllLaunched(d.sys.bs, d.sys.reqs, d'.sys.reqs, rows)
    requires forall w :: w in rows && w.rid in d.sys.reqs && d.sys.reqs[w.rid].table.Some? ==> w.start == d.sys.reqs[w.rid].table.value.numTokens
    ensures Shaped(c, name, d')
  {
    hide QueuesOk, AllLaunched, RowEnds;
    LaunchedKeys(d.sys.bs, d.sys.reqs, d'.sys.reqs, rows);
    forall r | r in d.sys.reqs
      ensures d'.sys.reqs[r].maxNew == d.sys.reqs[r].maxNew && |d'.sys.reqs[r].output| >= |d.sys.reqs[r].output|
      ensures d'.sys.reqs[r].state == d.sys.reqs[r].state || d'.sys.reqs[r].state == DECODE
      ensures RowEnds(d.sys.reqs, rows, r) ==> d'.sys.reqs[r].state == DECODE
    {
      LaunchedState(d.sys.bs, d.sys.reqs, d'.sys.reqs, rows, r);
    }
    if c.chunk > 0 {
      CardLe(LiveRunning(d'), LiveRunning(d));
    }
    if name == Fcfs { OnlyFewer(d.running + d.waiting, UnspentSet(d.sys.reqs), UnspentSet(d'.sys.reqs)); }
  }

  lemma LaunchedKeys(bs: nat, reqs: map<nat, Req>, reqs': map<nat, Req>, rows: seq<Work>)
    requires AllLaunched(bs, reqs, reqs', rows)
    ensures reqs'.Keys == reqs.Keys
  {
    hide Launched;
  }

  lemma LaunchedState(bs: nat, reqs: map<nat, Req>, reqs': map<nat, Req>, rows: seq<Work>, r: nat)
    requires AllLaunched(bs, reqs, reqs', rows) && r in reqs
    requires forall w :: w in rows && w.rid in reqs && reqs[w.rid].table.Some? ==> w.start == reqs[w.rid].table.value.numTokens
    ensures r in reqs' && reqs'[r].maxNew == reqs[r].maxNew && |reqs'[r].output| >= |reqs[r].output|
    ensures reqs'[r].state == reqs[r].state || reqs'[r].state == DECODE
    ensures RowEnds(reqs, rows, r) ==> reqs'[r].state == DECODE
  {
    hide BlocksNeeded;
    if r in Rids(rows) { var w := RowOf(rows, r); }
    if RowEnds(reqs, rows, r) {
      var w :| w in rows && w.rid == r && Completes(reqs, w);
    }
  }

  /** With no batch there is nothing part-way at all. */
  lemma NothingPlanned(c: Config, name: PolicyName, d: Sched)
    requires Planned(c, name, d, []) && QueuesOk(d)
    ensures Shaped(c, name, d)
  {
    hide QueuesOk;
  }

  // ------------------------------------------------------------ departures and arrivals

  lemma LineWithout(running: seq<nat>, waiting: seq<nat>, r: nat, u: set<nat>)
    ensures Only(Remove(running, r) + Remove(waiting, r), u - {r}) == Only(running + waiting, u - {r})
  {
    OnlyConcat(Remove(running, r), Remove(waiting, r), u - {r});
    OnlyConcat(running, waiting, u - {r});
    OnlyRemove(running, r, u - {r});
    OnlyRemove(waiting, r, u - {r});
  }

  lemma LeftShaped(c: Config, name: PolicyName, d: Sched, r: nat, q: Req, end: State)
    requires Shaped(c, name, d) && QueuesOk(d) && r in d.sys.reqs
    ensures Shaped(c, name, Left(d, r, q, end))
  {
    hide Increasing, Line, ChunkOk;
    RemoveDistinct(d.running, r);
    if c.chunk > 0 { LeftChunkOk(c, d, Left(d, r, q, end), r); }
    if name == Fcfs { LeftLine(d, Left(d, r, q, end), r); }
  }

  lemma LeftChunkOk(c: Config, d: Sched, d': Sched, r: nat)
    requires ChunkOk(c, d) && QueuesOk(d) && d'.running == Remove(d.running, r) && d'.sys.reqs == d.sys.reqs - {r}
    ensures ChunkOk(c, d')
  {
    hide Remove, LiveRunning, Distinct;
    LeftRunning(d, d', r);
    FewerLive(d, d');
  }

  lemma LeftRunning(d: Sched, d': Sched, r: nat)
    requires QueuesOk(d) && d'.running == Remove(d.running, r)
    ensures forall x :: x in d'.running ==> x in d.running && x != r && d.running != [] && d'.running != []
    ensures d.running != [] && r != d.running[|d.running| - 1] ==>
      d'.running != [] && d'.running[|d'.running| - 1] == d.running[|d.running| - 1]
  {
    RemoveDistinct(d.running, r);
    if d.running != [] && r != d.running[|d.running| - 1] { RemoveKeepsLast(d.running, r); }
  }

  lemma FewerLive(d: Sched, d': Sched)
    requires forall r :: r in d'.running && r in d'.sys.reqs ==> r in d.running && r in d.sys.reqs && d'.sys.reqs[r] == d.sys.reqs[r]
    ensures |LiveRunning(d')| <= |LiveRunning(d)|
  {
    CardLe(LiveRunning(d'), LiveRunning(d));
  }

  lemma LeftLine(d: Sched, d': Sched, r: nat)
    requires Increasing(Line(d)) && d'.running == Remove(d.running, r) && d'.waiting == Remove(d.waiting, r)
    requires d'.sys.reqs == d.sys.reqs - {r}
    ensures Increasing(Line(d'))
  {
    hide Increasing;
    var u := UnspentSet(d.sys.reqs);
    assert UnspentSet(d'.sys.reqs) == u - {r};
    LineWithout(d.running, d.waiting, r, u);
    OnlyFewer(d.running + d.waiting, u, u - {r});
  }

  lemma FilledShaped(c: Config, name: PolicyName, d: Sched, r: nat)
    requires Shaped(c, name, d) && QueuesOk(d) && r in d.sys.reqs && HasToken(d.sys.reqs[r])
    ensures Shaped(c, name, d.(sys := WithReq(d.sys, r, Filled(d.sys.reqs[r]))))
  {
    var d' := d.(sys := WithReq(d.sys, r, Filled(d.sys.reqs[r])));
    assert LiveRunning(d') == LiveRunning(d);
    assert UnspentSet(d'.sys.reqs) == UnspentSet(d.sys.reqs);
  }

  lemma {:induction false} ReadShaped(c: Config, name: PolicyName, d: Sched, prev: Flight, i: nat)
    requires Shaped(c, name, d) && Loose(c, d)
    ensures Shaped(c, name, ReadFrom(d, prev, i))
    decreases |prev.rids| - i
  {
    hide Shaped, Loose, ReadBackAt;
    if i < |prev.rids| && i < |prev.slots| {
      var r := prev.rids[i];
      if prev.slots[i].Some? && r in d.sys.reqs && HasToken(d.sys.reqs[r]) {
        ReadBackLoose(c, d, r);
        LooseReachable(c, d);
        OneReadShaped(c, name, d, r);
        ReadShaped(c, name, ReadBackAt(d, r), prev, i + 1);
      } else {
        ReadShaped(c, name, d, prev, i + 1);
      }
    }
  }

  lemma OneReadShaped(c: Config, name: PolicyName, d: Sched, r: nat)
    requires Shaped(c, name, d) && QueuesOk(d) && r in d.sys.reqs && HasToken(d.sys.reqs[r])
    ensures Shaped(c, name, ReadBackAt(d, r))
  {
    hide Shaped, QueuesOk, Left;
    if Ends(d.sys.reqs[r]) {
      LeftShaped(c, name, d, r, DropPending(Filled(d.sys.reqs[r])), FINISHED);
    } else {
      FilledShaped(c, name, d, r);
    }
  }

  /** A new arrival stands last in the line. */
  lemma AddShaped(c: Config, name: PolicyName, d: Sched, r: nat, q: Req)
    requires Shaped(c, name, d) && QueuesOk(d) && r !in d.sys.reqs && q.state == WAITING && forall x :: x in d.sys.reqs ==> x < r
    ensures Shaped(c, name, Sched(WithReq(d.sys, r, q), d.waiting + [r], d.running))
  {
    hide Increasing, Line;
    var d' := Sched(WithReq(d.sys, r, q), d.waiting + [r], d.running);
    assert LiveRunning(d') == LiveRunning(d);
    if name == Fcfs { AddLine(d, d', r); }
  }

  lemma IncreasingSnoc(s: seq<nat>, x: nat)
    requires Increasing(s) && forall y :: y in s ==> y < x
    ensures Increasing(s + [x])
  {
    var t := s + [x];
    forall i, j | 0 <= i < j < |t| ensures t[i] < t[j] {
      assert t[i] == s[i] && s[i] in s;
      if j < |s| { assert t[j] == s[j]; }
    }
  }

  lemma AddLine(d: Sched, d': Sched, r: nat)
    requires Increasing(Line(d)) && QueuesOk(d) && r !in d.sys.reqs && forall x :: x in d.sys.reqs ==> x < r
    requires d'.running == d.running && d'.waiting == d.waiting + [r] && r in d'.sys.reqs && d'.sys.reqs - {r} == d.sys.reqs
    ensures Increasing(Line(d'))
  {
    hide Increasing;
    var (all, u, u') := (d.running + d.waiting, UnspentSet(d.sys.reqs), UnspentSet(d'.sys.reqs));
    assert d'.running + d'.waiting == all + [r];
    forall x | x in all ensures x in u <==> x in u' {
      assert x in d.sys.reqs && (d'.sys.reqs - {r})[x] == d'.sys.reqs[x];
    }
    OnlyConcat(all, [r], u');
    OnlySame(all, u, u');
    assert forall x :: x in Only(all, u) ==> x in all;
    assert Only([r], u') == (if r in u' then [r] else []);
    if r in u' {
      IncreasingSnoc(Only(all, u), r);
    } else {
      assert Line(d') == Only(all, u) + [] == Only(all, u);
    }
  }
}

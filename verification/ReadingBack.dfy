/** What reading a launched batch back does: each sampled token takes the place of the request's first
    placeholder, and may end it; rows of requests that are gone already are passed over. */
module ReadingBack {
  import opened Common
  import opened BlockTables
  import opened TreeShape
  import opened TokenChunks
  import opened KvState
  import opened KvCache
  import opened Device
  import opened Requests
  import opened Machine
  import opened MachineInv
  import opened MachineSteps
  import opened MachineTheorems
  import opened Scheduling
  import opened ScheduleSafe
  import opened ScheduleRoom
  import opened ScheduleOrder
  import opened Launching

  predicate HasToken(q: Req) {
    0 < q.pending <= |q.output| && |q.unread| == q.pending
  }

  ghost function Left(d: Sched, r: nat, q: Req, end: State): Sched {
    Sched(Retired(d.sys, r, q, end), Remove(d.waiting, r), Remove(d.running, r))
  }

  /** One token read back: the request goes on, or leaves with its late tokens dropped. */
  ghost function ReadBackAt(d: Sched, r: nat): Sched
    requires r in d.sys.reqs && HasToken(d.sys.reqs[r])
  {
    var q := d.sys.reqs[r];
    if Ends(q) then Left(d, r, DropPending(Filled(q)), FINISHED) else d.(sys := WithReq(d.sys, r, Filled(q)))
  }

  /** The rest of a batch, from row `i` on. */
  ghost function ReadFrom(d: Sched, prev: Flight, i: nat): Sched
    decreases |prev.rids| - i
  {
    if i >= |prev.rids| || i >= |prev.slots| then d
    else
      var r := prev.rids[i];
      ReadFrom(if prev.slots[i].Some? && r in d.sys.reqs && HasToken(d.sys.reqs[r]) then ReadBackAt(d, r) else d, prev, i + 1)
  }

  lemma LeftLoose(c: Config, d: Sched, r: nat, q: Req, end: State)
    requires Loose(c, d) && r in d.sys.reqs && Reachable(Left(d, r, q, end).sys)
    ensures Loose(c, Left(d, r, q, end))
  {
    hide Reachable, AtRest, Released;
    ReleasedSize(d.sys, r, q);
    LeftQueues(d, r, q, end);
    hide QueuesOk;
    var d' := Left(d, r, q, end);
    forall x | x in d'.sys.reqs ensures AtRest(c, d'.sys.kv.numBlocks, d'.sys.bs, d'.sys.reqs[x]) {
      assert AtRest(c, d.sys.kv.numBlocks, d.sys.bs, d.sys.reqs[x]);
    }
  }

  lemma LeftQueues(d: Sched, r: nat, q: Req, end: State)
    requires QueuesOk(d)
    ensures QueuesOk(Left(d, r, q, end))
    ensures forall x :: x in Left(d, r, q, end).waiting ==> x in d.waiting && x != r
    ensures forall x :: x in Left(d, r, q, end).running ==> x in d.running && x != r
  {
    hide Released;
    RemoveDistinct(d.waiting, r);
    RemoveDistinct(d.running, r);
  }

  lemma LooseReq(c: Config, d: Sched, r: nat)
    requires Loose(c, d) && r in d.sys.reqs
    ensures Inv(d.sys) && ReqTokens(d.sys.next, d.sys.reqs[r])
    ensures Settled(d.sys.reqs[r]) && AtRest(c, d.sys.kv.numBlocks, d.sys.bs, d.sys.reqs[r])
    ensures ReqOk(d.sys.next, d.sys.bs, d.sys.store, d.sys.kv.held, r, d.sys.reqs[r])
  {
    hide Inv, ReqTable, LiveOk, ReqTokens;
    ReachableInv(d.sys);
    InvReq(d.sys, r);
    assert AtRest(c, d.sys.kv.numBlocks, d.sys.bs, d.sys.reqs[r]);
  }

  /** Reading back is a step of the machine, and always possible. */
  lemma ReadBackLoose(c: Config, d: Sched, r: nat)
    requires Loose(c, d) && r in d.sys.reqs && HasToken(d.sys.reqs[r])
    ensures Loose(c, ReadBackAt(d, r))
    ensures Ends(d.sys.reqs[r]) ==> MayRelease(d.sys, r, DropPending(Filled(d.sys.reqs[r])))
  {
    hide Reachable, Loose, Inv, Released, MayRelease, ReqOk, ReqTokens;
    LooseReq(c, d, r);
    LooseReachable(c, d);
    var q := d.sys.reqs[r];
    MayAlwaysFinish(d.sys, r);
    StepReachable(d.sys, ReadBack(r), ReadBackAt(d, r).sys);
    if Ends(q) {
      LeftLoose(c, d, r, DropPending(Filled(q)), FINISHED);
    } else {
      FilledLoose(c, d, r);
    }
  }

  lemma LooseReachable(c: Config, d: Sched)
    requires Loose(c, d)
    ensures Reachable(d.sys) && QueuesOk(d) && ConfigOk(c)
  {
  }

  lemma FilledLoose(c: Config, d: Sched, r: nat)
    requires Loose(c, d) && r in d.sys.reqs && HasToken(d.sys.reqs[r])
    requires Reachable(WithReq(d.sys, r, Filled(d.sys.reqs[r])))
    ensures Loose(c, d.(sys := WithReq(d.sys, r, Filled(d.sys.reqs[r]))))
  {
    hide Reachable, AtRest;
    var d' := d.(sys := WithReq(d.sys, r, Filled(d.sys.reqs[r])));
    assert AtRest(c, d.sys.kv.numBlocks, d.sys.bs, d.sys.reqs[r]);
    FilledRests(c, d.sys.kv.numBlocks, d.sys.bs, d.sys.reqs[r]);
    forall x | x in d'.sys.reqs ensures AtRest(c, d'.sys.kv.numBlocks, d'.sys.bs, d'.sys.reqs[x]) {
      assert x != r ==> AtRest(c, d.sys.kv.numBlocks, d.sys.bs, d.sys.reqs[x]);
    }
  }

  lemma FilledRests(c: Config, numBlocks: nat, bs: nat, q: Req)
    requires AtRest(c, numBlocks, bs, q) && HasToken(q)
    ensures AtRest(c, numBlocks, bs, Filled(q))
  {
  }

  // ------------------------------------------------------------ the rest of the batch

  /** The requests after row `i` of `prev` was read back. */
  ghost predicate RowRead(prev: Flight, i: nat, reqs: map<nat, Req>, reqs': map<nat, Req>)
    requires FlightShape(prev) && i < |prev.rids|
  {
    var r := prev.rids[i];
    if prev.slots[i].None? || r !in reqs || !HasToken(reqs[r]) then reqs' == reqs
    else if Ends(reqs[r]) then reqs' == reqs - {r}
    else reqs' == reqs[r := Filled(reqs[r])]
  }

  /** What is true of the two flights in the air, row by row. */
  ghost predicate InAir(prev: Option<Flight>, i: nat, cur: Option<Flight>, reqs: map<nat, Req>) {
    Heads(prev, reqs, i) && Tails(cur, reqs) && Counted(prev, i, cur, reqs)
  }

  lemma SlotSkips(f: Flight, i: nat, r: nat)
    requires FlightShape(f) && i < |f.rids|
    ensures SlotFrom(Some(f), r, i) <==> (f.rids[i] == r && f.slots[i].Some?) || SlotFrom(Some(f), r, i + 1)
    ensures f.rids[i] == r ==> !SlotFrom(Some(f), r, i + 1)
  {
  }

  lemma RowKeepsAir(prev: Flight, i: nat, cur: Option<Flight>, reqs: map<nat, Req>, reqs': map<nat, Req>)
    requires FlightShape(prev) && i < |prev.rids| && InAir(Some(prev), i, cur, reqs) && RowRead(prev, i, reqs, reqs')
    ensures InAir(Some(prev), i + 1, cur, reqs')
    ensures prev.slots[i].Some? && prev.rids[i] in reqs ==>
      AtHead(reqs[prev.rids[i]], prev.slots[i].value, prev.tokens[i])
  {
    var r := prev.rids[i];
    forall x { SlotSkips(prev, i, x); }
    if prev.slots[i].Some? && r in reqs && !Ends(reqs[r]) {
      forall j | 0 <= j && cur.Some? && j < |cur.value.rids| && cur.value.slots[j].Some? && cur.value.rids[j] == r
        ensures AtTail(reqs'[r], cur.value.slots[j].value, cur.value.tokens[j])
      {
        RowSlot(cur.value, j);
      }
    }
    NextHeads(prev, i, reqs, reqs');
  }

  lemma NextHeads(prev: Flight, i: nat, reqs: map<nat, Req>, reqs': map<nat, Req>)
    requires FlightShape(prev) && i < |prev.rids| && Heads(Some(prev), reqs, i) && RowRead(prev, i, reqs, reqs')
    ensures Heads(Some(prev), reqs', i + 1)
  {
    hide Ends, AtHead;
    forall j | i < j < |prev.rids| && prev.slots[j].Some? && prev.rids[j] in reqs'
      ensures AtHead(reqs'[prev.rids[j]], prev.slots[j].value, prev.tokens[j])
    {
      assert prev.rids[j] != prev.rids[i];
    }
  }

  /** When all of `prev` is read back, the state is one of a step boundary again. */
  lemma AirEmpties(prev: Option<Flight>, n: nat, cur: Option<Flight>, reqs: map<nat, Req>)
    requires InAir(prev, n, cur, reqs) && (prev.Some? ==> n == |prev.value.rids|)
    ensures FlightOk(cur, reqs)
  {
    forall r | r in reqs ensures reqs[r].pending == One(SlotFrom(cur, r, 0)) {
      assert !SlotFrom(prev, r, n);
    }
    if cur.Some? {
      forall i | 0 <= i < |cur.value.rids| && cur.value.slots[i].Some? && cur.value.rids[i] in reqs
        ensures AtHead(reqs[cur.value.rids[i]], cur.value.slots[i].value, cur.value.tokens[i])
      {
        RowSlot(cur.value, i);
      }
    }
    assert forall r :: !SlotFrom(None, r, 0);
  }

  lemma FlightIsAir(f: Option<Flight>, reqs: map<nat, Req>)
    requires FlightOk(f, reqs)
    ensures InAir(f, 0, None, reqs)
  {
  }

  /** A request that leaves takes its placeholders along. */
  lemma FlightWithout(f: Option<Flight>, reqs: map<nat, Req>, r: nat)
    requires FlightOk(f, reqs)
    ensures FlightOk(f, reqs - {r})
  {
  }

  // ------------------------------------------------------------ requests are carried along

  /** Tokens read back. */
  function ReadyCount(q: Req): nat {
    if q.pending <= |q.output| then |q.output| - q.pending else 0
  }

  /** The same job, with no fewer tokens read back. */
  predicate Continues(q: Req, q': Req) {
    SameJob(q, q') && ReadyCount(q) <= ReadyCount(q')
  }

  /** Requests stay, with the same job, or leave finished; no token read back is lost; records of those
      that left do not change. */
  ghost predicate Carries(s: Sys, s': Sys) {
    && (forall r :: r in s.reqs ==> r in s'.reqs || r in s'.done)
    && (forall r :: r in s'.reqs ==> r in s.reqs && Continues(s.reqs[r], s'.reqs[r]))
    && (forall r :: r in s.done ==> r in s'.done && s'.done[r] == s.done[r])
    && (forall r :: r in s'.done ==>
         r in s.done || (r in s.reqs && Continues(s.reqs[r], s'.done[r]) && s'.done[r].state == FINISHED))
  }

  lemma CarriesTrans(s: Sys, t: Sys, u: Sys)
    requires Carries(s, t) && Carries(t, u)
    ensures Carries(s, u)
  {
    hide Continues;
    forall r | r in u.reqs ensures r in s.reqs && Continues(s.reqs[r], u.reqs[r]) {
      ContinuesTrans(s.reqs[r], t.reqs[r], u.reqs[r]);
    }
    forall r | r in u.done && r !in s.done ensures r in s.reqs && Continues(s.reqs[r], u.done[r]) && u.done[r].state == FINISHED {
      if r !in t.done { ContinuesTrans(s.reqs[r], t.reqs[r], u.done[r]); }
    }
  }

  lemma ContinuesTrans(a: Req, b: Req, z: Req)
    requires Continues(a, b) && Continues(b, z)
    ensures Continues(a, z)
  {
  }

  lemma ScheduleCarries(s: Sys, s': Sys)
    requires SameRequests(s, s')
    ensures Carries(s, s')
  {
  }

  lemma LaunchCarries(bs: nat, s: Sys, s': Sys, rows: seq<Work>)
    requires AllLaunched(bs, s.reqs, s'.reqs, rows) && s'.done == s.done
    ensures Carries(s, s')
  {
    forall r | r in s.reqs ensures Continues(s.reqs[r], s'.reqs[r]) {
      if r in Rids(rows) { var w := RowOf(rows, r); }
    }
  }

  /** A launch reads nothing back. */
  lemma LaunchReadsNone(bs: nat, reqs: map<nat, Req>, reqs': map<nat, Req>, rows: seq<Work>)
    requires AllLaunched(bs, reqs, reqs', rows)
    ensures reqs'.Keys == reqs.Keys && forall r :: r in reqs ==> ReadyCount(reqs'[r]) == ReadyCount(reqs[r])
  {
    hide BlocksNeeded;
    forall r | r in reqs ensures ReadyCount(reqs'[r]) == ReadyCount(reqs[r]) {
      if r in Rids(rows) { var w := RowOf(rows, r); }
    }
  }

  lemma {:induction false} ReadCarries(d: Sched, prev: Flight, i: nat)
    requires d.sys.reqs.Keys !! d.sys.done.Keys
    ensures Carries(d.sys, ReadFrom(d, prev, i).sys)
    decreases |prev.rids| - i
  {
    if i < |prev.rids| && i < |prev.slots| {
      var r := prev.rids[i];
      if prev.slots[i].Some? && r in d.sys.reqs && HasToken(d.sys.reqs[r]) {
        var d1 := ReadBackAt(d, r);
        OneCarries(d, r);
        ReadCarries(d1, prev, i + 1);
        CarriesTrans(d.sys, d1.sys, ReadFrom(d1, prev, i + 1).sys);
      } else {
        ReadCarries(d, prev, i + 1);
      }
    }
  }

  lemma OneCarries(d: Sched, r: nat)
    requires d.sys.reqs.Keys !! d.sys.done.Keys && r in d.sys.reqs && HasToken(d.sys.reqs[r])
    ensures Carries(d.sys, ReadBackAt(d, r).sys) && ReadBackAt(d, r).sys.reqs.Keys !! ReadBackAt(d, r).sys.done.Keys
  {
  }

  lemma {:induction false} ReadKeepsOthers(d: Sched, prev: Flight, i: nat, r: nat)
    requires r in d.sys.reqs && r !in prev.rids
    ensures r in ReadFrom(d, prev, i).sys.reqs && ReadFrom(d, prev, i).sys.reqs[r] == d.sys.reqs[r]
    decreases |prev.rids| - i
  {
    if i < |prev.rids| && i < |prev.slots| {
      var x := prev.rids[i];
      if prev.slots[i].Some? && x in d.sys.reqs && HasToken(d.sys.reqs[x]) {
        ReadKeepsOthers(ReadBackAt(d, x), prev, i + 1, r);
      } else {
        ReadKeepsOthers(d, prev, i + 1, r);
      }
    }
  }
}

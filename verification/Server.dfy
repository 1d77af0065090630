/** The engine behind the server: the event loop side sends commands through a queue, the engine
    thread handles them between steps and hands out the new tokens of each request. Every method is
    one atomic piece of one of the two threads (a queue operation, the handling of a command, a step
    with its publication, or the death of the engine thread under its lock), so all interleavings are
    all orders of calls. Requests reach their streams exactly once: the updates of a stream spell a
    beginning of its solo output, all of it when it finishes, with one last update and none after. */
module Servers {
  import opened Common
  import opened Device
  import opened Requests
  import opened Machine
  import opened MachineInv
  import opened MachineSteps
  import opened MachineTheorems
  import opened Scheduling
  import opened ScheduleSafe
  import opened ScheduleRoom
  import opened Policies
  import opened Launching
  import opened ReadingBack
  import opened Stepping
  import Shaping
  import opened Engines

  datatype Cmd = AddCmd(stream: nat) | AbortCmd(stream: nat) | CallCmd(call: nat)

  datatype Reason = Stop | Length | Aborted | Failed

  /** New tokens of a stream; the last update has a reason. */
  datatype Update = Update(stream: nat, ids: seq<int>, finish: Option<Reason>, total: nat)

  /** The engine thread's bookkeeping of one request: `sent` tokens are handed over. */
  datatype Live = Live(rid: nat, sent: nat)

  // ------------------------------------------------------------ what a stream received

  /** All tokens handed to stream `s`. */
  function Text(log: seq<Update>, s: nat): seq<int> {
    if log == [] then []
    else
      var u := log[|log| - 1];
      Text(log[..|log| - 1], s) + if u.stream == s then u.ids else []
  }

  /** Some update ended the stream. */
  ghost predicate Closed(log: seq<Update>, s: nat) {
    exists i :: 0 <= i < |log| && log[i].stream == s && log[i].finish.Some?
  }

  function WholeOf(next: Sampler, q: Req): seq<nat> {
    Solo(next, q.prompt, q.seed, q.maxNew, q.stops)
  }

  predicate IsStop(tok: int, stops: set<nat>) {
    tok >= 0 && tok in stops
  }

  /** Why a whole output ended. */
  function ReasonOf(out: seq<int>, stops: set<nat>): Reason {
    if out != [] && IsStop(out[|out| - 1], stops) then Stop else Length
  }

  /** Nothing follows the last update. */
  ghost predicate OneEnd(log: seq<Update>, s: nat) {
    forall i, j :: 0 <= i < j < |log| && log[i].stream == s && log[j].stream == s ==> log[i].finish.None?
  }

  /** Each update says how many tokens the stream has received. */
  ghost predicate Counts(log: seq<Update>, s: nat) {
    forall i :: 0 <= i < |log| && log[i].stream == s ==> log[i].total == |Text(log[..i + 1], s)|
  }

  /** A finished stream received all of its output, and the reason is right. */
  ghost predicate EndsWhole(next: Sampler, q: Req, log: seq<Update>, s: nat) {
    forall i :: 0 <= i < |log| && log[i].stream == s && (log[i].finish == Some(Stop) || log[i].finish == Some(Length)) ==>
      Text(log, s) == WholeOf(next, q) && log[i].finish == Some(ReasonOf(WholeOf(next, q), q.stops))
  }

  ghost predicate LogOk(next: Sampler, q: Req, log: seq<Update>, s: nat) {
    OneEnd(log, s) && Counts(log, s) && Text(log, s) <= WholeOf(next, q) && EndsWhole(next, q, log, s)
  }

  lemma TextSnoc(log: seq<Update>, u: Update, s: nat)
    ensures Text(log + [u], s) == Text(log, s) + if u.stream == s then u.ids else []
  {
    assert (log + [u])[..|log|] == log;
  }

  lemma ClosedSnoc(log: seq<Update>, u: Update, s: nat)
    ensures Closed(log + [u], s) <==> Closed(log, s) || (u.stream == s && u.finish.Some?)
  {
    var log' := log + [u];
    if Closed(log, s) {
      var i :| 0 <= i < |log| && log[i].stream == s && log[i].finish.Some?;
      assert log'[i] == log[i];
    }
    if u.stream == s && u.finish.Some? { assert log'[|log|] == u; }
    if Closed(log', s) {
      var i :| 0 <= i < |log'| && log'[i].stream == s && log'[i].finish.Some?;
      assert i < |log| ==> log'[i] == log[i];
    }
  }

  lemma CountsSnoc(log: seq<Update>, u: Update, s: nat)
    requires Counts(log, s) && (u.stream == s ==> u.total == |Text(log, s)| + |u.ids|)
    ensures Counts(log + [u], s)
  {
    var log' := log + [u];
    TextSnoc(log, u, s);
    assert log'[..|log| + 1] == log';
    forall i | 0 <= i < |log'| && log'[i].stream == s ensures log'[i].total == |Text(log'[..i + 1], s)| {
      if i < |log| { assert log'[i] == log[i] && log'[..i + 1] == log[..i + 1]; }
    }
  }

  /** An update of another stream changes nothing for this one. */
  lemma OtherUpdate(next: Sampler, q: Req, log: seq<Update>, u: Update, s: nat)
    requires LogOk(next, q, log, s) && u.stream != s
    ensures LogOk(next, q, log + [u], s) && Text(log + [u], s) == Text(log, s) && (Closed(log + [u], s) <==> Closed(log, s))
  {
    hide Counts, Text, Closed, WholeOf;
    TextSnoc(log, u, s);
    ClosedSnoc(log, u, s);
    CountsSnoc(log, u, s);
  }

  /** The next tokens of an open stream, and its end if it has one. */
  lemma OwnUpdate(next: Sampler, q: Req, log: seq<Update>, u: Update, s: nat)
    requires LogOk(next, q, log, s) && u.stream == s && !Closed(log, s)
    requires Text(log, s) + u.ids <= WholeOf(next, q) && u.total == |Text(log, s)| + |u.ids|
    requires u.finish == Some(Stop) || u.finish == Some(Length) ==>
      Text(log, s) + u.ids == WholeOf(next, q) && u.finish == Some(ReasonOf(WholeOf(next, q), q.stops))
    ensures LogOk(next, q, log + [u], s) && Text(log + [u], s) == Text(log, s) + u.ids
    ensures Closed(log + [u], s) <==> u.finish.Some?
  {
    hide Counts, Text, WholeOf;
    TextSnoc(log, u, s);
    ClosedSnoc(log, u, s);
    CountsSnoc(log, u, s);
    forall i | 0 <= i < |log| && log[i].stream == s ensures log[i].finish.None? {
      assert log[i].finish.Some? ==> Closed(log, s);
    }
  }

  lemma NothingYet(next: Sampler, q: Req, log: seq<Update>, s: nat)
    requires forall i :: 0 <= i < |log| ==> log[i].stream != s
    ensures LogOk(next, q, log, s) && Text(log, s) == [] && !Closed(log, s)
  {
    NoText(log, s);
  }

  lemma {:induction false} NoText(log: seq<Update>, s: nat)
    requires forall i :: 0 <= i < |log| ==> log[i].stream != s
    ensures Text(log, s) == []
  {
    if log != [] { NoText(log[..|log| - 1], s); }
  }

  // ------------------------------------------------------------ what the engine thread knows

  /** The request behind a live stream, and how far it was handed over. */
  ghost predicate Tracked(s: Sys, q: Req, l: Live, text: seq<int>) {
    && l.sent == |text|
    && (if l.rid in s.reqs then Continued(q, l.sent, s.reqs[l.rid])
        else l.rid in s.done && s.done[l.rid].state == FINISHED && Continued(q, l.sent, s.done[l.rid]))
  }

  predicate Continued(q: Req, sent: nat, q': Req) {
    SameJob(q, q') && sent <= ReadyCount(q')
  }

  lemma TrackedStays(s: Sys, s': Sys, q: Req, l: Live, text: seq<int>)
    requires Tracked(s, q, l, text) && l.rid in s.reqs && l.rid !in s.done && Carries(s, s')
    ensures Tracked(s', q, l, text)
  {
  }

  /** What can be sent of a live request now: what has been read back, or all if it has finished. */
  function ReadyOf(q: Req): seq<int> {
    if q.state == FINISHED then q.output else q.output[..ReadyCount(q)]
  }

  lemma ReadyIsSolo(s: Sys, q: Req, l: Live, text: seq<int>)
    requires Reachable(s) && Tracked(s, q, l, text) && text <= WholeOf(s.next, q)
    ensures var q' := if l.rid in s.reqs then s.reqs[l.rid] else s.done[l.rid];
      && (q'.state == FINISHED <==> l.rid !in s.reqs)
      && text <= ReadyOf(q') <= WholeOf(s.next, q)
      && (q'.state == FINISHED ==> ReadyOf(q') == WholeOf(s.next, q))
  {
    hide Solo, Inv, Reachable, ReqOk;
    if l.rid in s.reqs {
      LiveOutput(s, l.rid);
      ReachableInv(s);
      LiveStates(s);
    } else {
      DoneIsSolo(s, l.rid);
    }
  }

  // ------------------------------------------------------------ the desk between the two threads

  /** What both threads share, and what was promised: the job of every stream that was accepted. */
  datatype Desk = Desk(
    jobs: map<nat, Req>, calls: nat, commands: seq<Cmd>,
    live: map<nat, Live>, byRid: map<nat, nat>,
    updates: seq<Update>, answered: seq<nat>, dead: bool)

  ghost predicate BooksOk(d: Desk) {
    && (forall s :: s in d.live ==> s in d.jobs && d.live[s].rid in d.byRid && d.byRid[d.live[s].rid] == s)
    && (forall r :: r in d.byRid ==> d.byRid[r] in d.live && d.live[d.byRid[r]].rid == r)
  }

  /** A queued add is of a stream that received nothing yet; nobody asked to abort it before. */
  ghost predicate QueueOk(d: Desk) {
    && (forall i :: 0 <= i < |d.commands| && d.commands[i].AddCmd? ==>
          && d.commands[i].stream in d.jobs && d.commands[i].stream !in d.live
          && forall k :: 0 <= k < |d.updates| ==> d.updates[k].stream != d.commands[i].stream)
    && (forall i :: 0 <= i < |d.commands| && d.commands[i].AbortCmd? ==> d.commands[i].stream in d.jobs)
    && (forall i, j :: 0 <= i < j < |d.commands| && !d.commands[i].CallCmd? && d.commands[j].AddCmd? ==>
          d.commands[i].stream != d.commands[j].stream)
  }

  /** Every accepted stream waits in the queue, is live, or was ended. */
  ghost predicate StreamsOk(next: Sampler, d: Desk) {
    && (forall s :: s in d.jobs ==>
          && LogOk(next, d.jobs[s], d.updates, s)
          && (s in d.live ==> !Closed(d.updates, s))
          && (s in d.live || Closed(d.updates, s) || AddCmd(s) in d.commands))
    && (forall k :: 0 <= k < |d.updates| ==> d.updates[k].stream in d.jobs)
  }

  /** Every call waits in the queue or was answered, once. */
  ghost predicate CallsOk(d: Desk) {
    && (forall c: nat :: c < d.calls ==> c in d.answered || CallCmd(c) in d.commands)
    && (forall c :: c in d.answered ==> c < d.calls && CallCmd(c) !in d.commands)
    && Distinct(d.answered)
    && (forall i :: 0 <= i < |d.commands| && d.commands[i].CallCmd? ==> d.commands[i].call < d.calls)
    && (forall i, j :: 0 <= i < j < |d.commands| && d.commands[i].CallCmd? ==> d.commands[i] != d.commands[j])
  }

  /** After its death the engine thread owes nobody an answer. */
  ghost predicate DeadOk(d: Desk) {
    d.dead ==> d.live == map[] && forall i :: 0 <= i < |d.commands| ==> d.commands[i].AbortCmd?
  }

  /** The bookkeeping of a live stream agrees with what it received. */
  ghost predicate HandedOk(d: Desk) {
    forall s :: s in d.live ==> d.live[s].sent == |Text(d.updates, s)|
  }

  ghost predicate Kept(next: Sampler, d: Desk) {
    BooksOk(d) && QueueOk(d) && StreamsOk(next, d) && CallsOk(d) && HandedOk(d)
  }

  ghost predicate DeskOk(next: Sampler, d: Desk) {
    Kept(next, d) && DeadOk(d)
  }

  /** What every stream received is right, whatever happened so far: no token twice, none out of
      order, one end; and after the engine thread's death every stream has its end and every call its
      answer. */
  lemma ExactlyOnce(next: Sampler, d: Desk, s: nat)
    requires DeskOk(next, d) && s in d.jobs
    ensures Text(d.updates, s) <= WholeOf(next, d.jobs[s]) && OneEnd(d.updates, s)
    ensures forall i :: 0 <= i < |d.updates| && d.updates[i].stream == s && (d.updates[i].finish == Some(Stop) || d.updates[i].finish == Some(Length)) ==>
      Text(d.updates, s) == WholeOf(next, d.jobs[s])
    ensures d.dead ==> Closed(d.updates, s) && forall c: nat :: c < d.calls ==> c in d.answered
  {
    hide Text, Counts, OneEnd, WholeOf, Closed;
  }

  // ------------------------------------------------------------ the event loop's moves

  ghost function Submitted(d: Desk, s: nat, q: Req): Desk {
    d.(jobs := d.jobs[s := q], commands := d.commands + [AddCmd(s)])
  }

  ghost function Asked(d: Desk, s: nat): Desk {
    d.(commands := d.commands + [AbortCmd(s)])
  }

  ghost function Called(d: Desk): Desk {
    d.(commands := d.commands + [CallCmd(d.calls)], calls := d.calls + 1)
  }

  lemma InPushed(commands: seq<Cmd>, cmd: Cmd)
    ensures forall c :: c in commands + [cmd] <==> c in commands || c == cmd
  {
  }

  lemma SubmitKeeps(next: Sampler, d: Desk, s: nat, q: Req)
    requires DeskOk(next, d) && !d.dead && s !in d.jobs
    ensures DeskOk(next, Submitted(d, s, q))
  {
    hide StreamsOk, QueueOk, CallsOk;
    SubmitStreams(next, d, s, q);
    SubmitQueue(next, d, s, q);
    SubmitCalls(d, s, q);
  }

  lemma SubmitQueue(next: Sampler, d: Desk, s: nat, q: Req)
    requires QueueOk(d) && StreamsOk(next, d) && BooksOk(d) && s !in d.jobs
    ensures QueueOk(Submitted(d, s, q))
  {
    hide StreamsOk;
    UpdatesKnown(next, d);
  }

  lemma SubmitCalls(d: Desk, s: nat, q: Req)
    requires CallsOk(d)
    ensures CallsOk(Submitted(d, s, q))
  {
    InPushed(d.commands, AddCmd(s));
  }

  lemma UpdatesKnown(next: Sampler, d: Desk)
    requires StreamsOk(next, d)
    ensures forall k :: 0 <= k < |d.updates| ==> d.updates[k].stream in d.jobs
  {
  }

  lemma SubmitStreams(next: Sampler, d: Desk, s: nat, q: Req)
    requires StreamsOk(next, d) && BooksOk(d) && s !in d.jobs
    ensures StreamsOk(next, Submitted(d, s, q))
  {
    hide LogOk, Closed;
    InPushed(d.commands, AddCmd(s));
    NothingYet(next, q, d.updates, s);
  }

  lemma AskKeeps(next: Sampler, d: Desk, s: nat)
    requires DeskOk(next, d) && s in d.jobs
    ensures DeskOk(next, Asked(d, s))
  {
    hide LogOk, Closed;
    InPushed(d.commands, AbortCmd(s));
  }

  lemma CallKeeps(next: Sampler, d: Desk)
    requires DeskOk(next, d) && !d.dead
    ensures DeskOk(next, Called(d))
  {
    hide LogOk, Closed;
    InPushed(d.commands, CallCmd(d.calls));
  }

  // ------------------------------------------------------------ the engine thread's moves

  ghost function Popped(d: Desk): Desk
    requires d.commands != []
  {
    d.(commands := d.commands[1..])
  }

  /** The queued add of `s` is refused. */
  ghost function Refused(d: Desk, s: nat): Desk
    requires d.commands != []
  {
    Popped(d).(updates := d.updates + [Update(s, [], Some(Failed), 0)])
  }

  /** The queued add of `s` became request `rid`. */
  ghost function Accepted(d: Desk, s: nat, rid: nat): Desk
    requires d.commands != []
  {
    Popped(d).(live := d.live[s := Live(rid, 0)], byRid := d.byRid[rid := s])
  }

  ghost function Forgotten(d: Desk, s: nat): Desk
    requires s in d.live
  {
    d.(live := d.live - {s}, byRid := d.byRid - {d.live[s].rid})
  }

  /** A live stream gets its last update, without tokens. */
  ghost function Cut(d: Desk, s: nat, why: Reason): Desk
    requires s in d.live
  {
    Forgotten(d, s).(updates := d.updates + [Update(s, [], Some(why), d.live[s].sent)])
  }

  ghost function Replied(d: Desk, c: nat): Desk
    requires d.commands != []
  {
    Popped(d).(answered := d.answered + [c])
  }

  /** New tokens of a live stream, and its end if it has one; no update if there is neither. */
  ghost function Sent(d: Desk, s: nat, ids: seq<int>, finish: Option<Reason>): Desk
    requires s in d.live
  {
    var total := d.live[s].sent + |ids|;
    var d' := if finish.Some? then Forgotten(d, s) else d.(live := d.live[s := Live(d.live[s].rid, total)]);
    if ids != [] || finish.Some? then d'.(updates := d.updates + [Update(s, ids, finish, total)]) else d'
  }

  lemma TailAt(commands: seq<Cmd>)
    requires commands != []
    ensures forall i :: 0 <= i < |commands| - 1 ==> commands[1..][i] == commands[i + 1]
    ensures forall c :: c in commands <==> c == commands[0] || c in commands[1..]
  {
    assert commands == [commands[0]] + commands[1..];
  }

  lemma PopQueue(d: Desk)
    requires QueueOk(d) && d.commands != []
    ensures QueueOk(Popped(d))
    ensures d.commands[0].AddCmd? ==> d.commands[0] !in d.commands[1..]
  {
    TailAt(d.commands);
  }

  lemma PopCalls(d: Desk)
    requires CallsOk(d) && d.commands != [] && !d.commands[0].CallCmd?
    ensures CallsOk(Popped(d))
  {
    TailAt(d.commands);
  }

  /** The head of the queue says nothing about other streams. */
  lemma PopStreams(next: Sampler, d: Desk)
    requires StreamsOk(next, d) && d.commands != []
    requires d.commands[0].AddCmd? ==> d.commands[0].stream in d.live || Closed(d.updates, d.commands[0].stream)
    ensures StreamsOk(next, Popped(d))
  {
    hide LogOk, Closed;
    TailAt(d.commands);
  }

  /** An update of `s` leaves the other streams as they were. */
  lemma OthersKeep(next: Sampler, d: Desk, u: Update)
    requires StreamsOk(next, d)
    ensures forall s :: s in d.jobs && s != u.stream ==>
      && LogOk(next, d.jobs[s], d.updates + [u], s) && (Closed(d.updates + [u], s) <==> Closed(d.updates, s))
  {
    hide LogOk, Closed;
    forall s | s in d.jobs && s != u.stream
      ensures LogOk(next, d.jobs[s], d.updates + [u], s) && (Closed(d.updates + [u], s) <==> Closed(d.updates, s))
    {
      OtherUpdate(next, d.jobs[s], d.updates, u, s);
    }
  }

  lemma QueueWithUpdate(d: Desk, u: Update)
    requires QueueOk(d) && AddCmd(u.stream) !in d.commands
    ensures QueueOk(d.(updates := d.updates + [u]))
  {
  }

  lemma RefuseKeeps(next: Sampler, d: Desk, s: nat)
    requires Kept(next, d) && d.commands != [] && d.commands[0] == AddCmd(s)
    ensures Kept(next, Refused(d, s)) && s in d.jobs && Closed(Refused(d, s).updates, s)
    ensures forall x :: x in d.live ==> x != s && Text(Refused(d, s).updates, x) == Text(d.updates, x)
  {
    hide LogOk, Closed, WholeOf, StreamsOk, CallsOk, QueueOk;
    var u := Update(s, [], Some(Failed), 0);
    HeadIsNew(next, d, s);
    OwnUpdate(next, d.jobs[s], d.updates, u, s);
    OthersKeep(next, d, u);
    PopQueue(d);
    PopCalls(d);
    QueueWithUpdate(Popped(d), u);
    RefuseStreams(next, d, s);
    SameCalls(Popped(d), Refused(d, s));
    forall x { TextSnoc(d.updates, u, x); }
  }

  lemma HeadIsNew(next: Sampler, d: Desk, s: nat)
    requires QueueOk(d) && StreamsOk(next, d) && d.commands != [] && d.commands[0] == AddCmd(s)
    ensures s in d.jobs && s !in d.live && LogOk(next, d.jobs[s], d.updates, s) && Text(d.updates, s) == []
    ensures !Closed(d.updates, s) && AddCmd(s) !in d.commands[1..]
    ensures forall k :: 0 <= k < |d.updates| ==> d.updates[k].stream != s
  {
    hide LogOk;
    NothingYet(next, d.jobs[s], d.updates, s);
    TailAt(d.commands);
  }

  lemma RefuseStreams(next: Sampler, d: Desk, s: nat)
    requires StreamsOk(next, d) && d.commands != [] && d.commands[0] == AddCmd(s) && s in d.jobs && s !in d.live
    requires var log := d.updates + [Update(s, [], Some(Failed), 0)];
      && LogOk(next, d.jobs[s], log, s) && Closed(log, s)
      && forall x :: x in d.jobs && x != s ==> LogOk(next, d.jobs[x], log, x) && (Closed(log, x) <==> Closed(d.updates, x))
    ensures StreamsOk(next, Refused(d, s))
  {
    hide LogOk, Closed;
    TailAt(d.commands);
  }

  lemma AcceptKeeps(next: Sampler, d: Desk, s: nat, rid: nat)
    requires Kept(next, d) && d.commands != [] && d.commands[0] == AddCmd(s) && rid !in d.byRid
    ensures Kept(next, Accepted(d, s, rid)) && s in d.jobs && Text(d.updates, s) == [] && s !in d.live
  {
    hide LogOk, Closed, StreamsOk, QueueOk, CallsOk, BooksOk, Text;
    HeadIsNew(next, d, s);
    AcceptBooks(d, s, rid);
    AcceptQueue(d, s, rid);
    PopCalls(d);
    SameCalls(Popped(d), Accepted(d, s, rid));
    AcceptStreams(next, d, s, rid);
  }

  lemma AcceptBooks(d: Desk, s: nat, rid: nat)
    requires BooksOk(d) && d.commands != [] && s in d.jobs && s !in d.live && rid !in d.byRid
    ensures BooksOk(Accepted(d, s, rid))
  {
  }

  lemma AcceptQueue(d: Desk, s: nat, rid: nat)
    requires QueueOk(d) && d.commands != [] && AddCmd(s) !in d.commands[1..]
    ensures QueueOk(Accepted(d, s, rid))
  {
    PopQueue(d);
  }

  lemma AcceptStreams(next: Sampler, d: Desk, s: nat, rid: nat)
    requires StreamsOk(next, d) && d.commands != [] && d.commands[0] == AddCmd(s) && !Closed(d.updates, s)
    ensures StreamsOk(next, Accepted(d, s, rid))
  {
    hide LogOk, Closed;
    TailAt(d.commands);
  }

  lemma SkipKeeps(next: Sampler, d: Desk)
    requires Kept(next, d) && d.commands != [] && d.commands[0].AbortCmd?
    ensures Kept(next, Popped(d))
  {
    hide LogOk, Closed;
    PopQueue(d);
    PopCalls(d);
    PopStreams(next, d);
  }

  lemma ReplyKeeps(next: Sampler, d: Desk, c: nat)
    requires Kept(next, d) && d.commands != [] && d.commands[0] == CallCmd(c)
    ensures Kept(next, Replied(d, c))
  {
    hide LogOk, Closed, StreamsOk, QueueOk, CallsOk;
    PopQueue(d);
    PopStreams(next, d);
    ReplyCalls(d, c);
    ReplyRest(next, Popped(d), Replied(d, c));
  }

  lemma ReplyRest(next: Sampler, d: Desk, d': Desk)
    requires QueueOk(d) && StreamsOk(next, d) && d' == d.(answered := d'.answered)
    ensures QueueOk(d') && StreamsOk(next, d')
  {
    hide LogOk, Closed;
  }

  lemma ReplyCalls(d: Desk, c: nat)
    requires CallsOk(d) && d.commands != [] && d.commands[0] == CallCmd(c)
    ensures CallsOk(Replied(d, c))
  {
    TailAt(d.commands);
  }

  lemma LiveNotQueued(next: Sampler, d: Desk, s: nat)
    requires Kept(next, d) && s in d.live
    ensures AddCmd(s) !in d.commands && s in d.jobs && !Closed(d.updates, s)
  {
    hide LogOk, Closed;
  }

  lemma CutKeeps(next: Sampler, d: Desk, s: nat, why: Reason)
    requires Kept(next, d) && s in d.live && (why == Aborted || why == Failed)
    ensures Kept(next, Cut(d, s, why)) && Closed(Cut(d, s, why).updates, s)
    ensures forall x :: x in d.live && x != s ==> Text(Cut(d, s, why).updates, x) == Text(d.updates, x)
  {
    SendKeeps(next, d, s, [], Some(why));
  }

  lemma SendKeeps(next: Sampler, d: Desk, s: nat, ids: seq<int>, finish: Option<Reason>)
    requires Kept(next, d) && s in d.live
    requires s in d.jobs ==> Text(d.updates, s) + ids <= WholeOf(next, d.jobs[s])
    requires s in d.jobs && (finish == Some(Stop) || finish == Some(Length)) ==>
      Text(d.updates, s) + ids == WholeOf(next, d.jobs[s]) && finish == Some(ReasonOf(WholeOf(next, d.jobs[s]), d.jobs[s].stops))
    ensures var d' := Sent(d, s, ids, finish);
      && Kept(next, d') && (finish.Some? ==> Closed(d'.updates, s)) && Text(d'.updates, s) == Text(d.updates, s) + ids
      && forall x :: x != s ==> Text(d'.updates, x) == Text(d.updates, x)
  {
    hide Closed, WholeOf, LogOk, BooksOk, QueueOk, CallsOk, StreamsOk;
    LiveNotQueued(next, d, s);
    SendBooks(d, s, ids, finish);
    SendQueue(d, s, ids, finish);
    SameCalls(d, Sent(d, s, ids, finish));
    SendStreams(next, d, s, ids, finish);
  }

  lemma SendBooks(d: Desk, s: nat, ids: seq<int>, finish: Option<Reason>)
    requires BooksOk(d) && s in d.live
    ensures BooksOk(Sent(d, s, ids, finish))
  {
  }

  lemma SendQueue(d: Desk, s: nat, ids: seq<int>, finish: Option<Reason>)
    requires QueueOk(d) && s in d.live && AddCmd(s) !in d.commands
    ensures QueueOk(Sent(d, s, ids, finish))
  {
  }

  lemma SameCalls(d: Desk, d': Desk)
    requires CallsOk(d) && d'.calls == d.calls && d'.commands == d.commands && d'.answered == d.answered
    ensures CallsOk(d')
  {
  }

  lemma SendStreams(next: Sampler, d: Desk, s: nat, ids: seq<int>, finish: Option<Reason>)
    requires StreamsOk(next, d) && s in d.live && s in d.jobs && !Closed(d.updates, s) && d.live[s].sent == |Text(d.updates, s)|
    requires Text(d.updates, s) + ids <= WholeOf(next, d.jobs[s])
    requires finish == Some(Stop) || finish == Some(Length) ==>
      Text(d.updates, s) + ids == WholeOf(next, d.jobs[s]) && finish == Some(ReasonOf(WholeOf(next, d.jobs[s]), d.jobs[s].stops))
    ensures var d' := Sent(d, s, ids, finish);
      && StreamsOk(next, d') && (finish.Some? ==> Closed(d'.updates, s)) && Text(d'.updates, s) == Text(d.updates, s) + ids
      && forall x :: x != s ==> Text(d'.updates, x) == Text(d.updates, x)
  {
    hide Closed, WholeOf, LogOk, StreamsOk, Text;
    if ids != [] || finish.Some? {
      var u := Update(s, ids, finish, d.live[s].sent + |ids|);
      KnownLog(next, d, s);
      OwnUpdate(next, d.jobs[s], d.updates, u, s);
      OthersKeep(next, d, u);
      forall x { TextSnoc(d.updates, u, x); }
      StreamsAfter(next, d, Sent(d, s, ids, finish), u);
    } else {
      StreamsSame(next, d, Sent(d, s, ids, finish));
    }
  }

  lemma KnownLog(next: Sampler, d: Desk, s: nat)
    requires StreamsOk(next, d) && s in d.jobs
    ensures LogOk(next, d.jobs[s], d.updates, s)
  {
  }

  lemma StreamsSame(next: Sampler, d: Desk, d': Desk)
    requires StreamsOk(next, d) && d'.jobs == d.jobs && d'.commands == d.commands && d'.updates == d.updates
    requires forall x :: x in d'.live <==> x in d.live
    ensures StreamsOk(next, d')
  {
    hide Closed, LogOk;
  }

  lemma StreamsAfter(next: Sampler, d: Desk, d': Desk, u: Update)
    requires StreamsOk(next, d) && d'.jobs == d.jobs && d'.commands == d.commands && d'.updates == d.updates + [u] && u.stream in d.jobs
    requires LogOk(next, d.jobs[u.stream], d'.updates, u.stream)
    requires u.stream in d'.live <==> !Closed(d'.updates, u.stream)
    requires forall x :: x in d.jobs && x != u.stream ==>
      && LogOk(next, d.jobs[x], d'.updates, x) && (Closed(d'.updates, x) <==> Closed(d.updates, x)) && (x in d'.live <==> x in d.live)
    ensures StreamsOk(next, d')
  {
    hide Closed, LogOk;
  }

  // ------------------------------------------------------------ the desk and the engine

  /** Every live stream's request is in the engine, and its tokens handed over are those read back. */
  ghost predicate Attached(sys: Sys, d: Desk) {
    forall s :: s in d.live ==>
      && s in d.jobs && UpToDate(sys, d.live[s])
      && Tracked(sys, d.jobs[s], d.live[s], Text(d.updates, s))
  }

  /** All that was read back of a request is handed over. */
  ghost predicate UpToDate(sys: Sys, l: Live) {
    l.rid in sys.reqs && l.sent == ReadyCount(sys.reqs[l.rid])
  }

  /** In the middle of publishing a step: what left it, or has news, is among the rows to come. */
  ghost predicate Publishing(sys: Sys, d: Desk, rids: seq<nat>, i: nat) {
    i <= |rids| &&
    forall s :: s in d.live ==>
      && s in d.jobs && (UpToDate(sys, d.live[s]) || d.live[s].rid in rids[i..])
      && Tracked(sys, d.jobs[s], d.live[s], Text(d.updates, s))
  }

  /** Every request of the engine belongs to a live stream, or was there before the server. */
  ghost predicate Claimed(sys: Sys, d: Desk, early: set<nat>) {
    forall r :: r in sys.reqs ==> r in d.byRid || r in early
  }

  lemma ClaimedStill(s0: Sys, s1: Sys, d: Desk, d': Desk, early: set<nat>)
    requires Claimed(s0, d, early) && s1.reqs.Keys <= s0.reqs.Keys && d'.byRid == d.byRid
    ensures Claimed(s1, d', early)
  {
  }

  lemma CarriedFewer(s0: Sys, s1: Sys)
    requires Carries(s0, s1)
    ensures s1.reqs.Keys <= s0.reqs.Keys
  {
  }

  /** `r` was aborted: it is in no queue, holds no KV, and its record says so. */
  ghost predicate AbortedIn(d: Sched, r: nat) {
    && r !in d.sys.reqs && r !in d.running && r !in d.waiting && r !in d.sys.kv.held
    && r in d.sys.done && d.sys.done[r].state == ABORTED
  }

  lemma LeftIsAborted(d: Sched, r: nat, q: Req)
    requires QueuesOk(d) && Inv(Left(d, r, q, ABORTED).sys)
    ensures AbortedIn(Left(d, r, q, ABORTED), r)
  {
    hide Released;
    RemoveDistinct(d.running, r);
    RemoveDistinct(d.waiting, r);
  }

  lemma StepToPublish(s0: Sys, s1: Sys, d: Desk, rids: seq<nat>)
    requires Attached(s0, d) && Carries(s0, s1) && s0.reqs.Keys !! s0.done.Keys
    requires forall x :: x in s0.reqs && x !in rids ==> x in s1.reqs && ReadyCount(s1.reqs[x]) == ReadyCount(s0.reqs[x])
    ensures Publishing(s1, d, rids, 0)
  {
    hide Tracked, Carries, Text;
    assert rids[0..] == rids;
    forall s | s in d.live ensures Tracked(s1, d.jobs[s], d.live[s], Text(d.updates, s)) {
      TrackedStays(s0, s1, d.jobs[s], d.live[s], Text(d.updates, s));
    }
  }

  lemma PublishedAll(sys: Sys, d: Desk, rids: seq<nat>)
    requires Publishing(sys, d, rids, |rids|)
    ensures Attached(sys, d)
  {
    hide Tracked, Text;
  }

  /** A row's stream, if it is live, gets what it has not got yet, and its end if its request finished. */
  ghost predicate RowSent(sys: Sys, d: Desk, d': Desk, rid: nat) {
    if rid !in d.byRid then d' == d
    else
      var s := d.byRid[rid];
      && s in d.live && (rid in sys.reqs || rid in sys.done)
      && var q := if rid in sys.reqs then sys.reqs[rid] else sys.done[rid];
      && d.live[s].sent <= |ReadyOf(q)|
      && d' == Sent(d, s, ReadyOf(q)[d.live[s].sent..], if q.state == FINISHED then Some(ReasonOf(q.output, q.stops)) else None)
  }

  /** The desk after the row of `rid`. */
  ghost function AfterRow(sys: Sys, d: Desk, rid: nat): Desk {
    if rid !in d.byRid || d.byRid[rid] !in d.live || (rid !in sys.reqs && rid !in sys.done) then d
    else
      var (s, q) := (d.byRid[rid], if rid in sys.reqs then sys.reqs[rid] else sys.done[rid]);
      if d.live[s].sent > |ReadyOf(q)| then d
      else Sent(d, s, ReadyOf(q)[d.live[s].sent..], if q.state == FINISHED then Some(ReasonOf(q.output, q.stops)) else None)
  }

  /** The desk after the first `i` rows of a batch that was read back, in order. */
  ghost function AfterRows(sys: Sys, d: Desk, rids: seq<nat>, i: nat): Desk
    requires i <= |rids|
  {
    if i == 0 then d else AfterRow(sys, AfterRows(sys, d, rids, i - 1), rids[i - 1])
  }

  /** The desk after everything that the batch read back has brought is handed over. */
  ghost function Delivered(sys: Sys, d: Desk, back: Option<Flight>): Desk {
    if back.Some? then AfterRows(sys, d, back.value.rids, |back.value.rids|) else d
  }

  /** Whatever came after the first `n` updates only says that its stream has failed. */
  ghost predicate OnlyFailures(log: seq<Update>, n: nat) {
    forall k :: n <= k < |log| ==> log[k].ids == [] && log[k].finish == Some(Failed)
  }

  lemma DeliveredIs(sys: Sys, d: Desk, back: Option<Flight>)
    ensures Delivered(sys, d, back) ==
      AfterRows(sys, d, if back.Some? then back.value.rids else [], if back.Some? then |back.value.rids| else 0)
  {
  }

  lemma RowSentIs(sys: Sys, d: Desk, d': Desk, rid: nat)
    requires RowSent(sys, d, d', rid)
    ensures d' == AfterRow(sys, d, rid)
  {
  }

  /** A request loses its stream only by leaving the engine. */
  lemma SentClaims(sys: Sys, d: Desk, d': Desk, rid: nat, early: set<nat>)
    requires Claimed(sys, d, early) && BooksOk(d) && RowSent(sys, d, d', rid)
    requires rid in sys.reqs ==> sys.reqs[rid].state != FINISHED
    ensures Claimed(sys, d', early)
  {
    hide ReadyOf;
  }

  lemma NotFinished(sys: Sys)
    requires Reachable(sys)
    ensures forall r :: r in sys.reqs ==> sys.reqs[r].state != FINISHED
  {
    hide Inv, Reachable;
    ReachableInv(sys);
    LiveStates(sys);
  }

  /** A row of no live stream. */
  lemma RowOfNone(sys: Sys, d: Desk, rids: seq<nat>, i: nat)
    requires Publishing(sys, d, rids, i) && i < |rids| && BooksOk(d) && rids[i] !in d.byRid
    ensures Publishing(sys, d, rids, i + 1)
  {
    hide Tracked, Text;
    assert rids[i..] == [rids[i]] + rids[i + 1..];
  }

  /** A row's stream was brought up to date. */
  lemma RowOfStream(sys: Sys, d: Desk, d': Desk, rids: seq<nat>, i: nat, s: nat, ids: seq<int>, finish: Option<Reason>)
    requires Publishing(sys, d, rids, i) && i < |rids| && BooksOk(d) && s in d.live && d.live[s].rid == rids[i]
    requires d' == Sent(d, s, ids, finish) && Text(d'.updates, s) == Text(d.updates, s) + ids
    requires forall x :: x != s ==> Text(d'.updates, x) == Text(d.updates, x)
    requires s in d'.live ==> UpToDate(sys, d'.live[s]) && s in d.jobs && Tracked(sys, d.jobs[s], d'.live[s], Text(d'.updates, s))
    ensures Publishing(sys, d', rids, i + 1)
  {
    hide Tracked, Text;
    assert rids[i..] == [rids[i]] + rids[i + 1..];
    forall x | x in d'.live ensures
      && x in d.jobs && (UpToDate(sys, d'.live[x]) || d'.live[x].rid in rids[i + 1..])
      && Tracked(sys, d.jobs[x], d'.live[x], Text(d'.updates, x))
    {
      if x != s { assert d'.live[x] == d.live[x] && d.live[x].rid != rids[i]; }
    }
  }

  /** What a row brings its stream: everything read back that was not handed over, and the end with
      its reason if the request has finished. */
  lemma RowNews(next: Sampler, sys: Sys, d: Desk, s: nat)
    requires Kept(next, d) && s in d.live && s in d.jobs && Reachable(sys) && sys.next == next
    requires Tracked(sys, d.jobs[s], d.live[s], Text(d.updates, s))
    ensures var (l, q) := (d.live[s], d.jobs[s]);
      && (l.rid in sys.reqs || l.rid in sys.done)
      && var q' := if l.rid in sys.reqs then sys.reqs[l.rid] else sys.done[l.rid];
      && l.sent <= |ReadyOf(q')| && q'.stops == q.stops
      && Text(d.updates, s) + ReadyOf(q')[l.sent..] == ReadyOf(q') <= WholeOf(next, q)
      && (q'.state == FINISHED <==> l.rid !in sys.reqs)
      && (q'.state == FINISHED ==> q'.output == ReadyOf(q') == WholeOf(next, q))
      && (l.rid in sys.reqs ==>
            UpToDate(sys, Live(l.rid, |ReadyOf(q')|)) && Tracked(sys, q, Live(l.rid, |ReadyOf(q')|), ReadyOf(q')))
  {
    hide Text, WholeOf, Closed, Reachable, QueueOk, CallsOk;
    KnownLog(next, d, s);
    ReadyIsSolo(sys, d.jobs[s], d.live[s], Text(d.updates, s));
  }

  /** A new request of the engine, and the rest as it was. */
  lemma AcceptAttaches(s0: Sys, s1: Sys, d: Desk, s: nat, rid: nat)
    requires Attached(s0, d) && d.commands != [] && s in d.jobs && s !in d.live && Text(d.updates, s) == []
    requires rid !in s0.reqs && rid in s1.reqs && SameJob(d.jobs[s], s1.reqs[rid]) && ReadyCount(s1.reqs[rid]) == 0
    requires s1.reqs == s0.reqs[rid := s1.reqs[rid]] && s1.done == s0.done
    ensures Attached(s1, Accepted(d, s, rid))
  {
    hide Text;
    var d' := Accepted(d, s, rid);
    forall x | x in d'.live ensures Tracked(s1, d'.jobs[x], d'.live[x], Text(d'.updates, x)) {
      if x != s { assert Tracked(s0, d.jobs[x], d.live[x], Text(d.updates, x)); }
    }
  }

  lemma RidUnused(sys: Sys, d: Desk, rid: nat)
    requires Attached(sys, d) && BooksOk(d) && rid !in sys.reqs
    ensures rid !in d.byRid
  {
  }

  /** One request left the engine with its stream. */
  lemma CutAttaches(s0: Sys, s1: Sys, d: Desk, d': Desk, s: nat)
    requires Attached(s0, d) && BooksOk(d) && s in d.live && d'.live == d.live - {s} && d'.jobs == d.jobs
    requires forall r :: r in s0.reqs && r != d.live[s].rid ==> r in s1.reqs && s1.reqs[r] == s0.reqs[r]
    requires forall x :: x in d.live && x != s ==> Text(d'.updates, x) == Text(d.updates, x)
    ensures Attached(s1, d')
  {
    hide Text;
    forall x | x in d'.live
      ensures d'.live[x].rid in s1.reqs && Tracked(s1, d'.jobs[x], d'.live[x], Text(d'.updates, x))
    {
      assert d.live[x].rid != d.live[s].rid;
      assert Tracked(s0, d.jobs[x], d.live[x], Text(d.updates, x));
    }
  }

  lemma SameTextAttaches(sys: Sys, d: Desk, d': Desk)
    requires Attached(sys, d) && d'.live == d.live && d'.jobs == d.jobs
    requires forall x :: x in d.live ==> Text(d'.updates, x) == Text(d.updates, x)
    ensures Attached(sys, d')
  {
    hide Text, Tracked;
  }

  /** The request of a stream is queued last. */
  ghost function Joining(d: Sched, rid: nat, q: Req): Sched {
    Arrived(d, rid, NewReq(q.prompt, q.maxNew, q.stops, q.seed))
  }

  class AsyncEngine {
    const eng: Engine
    /** The requests that the engine had before. */
    ghost const early: set<nat>
    /** What was asked for, by stream; streams and calls are numbered in the order of asking. */
    var jobs: map<nat, Req>
    var streams: nat
    var calls: nat
    var commands: seq<Cmd>
    var live: map<nat, Live>
    var byRid: map<nat, nat>
    /** What the event loop receives. */
    var updates: seq<Update>
    var answered: seq<nat>
    var dead: bool

    ghost function Seen(): Desk
      reads this
    {
      Desk(jobs, calls, commands, live, byRid, updates, answered, dead)
    }

    ghost predicate Valid()
      reads this, eng, eng.sched, eng.sched.kv, eng.sched.kv.allocator, eng.sched.kv.tree
    {
      && DeskOk(eng.next, Seen()) && (forall s :: s in jobs ==> s < streams)
      && (!dead ==> eng.Valid() && Attached(eng.sched.sys, Seen()) && Claimed(eng.sched.sys, Seen(), early))
    }

    constructor (eng: Engine)
      requires eng.Valid()
      ensures early == eng.sched.sys.reqs.Keys
      ensures Valid() && this.eng == eng && !dead && jobs == map[] && calls == 0 && commands == [] && updates == [] && answered == []
    {
      hide Engine.Valid;
      this.eng, early := eng, eng.sched.sys.reqs.Keys;
      jobs, streams, calls, commands, live, byRid, updates, answered, dead := map[], 0, 0, [], map[], map[], [], [], false;
    }

    // ---------------------------------------------------------- event loop side

    /** A new stream, unless the engine thread has died. */
    method Submit(prompt: seq<nat>, maxNew: nat, stops: set<nat>, seed: nat) returns (r: Result<nat>)
      requires Valid()
      modifies this`jobs, this`streams, this`commands
      ensures Valid() && (r.Err? <==> dead)
      ensures r.Err? ==> Seen() == old(Seen())
      ensures r.Ok? ==> r.value !in old(jobs) && Seen() == Submitted(old(Seen()), r.value, NewReq(prompt, maxNew, stops, seed))
    {
      hide DeskOk, Engine.Valid, Attached;
      if dead { return Err(RuntimeError); }
      var s := streams;
      SubmitKeeps(eng.next, Seen(), s, NewReq(prompt, maxNew, stops, seed));
      SubmitAttaches(eng.sched.sys, Seen(), s, NewReq(prompt, maxNew, stops, seed));
      jobs, streams, commands := jobs[s := NewReq(prompt, maxNew, stops, seed)], streams + 1, commands + [AddCmd(s)];
      r := Ok(s);
    }

    /** Asks to end a stream that was handed out; also after the engine thread's death. */
    method Abort(s: nat)
      requires Valid() && s in jobs
      modifies this`commands
      ensures Valid() && Seen() == Asked(old(Seen()), s)
    {
      hide DeskOk, Engine.Valid, Attached;
      AskKeeps(eng.next, Seen(), s);
      if !dead { SameTextAttaches(eng.sched.sys, Seen(), Asked(Seen(), s)); }
      commands := commands + [AbortCmd(s)];
    }

    /** Something to be run on the engine thread, unless it has died. */
    method Call() returns (r: Result<nat>)
      requires Valid()
      modifies this`calls, this`commands
      ensures Valid() && (r.Err? <==> dead)
      ensures r.Err? ==> Seen() == old(Seen())
      ensures r.Ok? ==> r.value == old(calls) && Seen() == Called(old(Seen()))
    {
      hide DeskOk, Engine.Valid, Attached;
      if dead { return Err(RuntimeError); }
      CallKeeps(eng.next, Seen());
      SameTextAttaches(eng.sched.sys, Seen(), Called(Seen()));
      r := Ok(calls);
      commands, calls := commands + [CallCmd(calls)], calls + 1;
    }

    // ---------------------------------------------------------- engine thread

    method Publish(u: Update)
      modifies this`updates
      ensures updates == old(updates) + [u]
    {
      updates := updates + [u];
    }

    method Forget(s: nat)
      requires s in live
      modifies this`live, this`byRid
      ensures live == old(live) - {s} && byRid == old(byRid) - {old(live)[s].rid}
    {
      byRid := byRid - {live[s].rid};
      live := live - {s};
    }

    method Pop() returns (cmd: Cmd)
      requires commands != []
      modifies this`commands
      ensures cmd == old(commands)[0] && commands == old(commands)[1..]
    {
      cmd := commands[0];
      commands := commands[1..];
    }

    /** A submission to the engine. */
    method Enter(q: Req) returns (r: Result<nat>)
      requires eng.Valid()
      modifies eng`nextRid, eng.sched`waiting, eng.sched`reqs, eng.sched`sys
      ensures eng.Valid() && eng.sched.sys.bs > 0 && eng.sched.c.tps >= 1
      ensures r == if Admissible(eng.sched.c, eng.sched.sys.bs, eng.sched.sys.kv.numBlocks, q.prompt, q.maxNew)
                   then Ok(old(eng.nextRid)) else Err(ValueError)
      ensures r.Err? ==> eng.sched.View() == old(eng.sched.View())
      ensures r.Ok? ==> eng.sched.View() == Arrived(old(eng.sched.View()), r.value, NewReq(q.prompt, q.maxNew, q.stops, q.seed))
      ensures r.Ok? ==>
        && r.value !in old(eng.sched.sys).reqs && eng.sched.sys.done == old(eng.sched.sys).done
        && eng.sched.sys.reqs == old(eng.sched.sys).reqs[r.value := NewReq(q.prompt, q.maxNew, q.stops, q.seed)]
    {
      hide Engine.Valid, Admissible;
      eng.NextUnused();
      r := eng.AddRequest(q.prompt, q.maxNew, q.stops, q.seed);
    }

    /** An add that the engine takes becomes live; one it rejects ends at once. */
    method HandleAdd(s: nat)
      requires Valid() && !dead && commands != [] && commands[0] == AddCmd(s)
      modifies this`commands, this`live, this`byRid, this`updates
      modifies eng`nextRid, eng.sched`waiting, eng.sched`reqs, eng.sched`sys
      ensures Valid() && !dead && s in jobs
      ensures eng.sched.sys.bs > 0 && eng.sched.c.tps >= 1
      ensures Seen() ==
        if Admissible(eng.sched.c, eng.sched.sys.bs, eng.sched.sys.kv.numBlocks, jobs[s].prompt, jobs[s].maxNew)
        then Accepted(old(Seen()), s, old(eng.nextRid)) else Refused(old(Seen()), s)
      ensures eng.sched.View() == if s in live then Joining(old(eng.sched.View()), old(eng.nextRid), jobs[s]) else old(eng.sched.View())
    {
      hide Kept, Engine.Valid, Attached, Admissible;
      ghost var (d, s0) := (Seen(), eng.sched.sys);
      HeadInJobs(eng.next, d, s);
      var r := Enter(jobs[s]);
      if r.Err? {
        RefuseKeeps(eng.next, d, s);
        Refuse(s);
        SameTextAttaches(eng.sched.sys, d, Seen());
      } else {
        RidUnused(s0, d, r.value);
        AcceptKeeps(eng.next, d, s, r.value);
        AcceptAttaches(s0, eng.sched.sys, d, s, r.value);
        Accept(s, r.value);
      }
    }

    method Refuse(s: nat)
      requires commands != []
      modifies this`commands, this`updates
      ensures Seen() == Refused(old(Seen()), s)
    {
      var cmd := Pop();
      Publish(Update(s, [], Some(Failed), 0));
    }

    method Accept(s: nat, rid: nat)
      requires commands != []
      modifies this`commands, this`live, this`byRid
      ensures Seen() == Accepted(old(Seen()), s, rid)
    {
      var cmd := Pop();
      live, byRid := live[s := Live(rid, 0)], byRid[rid := s];
    }

    /** An abort ends a live stream, after what was handed over; any other stream has its end already,
        because its add came first. */
    method HandleAbort(s: nat)
      requires Valid() && !dead && commands != [] && commands[0] == AbortCmd(s)
      modifies this`commands, this`live, this`byRid, this`updates
      modifies eng`done, eng.sched`reqs, eng.sched`nodes, eng.sched`sys, eng.sched`waiting, eng.sched`running
      modifies eng.sched.kv, eng.sched.kv.allocator, eng.sched.kv.tree
      ensures Valid() && !dead && Closed(updates, s)
      ensures Seen() == if s in old(live) then Cut(Popped(old(Seen())), s, Aborted) else Popped(old(Seen()))
      ensures if s in old(live) then AbortedIn(eng.sched.View(), old(live)[s].rid) else eng.sched.View() == old(eng.sched.View())
    {
      hide Kept, Engine.Valid, Attached, Engine.Tied, QueuesOk, Closed, Released, AbortedIn, Left;
      ghost var (d, s0) := (Seen(), eng.sched.sys);
      SkipKeeps(eng.next, d);
      var cmd := Pop();
      if s in live {
        CutKeeps(eng.next, Popped(d), s, Aborted);
        LiveThere(eng.next, s0, d, s);
        EndRequest(live[s].rid);
        CutStream(s, Aborted);
        CutAttaches(s0, eng.sched.sys, d, Seen(), s);
      } else {
        AbortedBefore(eng.next, d, s);
        SameTextAttaches(eng.sched.sys, d, Seen());
      }
    }

    /** The last update of a live stream. */
    method CutStream(s: nat, why: Reason)
      requires s in live
      modifies this`live, this`byRid, this`updates
      ensures Seen() == Cut(old(Seen()), s, why)
    {
      var l := live[s];
      Forget(s);
      Publish(Update(s, [], Some(why), l.sent));
    }

    method EndRequest(rid: nat)
      requires eng.Valid() && rid in eng.sched.sys.reqs
      modifies eng`done, eng.sched`reqs, eng.sched`nodes, eng.sched`sys, eng.sched`waiting, eng.sched`running
      modifies eng.sched.kv, eng.sched.kv.allocator, eng.sched.kv.tree
      ensures eng.Valid() && AbortedIn(eng.sched.View(), rid)
      ensures eng.sched.sys.reqs.Keys == old(eng.sched.sys).reqs.Keys - {rid}
      ensures forall r :: r in old(eng.sched.sys).reqs && r != rid ==>
        r in eng.sched.sys.reqs && eng.sched.sys.reqs[r] == old(eng.sched.sys).reqs[r]
    {
      hide Engine.Valid, Left, Engine.Tied, QueuesOk, Reachable, Inv, AbortedIn;
      ghost var v := eng.sched.View();
      eng.ValidParts();
      eng.Abort(rid);
      LeftAlone(v, rid, DropPending(v.sys.reqs[rid]), ABORTED);
      EngineRecords();
      ReachableInv(eng.sched.sys);
      LeftIsAborted(v, rid, DropPending(v.sys.reqs[rid]));
    }

    /** A call is answered between two steps. What it does with the engine leaves the requests alone. */
    method HandleCall(c: nat)
      requires Valid() && !dead && commands != [] && commands[0] == CallCmd(c)
      modifies this`commands, this`answered
      ensures Valid() && !dead && Seen() == Replied(old(Seen()), c)
    {
      hide Kept, Engine.Valid, Attached;
      ghost var d := Seen();
      ReplyKeeps(eng.next, d, c);
      SameTextAttaches(eng.sched.sys, d, Replied(d, c));
      Reply(c);
    }

    method Reply(c: nat)
      requires commands != []
      modifies this`commands, this`answered
      ensures Seen() == Replied(old(Seen()), c)
    {
      var cmd := Pop();
      answered := answered + [c];
    }

    /** `_handle`, first in first out. */
    method HandleNext()
      requires Valid() && !dead && commands != []
      modifies this`commands, this`live, this`byRid, this`updates, this`answered
      modifies eng`nextRid, eng`done, eng.sched`reqs, eng.sched`nodes, eng.sched`sys, eng.sched`waiting, eng.sched`running
      modifies eng.sched.kv, eng.sched.kv.allocator, eng.sched.kv.tree
      ensures Valid() && !dead && commands == old(commands)[1..] && old(updates) <= updates
      ensures match old(commands)[0]
        case AddCmd(s) =>
          if s in live then eng.sched.View() == Joining(old(eng.sched.View()), old(eng.nextRid), jobs[s])
          else Closed(updates, s) && eng.sched.View() == old(eng.sched.View())
        case AbortCmd(s) =>
          && Closed(updates, s)
          && if s in old(live) then AbortedIn(eng.sched.View(), old(live)[s].rid) else eng.sched.View() == old(eng.sched.View())
        case CallCmd(c) => c in answered && eng.sched.View() == old(eng.sched.View())
    {
      hide DeskOk, Engine.Valid, Attached, Closed, Admissible;
      match commands[0] {
        case AddCmd(s) =>
          ghost var d := Seen();
          HandleAdd(s);
          assert s in live || updates == d.updates + [Update(s, [], Some(Failed), 0)];
          ClosedSnoc(d.updates, Update(s, [], Some(Failed), 0), s);
        case AbortCmd(s) => HandleAbort(s);
        case CallCmd(c) => HandleCall(c);
      }
    }

    /** Hands over what row `i` of a read-back batch brought its stream. */
    method SendRow(ghost rids: seq<nat>, ghost i: nat, rid: nat)
      requires Kept(eng.next, Seen()) && !dead && eng.Valid() && Publishing(eng.sched.sys, Seen(), rids, i)
      requires i < |rids| && rids[i] == rid
      modifies this`live, this`byRid, this`updates
      ensures Kept(eng.next, Seen()) && !dead && Publishing(eng.sched.sys, Seen(), rids, i + 1)
      ensures RowSent(eng.sched.sys, old(Seen()), Seen(), rid) && BooksOk(old(Seen())) && old(updates) <= updates
    {
      hide Kept, Engine.Valid, Publishing, Engine.Tied, QueuesOk, Reachable, Text, WholeOf, Tracked, Closed;
      ghost var (d, sys) := (Seen(), eng.sched.sys);
      KeptBooks(eng.next, d);
      if rid !in byRid {
        RowOfNone(sys, d, rids, i);
        return;
      }
      var s := byRid[rid];
      var l := live[s];
      PublishingAt(sys, d, rids, i, s);
      EngineRecords();
      RowNews(eng.next, sys, d, s);
      var q := if rid in eng.sched.reqs then eng.sched.reqs[rid] else eng.done[rid];
      var ready := ReadyOf(q);
      var finish := if q.state == FINISHED then Some(ReasonOf(q.output, q.stops)) else None;
      SendKeeps(eng.next, d, s, ready[l.sent..], finish);
      if finish.Some? { Forget(s); } else { live := live[s := Live(rid, |ready|)]; }
      if |ready| > l.sent || finish.Some? { Publish(Update(s, ready[l.sent..], finish, |ready|)); }
      assert Seen() == Sent(d, s, ready[l.sent..], finish);
      RowOfStream(sys, d, Seen(), rids, i, s, ready[l.sent..], finish);
    }

    lemma EngineRecords()
      requires eng.Valid()
      ensures eng.sched.reqs == eng.sched.sys.reqs && eng.done == eng.sched.sys.done
      ensures Reachable(eng.sched.sys) && eng.sched.sys.next == eng.next && eng.sched.sys.reqs.Keys !! eng.sched.sys.done.Keys
    {
      hide Engine.Valid, Engine.Tied, Reachable, QueuesOk;
      eng.ValidParts();
      eng.TiedFacts();
      ReqsNotDone(eng.sched.sys);
    }

    /** One step of the engine, and its updates. If the step fails the engine thread dies. */
    method StepOnce()
      requires Valid() && !dead
      modifies this`commands, this`live, this`byRid, this`updates, this`answered, this`dead
      modifies eng`store, eng`inflight, eng`done, eng.sched`waiting, eng.sched`running, eng.sched`reqs, eng.sched`nodes, eng.sched`sys
      modifies eng.sched.kv, eng.sched.kv.allocator, eng.sched.kv.tree
      ensures Valid() && old(updates) <= updates && (!dead ==> commands == old(commands))
      ensures PolicyOk(PolicyOf(eng.sched.policy)) && QueuesOk(old(eng.sched.View()))
      ensures dead <==> old(eng.HasUnfinished()) && Cornered(eng.sched.c, PolicyOf(eng.sched.policy), old(eng.sched.View()))
      ensures dead ==> OnlyFailures(updates, |old(updates)|)
      ensures !old(eng.HasUnfinished()) ==> Seen() == old(Seen()) && eng.sched.View() == old(eng.sched.View())
      ensures !dead && old(eng.HasUnfinished()) ==> exists t, back ::
        && StepVia(eng.sched.c, PolicyOf(eng.sched.policy), eng.overlap, old(eng.sched.View()), old(eng.inflight), t,
                   eng.sched.View(), eng.inflight, back)
        && Seen() == Delivered(eng.sched.sys, old(Seen()), back)
    {
      hide Claimed, Delivered, OnlyFailures, DeskOk, Engine.Valid, Attached, Engine.Tied, QueuesOk, Carries, PolicyOk, PolicyOf, Cornered, StepVia,
           Engines.Advanced, Publishing, Reachable, Good, FlightOk, Shaping.Shaped, OthersWait;
      eng.ValidParts();
      NamedPolicyOk(eng.sched.policy);
      if !eng.HasUnfinished() { return; }
      ghost var (d, s0) := (Seen(), eng.sched.sys);
      DeskParts(eng.next, d);
      EngineRecords();
      var r := eng.Step();
      if r.Err? {
        Die();
        return;
      }
      ghost var t :| StepVia(eng.sched.c, PolicyOf(eng.sched.policy), eng.overlap, old(eng.sched.View()), old(eng.inflight), t,
                             eng.sched.View(), eng.inflight, r.value);
      CarriedFewer(s0, eng.sched.sys);
      ClaimedStill(s0, eng.sched.sys, d, d, early);
      Deliver(r.value, s0);
      assert StepVia(eng.sched.c, PolicyOf(eng.sched.policy), eng.overlap, old(eng.sched.View()), old(eng.inflight), t,
                     eng.sched.View(), eng.inflight, r.value);
    }

    /** Hands over what the batch read back has brought. */
    method Deliver(back: Option<Flight>, ghost s0: Sys)
      requires Kept(eng.next, Seen()) && !dead && eng.Valid() && Attached(s0, Seen()) && Claimed(eng.sched.sys, Seen(), early)
      requires Carries(s0, eng.sched.sys) && s0.reqs.Keys !! s0.done.Keys && OthersWait(s0, eng.sched.sys, back)
      modifies this`live, this`byRid, this`updates
      ensures DeskOk(eng.next, Seen()) && !dead && eng.Valid() && Attached(eng.sched.sys, Seen()) && Claimed(eng.sched.sys, Seen(), early)
      ensures Seen() == Delivered(eng.sched.sys, old(Seen()), back) && old(updates) <= updates
    {
      hide Kept, Engine.Valid, Attached, Publishing, Carries, Claimed, AfterRows;
      var rids := if back.Some? then back.value.rids else [];
      StepToPublish(s0, eng.sched.sys, Seen(), rids);
      SendRows(rids);
      PublishedAll(eng.sched.sys, Seen(), rids);
      DeliveredIs(eng.sched.sys, old(Seen()), back);
      DeskWhole(eng.next, Seen());
    }

    method SendRows(rids: seq<nat>)
      requires Kept(eng.next, Seen()) && !dead && eng.Valid() && Publishing(eng.sched.sys, Seen(), rids, 0)
      requires Claimed(eng.sched.sys, Seen(), early)
      modifies this`live, this`byRid, this`updates
      ensures Kept(eng.next, Seen()) && !dead && eng.Valid() && Publishing(eng.sched.sys, Seen(), rids, |rids|)
      ensures Claimed(eng.sched.sys, Seen(), early) && Seen() == AfterRows(eng.sched.sys, old(Seen()), rids, |rids|)
      ensures old(updates) <= updates
    {
      hide Kept, Engine.Valid, Publishing, Claimed, RowSent, Reachable, BooksOk, AfterRow;
      EngineRecords();
      NotFinished(eng.sched.sys);
      ghost var d0 := Seen();
      for i := 0 to |rids|
        invariant Kept(eng.next, Seen()) && !dead && eng.Valid() && Publishing(eng.sched.sys, Seen(), rids, i)
        invariant Claimed(eng.sched.sys, Seen(), early) && Seen() == AfterRows(eng.sched.sys, d0, rids, i)
        invariant old(updates) <= updates
      {
        ghost var d := Seen();
        SendRow(rids, i, rids[i]);
        RowSentIs(eng.sched.sys, d, Seen(), rids[i]);
        SentClaims(eng.sched.sys, d, Seen(), rids[i], early);
      }
    }

    /** The engine thread dies, for whatever reason: every live stream is ended, and whoever still
        waits in the queue is answered. */
    method Die()
      requires Kept(eng.next, Seen()) && !dead && forall s :: s in jobs ==> s < streams
      modifies this`commands, this`live, this`byRid, this`updates, this`answered, this`dead
      ensures Valid() && dead && old(updates) <= updates && OnlyFailures(updates, |old(updates)|)
      ensures (forall s :: s in jobs ==> Closed(updates, s)) && forall c: nat :: c < calls ==> c in answered
    {
      hide Kept, Closed;
      FailAll();
      Drain();
      DiedWhole(eng.next, Seen());
      dead := true;
    }

    method FailAll()
      requires Kept(eng.next, Seen()) && !dead
      modifies this`live, this`byRid, this`updates
      ensures Kept(eng.next, Seen()) && live == map[] && old(updates) <= updates && OnlyFailures(updates, |old(updates)|)
    {
      hide Kept, Closed;
      while live != map[]
        invariant Kept(eng.next, Seen()) && old(updates) <= updates && OnlyFailures(updates, |old(updates)|)
        decreases |live|
      {
        var s :| s in live;
        CutKeeps(eng.next, Seen(), s, Failed);
        Smaller(live, s);
        CutStream(s, Failed);
      }
    }

    method Drain()
      requires Kept(eng.next, Seen()) && live == map[]
      modifies this`commands, this`updates, this`answered
      ensures Kept(eng.next, Seen()) && commands == [] && old(updates) <= updates && OnlyFailures(updates, |old(updates)|)
    {
      hide Kept, Closed;
      while commands != []
        invariant Kept(eng.next, Seen()) && old(updates) <= updates && OnlyFailures(updates, |old(updates)|)
        decreases |commands|
      {
        ghost var d := Seen();
        match commands[0] {
          case AddCmd(s) =>
            RefuseKeeps(eng.next, d, s);
            Refuse(s);
          case AbortCmd(s) =>
            SkipKeeps(eng.next, d);
            var cmd := Pop();
            assert Seen() == Popped(d);
          case CallCmd(c) =>
            ReplyKeeps(eng.next, d, c);
            Reply(c);
        }
      }
    }
  }

  lemma LeftAlone(v: Sched, rid: nat, q: Req, end: State)
    ensures Left(v, rid, q, end).sys.reqs.Keys == v.sys.reqs.Keys - {rid}
    ensures forall r :: r in v.sys.reqs && r != rid ==>
      r in Left(v, rid, q, end).sys.reqs && Left(v, rid, q, end).sys.reqs[r] == v.sys.reqs[r]
  {
    hide Released;
  }

  lemma Smaller(m: map<nat, Live>, s: nat)
    requires s in m
    ensures |m - {s}| < |m|
  {
    assert m.Keys == (m - {s}).Keys + {s};
    assert |m| == |m.Keys| && |m - {s}| == |(m - {s}).Keys|;
  }

  lemma DiedWhole(next: Sampler, d: Desk)
    requires Kept(next, d) && d.live == map[] && d.commands == []
    ensures DeskOk(next, d.(dead := true))
    ensures (forall s :: s in d.jobs ==> Closed(d.updates, s)) && forall c: nat :: c < d.calls ==> c in d.answered
  {
    hide LogOk, Closed;
  }

  lemma DeskParts(next: Sampler, d: Desk)
    requires DeskOk(next, d)
    ensures Kept(next, d)
  {
  }

  lemma DeskWhole(next: Sampler, d: Desk)
    requires Kept(next, d) && !d.dead
    ensures DeskOk(next, d)
  {
  }

  lemma ReqsNotDone(sys: Sys)
    requires Reachable(sys)
    ensures sys.reqs.Keys !! sys.done.Keys
  {
    ReachableInv(sys);
  }

  lemma KeptBooks(next: Sampler, d: Desk)
    requires Kept(next, d)
    ensures BooksOk(d)
  {
  }

  lemma PublishingAt(sys: Sys, d: Desk, rids: seq<nat>, i: nat, s: nat)
    requires Publishing(sys, d, rids, i) && s in d.live
    ensures s in d.jobs && Tracked(sys, d.jobs[s], d.live[s], Text(d.updates, s))
  {
  }

  lemma LiveThere(next: Sampler, sys: Sys, d: Desk, s: nat)
    requires Kept(next, d) && Attached(sys, d) && s in d.live
    ensures d.live[s].rid in sys.reqs && BooksOk(d)
  {
    hide Tracked;
  }

  /** The add of a stream is handled before any abort of it. */
  lemma AbortedBefore(next: Sampler, d: Desk, s: nat)
    requires Kept(next, d) && d.commands != [] && d.commands[0] == AbortCmd(s) && s !in d.live
    ensures Closed(d.updates, s)
  {
    hide LogOk, Closed;
    assert d.commands[0].stream in d.jobs;
  }

  lemma SubmitAttaches(sys: Sys, d: Desk, s: nat, q: Req)
    requires Attached(sys, d) && s !in d.jobs
    ensures Attached(sys, Submitted(d, s, q))
  {
    hide Text, Tracked;
  }

  lemma HeadInJobs(next: Sampler, d: Desk, s: nat)
    requires Kept(next, d) && d.commands != [] && d.commands[0] == AddCmd(s)
    ensures s in d.jobs && BooksOk(d)
  {
    hide StreamsOk, CallsOk;
  }
}

/** A request: what the host knows of it, and beside it what the device has computed for it so far.
    `output` ends in one placeholder per token that was sampled and not read back; `unread` are
    those tokens on the device, `written` is how many positions of the table carry computed KV, and
    `row` is the result of its row in the pass in progress. The host never branches on these. */
module Requests {
  import opened Common
  import opened BlockTables
  import opened Device

  datatype State = WAITING | PREFILL | DECODE | FINISHED | ABORTED

  /** Result of the request's row in the pass that is being launched. */
  datatype Row = Idle | Sampled(tok: nat) | Verified(proposals: seq<nat>, chosen: seq<nat>)

  const PLACEHOLDER: int := -1

  datatype Req = Req(
    prompt: seq<nat>, maxNew: nat, stops: set<nat>, seed: nat,
    output: seq<int>, state: State, table: Option<Table>, numCached: nat,
    pending: nat, preemptions: nat,
    written: nat, row: Row, unread: seq<nat>)

  /** A request as submitted. */
  function NewReq(prompt: seq<nat>, maxNew: nat, stops: set<nat>, seed: nat): Req {
    Req(prompt, maxNew, stops, seed, [], WAITING, None, 0, 0, 0, 0, Idle, [])
  }

  function SeqLen(q: Req): nat {
    |q.prompt| + |q.output|
  }

  /** Prompt and output as the host sees them, placeholders included. */
  function Tokens(q: Req): seq<int> {
    q.prompt + q.output
  }

  function ReadyLen(q: Req): nat
    requires q.pending <= |q.output|
  {
    |q.output| - q.pending
  }

  /** `ready_ids`: output read back so far. */
  function ReadyIds(q: Req): seq<int>
    requires q.pending <= |q.output|
  {
    q.output[..ReadyLen(q)]
  }

  predicate ReachedMax(q: Req) {
    |q.output| >= q.maxNew
  }

  /** Decoding and with tokens left to produce. */
  predicate Decodes(q: Req) {
    q.state == DECODE && !ReachedMax(q)
  }

  /** Has sampled its last token and waits for it to be read back. */
  predicate Spent(q: Req) {
    q.state == DECODE && ReachedMax(q)
  }

  function DropPending(q: Req): Req
    requires q.pending <= |q.output|
  {
    q.(output := ReadyIds(q), pending := 0, unread := [])
  }

  /** The transition table of the request state machine. */
  predicate MayGo(a: State, b: State) {
    match a
    case WAITING => b == PREFILL || b == ABORTED || b == FINISHED
    case PREFILL => b == DECODE || b == FINISHED || b == ABORTED || b == WAITING
    case DECODE => b == FINISHED || b == ABORTED || b == WAITING
    case FINISHED => false
    case ABORTED => false
  }

  /** Tokens `start .. start + n` of prompt and output, without joining the two. */
  function TokenSlice(q: Req, start: nat, n: nat): seq<int>
    requires start + n <= SeqLen(q)
  {
    var p := |q.prompt|;
    if start >= p then q.output[start - p..start - p + n]
    else if start + n <= p then q.prompt[start..start + n]
    else q.prompt[start..] + q.output[..start + n - p]
  }

  lemma TokenSliceIs(q: Req, start: nat, n: nat)
    requires start + n <= SeqLen(q)
    ensures TokenSlice(q, start, n) == Tokens(q)[start..start + n]
  {
  }

  /** The input tokens of a row, with every placeholder replaced by the sampled token on the device. */
  function DeviceTokens(q: Req): seq<int>
    requires q.pending <= |q.output|
  {
    q.prompt + ReadyIds(q) + q.unread
  }
}

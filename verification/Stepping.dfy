/** One step of the engine on values: what was planned, what was launched, and which flight was read
    back. */
module Stepping {
  import opened Common
  import opened BlockTables
  import opened Requests
  import opened Machine
  import opened MachineTheorems
  import opened Scheduling
  import opened ScheduleSafe
  import opened Launching
  import opened ReadingBack

  /** The middle of a step: the schedule, and the state after its batch was launched. */
  datatype Turn = Turn(planned: Sched, batch: Option<Batch>, after: Sched, launched: Option<Flight>)

  /** The batch was launched: every row's request has its new tokens computed and, if they end its
      sequence, a placeholder; the flight says for each row which output slot that is and which token
      belongs there; and what was prefilled is cached for others. */
  ghost predicate LaunchedAs(t: Turn) {
    && t.after.waiting == t.planned.waiting && t.after.running == t.planned.running
    && t.after.sys.bs == t.planned.sys.bs
    && (t.launched.Some? <==> t.batch.Some?)
    && if t.batch.None? then t.after == t.planned
       else
         && Reachable(t.after.sys)
         && AllLaunched(t.planned.sys.bs, t.planned.sys.reqs, t.after.sys.reqs, t.batch.value.rows)
         && FlightOf(t.launched.value, t.planned.sys.reqs, t.after.sys.reqs, t.batch.value.rows)
         && CacheAfter(t.planned.sys, t.after.sys, t.batch.value.rows)
  }

  ghost function ReadBackOf(d: Sched, back: Option<Flight>): Sched {
    if back.Some? then ReadFrom(d, back.value, 0) else d
  }

  /** One step from `d` with `f` in flight to `d'` with `f'` in flight. The scheduler's batch was
      launched, and then the tokens of `back` were read back: with overlap those of the batch that
      was in flight before, without it those of the batch just launched. */
  ghost predicate StepVia(c: Config, p: Policy, overlap: bool, d: Sched, f: Option<Flight>, t: Turn,
                          d': Sched, f': Option<Flight>, back: Option<Flight>)
    requires PolicyOk(p) && QueuesOk(d)
  {
    && Schedule(c, p, d) == Plan(t.planned, t.batch)
    && LaunchedAs(t)
    && back == (if overlap then f else t.launched)
    && f' == (if overlap then t.launched else None)
    && d' == ReadBackOf(t.after, back)
  }
}

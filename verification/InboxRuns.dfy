/**
 The worker's main loop over the inbox as a state machine: any number of workers, each with its own
 place in the loop, one atomic step per statement or transaction, and a kill possible between any two.

 Direct commands, the model and the clock are the environment's choices. The circuit breaker only skips
 turns of the loop and is left to its own module.
 */
module InboxRuns {
  import opened Options
  import opened Control
  import opened InboxTable
  import opened Stall

  const NO_PROGRESS_K := 3

  /** What the environment supplies: the source's updates, in order, and the configured retries. */
  datatype Setup = Setup(feed: seq<Update>, maxRetries: int)

  /** Where a worker is. `offset` is its in-memory polling offset; `task` and `attempts` what it claimed. */
  datatype Proc =
    | Gone
    | Head(offset: int)
    | Batch(offset: int, updates: seq<Update>)
    | Storing(offset: int, update: Update, updates: seq<Update>)
    | Claiming(offset: int)
    | Working(offset: int, task: nat, attempts: int)
    | Failing(offset: int, task: nat, attempts: int)
    | Scheduling(offset: int, task: nat, fp: string)
    | Exhausting(offset: int, task: nat)

  datatype Claim = Claim(task: nat, at: int)

  /**
   The durable state (rows and the retry events), the workers, the source's memory of confirmed updates
   and the clock; the rest is a record of the past that no step reads: the claims made, the failures that
   were left without a retry event, and the tasks claimed while another worker was still filing their
   last failure, whose events left the window, or whose fingerprint changed.
   */
  datatype World = World(
    rows: seq<Task>, log: seq<Retry>, procs: seq<Proc>, confirmed: int, clock: int,
    claims: seq<Claim>, unfiled: seq<nat>, overlapped: set<nat>, slipped: set<nat>, varied: set<nat>)

  const EMPTY := World([], [], [], 0, 0, [], [], {}, {}, {})

  datatype Action =
    | Start
    | Kill(p: nat)
    | Poll(p: nat, from: int, count: nat)
    | Take(p: nat)
    | Store(p: nat, now: int)
    | ClaimNext(p: nat, pick: Option<nat>, now: int, stamp: int)
    | Finish(p: nat, now: int)
    | FailDirect(p: nat, now: int)
    | Fail(p: nat, now: int)
    | Check(p: nat, fp: string)
    | File(p: nat)
    | Exhaust(p: nat, now: int)

  /** The first `count` updates of the feed with ids from `from` on. */
  function Polled(feed: seq<Update>, from: int, count: nat): seq<Update>
    decreases |feed|
  {
    if feed == [] || count == 0 then []
    else if feed[0].id < from then Polled(feed[1..], from, count)
    else [feed[0]] + Polled(feed[1..], from, count - 1)
  }

  /** The worker has a failure of the task marked but not yet filed as scheduled or exhausted. */
  predicate Filing(proc: Proc, task: nat) {
    (proc.Failing? || proc.Scheduling? || proc.Exhausting?) && proc.task == task
  }

  predicate AnyFiling(procs: seq<Proc>, task: nat) {
    exists p :: 0 <= p < |procs| && Filing(procs[p], task)
  }

  function At(w: World, p: nat, proc: Proc): World
    requires p < |w.procs|
  {
    w.(procs := w.procs[p := proc])
  }

  function Marked(w: World, task: nat, status: TaskStatus, now: int): World {
    if task < |w.rows| then
      w.(rows := w.rows[task := w.rows[task].(status := status, updatedAt := now)], clock := now)
    else w
  }

  /** One step of worker p at its current place. */
  function Move(s: Setup, w: World, a: Action): World
    requires !a.Start? && a.p < |w.procs|
  {
    var proc := w.procs[a.p];
    match a
    case Kill(p) =>
      var v := At(w, p, Gone);
      if proc.Failing? || proc.Scheduling? || proc.Exhausting? then v.(unfiled := w.unfiled + [proc.task]) else v
    case Poll(p, from, count) =>
      // The source may or may not have dropped the updates below the highest offset it was asked for.
      if proc.Head? && (from == proc.offset || proc.offset <= from <= w.confirmed) then
        At(w, p, Batch(proc.offset, Polled(s.feed, from, count)))
          .(confirmed := if w.confirmed < proc.offset then proc.offset else w.confirmed)
      else w
    case Take(p) =>
      if !proc.Batch? then w
      else if proc.updates == [] then At(w, p, Claiming(proc.offset))
      else
        var u := proc.updates[0];
        if HasText(u) then At(w, p, Storing(u.id + 1, u, proc.updates[1..]))
        else At(w, p, Batch(u.id + 1, proc.updates[1..]))
    case Store(p, now) =>
      if proc.Storing? && HasText(proc.update) && now >= w.clock then
        At(w, p, Batch(proc.offset, proc.updates)).(rows := Enqueued(w.rows, proc.update, now), clock := now)
      else w
    case ClaimNext(p, pick, now, stamp) =>
      if proc.Claiming? && w.clock <= now <= stamp && MayPick(w.rows, s.maxRetries, now, pick) then
        match pick
        case None => At(w, p, Head(proc.offset)).(clock := stamp)
        case Some(i) =>
          At(w, p, Working(proc.offset, i, w.rows[i].attempts + 1))
            .(rows := w.rows[i := Claimed(w.rows[i], stamp)],
              clock := stamp,
              claims := w.claims + [Claim(i, now)],
              overlapped := if AnyFiling(w.procs, i) then w.overlapped + {i} else w.overlapped)
      else w
    case Finish(p, now) =>
      if proc.Working? && now >= w.clock then Marked(At(w, p, Head(proc.offset)), proc.task, Done, now) else w
    case FailDirect(p, now) =>
      if proc.Working? && now >= w.clock then
        Marked(At(w, p, Head(proc.offset)), proc.task, Failed, now).(unfiled := w.unfiled + [proc.task])
      else w
    case Fail(p, now) =>
      if proc.Working? && now >= w.clock then
        Marked(At(w, p, Failing(proc.offset, proc.task, proc.attempts)), proc.task, Failed, now)
      else w
    case Check(p, fp) =>
      if !proc.Failing? || fp == "" then w
      else if !ShouldRetry(s.maxRetries, proc.attempts) then At(w, p, Head(proc.offset))
      else
        var i := proc.task;
        var v := w.(
          slipped := if |OwnFps(Window(w.log), i)| < |OwnFps(w.log, i)|
                        && |OwnFps(Window(w.log), i)| < NO_PROGRESS_K - 1
                     then w.slipped + {i} else w.slipped,
          varied := if exists k :: 0 <= k < |OwnFps(w.log, i)| && OwnFps(w.log, i)[k] != fp
                    then w.varied + {i} else w.varied);
        if Stalled(w.log, i, fp, NO_PROGRESS_K) then At(v, p, Exhausting(proc.offset, i))
        else At(v, p, Scheduling(proc.offset, i, fp))
    case File(p) =>
      if proc.Scheduling? then
        At(w, p, Head(proc.offset)).(log := w.log + [Retry(Some(proc.task), proc.fp)])
      else w
    case Exhaust(p, now) =>
      if proc.Exhausting? && now >= w.clock && proc.task < |w.rows| then
        At(w, p, Head(proc.offset))
          .(rows := w.rows[proc.task := w.rows[proc.task].(status := Failed,
                                                           attempts := SpentAttempts(s.maxRetries), updatedAt := now)],
            clock := now)
      else w
  }

  /** A new worker derives its offset from the inbox; every other action moves one worker. */
  function Step(s: Setup, w: World, a: Action): World {
    if a.Start? then w.(procs := w.procs + [Head(OffsetOf(w.rows))])
    else if a.p < |w.procs| then Move(s, w, a)
    else w
  }

  function Run(s: Setup, w: World, acts: seq<Action>): World
    decreases |acts|
  {
    if acts == [] then w else Run(s, Step(s, w, acts[0]), acts[1..])
  }

  // ------------------------------------------------------ one worker at a time

  predicate AllGone(procs: seq<Proc>) {
    forall p :: 0 <= p < |procs| ==> procs[p].Gone?
  }

  predicate AtMostOne(procs: seq<Proc>) {
    forall p, q :: 0 <= p < q < |procs| ==> procs[p].Gone? || procs[q].Gone?
  }

  /** Workers are only started when every earlier one is gone. */
  ghost predicate OneAtATime(s: Setup, w: World, acts: seq<Action>)
    decreases |acts|
  {
    acts == [] || ((acts[0].Start? ==> AllGone(w.procs)) && OneAtATime(s, Step(s, w, acts[0]), acts[1..]))
  }
}

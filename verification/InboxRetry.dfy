/**
 How often and when a task is claimed, over every run of the workers: a bounded number of times, never
 again once it is done or given up, and never before its backoff is over.
 */
module InboxRetry {
  import opened Options
  import opened Control
  import opened InboxTable
  import opened InboxRuns
  import Stall

  /** The times at which a task was claimed, in order. */
  function ClaimTimes(claims: seq<Claim>, task: nat): seq<int> {
    if claims == [] then []
    else
      var last := claims[|claims| - 1];
      ClaimTimes(claims[..|claims| - 1], task) + if last.task == task then [last.at] else []
  }

  /** The task is done or has used up its attempts. */
  predicate Closed(t: Task, maxRetries: int) {
    t.status == Done || (t.status == Failed && t.attempts == SpentAttempts(maxRetries))
  }

  /**
   What is true of one row and its past claims: the attempts count the claims unless the task was given
   up, and every claim but the first waited for the backoff of the attempts before it.
   */
  predicate PastOk(t: Task, times: seq<int>, maxRetries: int, clock: int) {
    && |times| <= SpentAttempts(maxRetries)
    && (t.attempts == |times| || t.attempts == SpentAttempts(maxRetries))
    && (t.status == Queued <==> times == [])
    && (times == [] ==> t.attempts == 0)
    && (times != [] ==> times[|times| - 1] <= t.updatedAt)
    && t.updatedAt <= clock
    && forall k :: 0 < k < |times| ==> times[k] >= times[k - 1] + RetryBackoffSeconds(k)
  }

  predicate InHand(t: Task, maxRetries: int) {
    t.status == InProgress || (t.status == Failed && t.attempts == SpentAttempts(maxRetries))
  }

  /** A task some worker is on is in progress, unless another worker gave it up meanwhile. */
  predicate HeldOk(rows: seq<Task>, proc: Proc, maxRetries: int) {
    && (proc.Working? ==> (proc.task < |rows| && InHand(rows[proc.task], maxRetries)))
    && ((proc.Failing? || proc.Scheduling? || proc.Exhausting?) ==>
          (proc.task < |rows| && rows[proc.task].status != Queued))
  }

  ghost predicate RetryOk(maxRetries: int, w: World) {
    && (forall i :: 0 <= i < |w.rows| ==> PastOk(w.rows[i], ClaimTimes(w.claims, i), maxRetries, w.clock))
    && (forall c :: c in w.claims ==> c.task < |w.rows|)
    && (forall p :: 0 <= p < |w.procs| ==> HeldOk(w.rows, w.procs[p], maxRetries))
    && forall p, q :: 0 <= p < q < |w.procs| && w.procs[p].Working? && w.procs[q].Working? ==>
         w.procs[p].task != w.procs[q].task
  }

  // -------------------------------------------------------------- every step

  lemma ClaimTimesAppend(claims: seq<Claim>, c: Claim, task: nat)
    ensures ClaimTimes(claims + [c], task) == ClaimTimes(claims, task) + if c.task == task then [c.at] else []
  {
    assert (claims + [c])[..|claims|] == claims;
  }

  lemma {:induction false} NeverClaimed(claims: seq<Claim>, task: nat)
    requires forall c :: c in claims ==> c.task != task
    ensures ClaimTimes(claims, task) == []
  {
    if claims != [] {
      assert claims[|claims| - 1] in claims;
      NeverClaimed(claims[..|claims| - 1], task);
    }
  }

  lemma PickIsOpen(rows: seq<Task>, i: nat, times: seq<int>, maxRetries: int, now: int, clock: int)
    requires MayPick(rows, maxRetries, now, Some(i)) && PastOk(rows[i], times, maxRetries, clock)
    ensures rows[i].status == Queued || rows[i].status == Failed
    ensures !Closed(rows[i], maxRetries)
    ensures rows[i].attempts == |times| < SpentAttempts(maxRetries)
    ensures times != [] ==> now - rows[i].updatedAt >= RetryBackoffSeconds(|times|)
  {
  }

  lemma ClaimKeepsPast(t: Task, times: seq<int>, maxRetries: int, clock: int, now: int, stamp: int)
    requires PastOk(t, times, maxRetries, clock) && clock <= now <= stamp
    requires t.attempts == |times| < SpentAttempts(maxRetries)
    requires times != [] ==> now - t.updatedAt >= RetryBackoffSeconds(|times|)
    ensures PastOk(Claimed(t, stamp), times + [now], maxRetries, stamp)
  {
  }

  lemma ClaimStepKeeps(s: Setup, w: World, p: nat, i: nat, now: int, stamp: int)
    requires RetryOk(s.maxRetries, w) && p < |w.procs| && w.procs[p].Claiming?
    requires w.clock <= now <= stamp && MayPick(w.rows, s.maxRetries, now, Some(i))
    ensures RetryOk(s.maxRetries, Move(s, w, ClaimNext(p, Some(i), now, stamp)))
  {
    PickIsOpen(w.rows, i, ClaimTimes(w.claims, i), s.maxRetries, now, w.clock);
    ClaimKeepsPast(w.rows[i], ClaimTimes(w.claims, i), s.maxRetries, w.clock, now, stamp);
    hide AnyFiling, RetryOk, PastOk, ClaimTimes, Eligible, AnyQueued, RetryReady;
    ClaimKeeps(s.maxRetries, w, Move(s, w, ClaimNext(p, Some(i), now, stamp)), p, i, now);
  }

  lemma ClaimKeeps(maxRetries: int, w: World, v: World, p: nat, i: nat, now: int)
    requires RetryOk(maxRetries, w) && i < |w.rows|
    requires !Closed(w.rows[i], maxRetries) && w.rows[i].status in {Queued, Failed}
    requires p < |w.procs| && |v.procs| == |w.procs| && v.procs == w.procs[p := v.procs[p]]
    requires v.procs[p].Working? && v.procs[p].task == i
    requires v.rows == w.rows[i := Claimed(w.rows[i], v.clock)] && v.clock >= w.clock
    requires v.claims == w.claims + [Claim(i, now)]
    requires PastOk(v.rows[i], ClaimTimes(w.claims, i) + [now], maxRetries, v.clock)
    ensures RetryOk(maxRetries, v)
  {
    hide ClaimTimes;
    forall j | 0 <= j < |v.rows|
      ensures PastOk(v.rows[j], ClaimTimes(v.claims, j), maxRetries, v.clock)
    {
      ClaimTimesAppend(w.claims, Claim(i, now), j);
      PastStays(w.rows[j], ClaimTimes(w.claims, j), maxRetries, w.clock, v.clock);
    }
    forall q | 0 <= q < |v.procs|
      ensures HeldOk(v.rows, v.procs[q], maxRetries)
      ensures q != p && w.procs[q].Working? ==> w.procs[q].task != i
    {
      assert HeldOk(w.rows, w.procs[q], maxRetries);
    }
  }

  lemma PastStays(t: Task, times: seq<int>, maxRetries: int, clock: int, later: int)
    requires PastOk(t, times, maxRetries, clock) && clock <= later
    ensures PastOk(t, times, maxRetries, later)
  {
  }

  lemma StoreStepKeeps(s: Setup, w: World, p: nat, now: int)
    requires RetryOk(s.maxRetries, w) && p < |w.procs|
    ensures RetryOk(s.maxRetries, Move(s, w, Store(p, now)))
  {
    var v := Move(s, w, Store(p, now));
    forall j | 0 <= j < |v.rows|
      ensures PastOk(v.rows[j], ClaimTimes(v.claims, j), s.maxRetries, v.clock)
    {
      StoredRowOk(s, w, p, now, j);
    }
    hide Knows, HasText, PastOk, ClaimTimes;
    forall q | 0 <= q < |w.procs|
      ensures HeldOk(v.rows, w.procs[q], s.maxRetries)
    {
      assert HeldOk(w.rows, w.procs[q], s.maxRetries);
    }
  }

  lemma StoredRowOk(s: Setup, w: World, p: nat, now: int, j: nat)
    requires RetryOk(s.maxRetries, w) && p < |w.procs| && j < |Move(s, w, Store(p, now)).rows|
    ensures var v := Move(s, w, Store(p, now));
            PastOk(v.rows[j], ClaimTimes(v.claims, j), s.maxRetries, v.clock)
  {
    hide Knows, HasText;
    if j == |w.rows| {
      NeverClaimed(w.claims, j);
    } else {
      assert PastOk(w.rows[j], ClaimTimes(w.claims, j), s.maxRetries, w.clock);
    }
  }

  /** Marking a row, by the worker that holds it or by one that gives it up. */
  lemma MarkKeeps(maxRetries: int, w: World, v: World, p: nat, i: nat)
    requires RetryOk(maxRetries, w)
    requires p < |w.procs| && |v.procs| == |w.procs| && v.procs == w.procs[p := v.procs[p]]
    requires !v.procs[p].Working?
    requires (v.procs[p].Failing? || v.procs[p].Scheduling? || v.procs[p].Exhausting?) ==> v.procs[p].task == i
    requires i < |w.rows| && |v.rows| == |w.rows| && v.rows == w.rows[i := v.rows[i]]
    requires v.claims == w.claims && v.clock >= w.clock && v.rows[i].updatedAt == v.clock
    requires v.rows[i].status in {Done, Failed}
    requires
      || (w.procs[p].Working? && w.procs[p].task == i && v.rows[i].attempts == w.rows[i].attempts)
      || (w.procs[p].Exhausting? && w.procs[p].task == i
          && v.rows[i].status == Failed && v.rows[i].attempts == SpentAttempts(maxRetries))
    ensures RetryOk(maxRetries, v)
  {
    assert HeldOk(w.rows, w.procs[p], maxRetries);
    forall j | 0 <= j < |v.rows|
      ensures PastOk(v.rows[j], ClaimTimes(v.claims, j), maxRetries, v.clock)
    {
      assert PastOk(w.rows[j], ClaimTimes(w.claims, j), maxRetries, w.clock);
    }
    forall q | 0 <= q < |v.procs|
      ensures HeldOk(v.rows, v.procs[q], maxRetries)
    {
      assert HeldOk(w.rows, w.procs[q], maxRetries);
    }
  }

  /** Moving without touching rows or claims, and without taking up a task. */
  lemma IdleKeeps(maxRetries: int, w: World, v: World, p: nat)
    requires RetryOk(maxRetries, w)
    requires p < |w.procs| && |v.procs| == |w.procs| && v.procs == w.procs[p := v.procs[p]]
    requires v.rows == w.rows && v.claims == w.claims && v.clock >= w.clock
    requires !v.procs[p].Working? && !v.procs[p].Failing?
    requires v.procs[p].Scheduling? || v.procs[p].Exhausting? ==>
               w.procs[p].Failing? && w.procs[p].task == v.procs[p].task
    ensures RetryOk(maxRetries, v)
  {
    forall j | 0 <= j < |v.rows|
      ensures PastOk(v.rows[j], ClaimTimes(v.claims, j), maxRetries, v.clock)
    {
      assert PastOk(w.rows[j], ClaimTimes(w.claims, j), maxRetries, w.clock);
    }
    forall q | 0 <= q < |v.procs|
      ensures HeldOk(v.rows, v.procs[q], maxRetries)
    {
      assert HeldOk(w.rows, w.procs[q], maxRetries);
    }
  }

  lemma MarkStepKeeps(s: Setup, w: World, a: Action)
    requires RetryOk(s.maxRetries, w)
    requires (a.Finish? || a.FailDirect? || a.Fail? || a.Exhaust?) && a.p < |w.procs|
    ensures RetryOk(s.maxRetries, Step(s, w, a))
  {
    var v := Step(s, w, a);
    var proc := w.procs[a.p];
    if v != w {
      assert HeldOk(w.rows, proc, s.maxRetries);
      hide RetryOk;
      MarkKeeps(s.maxRetries, w, v, a.p, proc.task);
    }
  }

  lemma IdleStepKeeps(s: Setup, w: World, a: Action)
    requires RetryOk(s.maxRetries, w)
    requires (a.Kill? || a.Poll? || a.Take? || a.Check? || a.File? || (a.ClaimNext? && a.pick.None?)) && a.p < |w.procs|
    ensures RetryOk(s.maxRetries, Step(s, w, a))
  {
    hide RetryOk, Stall.Stalled, Stall.OwnFps, Stall.Window, Polled, HasText, MayPick;
    var v := Step(s, w, a);
    if v != w {
      IdleKeeps(s.maxRetries, w, v, a.p);
    }
  }

  lemma StepKeepsRetry(s: Setup, w: World, a: Action)
    requires RetryOk(s.maxRetries, w)
    ensures RetryOk(s.maxRetries, Step(s, w, a))
  {
    if !a.Start? && a.p < |w.procs| {
      hide RetryOk;
      match a {
        case Store(p, now) => StoreStepKeeps(s, w, p, now);
        case ClaimNext(p, pick, now, stamp) =>
          if pick.None? {
            IdleStepKeeps(s, w, a);
          } else if w.procs[p].Claiming? && w.clock <= now <= stamp && MayPick(w.rows, s.maxRetries, now, pick) {
            ClaimStepKeeps(s, w, p, pick.value, now, stamp);
          }
        case Finish(_, _) => MarkStepKeeps(s, w, a);
        case FailDirect(_, _) => MarkStepKeeps(s, w, a);
        case Fail(_, _) => MarkStepKeeps(s, w, a);
        case Exhaust(_, _) => MarkStepKeeps(s, w, a);
        case _ => IdleStepKeeps(s, w, a);
      }
    }
  }

  lemma {:induction false} RunKeepsRetry(s: Setup, w: World, acts: seq<Action>)
    requires RetryOk(s.maxRetries, w)
    ensures RetryOk(s.maxRetries, Run(s, w, acts))
    decreases |acts|
  {
    hide RetryOk, Step;
    if acts != [] {
      StepKeepsRetry(s, w, acts[0]);
      RunKeepsRetry(s, Step(s, w, acts[0]), acts[1..]);
    }
  }

  // --------------------------------------------------------------- the theorems

  /** Over any run no task is claimed more than MaxRetries + 1 times, and at least one claim is allowed. */
  lemma ClaimsAreBounded(s: Setup, acts: seq<Action>, i: nat)
    ensures |ClaimTimes(Run(s, EMPTY, acts).claims, i)| <= SpentAttempts(s.maxRetries)
  {
    RunKeepsRetry(s, EMPTY, acts);
    var w := Run(s, EMPTY, acts);
    if i >= |w.rows| {
      NeverClaimed(w.claims, i);
    }
  }

  /** The waits before the claims after the first, added up. */
  function Waits(n: nat): nat {
    if n == 0 then 0 else Waits(n - 1) + Wait(n)
  }

  lemma {:induction false} ClaimsFollowSchedule(t: Task, times: seq<int>, maxRetries: int, clock: int, k: nat)
    requires PastOk(t, times, maxRetries, clock) && k < |times| && k <= 63
    ensures times[k] >= times[0] + Waits(k)
  {
    if k > 0 {
      ClaimsFollowSchedule(t, times, maxRetries, clock, k - 1);
      BackoffIsTheWait(k);
    }
  }

  /**
   Over any run the claim after k attempts comes no earlier than the first claim plus the k waits between
   them, for every k the 64-bit backoff is right for.
   */
  lemma ClaimsKeepTheSchedule(s: Setup, acts: seq<Action>, i: nat, k: nat)
    requires var times := ClaimTimes(Run(s, EMPTY, acts).claims, i); k < |times| && k <= 63
    ensures var times := ClaimTimes(Run(s, EMPTY, acts).claims, i); times[k] >= times[0] + Waits(k)
  {
    RunKeepsRetry(s, EMPTY, acts);
    var w := Run(s, EMPTY, acts);
    if i >= |w.rows| {
      NeverClaimed(w.claims, i);
    } else {
      ClaimsFollowSchedule(w.rows[i], ClaimTimes(w.claims, i), s.maxRetries, w.clock, k);
    }
  }

  /** With more than 63 retries a task in its 64th failure is ready the moment it fails. */
  lemma LateRetriesDoNotWait(t: Task, maxRetries: int)
    requires t.attempts == 64
    ensures RetryReady(t, t.updatedAt, maxRetries) <==> maxRetries >= 64
  {
    BackoffIsTheWait(64);
  }

  lemma ClosedStaysClosed(s: Setup, w: World, a: Action, i: nat)
    requires RetryOk(s.maxRetries, w) && i < |w.rows| && Closed(w.rows[i], s.maxRetries)
    ensures var v := Step(s, w, a);
            && i < |v.rows| && Closed(v.rows[i], s.maxRetries)
            && ClaimTimes(v.claims, i) == ClaimTimes(w.claims, i)
  {
    hide Stall.Stalled, Stall.OwnFps, Stall.Window, Polled, HasText, Eligible, AnyQueued, Knows, ClaimTimes, AnyFiling;
    var v := Step(s, w, a);
    if a.ClaimNext? {
      if v.claims != w.claims {
        PickIsOpen(w.rows, a.pick.value, ClaimTimes(w.claims, a.pick.value), s.maxRetries, a.now, w.clock);
        ClaimTimesAppend(w.claims, Claim(a.pick.value, a.now), i);
      }
    } else if !a.Start? && a.p < |w.procs| {
      assert HeldOk(w.rows, w.procs[a.p], s.maxRetries);
    }
  }

  /** Once a task is done, or failed with its attempts used up, no continuation of the run claims it again. */
  lemma {:induction false} ClosedIsNeverClaimed(s: Setup, acts: seq<Action>, more: seq<Action>, i: nat)
    requires var w := Run(s, EMPTY, acts); i < |w.rows| && Closed(w.rows[i], s.maxRetries)
    ensures var w, v := Run(s, EMPTY, acts), Run(s, Run(s, EMPTY, acts), more);
            && i < |v.rows| && Closed(v.rows[i], s.maxRetries)
            && ClaimTimes(v.claims, i) == ClaimTimes(w.claims, i)
  {
    RunKeepsRetry(s, EMPTY, acts);
    ClosedFrom(s, Run(s, EMPTY, acts), more, i);
  }

  lemma {:induction false} ClosedFrom(s: Setup, w: World, acts: seq<Action>, i: nat)
    requires RetryOk(s.maxRetries, w) && i < |w.rows| && Closed(w.rows[i], s.maxRetries)
    ensures var v := Run(s, w, acts);
            && i < |v.rows| && Closed(v.rows[i], s.maxRetries)
            && ClaimTimes(v.claims, i) == ClaimTimes(w.claims, i)
    decreases |acts|
  {
    hide RetryOk, Step, Closed, ClaimTimes;
    if acts != [] {
      StepKeepsRetry(s, w, acts[0]);
      ClosedStaysClosed(s, w, acts[0], i);
      ClosedFrom(s, Step(s, w, acts[0]), acts[1..], i);
    }
  }
}

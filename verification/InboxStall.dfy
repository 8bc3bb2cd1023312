/**
 A task that keeps failing in the same state is given up after three claims, not counting those whose
 failure was never filed as a retry.
 */
module InboxStall {
  import opened Options
  import opened Control
  import opened InboxTable
  import opened InboxRuns
  import opened InboxRetry
  import opened Stall

  function CountOf(tasks: seq<nat>, i: nat): nat {
    if tasks == [] then 0
    else CountOf(tasks[..|tasks| - 1], i) + if tasks[|tasks| - 1] == i then 1 else 0
  }

  lemma CountAppend(tasks: seq<nat>, t: nat, i: nat)
    ensures CountOf(tasks + [t], i) == CountOf(tasks, i) + if t == i then 1 else 0
  {
    assert (tasks + [t])[..|tasks|] == tasks;
  }

  function ClaimsOf(w: World, i: nat): nat {
    |ClaimTimes(w.claims, i)|
  }

  function FiledOf(w: World, i: nat): nat {
    |OwnFps(w.log, i)|
  }

  function UnfiledOf(w: World, i: nat): nat {
    CountOf(w.unfiled, i)
  }

  /** Every claim but the last led to a failure that was filed or left unfiled. */
  predicate Accounted(w: World, i: nat, maxRetries: int)
    requires i < |w.rows|
  {
    && ClaimsOf(w, i) <= FiledOf(w, i) + UnfiledOf(w, i) + 1
    && (w.rows[i].status == Failed && !Closed(w.rows[i], maxRetries) && !AnyFiling(w.procs, i) ==>
          ClaimsOf(w, i) <= FiledOf(w, i) + UnfiledOf(w, i))
  }

  /** At most one worker is on the task, and a failure being filed is the last thing that happened to it. */
  predicate Tended(rows: seq<Task>, procs: seq<Proc>, i: nat, maxRetries: int) {
    && (forall p, q :: 0 <= p < |procs| && 0 <= q < |procs| && p != q && Filing(procs[p], i) ==>
          !Filing(procs[q], i) && !(procs[q].Working? && procs[q].task == i))
    && (forall p :: 0 <= p < |procs| && Filing(procs[p], i) ==> i < |rows| && rows[i].status == Failed)
    && (forall p :: 0 <= p < |procs| && procs[p].Scheduling? && procs[p].task == i ==> procs[p].fp != "")
    && (forall p :: 0 <= p < |procs| && (procs[p].Working? || procs[p].Failing?) && procs[p].task == i ==>
          i < |rows| && (procs[p].attempts == rows[i].attempts || rows[i].attempts == SpentAttempts(maxRetries)))
  }

  /** As long as every fingerprint is the same and visible, a third failure is not scheduled again. */
  predicate Repeating(w: World, i: nat) {
    && FiledOf(w, i) <= 2
    && forall p :: 0 <= p < |w.procs| && w.procs[p].Scheduling? && w.procs[p].task == i ==> FiledOf(w, i) <= 1
  }

  predicate StallOk(maxRetries: int, w: World, i: nat) {
    i in w.overlapped
    || (&& Tended(w.rows, w.procs, i, maxRetries)
        && (i < |w.rows| ==> Accounted(w, i, maxRetries))
        && (i in w.slipped || i in w.varied || Repeating(w, i)))
  }

  // -------------------------------------------------------------- every step

  lemma FileAppend(log: seq<Retry>, e: Retry, i: nat)
    ensures OwnFps(log + [e], i) == OwnFps(log, i) + if Own(e, i) then [e.fp] else []
  {
    OwnFpsConcat(log, [e], i);
    assert [e][1..] == [];
  }

  /** The worker changes place: what the other facts about task i need of it. */
  predicate Moves(w: World, v: World, p: nat) {
    p < |w.procs| && |v.procs| == |w.procs| && v.procs == w.procs[p := v.procs[p]]
  }

  predicate On(proc: Proc, i: nat) {
    Filing(proc, i) || (proc.Working? && proc.task == i)
  }

  /** The records of task i are what they were. */
  predicate SameRecords(w: World, v: World, p: nat, i: nat) {
    && ClaimsOf(v, i) == ClaimsOf(w, i) && FiledOf(v, i) == FiledOf(w, i) && UnfiledOf(v, i) == UnfiledOf(w, i)
    && Moves(w, v, p)
    && w.overlapped <= v.overlapped && w.slipped <= v.slipped && w.varied <= v.varied
  }

  /** The row of task i is what it was, or has just been added. */
  predicate SameRow(w: World, v: World, i: nat) {
    && |w.rows| <= |v.rows| && (i < |w.rows| ==> v.rows[i] == w.rows[i])
    && (|w.rows| <= i < |v.rows| ==> v.rows[i].status == Queued && ClaimsOf(v, i) == 0)
  }

  /** A step of a worker that neither was on the task nor is, and that leaves its row and records alone. */
  lemma ElsewhereKeeps(maxRetries: int, w: World, v: World, p: nat, i: nat)
    requires StallOk(maxRetries, w, i) && SameRecords(w, v, p, i) && SameRow(w, v, i)
    requires !On(w.procs[p], i) && !On(v.procs[p], i)
    ensures StallOk(maxRetries, v, i)
  {
    hide ClaimsOf, FiledOf, UnfiledOf;
    if i !in v.overlapped && AnyFiling(w.procs, i) {
      var q :| 0 <= q < |w.procs| && Filing(w.procs[q], i);
      assert Filing(v.procs[q], i);
    }
  }

  /** The claim of task i itself. */
  lemma ClaimStepKeeps(s: Setup, w: World, p: nat, i: nat, now: int, stamp: int)
    requires StallOk(s.maxRetries, w, i) && RetryOk(s.maxRetries, w) && p < |w.procs| && w.procs[p].Claiming?
    requires w.clock <= now <= stamp && MayPick(w.rows, s.maxRetries, now, Some(i))
    ensures StallOk(s.maxRetries, Step(s, w, ClaimNext(p, Some(i), now, stamp)), i)
  {
    PickIsOpen(w.rows, i, ClaimTimes(w.claims, i), s.maxRetries, now, w.clock);
    ClaimTimesAppend(w.claims, Claim(i, now), i);
    assert forall q :: 0 <= q < |w.procs| ==> HeldOk(w.rows, w.procs[q], s.maxRetries);
    hide ClaimTimes, OwnFps, CountOf, RetryOk, Eligible, AnyQueued, RetryReady, StallOk;
    var v := Step(s, w, ClaimNext(p, Some(i), now, stamp));
    if i !in v.overlapped {
      TakingUpKeeps(s.maxRetries, w, v, p, i);
    } else {
      assert StallOk(s.maxRetries, v, i) by { OverlappedIsOk(s.maxRetries, v, i); }
    }
  }

  lemma OverlappedIsOk(maxRetries: int, w: World, i: nat)
    requires i in w.overlapped
    ensures StallOk(maxRetries, w, i)
  {
  }

  lemma TakingUpKeeps(maxRetries: int, w: World, v: World, p: nat, i: nat)
    requires StallOk(maxRetries, w, i) && i !in w.overlapped && !AnyFiling(w.procs, i) && Moves(w, v, p)
    requires i < |w.rows| && !Closed(w.rows[i], maxRetries)
    requires w.rows[i].status == Failed || (w.rows[i].status == Queued && ClaimsOf(w, i) == 0)
    requires v.procs[p].Working? && v.procs[p].task == i && v.procs[p].attempts == w.rows[i].attempts + 1
    requires v.rows == w.rows[i := Claimed(w.rows[i], v.clock)]
    requires v.overlapped == w.overlapped && v.slipped == w.slipped && v.varied == w.varied
    requires ClaimsOf(v, i) == ClaimsOf(w, i) + 1 && v.log == w.log && v.unfiled == w.unfiled
    requires forall q :: 0 <= q < |w.procs| ==> HeldOk(w.rows, w.procs[q], maxRetries)
    ensures StallOk(maxRetries, v, i)
  {
    hide ClaimsOf, OwnFps, CountOf;
    forall q | 0 <= q < |v.procs|
      ensures !Filing(v.procs[q], i)
      ensures v.procs[q].Working? && v.procs[q].task == i ==> q == p
    {
      assert !Filing(w.procs[q], i) && HeldOk(w.rows, w.procs[q], maxRetries);
    }
  }

  /** The worker is done with task i, whose failure, if it failed, is accounted for. */
  lemma LeavingKeeps(maxRetries: int, w: World, v: World, p: nat, i: nat)
    requires StallOk(maxRetries, w, i) && Moves(w, v, p) && On(w.procs[p], i) && !On(v.procs[p], i)
    requires w.procs[p].Working? ==>
               forall q :: 0 <= q < |w.procs| && q != p && w.procs[q].Working? ==> w.procs[q].task != i
    requires w.overlapped == v.overlapped && w.slipped <= v.slipped && w.varied <= v.varied
    requires |v.rows| == |w.rows| && i < |w.rows|
    requires v.rows[i].attempts in {w.rows[i].attempts, SpentAttempts(maxRetries)}
    requires ClaimsOf(v, i) == ClaimsOf(w, i)
    requires FiledOf(w, i) <= FiledOf(v, i) && UnfiledOf(w, i) <= UnfiledOf(v, i)
    requires v.rows[i].status == Failed && !Closed(v.rows[i], maxRetries) ==>
               FiledOf(v, i) + UnfiledOf(v, i) >= FiledOf(w, i) + UnfiledOf(w, i) + 1
    requires FiledOf(v, i) == FiledOf(w, i) || (w.procs[p].Scheduling? && FiledOf(v, i) == FiledOf(w, i) + 1)
    ensures StallOk(maxRetries, v, i)
  {
    hide ClaimsOf, FiledOf, UnfiledOf, Closed;
    if i !in v.overlapped {
      forall q | 0 <= q < |v.procs|
        ensures !Filing(v.procs[q], i)
        ensures w.procs[p].Working? || !On(v.procs[q], i)
      {
        if q != p {
          assert v.procs[q] == w.procs[q];
        }
      }
    }
  }

  /** The worker on task i finishes it, fails a direct command, or is killed. */
  lemma WorkerLeaves(s: Setup, w: World, a: Action, i: nat)
    requires StallOk(s.maxRetries, w, i) && RetryOk(s.maxRetries, w)
    requires (a.Finish? || a.FailDirect? || a.Kill?) && a.p < |w.procs|
    requires w.procs[a.p].Working? && w.procs[a.p].task == i
    ensures StallOk(s.maxRetries, Step(s, w, a), i)
  {
    HeldAlone(s, w, a.p, i);
    hide *;
    match a {
      case Finish(p, now) => FinishLeaves(s, w, p, now, i);
      case FailDirect(p, now) => FailDirectLeaves(s, w, p, now, i);
      case Kill(p) => KillLeaves(s, w, p, i);
    }
  }

  /** No other worker holds the task. */
  predicate Alone(w: World, p: nat, i: nat) {
    && i < |w.rows| && p < |w.procs| && w.procs[p].Working? && w.procs[p].task == i
    && forall q :: 0 <= q < |w.procs| && q != p && w.procs[q].Working? ==> w.procs[q].task != i
  }

  lemma HeldAlone(s: Setup, w: World, p: nat, i: nat)
    requires RetryOk(s.maxRetries, w) && p < |w.procs| && w.procs[p].Working? && w.procs[p].task == i
    ensures Alone(w, p, i) && InHand(w.rows[i], s.maxRetries)
  {
    assert HeldOk(w.rows, w.procs[p], s.maxRetries);
  }

  lemma FinishLeaves(s: Setup, w: World, p: nat, now: int, i: nat)
    requires StallOk(s.maxRetries, w, i) && Alone(w, p, i)
    ensures StallOk(s.maxRetries, Step(s, w, Finish(p, now)), i)
  {
    hide ClaimTimes, OwnFps, CountOf, StallOk;
    if now >= w.clock {
      LeavingKeeps(s.maxRetries, w, Step(s, w, Finish(p, now)), p, i);
    }
  }

  lemma FailDirectLeaves(s: Setup, w: World, p: nat, now: int, i: nat)
    requires StallOk(s.maxRetries, w, i) && Alone(w, p, i)
    ensures StallOk(s.maxRetries, Step(s, w, FailDirect(p, now)), i)
  {
    CountAppend(w.unfiled, i, i);
    hide ClaimTimes, OwnFps, CountOf, StallOk;
    if now >= w.clock {
      LeavingKeeps(s.maxRetries, w, Step(s, w, FailDirect(p, now)), p, i);
    }
  }

  lemma KillLeaves(s: Setup, w: World, p: nat, i: nat)
    requires StallOk(s.maxRetries, w, i) && Alone(w, p, i) && InHand(w.rows[i], s.maxRetries)
    ensures StallOk(s.maxRetries, Step(s, w, Kill(p)), i)
  {
    hide ClaimTimes, OwnFps, CountOf, StallOk;
    LeavingKeeps(s.maxRetries, w, Step(s, w, Kill(p)), p, i);
  }

  /** The worker on task i fails it. */
  lemma FailKeeps(s: Setup, w: World, p: nat, now: int, i: nat)
    requires StallOk(s.maxRetries, w, i) && RetryOk(s.maxRetries, w)
    requires p < |w.procs| && w.procs[p].Working? && w.procs[p].task == i
    ensures StallOk(s.maxRetries, Step(s, w, Fail(p, now)), i)
  {
    assert HeldOk(w.rows, w.procs[p], s.maxRetries);
    assert forall q :: 0 <= q < |w.procs| && q != p && w.procs[q].Working? ==> w.procs[q].task != i;
    hide ClaimTimes, OwnFps, CountOf, RetryOk;
    var v := Step(s, w, Fail(p, now));
    if i !in v.overlapped && v != w {
      forall q | 0 <= q < |v.procs| && q != p
        ensures !On(v.procs[q], i)
      {
        assert v.procs[q] == w.procs[q];
      }
      assert Filing(v.procs[p], i);
    }
  }

  /** The worker filing the failure of task i files it, gives the task up or is killed. */
  lemma FilerLeaves(s: Setup, w: World, a: Action, i: nat)
    requires (a.File? || a.Exhaust? || a.Kill?) && a.p < |w.procs|
    requires StallOk(s.maxRetries, w, i) && i < |w.rows| && (w.procs[a.p].Scheduling? ==> w.procs[a.p].fp != "")
    requires Filing(w.procs[a.p], i)
    ensures StallOk(s.maxRetries, Step(s, w, a), i)
  {
    CountAppend(w.unfiled, i, i);
    if w.procs[a.p].Scheduling? {
      FileAppend(w.log, Retry(Some(i), w.procs[a.p].fp), i);
    }
    hide ClaimTimes, OwnFps, CountOf, StallOk;
    var v := Step(s, w, a);
    if v != w {
      LeavingKeeps(s.maxRetries, w, v, a.p, i);
    }
  }

  /** A failure out of retries leaves a task that is closed. */
  lemma OutOfRetries(s: Setup, w: World, p: nat, i: nat)
    requires Tended(w.rows, w.procs, i, s.maxRetries) && RetryOk(s.maxRetries, w)
    requires p < |w.procs| && w.procs[p].Failing? && w.procs[p].task == i
    requires !ShouldRetry(s.maxRetries, w.procs[p].attempts)
    ensures i < |w.rows| && Closed(w.rows[i], s.maxRetries)
  {
    assert Filing(w.procs[p], i);
    assert PastOk(w.rows[i], ClaimTimes(w.claims, i), s.maxRetries, w.clock);
  }

  /** The worker decides what becomes of the failure of task i. */
  lemma CheckKeeps(s: Setup, w: World, p: nat, fp: string, i: nat)
    requires StallOk(s.maxRetries, w, i) && RetryOk(s.maxRetries, w)
    requires p < |w.procs| && w.procs[p].Failing? && w.procs[p].task == i
    ensures StallOk(s.maxRetries, Step(s, w, Check(p, fp)), i)
  {
    hide RetryOk, ClaimTimes, CountOf;
    var v := Step(s, w, Check(p, fp));
    if i !in w.overlapped && v != w {
      assert Filing(w.procs[p], i);
      if !ShouldRetry(s.maxRetries, w.procs[p].attempts) {
        OutOfRetries(s, w, p, i);
        hide OwnFps, Window, Stalled, StallOk;
        LeavingKeeps(s.maxRetries, w, v, p, i);
      } else {
        if v.procs[p].Scheduling? && i !in v.slipped && i !in v.varied {
          UnstalledIsFew(w.log, i, fp);
        }
        DecidingKeeps(s.maxRetries, w, v, p, i);
      }
    }
  }

  lemma DecidingKeeps(maxRetries: int, w: World, v: World, p: nat, i: nat)
    requires StallOk(maxRetries, w, i) && i !in w.overlapped && Moves(w, v, p)
    requires w.procs[p].Failing? && w.procs[p].task == i
    requires (v.procs[p].Scheduling? || v.procs[p].Exhausting?) && v.procs[p].task == i
    requires v.rows == w.rows && v.claims == w.claims && v.log == w.log && v.unfiled == w.unfiled
    requires v.overlapped == w.overlapped && w.slipped <= v.slipped && w.varied <= v.varied
    requires v.procs[p].Scheduling? ==> v.procs[p].fp != ""
    requires v.procs[p].Scheduling? && i !in v.slipped && i !in v.varied ==> FiledOf(w, i) <= 1
    ensures StallOk(maxRetries, v, i)
  {
    hide Closed, ClaimTimes, OwnFps, CountOf;
    assert Filing(w.procs[p], i) && Filing(v.procs[p], i);
    forall q | 0 <= q < |v.procs| && q != p
      ensures !On(v.procs[q], i)
    {
      assert v.procs[q] == w.procs[q];
    }
  }

  /** Two earlier fingerprints that are visible and equal to the current one mean the task is stalled. */
  lemma UnstalledIsFew(log: seq<Retry>, i: nat, fp: string)
    requires !Stalled(log, i, fp, NO_PROGRESS_K)
    requires |OwnFps(Window(log), i)| >= |OwnFps(log, i)| || |OwnFps(Window(log), i)| >= NO_PROGRESS_K - 1
    requires forall k :: 0 <= k < |OwnFps(log, i)| ==> OwnFps(log, i)[k] == fp
    ensures |OwnFps(log, i)| <= 1
  {
    var start := |log| - |Window(log)|;
    assert Window(log) == log[start..];
    LastOwn(log, start, i);
  }

  /** Every step of a worker that does not concern task i. */
  lemma ElsewhereStep(s: Setup, w: World, a: Action, i: nat)
    requires StallOk(s.maxRetries, w, i) && RetryOk(s.maxRetries, w) && !a.Start? && a.p < |w.procs|
    requires !On(w.procs[a.p], i) && !On(Step(s, w, a).procs[a.p], i)
    ensures StallOk(s.maxRetries, Step(s, w, a), i)
  {
    hide *;
    RecordsElsewhere(s, w, a, i);
    RowsElsewhere(s, w, a, i);
    ElsewhereKeeps(s.maxRetries, w, Step(s, w, a), a.p, i);
  }

  lemma RecordsElsewhere(s: Setup, w: World, a: Action, i: nat)
    requires !a.Start? && a.p < |w.procs| && !On(w.procs[a.p], i) && !On(Step(s, w, a).procs[a.p], i)
    ensures SameRecords(w, Step(s, w, a), a.p, i)
  {
    hide *;
    if a.ClaimNext? {
      ClaimElsewhere(s, w, a, i);
    } else if a.Kill? || a.FailDirect? {
      UnfiledElsewhere(s, w, a, i);
    } else {
      OthersElsewhere(s, w, a, i);
    }
  }

  lemma ClaimElsewhere(s: Setup, w: World, a: Action, i: nat)
    requires a.ClaimNext? && a.p < |w.procs| && !On(w.procs[a.p], i) && !On(Step(s, w, a).procs[a.p], i)
    ensures SameRecords(w, Step(s, w, a), a.p, i)
  {
    if a.pick.Some? {
      ClaimTimesAppend(w.claims, Claim(a.pick.value, a.now), i);
    }
    hide ClaimTimes, OwnFps, CountOf, Eligible, AnyQueued, AnyFiling;
  }

  lemma UnfiledElsewhere(s: Setup, w: World, a: Action, i: nat)
    requires (a.Kill? || a.FailDirect?) && a.p < |w.procs| && !On(w.procs[a.p], i)
    ensures SameRecords(w, Step(s, w, a), a.p, i)
  {
    var proc := w.procs[a.p];
    if proc.Failing? || proc.Scheduling? || proc.Exhausting? || proc.Working? {
      CountAppend(w.unfiled, proc.task, i);
    }
    hide ClaimTimes, OwnFps, CountOf;
  }

  lemma OthersElsewhere(s: Setup, w: World, a: Action, i: nat)
    requires !a.Start? && !a.ClaimNext? && !a.Kill? && !a.FailDirect? && a.p < |w.procs|
    requires !On(w.procs[a.p], i) && !On(Step(s, w, a).procs[a.p], i)
    ensures SameRecords(w, Step(s, w, a), a.p, i)
  {
    hide *;
    if a.File? {
      FileElsewhere(s, w, a, i);
    } else if a.Check? {
      CheckElsewhere(s, w, a, i);
    } else {
      RestElsewhere(s, w, a, i);
    }
  }

  lemma FileElsewhere(s: Setup, w: World, a: Action, i: nat)
    requires a.File? && a.p < |w.procs| && !On(w.procs[a.p], i)
    ensures SameRecords(w, Step(s, w, a), a.p, i)
  {
    if w.procs[a.p].Scheduling? {
      FileAppend(w.log, Retry(Some(w.procs[a.p].task), w.procs[a.p].fp), i);
    }
    hide ClaimTimes, OwnFps, CountOf;
  }

  lemma CheckElsewhere(s: Setup, w: World, a: Action, i: nat)
    requires a.Check? && a.p < |w.procs|
    ensures SameRecords(w, Step(s, w, a), a.p, i)
  {
    hide ClaimTimes, OwnFps, CountOf, Window, Stalled;
  }

  lemma RestElsewhere(s: Setup, w: World, a: Action, i: nat)
    requires (a.Poll? || a.Take? || a.Store? || a.Finish? || a.Fail? || a.Exhaust?) && a.p < |w.procs|
    ensures SameRecords(w, Step(s, w, a), a.p, i)
  {
    hide ClaimTimes, OwnFps, CountOf, HasText, Knows, Polled;
  }

  lemma RowsElsewhere(s: Setup, w: World, a: Action, i: nat)
    requires RetryOk(s.maxRetries, w)
    requires !a.Start? && a.p < |w.procs| && !On(w.procs[a.p], i) && !On(Step(s, w, a).procs[a.p], i)
    ensures SameRow(w, Step(s, w, a), i)
  {
    if |w.rows| <= i {
      NeverClaimed(w.claims, i);
    }
    hide RetryOk, Step, ClaimTimes, On;
    if a.ClaimNext? {
      ClaimedElsewhere(s, w, a, i);
    } else if a.Store? {
      StoredElsewhere(s, w, a, i);
    } else {
      MarkedElsewhere(s, w, a, i);
    }
  }

  lemma ClaimedElsewhere(s: Setup, w: World, a: Action, i: nat)
    requires a.ClaimNext? && a.p < |w.procs| && !On(Step(s, w, a).procs[a.p], i)
    ensures var v := Step(s, w, a); |v.rows| == |w.rows| && (i < |w.rows| ==> v.rows[i] == w.rows[i])
  {
    hide Eligible, AnyQueued, AnyFiling;
  }

  lemma StoredElsewhere(s: Setup, w: World, a: Action, i: nat)
    requires a.Store? && a.p < |w.procs| && (|w.rows| <= i ==> ClaimsOf(w, i) == 0)
    ensures var v := Step(s, w, a);
            && |w.rows| <= |v.rows| && (i < |w.rows| ==> v.rows[i] == w.rows[i])
            && (|w.rows| <= i < |v.rows| ==> v.rows[i].status == Queued && ClaimsOf(v, i) == 0)
  {
    hide Knows, HasText, ClaimTimes;
  }

  lemma MarkedElsewhere(s: Setup, w: World, a: Action, i: nat)
    requires !a.Start? && !a.ClaimNext? && !a.Store? && a.p < |w.procs| && !On(w.procs[a.p], i)
    ensures var v := Step(s, w, a); |v.rows| == |w.rows| && (i < |w.rows| ==> v.rows[i] == w.rows[i])
  {
    hide OwnFps, Window, Stalled, HasText, Polled;
  }

  lemma StartKeeps(s: Setup, w: World, i: nat)
    requires StallOk(s.maxRetries, w, i)
    ensures StallOk(s.maxRetries, Step(s, w, Start), i)
  {
    hide ClaimTimes, OwnFps, CountOf, OffsetOf;
    var v := Step(s, w, Start);
    assert v.procs == w.procs + [Head(OffsetOf(w.rows))];
    if AnyFiling(w.procs, i) {
      var q :| 0 <= q < |w.procs| && Filing(w.procs[q], i);
      assert Filing(v.procs[q], i);
    }
  }

  lemma StepKeepsStall(s: Setup, w: World, a: Action, i: nat)
    requires StallOk(s.maxRetries, w, i) && RetryOk(s.maxRetries, w)
    ensures StallOk(s.maxRetries, Step(s, w, a), i)
  {
    if a.Start? {
      StartKeeps(s, w, i);
    } else if a.p < |w.procs| {
      hide RetryOk, StallOk, Step;
      if On(w.procs[a.p], i) {
        InvolvedStep(s, w, a, i);
      } else if On(Step(s, w, a).procs[a.p], i) {
        OnlyClaimsTakeUp(s, w, a, i);
        ClaimStepKeeps(s, w, a.p, i, a.now, a.stamp);
      } else {
        ElsewhereStep(s, w, a, i);
      }
    } else {
      assert Step(s, w, a) == w;
    }
  }

  lemma OnlyClaimsTakeUp(s: Setup, w: World, a: Action, i: nat)
    requires !a.Start? && a.p < |w.procs| && !On(w.procs[a.p], i) && On(Step(s, w, a).procs[a.p], i)
    ensures a.ClaimNext? && a.pick == Some(i) && w.procs[a.p].Claiming?
    ensures w.clock <= a.now <= a.stamp && MayPick(w.rows, s.maxRetries, a.now, Some(i))
  {
    hide Window, Stalled, OwnFps, Eligible, AnyQueued, AnyFiling, HasText, Knows, Polled;
  }

  /** A step of a worker that is on the task. */
  lemma InvolvedStep(s: Setup, w: World, a: Action, i: nat)
    requires StallOk(s.maxRetries, w, i) && RetryOk(s.maxRetries, w)
    requires !a.Start? && a.p < |w.procs| && On(w.procs[a.p], i)
    ensures StallOk(s.maxRetries, Step(s, w, a), i)
  {
    hide RetryOk, StallOk, Move;
    var proc := w.procs[a.p];
    if proc.Failing? && a.Check? {
      CheckKeeps(s, w, a.p, a.fp, i);
    } else if proc.Working? && a.Fail? {
      FailKeeps(s, w, a.p, a.now, i);
    } else if proc.Working? && (a.Finish? || a.FailDirect? || a.Kill?) {
      WorkerLeaves(s, w, a, i);
    } else if Filing(proc, i) && (a.File? || a.Exhaust? || a.Kill?) {
      FilerStep(s, w, a, i);
    } else {
      WaitsInvolved(s, w, a, i);
    }
  }

  lemma WaitsInvolved(s: Setup, w: World, a: Action, i: nat)
    requires !a.Start? && a.p < |w.procs| && On(w.procs[a.p], i)
    requires var proc := w.procs[a.p];
             && !(proc.Failing? && a.Check?)
             && !(proc.Working? && (a.Finish? || a.FailDirect? || a.Kill? || a.Fail?))
             && !(Filing(proc, i) && (a.File? || a.Exhaust? || a.Kill?))
    ensures Step(s, w, a) == w
  {
  }

  lemma FilerStep(s: Setup, w: World, a: Action, i: nat)
    requires StallOk(s.maxRetries, w, i) && (a.File? || a.Exhaust? || a.Kill?) && a.p < |w.procs|
    requires Filing(w.procs[a.p], i)
    ensures StallOk(s.maxRetries, Step(s, w, a), i)
  {
    if i in w.overlapped {
      OverlappedIsOk(s.maxRetries, Step(s, w, a), i);
    } else {
      FilerLeaves(s, w, a, i);
    }
  }

  lemma {:induction false} RunKeepsStall(s: Setup, w: World, acts: seq<Action>, i: nat)
    requires StallOk(s.maxRetries, w, i) && RetryOk(s.maxRetries, w)
    ensures StallOk(s.maxRetries, Run(s, w, acts), i)
    decreases |acts|
  {
    hide RetryOk, StallOk, Step;
    if acts != [] {
      StepKeepsRetry(s, w, acts[0]);
      StepKeepsStall(s, w, acts[0], i);
      RunKeepsStall(s, Step(s, w, acts[0]), acts[1..], i);
    }
  }

  // --------------------------------------------------------------- the theorem

  /**
   Over any run, a task whose failures always had the same fingerprint, whose retry events were still in
   the scanned window when they mattered, and which was never claimed before its last failure was filed,
   is claimed at most three times more than it had failures that were not filed.
   */
  lemma StuckTaskIsGivenUp(s: Setup, acts: seq<Action>, i: nat)
    requires var w := Run(s, EMPTY, acts); i !in w.overlapped && i !in w.slipped && i !in w.varied
    ensures var w := Run(s, EMPTY, acts); ClaimsOf(w, i) <= NO_PROGRESS_K + UnfiledOf(w, i)
  {
    RunKeepsRetry(s, EMPTY, acts);
    RunKeepsStall(s, EMPTY, acts, i);
    var w := Run(s, EMPTY, acts);
    if i >= |w.rows| {
      NeverClaimed(w.claims, i);
    }
  }

  // ------------------------------------------------------ one worker at a time

  lemma LoneStep(s: Setup, w: World, a: Action)
    requires AtMostOne(w.procs) && (a.Start? ==> AllGone(w.procs))
    ensures AtMostOne(Step(s, w, a).procs) && Step(s, w, a).overlapped == w.overlapped
  {
    hide Window, Stalled, OwnFps, Eligible, AnyQueued, HasText, Knows, Polled;
    var v := Step(s, w, a);
    if !a.Start? && a.p < |w.procs| {
      assert Moves(w, v, a.p);
      assert w.procs[a.p].Gone? ==> v.procs[a.p].Gone?;
    }
  }

  /** With one worker at a time no task is claimed before its last failure is filed or lost with its worker. */
  lemma {:induction false} OneWorkerNeverOverlaps(s: Setup, w: World, acts: seq<Action>)
    requires AtMostOne(w.procs) && OneAtATime(s, w, acts)
    ensures Run(s, w, acts).overlapped == w.overlapped
    decreases |acts|
  {
    hide Step;
    if acts != [] {
      LoneStep(s, w, acts[0]);
      OneWorkerNeverOverlaps(s, Step(s, w, acts[0]), acts[1..]);
    }
  }

  lemma SlipStep(s: Setup, w: World, a: Action)
    ensures |w.log| <= |Step(s, w, a).log|
    ensures |w.log| <= WINDOW ==> Step(s, w, a).slipped == w.slipped
  {
    hide Stalled, OwnFps, Eligible, AnyQueued, AnyFiling, HasText, Knows, Polled;
  }

  /** Events only leave the window once more than two hundred retries have been scheduled. */
  lemma {:induction false} NothingSlipsEarly(s: Setup, w: World, acts: seq<Action>)
    requires |Run(s, w, acts).log| <= WINDOW
    ensures |w.log| <= |Run(s, w, acts).log| && Run(s, w, acts).slipped == w.slipped
    decreases |acts|
  {
    hide Step;
    if acts != [] {
      SlipStep(s, w, acts[0]);
      LogGrows(s, Step(s, w, acts[0]), acts[1..]);
      NothingSlipsEarly(s, Step(s, w, acts[0]), acts[1..]);
    }
  }

  lemma {:induction false} LogGrows(s: Setup, w: World, acts: seq<Action>)
    ensures |w.log| <= |Run(s, w, acts).log|
    decreases |acts|
  {
    hide Step;
    if acts != [] {
      SlipStep(s, w, acts[0]);
      LogGrows(s, Step(s, w, acts[0]), acts[1..]);
    }
  }

  // ------------------------------------------------------------- a stuck task

  /** An action that lets task i fail in no other way than with this fingerprint, and its failure be filed. */
  predicate FailsAlike(w: World, a: Action, i: nat, fp: string) {
    !a.Start? && a.p < |w.procs| ==>
      && (a.Check? && Filing(w.procs[a.p], i) ==> a.fp == fp)
      && (a.Kill? ==> !Filing(w.procs[a.p], i))
      && (a.FailDirect? && w.procs[a.p].Working? ==> w.procs[a.p].task != i)
  }

  ghost predicate AlwaysAlike(s: Setup, w: World, acts: seq<Action>, i: nat, fp: string)
    decreases |acts|
  {
    acts == [] || (FailsAlike(w, acts[0], i, fp) && AlwaysAlike(s, Step(s, w, acts[0]), acts[1..], i, fp))
  }

  /** All that is on record about the task's failures is this fingerprint. */
  predicate Uniform(w: World, i: nat, fp: string) {
    && i !in w.varied && UnfiledOf(w, i) == 0
    && (forall k :: 0 <= k < |OwnFps(w.log, i)| ==> OwnFps(w.log, i)[k] == fp)
    && forall p :: 0 <= p < |w.procs| && w.procs[p].Scheduling? && w.procs[p].task == i ==> w.procs[p].fp == fp
  }

  lemma UniformStep(s: Setup, w: World, a: Action, i: nat, fp: string)
    requires Uniform(w, i, fp) && FailsAlike(w, a, i, fp)
    ensures Uniform(Step(s, w, a), i, fp)
  {
    if !a.Start? && a.p < |w.procs| {
      hide *;
      if a.Kill? || a.FailDirect? {
        UniformUnfiled(s, w, a, i, fp);
      } else if a.File? {
        UniformFile(s, w, a, i, fp);
      } else {
        UniformRest(s, w, a, i, fp);
      }
    }
  }

  lemma UniformUnfiled(s: Setup, w: World, a: Action, i: nat, fp: string)
    requires Uniform(w, i, fp) && FailsAlike(w, a, i, fp) && (a.Kill? || a.FailDirect?) && a.p < |w.procs|
    ensures Uniform(Step(s, w, a), i, fp)
  {
    var proc := w.procs[a.p];
    if proc.Failing? || proc.Scheduling? || proc.Exhausting? || proc.Working? {
      CountAppend(w.unfiled, proc.task, i);
    }
    hide OwnFps, CountOf;
  }

  lemma UniformFile(s: Setup, w: World, a: Action, i: nat, fp: string)
    requires Uniform(w, i, fp) && a.File? && a.p < |w.procs|
    ensures Uniform(Step(s, w, a), i, fp)
  {
    if w.procs[a.p].Scheduling? {
      FileAppend(w.log, Retry(Some(w.procs[a.p].task), w.procs[a.p].fp), i);
    }
    hide OwnFps, CountOf;
  }

  lemma UniformRest(s: Setup, w: World, a: Action, i: nat, fp: string)
    requires Uniform(w, i, fp) && FailsAlike(w, a, i, fp) && !a.Start? && a.p < |w.procs|
    requires !a.Kill? && !a.FailDirect? && !a.File?
    ensures Uniform(Step(s, w, a), i, fp)
  {
    hide OwnFps, CountOf, Window, Stalled, Eligible, AnyQueued, AnyFiling, HasText, Knows, Polled;
  }

  lemma {:induction false} UniformAlways(s: Setup, w: World, acts: seq<Action>, i: nat, fp: string)
    requires Uniform(w, i, fp) && AlwaysAlike(s, w, acts, i, fp)
    ensures Uniform(Run(s, w, acts), i, fp)
    decreases |acts|
  {
    hide Step, Uniform, FailsAlike;
    if acts != [] {
      UniformStep(s, w, acts[0], i, fp);
      UniformAlways(s, Step(s, w, acts[0]), acts[1..], i, fp);
    }
  }

  /**
   Of a run: with one worker at a time, at most two hundred retries scheduled, and no failure of the task
   with another fingerprint or cut off before it was filed, the task is claimed at most three times.
   */
  lemma StuckTaskIsClaimedThrice(s: Setup, acts: seq<Action>, i: nat, fp: string)
    requires OneAtATime(s, EMPTY, acts) && |Run(s, EMPTY, acts).log| <= WINDOW
    requires AlwaysAlike(s, EMPTY, acts, i, fp)
    ensures ClaimsOf(Run(s, EMPTY, acts), i) <= NO_PROGRESS_K
  {
    OneWorkerNeverOverlaps(s, EMPTY, acts);
    NothingSlipsEarly(s, EMPTY, acts);
    UniformAlways(s, EMPTY, acts, i, fp);
    hide Run, OwnFps, ClaimsOf;
    StuckTaskIsGivenUp(s, acts, i);
  }
}

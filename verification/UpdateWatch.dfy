/**
 What a promotion, and a rollback after a crash loop, go back to: a run of the worker that was found stable,
 a timer that fired before the worker was known to have exited, a crash loop that was detected.
 */
module UpdateWatch {
  import opened Options
  import opened ArtifactStatus
  import opened ArtifactTable
  import opened UpdateProtocol
  import opened UpdateInvariant
  import opened UpdateRuns
  import opened UpdateSteps
  import opened UpdateRefinement
  import opened UpdateRestart

  // ------------------------------------------------- who sits at which place

  /** A worker, or what is left of one. */
  predicate WorkerSeat(p: Proc) {
    p.Worker? || p.Orphan? || p.Gone?
  }

  predicate WatcherSeat(p: Proc) {
    p.Watcher? || p.Gone?
  }

  /** A waiting supervisor waits for the worker, and has the watcher, that it started. */
  predicate WaitOk(procs: seq<Proc>, p: Proc) {
    match p
    case Supervisor(Main(Wait(worker, watcher))) =>
      watcher == worker + 1 < |procs| && WorkerSeat(procs[worker]) && WatcherSeat(procs[watcher])
    case _ => true
  }

  ghost predicate Waiting(w: World) {
    forall s :: 0 <= s < |w.procs| ==> WaitOk(w.procs, w.procs[s])
  }

  lemma SeatsStayInStep(w: World, p: Proc, c: Choice)
    ensures var q := Next(w, p, c).next; (WorkerSeat(p) ==> WorkerSeat(q)) && (WatcherSeat(p) ==> WatcherSeat(q))
  {
    hide NextSupervisor, Matches, Insert, IndexOf, LatestWithStatus, BinPath;
  }

  lemma SeatsStay(w: World, act: Action, p: nat)
    requires p < |w.procs|
    ensures p < |Step(w, act).procs|
    ensures var q := Step(w, act).procs[p];
            (WorkerSeat(w.procs[p]) ==> WorkerSeat(q)) && (WatcherSeat(w.procs[p]) ==> WatcherSeat(q))
  {
    hide Next, Apply;
    if act.Run? && act.i == p {
      SeatsStayInStep(w, w.procs[p], act.c);
    }
  }

  /** A supervisor comes to wait only by waiting on, or by starting the two processes it waits with. */
  lemma WaitsFor(w: World, p: Proc, c: Choice)
    requires Next(w, p, c).next.Supervisor? && Next(w, p, c).next.sup.Main? && Next(w, p, c).next.sup.main.Wait?
    ensures var e := Next(w, p, c);
            || (e.next == p && e.spawn == [])
            || (e.next == Supervisor(Main(Wait(|w.procs|, |w.procs| + 1)))
                && e.spawn == [Worker(Commanding(Idle)), Watcher(Timer(false))])
  {
    hide Matches, Insert, IndexOf, LatestWithStatus, FirstApproved, Cleaned, BinPath, NullIfEmpty, HasBase, Has;
  }

  lemma WaitingStep(w: World, act: Action)
    requires Waiting(w)
    ensures Waiting(Step(w, act))
  {
    hide Step, Next;
    var procs := Step(w, act).procs;
    forall s | 0 <= s < |procs|
      ensures WaitOk(procs, procs[s])
    {
      ProcMoves(w, act, s);
      if procs[s].Supervisor? && procs[s].sup.Main? && procs[s].sup.main.Wait? {
        WaitStepOk(w, act, s);
      }
    }
  }

  lemma WaitStepOk(w: World, act: Action, s: nat)
    requires Waiting(w) && s < |Step(w, act).procs|
    requires var q := Step(w, act).procs[s]; q.Supervisor? && q.sup.Main? && q.sup.main.Wait?
    ensures WaitOk(Step(w, act).procs, Step(w, act).procs[s])
  {
    hide Step, Next, WorkerSeat, WatcherSeat;
    ProcMoves(w, act, s);
    var q := Step(w, act).procs[s];
    if s < |w.procs| && q == w.procs[s] {
      assert WaitOk(w.procs, w.procs[s]);
      SeatsStay(w, act, q.sup.main.worker);
      SeatsStay(w, act, q.sup.main.watcher);
    } else {
      WaitsFor(w, w.procs[s], act.c);
      SpawnedAt(w, act);
    }
  }

  lemma SpawnedAt(w: World, act: Action)
    requires act.Run? && act.i < |w.procs|
    requires Next(w, w.procs[act.i], act.c).spawn == [Worker(Commanding(Idle)), Watcher(Timer(false))]
    ensures var n, procs := |w.procs|, Step(w, act).procs;
            |procs| == n + 2 && WorkerSeat(procs[n]) && WatcherSeat(procs[n + 1])
  {
    hide Next, Apply;
  }

  lemma {:induction false} WaitingAlways(w0: World, acts: seq<Action>)
    requires Initial(w0)
    ensures Waiting(Execute(w0, acts))
  {
    hide Step, Waiting;
    if acts == [] {
      WaitingAtFirst(w0);
    } else {
      WaitingAlways(w0, acts[..|acts| - 1]);
      WaitingStep(Execute(w0, acts[..|acts| - 1]), acts[|acts| - 1]);
    }
  }

  lemma WaitingAtFirst(w0: World)
    requires Initial(w0)
    ensures Waiting(w0)
  {
  }

  // ------------------------------------------------------------------ watchers

  /** A watcher that has been told of its worker's exit is over when its timer fires, and does nothing before. */
  lemma ToldWatcherGivesUp(w: World, act: Action, p: nat)
    requires At(w, p, Watcher(Timer(true)))
    ensures At(Step(w, act), p, Watcher(Timer(true))) || At(Step(w, act), p, Gone)
    ensures act.Run? && act.i == p ==>
              At(Step(w, act), p, Gone) && Step(w, act).db == w.db && Step(w, act).link == w.link
  {
    if act.Run? && act.i < |w.procs| {
      if act.i == p {
        ToldStops(w, act.c);
      } else {
        hide Next, Apply;
      }
    }
  }

  lemma ToldStops(w: World, c: Choice)
    ensures Next(w, Watcher(Timer(true)), c) == Effect(Skip, Gone)
  {
  }

  lemma {:induction false} ToldForEver(w: World, acts: seq<Action>, p: nat)
    requires At(w, p, Watcher(Timer(true))) || At(w, p, Gone)
    ensures At(Execute(w, acts), p, Watcher(Timer(true))) || At(Execute(w, acts), p, Gone)
  {
    hide Step;
    if acts != [] {
      var v := Execute(w, acts[..|acts| - 1]);
      ToldForEver(w, acts[..|acts| - 1], p);
      if At(v, p, Gone) {
        GoneForEver(v, acts[|acts| - 1], p);
      } else {
        ToldWatcherGivesUp(v, acts[|acts| - 1], p);
      }
    }
  }

  lemma GoneForEver(w: World, act: Action, p: nat)
    requires At(w, p, Gone)
    ensures At(Step(w, act), p, Gone)
  {
    hide NextSupervisor, NextWatcher, NextWorker, Apply;
  }

  /** Leaving the wait: the worker process is over, and the watcher, if its timer still runs, has been told. */
  lemma LeavesWait(w: World, s: nat, c: Choice, worker: nat, watcher: nat)
    requires At(w, s, Supervisor(Main(Wait(worker, watcher)))) && WaitOk(w.procs, w.procs[s])
    requires !At(Step(w, Run(s, c)), s, Supervisor(Main(Wait(worker, watcher))))
    ensures !w.procs[worker].Worker? && At(Step(w, Run(s, c)), s, Supervisor(Main(Exited)))
    ensures w.procs[watcher].Gone? ==> At(Step(w, Run(s, c)), watcher, Gone)
    ensures w.procs[watcher].Watcher? && w.procs[watcher].watch.Timer? ==>
              At(Step(w, Run(s, c)), watcher, Watcher(Timer(true)))
    ensures w.procs[watcher].Watcher? && w.procs[watcher].watch.AutoPromote? ==>
              At(Step(w, Run(s, c)), watcher, w.procs[watcher])
  {
  }

  /** A step changes no other process, except that leaving the wait tells the watcher whose timer still runs. */
  lemma OthersStay(w: World, act: Action, p: nat)
    requires act.Run? && act.i < |w.procs| && p < |w.procs| && p != act.i
    ensures At(Step(w, act), p, w.procs[p])
            || (&& w.procs[p].Watcher? && w.procs[p].watch.Timer? && At(Step(w, act), p, Watcher(Timer(true)))
                && At(Step(w, act), act.i, Supervisor(Main(Exited)))
                && exists worker :: w.procs[act.i] == Supervisor(Main(Wait(worker, p))))
  {
    var e := Next(w, w.procs[act.i], act.c);
    if e.stopped.Some? {
      OnlyLeavingTells(w, w.procs[act.i], act.c);
    }
    hide Next, Apply;
  }

  lemma OnlyLeavingTells(w: World, p: Proc, c: Choice)
    requires Next(w, p, c).stopped.Some?
    ensures Next(w, p, c).next == Supervisor(Main(Exited)) && Next(w, p, c).spawn == []
    ensures exists worker :: p == Supervisor(Main(Wait(worker, Next(w, p, c).stopped.value)))
  {
    hide Matches, Insert, IndexOf, LatestWithStatus, FirstApproved, Cleaned, BinPath, NullIfEmpty, HasBase, Has;
  }

  /**
   In every run: when a supervisor notices that its worker has exited while the watcher's timer still runs,
   that watcher never promotes anything, whatever happens afterwards.
   */
  lemma LateWatcherNeverPromotes(w0: World, acts: seq<Action>, s: nat, c: Choice, worker: nat, watcher: nat,
                                 rest: seq<Action>)
    requires Initial(w0) && At(Execute(w0, acts), s, Supervisor(Main(Wait(worker, watcher))))
    requires !At(Execute(w0, acts + [Run(s, c)]), s, Supervisor(Main(Wait(worker, watcher))))
    ensures watcher < |Execute(w0, acts).procs|
    ensures var p := Execute(w0, acts).procs[watcher];
            !(p.Watcher? && p.watch.AutoPromote?) ==>
              At(Execute(w0, acts + [Run(s, c)] + rest), watcher, Watcher(Timer(true)))
              || At(Execute(w0, acts + [Run(s, c)] + rest), watcher, Gone)
  {
    hide Step, Execute, Initial;
    var w := Execute(w0, acts);
    WaitingAlways(w0, acts);
    assert WaitOk(w.procs, w.procs[s]);
    ExecuteThen(w0, acts, Run(s, c));
    LeavesWait(w, s, c, worker, watcher);
    ExecuteConcat(w0, acts + [Run(s, c)], rest);
    if !(w.procs[watcher].Watcher? && w.procs[watcher].watch.AutoPromote?) {
      ToldForEver(Execute(w0, acts + [Run(s, c)]), rest, watcher);
    }
  }

  // ---------------------------------------------------------------- the causes

  predicate Promoter(p: Proc) {
    (p.Supervisor? && p.sup.Promote?) || (p.Watcher? && p.watch.AutoPromote?)
  }

  /** The process goes on to promote: after a stable run, or as a timer that fires in time. */
  predicate TurnsPromoter(w: World, act: Action, p: nat) {
    && act.Run? && act.i == p < |w.procs|
    && (|| (w.procs[p] == Supervisor(Main(Exited)) && act.c.verdict.StableRun?)
        || w.procs[p] == Watcher(Timer(false)))
  }

  lemma PromoterFrom(w: World, p: Proc, c: Choice)
    requires Promoter(Next(w, p, c).next)
    ensures Promoter(p) || (p == Supervisor(Main(Exited)) && c.verdict.StableRun?) || p == Watcher(Timer(false))
  {
    hide Matches, Insert, IndexOf, LatestWithStatus, FirstApproved, Cleaned, BinPath, NullIfEmpty, HasBase, Has;
  }

  lemma {:induction false} PromoterHasCause(w0: World, acts: seq<Action>, p: nat) returns (k: nat)
    requires Initial(w0) && p < |Execute(w0, acts).procs| && Promoter(Execute(w0, acts).procs[p])
    ensures k < |acts| && TurnsPromoter(Execute(w0, acts[..k]), acts[k], p)
  {
    hide Step, Next, Promoter, TurnsPromoter;
    if acts == [] {
      NobodyPromotesAtFirst(w0, p);
    } else {
      var init, act := acts[..|acts| - 1], acts[|acts| - 1];
      var w := Execute(w0, init);
      if p < |w.procs| && Promoter(w.procs[p]) {
        k := PromoterHasCause(w0, init, p);
        assert init[..k] == acts[..k];
      } else {
        TurnsNow(w, act, p);
        k := |acts| - 1;
      }
    }
  }

  lemma NobodyPromotesAtFirst(w0: World, p: nat)
    requires Initial(w0)
    ensures |w0.procs| == 0
  {
  }

  lemma TurnsNow(w: World, act: Action, p: nat)
    requires p < |Step(w, act).procs| && Promoter(Step(w, act).procs[p]) && !(p < |w.procs| && Promoter(w.procs[p]))
    ensures TurnsPromoter(w, act, p)
  {
    hide Step, Next;
    ProcMoves(w, act, p);
    PromoterFrom(w, w.procs[p], act.c);
  }

  /**
   In every run: a row becomes promoted only by a process that earlier found the worker's run stable when it
   had exited, or whose timer fired before it was told of the worker's exit.
   */
  lemma PromotionHasCause(w0: World, acts: seq<Action>, act: Action, i: nat) returns (k: nat)
    requires Initial(w0) && i < |Execute(w0, acts).db.rows| && !Execute(w0, acts).db.rows[i].status.Promoted?
    requires i < |Step(Execute(w0, acts), act).db.rows| && Step(Execute(w0, acts), act).db.rows[i].status.Promoted?
    ensures k < |acts| && act.Run? && TurnsPromoter(Execute(w0, acts[..k]), acts[k], act.i)
  {
    hide Step, Execute, Initial, TurnsPromoter;
    InvAlways(w0, acts);
    BecomesPromotedIff(Execute(w0, acts), act, i);
    hide Inv;
    k := PromoterHasCause(w0, acts, act.i);
  }

  /** The supervisor is dealing with a crash loop. */
  predicate HandlesCrashLoop(p: Proc) {
    p.Supervisor?
    && (|| (p.sup.Main? && (p.sup.main.CrashRead? || p.sup.main.CrashMark? || p.sup.main.CrashFallback?))
        || (p.sup.Rollback? && p.sup.site.CrashLoop?))
  }

  predicate DetectsCrashLoop(w: World, act: Action, p: nat) {
    act.Run? && act.i == p < |w.procs| && w.procs[p] == Supervisor(Main(Exited)) && act.c.verdict.CrashLoopDetected?
  }

  lemma CrashLoopFrom(w: World, p: Proc, c: Choice)
    requires HandlesCrashLoop(Next(w, p, c).next)
    ensures HandlesCrashLoop(p) || (p == Supervisor(Main(Exited)) && c.verdict.CrashLoopDetected?)
  {
    hide Matches, Insert, IndexOf, LatestWithStatus, FirstApproved, Cleaned, BinPath, NullIfEmpty, HasBase, Has;
  }

  lemma DetectsNow(w: World, act: Action, p: nat)
    requires p < |Step(w, act).procs| && HandlesCrashLoop(Step(w, act).procs[p])
    requires !(p < |w.procs| && HandlesCrashLoop(w.procs[p]))
    ensures DetectsCrashLoop(w, act, p)
  {
    hide Step, Next;
    ProcMoves(w, act, p);
    CrashLoopFrom(w, w.procs[p], act.c);
  }

  lemma {:induction false} CrashLoopWasDetected(w0: World, acts: seq<Action>, p: nat) returns (k: nat)
    requires Initial(w0) && p < |Execute(w0, acts).procs| && HandlesCrashLoop(Execute(w0, acts).procs[p])
    ensures k < |acts| && DetectsCrashLoop(Execute(w0, acts[..k]), acts[k], p)
  {
    hide Step, Next, HandlesCrashLoop, DetectsCrashLoop;
    if acts == [] {
      NobodyPromotesAtFirst(w0, p);
    } else {
      var init, act := acts[..|acts| - 1], acts[|acts| - 1];
      var w := Execute(w0, init);
      if p < |w.procs| && HandlesCrashLoop(w.procs[p]) {
        k := CrashLoopWasDetected(w0, init, p);
        assert init[..k] == acts[..k];
      } else {
        DetectsNow(w, act, p);
        k := |acts| - 1;
      }
    }
  }
}
